// The library's Stop: it is called once for every cluster that is stopped,
// while its slot is still full, and no node of it lives again.
module Stops {
  import opened Basics
  import opened Registry
  import opened Lifecycle
  import opened Runs
  import opened Effects
  import opened Health

  // The lock's holder has stopped the library and waits for start() to return.
  predicate LibraryDown(s: State) {
    s.mu.Some? && s.mu.value in s.calls && s.calls[s.mu.value].StopWaiting?
  }

  // The step calls the Stop of network k's library.
  predicate CallsStop(s: State, e: Event, k: nat) {
    e.StopLibrary? && e.id in s.calls && s.calls[e.id].StopClosing? && s.calls[e.id].k == k
  }

  // The step may change network k's live nodes.
  predicate ChangesNodes(s: State, e: Event, k: nat) {
    || (s.network == Some(k) && (e.RemoveBody? || e.RestartBody? || e.RestartAdd? || e.StopLibrary?))
    || (e.Starter? && e.k == k && e.m.Create?)
  }

  // What one step does to network k's library.
  ghost predicate LibraryMoved(s: State, e: Event, k: nat, net: Net, n: Net) {
    && n.stops == net.stops + (if CallsStop(s, e, k) then 1 else 0)
    && (!ChangesNodes(s, e, k) ==> n.nw == net.nw)
  }

  ghost predicate LibraryMoves(s: State, e: Event, k: nat)
    requires Paired(s) && InRange(s) && Enabled(s, e) && k < |s.nets|
  {
    var t := Step(s, e);
    t.panic.None? ==> k < |t.nets| && LibraryMoved(s, e, k, s.nets[k], t.nets[k])
  }

  lemma RefreshLeavesLibrary(net: Net, snapshot: map<string, LiveNode>)
    ensures Refresh(net, snapshot).Done? ==>
              Refresh(net, snapshot).value.stops == net.stops && Refresh(net, snapshot).value.nw == net.nw
  {
  }

  lemma PassMovesLibrary(s: State, e: Event, k: nat)
    requires Inv(s) && Enabled(s, e) && k < |s.nets| && e.PassApply?
    ensures LibraryMoves(s, e, k)
  {
    hide WellFormed, View, WatcherInRange, RestartPending, Refresh;
    if Step(s, e).panic.None? {
      var c := s.calls[e.id];
      assert CallInRange(s, c);
      PassWrites(s, e.id);
      RefreshLeavesLibrary(s.nets[c.k], c.p.snapshot);
      hide Step, InRange;
    }
  }

  lemma MoveLeavesLibrary(net: Net, m: StartMove)
    requires CanMove(net, m) && StartMoved(net, m).Done?
    ensures StartMoved(net, m).value.stops == net.stops
    ensures !m.Create? ==> StartMoved(net, m).value.nw == net.nw
  {
    hide Refresh;
    if m.Apply? {
      RefreshLeavesLibrary(net, net.pc.snapshot);
    }
  }

  lemma StarterMovesLibrary(s: State, e: Event, k: nat)
    requires Inv(s) && Enabled(s, e) && k < |s.nets| && e.Starter?
    ensures LibraryMoves(s, e, k)
  {
    hide WellFormed, View, CallInRange, WatcherInRange, StartMoved, CanMove;
    if StartMoved(s.nets[e.k], e.m).Done? {
      MoveLeavesLibrary(s.nets[e.k], e.m);
    }
  }

  lemma RemoveLeavesStops(net: Net, name: string, r: LibResult, order: seq<string>)
    ensures RemoveLocked(net, name, r, order).Done? ==> RemoveLocked(net, name, r, order).value.net.stops == net.stops
  {
  }

  lemma BodyMovesLibrary(s: State, e: Event, k: nat)
    requires Inv(s) && Enabled(s, e) && k < |s.nets| && (e.RemoveBody? || e.RestartBody?)
    ensures LibraryMoves(s, e, k)
  {
    hide WellFormed, View, CallInRange, WatcherInRange, RemoveLocked, RestartLocked, RestartPending, Enumerates;
    if s.network.Some? {
      var j := s.network.value;
      if e.RemoveBody? {
        RemoveLeavesStops(s.nets[j], s.calls[e.id].name, e.r, e.order);
      } else {
        RestartKeeps(s.nets[j], s.calls[e.id].name, s.calls[e.id].start, e.r);
      }
    }
  }

  lemma HolderMovesLibrary(s: State, e: Event, k: nat)
    requires Inv(s) && Enabled(s, e) && k < |s.nets| && (e.RestartAdd? || e.StopFinish?)
    ensures LibraryMoves(s, e, k)
  {
    hide WellFormed, View, WatcherInRange, RestartPending;
    assert CallInRange(s, s.calls[e.id]);
    hide CallInRange;
  }

  lemma StopBeginMovesLibrary(s: State, e: Event, k: nat)
    requires Inv(s) && Enabled(s, e) && k < |s.nets| && e.StopBegin?
    ensures LibraryMoves(s, e, k)
  {
    hide WellFormed, View, WatcherInRange, RestartPending;
    assert CallInRange(s, s.calls[e.id]);
    hide CallInRange;
  }

  lemma StopLibraryMovesLibrary(s: State, e: Event, k: nat)
    requires Inv(s) && Enabled(s, e) && k < |s.nets| && e.StopLibrary?
    ensures LibraryMoves(s, e, k)
  {
    hide WellFormed, View, WatcherInRange, RestartPending;
    assert CallInRange(s, s.calls[e.id]);
    hide CallInRange;
  }

  lemma SlotMovesLibrary(s: State, e: Event, k: nat)
    requires Inv(s) && Enabled(s, e) && k < |s.nets| && (e.StartBody? || e.HealthBody?)
    ensures LibraryMoves(s, e, k)
  {
    hide WellFormed, View, CallInRange, WatcherInRange, Enumerates, InitialNet;
  }

  lemma QuietMovesLibrary(s: State, e: Event, k: nat)
    requires Paired(s) && InRange(s) && Enabled(s, e) && k < |s.nets|
    requires e.Arrive? || e.AbortStart? || e.HealthBegin? || e.PassFail? || e.PassSee?
             || e.WatchArm? || e.WatchExit? || e.WatchReady? || e.WatchPublish? || e.CloseServer?
    ensures LibraryMoves(s, e, k)
  {
    hide InRange, LibraryMoved;
    assert Step(s, e).nets == s.nets;
    hide Step;
    assert LibraryMoved(s, e, k, s.nets[k], s.nets[k]) by {
      SameLibrary(s, e, k, s.nets[k]);
    }
  }

  lemma SameLibrary(s: State, e: Event, k: nat, net: Net)
    requires !e.StopLibrary?
    ensures LibraryMoved(s, e, k, net, net)
  {
  }

  lemma LibraryStep(s: State, e: Event, k: nat)
    requires Inv(s) && Enabled(s, e) && k < |s.nets|
    ensures LibraryMoves(s, e, k)
  {
    hide InRange, AllWellFormed, Retired, LockHeld, StopLocked, Views, Step, LibraryMoves;
    if e.PassApply? {
      PassMovesLibrary(s, e, k);
    } else if e.Starter? {
      StarterMovesLibrary(s, e, k);
    } else if e.RemoveBody? || e.RestartBody? {
      BodyMovesLibrary(s, e, k);
    } else if e.RestartAdd? || e.StopFinish? {
      HolderMovesLibrary(s, e, k);
    } else if e.StopBegin? {
      StopBeginMovesLibrary(s, e, k);
    } else if e.StopLibrary? {
      StopLibraryMovesLibrary(s, e, k);
    } else if e.StartBody? || e.HealthBody? {
      SlotMovesLibrary(s, e, k);
    } else {
      QuietMovesLibrary(s, e, k);
    }
  }

  // ----- how often Stop has been called -----

  // Once for every network that is not current, and for the current one only
  // while a Stop waits for start() to return; stopc was closed before.
  ghost predicate StoppedOnce(s: State) {
    forall k :: 0 <= k < |s.nets| ==> StopsRight(s, k)
  }

  ghost predicate StopsRight(s: State, k: nat)
    requires k < |s.nets|
  {
    && s.nets[k].stops == (if s.network != Some(k) || LibraryDown(s) then 1 else 0)
    && (s.nets[k].stops > 0 ==> s.nets[k].stopc && s.nets[k].nw.Some?)
  }

  lemma DownMovesLocked(s: State, e: Event)
    requires Inv(s) && Enabled(s, e) && Step(s, e).panic.None?
    requires e.StartBody? || e.HealthBody? || e.RemoveBody? || e.RestartBody? || e.StopBegin?
    ensures !LibraryDown(s) && !LibraryDown(Step(s, e))
  {
    hide WellFormed, View, CallInRange, WatcherInRange, RemoveLocked, RestartLocked, InitialNet, Enumerates,
      LibraryAllows;
    if e.StopBegin? {
      NetFacts(s.nets[s.network.value]);
    }
  }

  lemma DownMovesHeld(s: State, e: Event)
    requires Inv(s) && Enabled(s, e) && Step(s, e).panic.None?
    requires e.StopLibrary? || e.StopFinish? || e.RestartAdd?
    ensures LibraryDown(s) <==> e.StopFinish?
    ensures LibraryDown(Step(s, e)) <==> e.StopLibrary?
  {
    hide InRange, AllWellFormed, Retired, StopLocked, Views, LibraryStopped, NodeAdded;
  }

  lemma DownMovesPass(s: State, e: Event)
    requires Inv(s) && Enabled(s, e) && Step(s, e).panic.None? && (e.PassApply? || e.PassFail? || e.PassSee?)
    ensures LibraryDown(Step(s, e)) <==> LibraryDown(s)
  {
    hide InRange, AllWellFormed, Retired, StopLocked, Views, Refresh, Committed;
  }

  lemma DownMovesFree(s: State, e: Event)
    requires Inv(s) && Enabled(s, e) && Step(s, e).panic.None?
    requires e.Arrive? || e.AbortStart? || e.HealthBegin? || e.Starter?
             || e.WatchArm? || e.WatchExit? || e.WatchReady? || e.WatchPublish? || e.CloseServer?
    ensures LibraryDown(Step(s, e)) <==> LibraryDown(s)
  {
    hide InRange, AllWellFormed, Retired, StopLocked, Views, StartMoved, CanMove;
  }

  lemma DownMoves(s: State, e: Event)
    requires Inv(s) && Enabled(s, e) && Step(s, e).panic.None?
    ensures LibraryDown(Step(s, e)) <==> e.StopLibrary? || (LibraryDown(s) && !e.StopFinish?)
    ensures e.StopLibrary? ==> !LibraryDown(s)
    ensures e.StopFinish? ==> LibraryDown(s)
  {
    hide InRange, AllWellFormed, Retired, LockHeld, StopLocked, Views, Step, LibraryDown;
    if e.StartBody? || e.HealthBody? || e.RemoveBody? || e.RestartBody? || e.StopBegin? {
      DownMovesLocked(s, e);
    } else if e.StopLibrary? || e.StopFinish? || e.RestartAdd? {
      DownMovesHeld(s, e);
    } else if e.PassApply? || e.PassFail? || e.PassSee? {
      DownMovesPass(s, e);
    } else {
      DownMovesFree(s, e);
    }
  }

  // Which network is current after the step.
  lemma SlotStep(s: State, e: Event)
    requires Inv(s) && Enabled(s, e) && Step(s, e).panic.None?
    ensures var t := Step(s, e);
      && (if e.StopFinish? then t.network.None? && |t.nets| == |s.nets|
          else if |t.nets| > |s.nets| then
            && e.StartBody? && s.network.None? && t.network == Some(|s.nets|) && |t.nets| == |s.nets| + 1
            && t.nets[|s.nets|].stops == 0
          else t.network == s.network && |t.nets| == |s.nets|)
  {
    hide WellFormed, View, CallInRange, WatcherInRange, InitialInfos, FirstNames;
    if !e.StartBody? && !e.StopFinish? && !e.WatchPublish? {
      StepKeeps(s, e);
      hide Step;
    }
  }

  // The network whose library is stopped, or has been, is the current one.
  lemma StopsCurrent(s: State, e: Event, k: nat)
    requires Inv(s) && Enabled(s, e) && k < |s.nets|
    ensures CallsStop(s, e, k) ==> s.network == Some(k) && s.nets[k].stopc
    ensures e.StopLibrary? && s.network == Some(k) ==> CallsStop(s, e, k)
    ensures LibraryDown(s) ==> s.network.Some?
  {
    hide WellFormed, View, WatcherInRange, RestartPending;
    if e.StopLibrary? {
      assert CallInRange(s, s.calls[e.id]);
    }
    if LibraryDown(s) {
      assert CallInRange(s, s.calls[s.mu.value]);
    }
  }

  // stopc and a network stay.
  lemma StopcStays(s: State, e: Event, k: nat)
    requires Inv(s) && Enabled(s, e) && Step(s, e).panic.None? && k < |s.nets|
    requires s.nets[k].stops > 0 && StopsRight(s, k)
    ensures k < |Step(s, e).nets| && Step(s, e).nets[k].stopc && Step(s, e).nets[k].nw == s.nets[k].nw
  {
    hide InRange, AllWellFormed, Views, Step, LibraryMoved;
    LibraryStep(s, e, k);
    SlotStep(s, e);
    StepKeeps(s, e);
    StillDown(s, e, k);
    if Step(s, e).network == Some(k) {
      DownMoves(s, e);
      DownStopc(Step(s, e), k);
    }
  }

  lemma DownStopc(t: State, k: nat)
    requires Inv(t) && t.panic.None? && t.network == Some(k) && LibraryDown(t)
    ensures k < |t.nets| && t.nets[k].stopc && t.nets[k].nw.Some?
  {
    hide WellFormed, View, WatcherInRange, RestartPending;
    assert CallInRange(t, t.calls[t.mu.value]);
  }

  // No step changes the live nodes of a library that has been stopped.
  lemma StillDown(s: State, e: Event, k: nat)
    requires Inv(s) && Enabled(s, e) && Step(s, e).panic.None? && k < |s.nets|
    requires s.nets[k].stops > 0 && StopsRight(s, k)
    ensures k < |Step(s, e).nets| && Step(s, e).nets[k].nw == s.nets[k].nw
  {
    hide InRange, AllWellFormed, Retired, StopLocked, Views, Step;
    LibraryStep(s, e, k);
    if e.Starter? && e.k == k && e.m.Create? {
      NoCreation(s, e);
    }
    if e.StopLibrary? || e.RestartAdd? {
      DownMoves(s, e);
    }
  }

  lemma NoCreation(s: State, e: Event)
    requires Inv(s) && Enabled(s, e) && e.Starter? && e.m.Create?
    ensures s.nets[e.k].nw.None?
  {
    hide WellFormed, View, CallInRange, WatcherInRange;
    NetFacts(s.nets[e.k]);
  }

  lemma StopsRightStep(s: State, e: Event, k: nat)
    requires Inv(s) && StoppedOnce(s) && Enabled(s, e) && Step(s, e).panic.None? && k < |Step(s, e).nets|
    ensures StopsRight(Step(s, e), k)
  {
    hide InRange, AllWellFormed, Retired, LockHeld, StopLocked, Views, Step, LibraryDown;
    var t := Step(s, e);
    StepKeeps(s, e);
    SlotStep(s, e);
    DownMoves(s, e);
    if k < |s.nets| {
      assert StopsRight(s, k);
      LibraryStep(s, e, k);
      StopsCurrent(s, e, k);
      if s.nets[k].stops > 0 {
        StopcStays(s, e, k);
      } else if t.nets[k].stops > 0 {
        DownStopc(t, k);
      }
    } else {
      DownInstalled(s, e);
    }
  }

  lemma DownInstalled(s: State, e: Event)
    requires Inv(s) && Enabled(s, e) && e.StartBody?
    ensures !LibraryDown(s)
  {
    hide WellFormed, View, CallInRange, WatcherInRange;
  }

  // Every step keeps the count right.
  lemma StoppedOnceStep(s: State, e: Event)
    requires Inv(s) && StoppedOnce(s) && Enabled(s, e)
    ensures Step(s, e).panic.None? ==> StoppedOnce(Step(s, e))
  {
    hide InRange, AllWellFormed, Retired, LockHeld, StopLocked, Views, Step, StopsRight;
    if Step(s, e).panic.None? {
      forall k | 0 <= k < |Step(s, e).nets| ensures StopsRight(Step(s, e), k) {
        StopsRightStep(s, e, k);
      }
    }
  }

  lemma {:induction false} StoppedOnceFrom(s: State, es: seq<Event>)
    requires Inv(s) && s.panic.None? && StoppedOnce(s) && IsRun(s, es)
    ensures Exec(s, es).panic.None? ==> StoppedOnce(Exec(s, es))
    decreases |es|
  {
    hide InRange, AllWellFormed, Retired, LockHeld, StopLocked, Views, Step, StoppedOnce;
    if es != [] {
      StepKeeps(s, es[0]);
      PanicEnds(Step(s, es[0]), es[1..]);
      StoppedOnceStep(s, es[0]);
      if Step(s, es[0]).panic.None? {
        StoppedOnceFrom(Step(s, es[0]), es[1..]);
      }
    }
  }

  lemma StopsAt(s: State, k: nat)
    requires StoppedOnce(s) && k < |s.nets|
    ensures StopsRight(s, k)
  {
  }

  // Over all runs: the library of every network that is not current any more
  // has been stopped, once, with stopc closed; that of the current one has not,
  // unless a Stop holds the lock and waits for start() to return.
  lemma EveryLibraryIsStopped(es: seq<Event>)
    requires Inv(INIT) && IsRun(INIT, es)
    ensures var s := Exec(INIT, es);
      s.panic.None? ==>
        forall k :: 0 <= k < |s.nets| ==>
          && s.nets[k].stops == (if s.network != Some(k) || LibraryDown(s) then 1 else 0)
          && (s.nets[k].stops > 0 ==> s.nets[k].stopc && s.nets[k].nw.Some?)
  {
    hide Core, Step, IsRun, Exec, LibraryDown;
    StoppedOnceFrom(INIT, es);
    var s := Exec(INIT, es);
    if s.panic.None? {
      forall k | 0 <= k < |s.nets|
        ensures s.nets[k].stops == (if s.network != Some(k) || LibraryDown(s) then 1 else 0)
        ensures s.nets[k].stops > 0 ==> s.nets[k].stopc && s.nets[k].nw.Some?
      {
        StopsAt(s, k);
      }
    }
  }

  lemma {:induction false} DeadFrom(s: State, es: seq<Event>, k: nat)
    requires Inv(s) && s.panic.None? && StoppedOnce(s) && IsRun(s, es) && k < |s.nets| && s.nets[k].stops > 0
    requires Exec(s, es).panic.None?
    ensures k < |Exec(s, es).nets| && Exec(s, es).nets[k].nw == s.nets[k].nw
    decreases |es|
  {
    hide InRange, AllWellFormed, Retired, LockHeld, StopLocked, Views, Step, StoppedOnce, LibraryMoved, StopsRight;
    if es != [] {
      var e, t := es[0], Step(s, es[0]);
      StepKeeps(s, e);
      PanicEnds(t, es[1..]);
      StopsAt(s, k);
      StillDown(s, e, k);
      LibraryCount(s, e, k);
      StoppedOnceStep(s, e);
      DeadFrom(t, es[1..], k);
    }
  }

  lemma LibraryCount(s: State, e: Event, k: nat)
    requires Inv(s) && Enabled(s, e) && Step(s, e).panic.None? && k < |s.nets|
    ensures k < |Step(s, e).nets| && Step(s, e).nets[k].stops >= s.nets[k].stops
  {
    hide InRange, AllWellFormed, Retired, LockHeld, StopLocked, Views, Step;
    LibraryStep(s, e, k);
  }

  // Stop ends the library's nodes for good: those it leaves live are all that
  // live on in any later state of the run, whatever is called.
  lemma StoppedForGood(es: seq<Event>, id: nat, left: set<string>, more: seq<Event>)
    requires Inv(INIT) && IsRun(INIT, es) && Enabled(Exec(INIT, es), StopLibrary(id, left))
    requires Inv(Step(Exec(INIT, es), StopLibrary(id, left)))
    requires IsRun(Step(Exec(INIT, es), StopLibrary(id, left)), more)
    ensures var s := Exec(INIT, es); var k := s.calls[id].k; var t := Exec(Step(s, StopLibrary(id, left)), more);
      t.panic.None? ==>
        && k < |s.nets| && s.nets[k].nw.Some? && k < |t.nets| && t.nets[k].nw.Some?
        && forall x :: x in t.nets[k].nw.value <==> x in s.nets[k].nw.value && x in left
  {
    hide InRange, AllWellFormed, Retired, LockHeld, StopLocked, Views, Step, IsRun, Exec, StoppedOnce;
    var s := Exec(INIT, es);
    var u := Step(s, StopLibrary(id, left));
    NoneYetStopped();
    StoppedOnceFrom(INIT, es);
    PanicEnds(u, more);
    if u.panic.None? && Exec(u, more).panic.None? {
      StoppedOnceStep(s, StopLibrary(id, left));
      LibraryEnds(s, id, left);
      DeadFrom(u, more, s.calls[id].k);
    }
  }

  lemma NoneYetStopped()
    ensures StoppedOnce(INIT)
  {
  }

  lemma LibraryEnds(s: State, id: nat, left: set<string>)
    requires Inv(s) && Enabled(s, StopLibrary(id, left)) && Step(s, StopLibrary(id, left)).panic.None?
    ensures var k := s.calls[id].k; var t := Step(s, StopLibrary(id, left));
      && k < |s.nets| && s.nets[k].nw.Some? && k < |t.nets| && t.nets[k].nw.Some? && t.nets[k].stops > 0
      && forall x :: x in t.nets[k].nw.value <==> x in s.nets[k].nw.value && x in left
  {
    hide WellFormed, View, WatcherInRange, RestartPending;
    assert CallInRange(s, s.calls[id]);
    hide CallInRange;
  }
}
