// What holds over whole runs of the server.
module Runs {
  import opened Basics
  import opened Registry
  import opened Lifecycle
  import Config

  // ----- runs -----

  // Every event is enabled where it happens.
  ghost predicate IsRun(s: State, es: seq<Event>)
    requires Inv(s)
    decreases |es|
  {
    es == [] || (Enabled(s, es[0]) && (StepKeeps(s, es[0]); IsRun(Step(s, es[0]), es[1..])))
  }

  ghost function Exec(s: State, es: seq<Event>): (t: State)
    requires Inv(s) && IsRun(s, es)
    ensures Inv(t)
    decreases |es|
  {
    if es == [] then s else (StepKeeps(s, es[0]); Exec(Step(s, es[0]), es[1..]))
  }

  lemma {:induction false} AppendRun(s: State, es: seq<Event>, e: Event)
    requires Inv(s) && IsRun(s, es) && Enabled(Exec(s, es), e)
    ensures IsRun(s, es + [e])
    ensures Inv(Exec(s, es)) && Exec(s, es + [e]) == Step(Exec(s, es), e)
    decreases |es|
  {
    hide WellFormed, InRange, Views, Step;
    if es == [] {
      assert ([] + [e])[1..] == [];
      StepKeeps(s, e);
      assert IsRun(Step(s, e), []);
    } else {
      StepKeeps(s, es[0]);
      AppendRun(Step(s, es[0]), es[1..], e);
      assert (es + [e])[1..] == es[1..] + [e];
    }
  }

  // In every state of every run from the start: no channel has been closed
  // twice, and while the server has not panicked both pointers are nil
  // together, at most one start() is unfinished and none without a network, a
  // start() that has returned has closed readyc or sent its error, one call
  // holds the lock, and every registry agrees.
  lemma RunSafety(es: seq<Event>)
    requires Inv(INIT) && IsRun(INIT, es)
    ensures var s := Exec(INIT, es);
      && s.panic != Some(DoubleClose)
      && (s.panic.None? ==>
            && (s.clusterInfo.None? <==> s.network.None?)
            && |s.clusters| == |s.nets|
            && (forall j, k :: 0 <= j < k < |s.nets| ==> s.nets[j].pc.Exited? || s.nets[k].pc.Exited?)
            && (s.network.None? ==> forall k :: 0 <= k < |s.nets| ==> s.nets[k].donec)
            && (forall k :: 0 <= k < |s.nets| && s.nets[k].donec ==> s.nets[k].readyc || s.nets[k].errc == 1)
            && (forall x, y :: x in s.calls && y in s.calls && Holds(s.calls[x]) && Holds(s.calls[y]) ==> x == y)
            && (forall k :: 0 <= k < |s.nets| ==> WellFormed(s.nets[k]) && View(s.clusters[k], k, s.nets[k])))
  {
    var s := Exec(INIT, es);
    if s.panic.None? {
      forall k | 0 <= k < |s.nets|
        ensures s.nets[k].donec <==> s.nets[k].pc.Exited?
        ensures s.nets[k].donec ==> s.nets[k].readyc || s.nets[k].errc == 1
      {
        NetFacts(s.nets[k]);
      }
      hide WellFormed, View, CallInRange;
    }
  }

  // ----- what one step leaves of a network -----

  lemma StarterFrame(s: State, e: Event)
    requires Inv(s) && Enabled(s, e) && e.Starter?
    ensures var t := Step(s, e);
      && (t.panic.Some? ==> t.nets == s.nets)
      && (t.panic.None? ==>
            && t.nets == s.nets[e.k := t.nets[e.k]] && OnlyAddresses(s.nets[e.k], t.nets[e.k])
            && Rank(t.nets[e.k].pc) < Rank(s.nets[e.k].pc))
  {
    hide WellFormed, CallInRange, View, WatcherInRange, StartMoved;
    StartMoveKeeps(s.nets[e.k], e.m);
  }

  // A step moves start()'s program counter only by a start() move, downwards;
  // no step changes a root directory or the number of configurations.
  lemma StepFrame(s: State, e: Event, k: nat)
    requires Inv(s) && Enabled(s, e) && k < |s.nets|
    ensures var t := Step(s, e);
      && k < |t.nets|
      && t.nets[k].root == s.nets[k].root
      && |t.nets[k].cfgs| == |s.nets[k].cfgs|
      && (if e.Starter? && e.k == k && t.panic.None? then Rank(t.nets[k].pc) < Rank(s.nets[k].pc)
          else t.nets[k].pc == s.nets[k].pc)
  {
    hide WellFormed, CallInRange, View, WatcherInRange, StartMoved, Step;
    if e.Starter? {
      StarterFrame(s, e);
    } else {
      StepKeeps(s, e);
    }
  }

  // ----- installs and stops alternate -----

  ghost function StopCount(es: seq<Event>): nat {
    if es == [] then 0 else (if es[0].StopFinish? then 1 else 0) + StopCount(es[1..])
  }

  function Installed(s: State): nat {
    if s.network.Some? then 1 else 0
  }

  // A step installs a network only where there was none, and removes one only
  // when a Stop finishes.
  lemma InstallStep(s: State, e: Event)
    requires Inv(s) && Enabled(s, e)
    ensures var t := Step(s, e);
      |t.nets| - Installed(t) == |s.nets| - Installed(s) + if e.StopFinish? then 1 else 0
  {
    hide WellFormed, InRange, Views, Retired, LockHeld, StopLocked;
    if e.StartBody? || e.StopFinish? || e.WatchPublish? {
      SlotMoves(s, e);
    } else {
      StepKeeps(s, e);
      hide Step;
    }
  }

  lemma SlotMoves(s: State, e: Event)
    requires Inv(s) && Enabled(s, e) && (e.StartBody? || e.StopFinish? || e.WatchPublish?)
    ensures var t := Step(s, e);
      |t.nets| - Installed(t) == |s.nets| - Installed(s) + if e.StopFinish? then 1 else 0
  {
    hide WellFormed, View, WatcherInRange, RestartPending, InitialNet;
    if e.StopFinish? {
      assert CallInRange(s, s.calls[e.id]);
    }
    hide CallInRange;
  }

  lemma {:induction false} InstallsFrom(s: State, es: seq<Event>)
    requires Inv(s) && IsRun(s, es)
    ensures var t := Exec(s, es); |t.nets| - Installed(t) == |s.nets| - Installed(s) + StopCount(es)
    decreases |es|
  {
    hide WellFormed, InRange, Views, Step;
    if es != [] {
      StepKeeps(s, es[0]);
      InstallStep(s, es[0]);
      InstallsFrom(Step(s, es[0]), es[1..]);
    }
  }

  // However many Starts race, the networks ever installed are the Stops that
  // finished, plus the current one.
  lemma InstallsMatchStops(es: seq<Event>)
    requires Inv(INIT) && IsRun(INIT, es)
    ensures |Exec(INIT, es).nets| == StopCount(es) + Installed(Exec(INIT, es))
  {
    InstallsFrom(INIT, es);
  }

  // ----- Stop is never stuck -----

  ghost function MoveCount(es: seq<Event>, k: nat): nat {
    if es == [] then 0 else (if es[0].Starter? && es[0].k == k then 1 else 0) + MoveCount(es[1..], k)
  }

  // Whatever else runs, start() makes at most five moves, and donec is closed
  // exactly when it has none left.
  lemma {:induction false} StartReturns(s: State, es: seq<Event>, k: nat)
    requires Inv(s) && IsRun(s, es) && k < |s.nets|
    ensures var t := Exec(s, es);
      k < |t.nets| && (t.panic.None? ==>
        && MoveCount(es, k) + Rank(t.nets[k].pc) <= Rank(s.nets[k].pc) <= 5
        && (Rank(t.nets[k].pc) == 0 <==> t.nets[k].donec))
    decreases |es|
  {
    if es == [] {
      hide WellFormed;
      if s.panic.None? {
        NetFacts(s.nets[k]);
      }
    } else {
      hide Inv, Enabled, Step;
      StepKeeps(s, es[0]);
      StepFrame(s, es[0], k);
      StartReturns(Step(s, es[0]), es[1..], k);
      PanicEnds(Step(s, es[0]), es[1..]);
    }
  }

  lemma PanicEnds(s: State, es: seq<Event>)
    requires Inv(s) && IsRun(s, es)
    ensures s.panic.Some? ==> es == [] && Exec(s, es) == s
  {
  }

  // A step that brings the lock's holder nearer to releasing it: its own, or,
  // while a Stop waits, a move of the start() it waits for.
  ghost predicate Drives(s: State, e: Event) {
    s.mu.Some? && s.mu.value in s.calls &&
    match e
    case RestartAdd(id, _) => id == s.mu.value
    case PassFail(id, _) => id == s.mu.value
    case PassSee(id) => id == s.mu.value
    case PassApply(id) => id == s.mu.value
    case StopLibrary(id, _) => id == s.mu.value
    case StopFinish(id) => id == s.mu.value
    case Starter(k, _) => s.calls[s.mu.value].StopWaiting? && s.calls[s.mu.value].k == k
    case _ => false
  }

  // Those that come about by themselves: a library call returns, a deadline
  // passes, start() makes a move that nothing can hold up.
  ghost predicate ForcedStep(s: State, e: Event) {
    Drives(s, e) &&
    match e
    case PassFail(_, why) => why.TimedOut?
    case PassSee(_) => false
    case Starter(_, m) => Forced(m)
    case _ => true
  }

  lemma StopCanGoOn(s: State, id: nat)
    requires Inv(s) && s.panic.None? && s.mu == Some(id) && id in s.calls && s.calls[id].StopWaiting?
    ensures exists e :: Enabled(s, e) && ForcedStep(s, e)
  {
    hide WellFormed, View, WatcherInRange, CanMove;
    var k := s.calls[id].k;
    assert CallInRange(s, s.calls[id]);
    NetFacts(s.nets[k]);
    StartCanMove(s.nets[k]);
    hide CallInRange, Core;
    if s.nets[k].donec {
      assert Enabled(s, StopFinish(id)) && ForcedStep(s, StopFinish(id));
    } else {
      var m :| CanMove(s.nets[k], m) && Forced(m);
      assert Enabled(s, Starter(k, m)) && ForcedStep(s, Starter(k, m));
    }
  }

  // While the lock is held, a step of the second kind is always possible. When
  // Stop waits for donec that takes stopc: without it, start() could be waiting
  // for the library.
  lemma HolderCanGoOn(s: State)
    requires Inv(s) && s.panic.None? && s.mu.Some?
    ensures exists e :: Enabled(s, e) && ForcedStep(s, e)
  {
    hide AllWellFormed, InRange, Views, Retired, StopLocked;
    var id := s.mu.value;
    var c := s.calls[id];
    assert Holds(c);
    if c.StopWaiting? {
      StopCanGoOn(s, id);
    } else {
      hide Core;
      var e := if c.RestartAdding? then RestartAdd(id, None)
               else if c.StopClosing? then StopLibrary(id, {})
               else if c.p.Polling? then PassFail(id, TimedOut)
               else PassApply(id);
      assert Enabled(s, e) && ForcedStep(s, e);
    }
  }

  // Nobody can close stopc under a wait that holds the lock, so such a wait is
  // never aborted; Health's, which does not hold it, can be.
  lemma LockedWaitsAreNotAborted(s: State, id: nat)
    requires Inv(s) && Enabled(s, PassFail(id, Aborted))
    ensures s.calls[id].HealthPass?
  {
    hide WellFormed, View, WatcherInRange, RestartPending;
    assert CallInRange(s, s.calls[id]);
  }

  // Steps the holder still needs before it lets go of the lock.
  function HolderRank(s: State): nat {
    if s.mu.None? || s.mu.value !in s.calls then 0 else
      match s.calls[s.mu.value]
      case RestartAdding(_, _, _, _) => 3
      case RestartPass(_, _, _, _, p) => if p.Polling? then 2 else 1
      case RemovePass(_, p) => if p.Polling? then 2 else 1
      case StopClosing(_, _) => 6
      case StopWaiting(k, _) => if k < |s.nets| then Rank(s.nets[k].pc) + 1 else 1
      case _ => 0
  }

  lemma CallDrives(s: State, e: Event)
    requires Paired(s) && InRange(s) && Enabled(s, e) && Drives(s, e) && Holds(s.calls[s.mu.value])
    requires e.RestartAdd? || e.PassFail? || e.PassSee? || e.StopFinish?
    ensures Step(s, e).panic.None? ==> HolderRank(Step(s, e)) < HolderRank(s)
  {
    hide InRange, NodeAdded;
  }

  lemma LibraryDrives(s: State, e: Event)
    requires Inv(s) && Enabled(s, e) && Drives(s, e) && e.StopLibrary?
    ensures Step(s, e).panic.None? ==> HolderRank(Step(s, e)) < HolderRank(s)
  {
    hide WellFormed, View, WatcherInRange;
    assert CallInRange(s, s.calls[e.id]);
    NetFacts(s.nets[s.calls[e.id].k]);
  }

  lemma PassDrives(s: State, e: Event)
    requires Paired(s) && InRange(s) && Enabled(s, e) && Drives(s, e) && Holds(s.calls[s.mu.value])
    requires e.PassApply?
    ensures Step(s, e).panic.None? ==> HolderRank(Step(s, e)) < HolderRank(s)
  {
    hide InRange, Refresh, Committed;
  }

  lemma MoveDrives(s: State, e: Event)
    requires Paired(s) && InRange(s) && Enabled(s, e) && Drives(s, e) && e.Starter?
    requires Step(s, e).panic.None? ==>
               e.k < |Step(s, e).nets| && Rank(Step(s, e).nets[e.k].pc) < Rank(s.nets[e.k].pc)
    ensures Step(s, e).panic.None? ==> HolderRank(Step(s, e)) < HolderRank(s)
  {
    hide InRange, StartMoved, CanMove, Rank;
  }

  lemma HolderRankBound(s: State)
    requires Inv(s) && s.panic.None?
    ensures HolderRank(s) <= 6
    ensures s.mu.Some? ==> HolderRank(s) >= 1
  {
    hide WellFormed, View, WatcherInRange, RestartPending;
    if s.mu.Some? {
      assert CallInRange(s, s.calls[s.mu.value]);
    }
  }

  // Each of them counts down.
  lemma DrivingCountsDown(s: State, e: Event)
    requires Inv(s) && Enabled(s, e) && Drives(s, e)
    ensures Step(s, e).panic.None? ==> HolderRank(Step(s, e)) < HolderRank(s) <= 6
  {
    hide WellFormed, View, CallInRange, WatcherInRange, Step, HolderRank, CanMove;
    HolderRankBound(s);
    if e.Starter? {
      StepFrame(s, e, e.k);
      MoveDrives(s, e);
    } else if e.PassApply? {
      PassDrives(s, e);
    } else if e.StopLibrary? {
      LibraryDrives(s, e);
    } else {
      CallDrives(s, e);
    }
  }

  // The lock, its holder and where that stands.
  ghost predicate HolderKept(s: State, t: State) {
    && t.mu == s.mu
    && (s.mu.Some? && s.mu.value in s.calls ==> s.mu.value in t.calls && t.calls[s.mu.value] == s.calls[s.mu.value])
  }

  lemma PassesKeepHolder(s: State, e: Event)
    requires Inv(s) && Enabled(s, e) && s.mu.Some? && !Drives(s, e)
    requires e.HealthBegin? || e.PassFail? || e.PassSee? || e.PassApply? || e.AbortStart? || e.RestartAdd?
             || e.StopLibrary? || e.StopFinish?
    ensures Step(s, e).panic.None? ==> HolderKept(s, Step(s, e))
  {
    hide InRange, AllWellFormed, Retired, StopLocked, Views, Refresh, Committed, NodeAdded, LibraryStopped;
  }

  lemma FreeStepsKeepHolder(s: State, e: Event)
    requires Paired(s) && InRange(s) && Enabled(s, e) && s.mu.Some?
    requires e.Starter? || e.WatchArm? || e.WatchExit? || e.WatchReady? || e.CloseServer?
    ensures HolderKept(s, Step(s, e))
  {
    hide InRange, StartMoved, CanMove;
  }

  lemma WaitsInRange(s: State, id: nat)
    requires InRange(s) && id in s.calls && s.calls[id].StopWaiting?
    ensures s.calls[id].k < |s.nets|
  {
    assert CallInRange(s, s.calls[id]);
  }

  // No other step takes the lock from its holder or sets it back.
  lemma OthersKeepTheHolder(s: State, e: Event)
    requires Inv(s) && Enabled(s, e) && s.mu.Some? && !Drives(s, e)
    ensures Step(s, e).panic.None? ==> Step(s, e).mu == s.mu && HolderRank(Step(s, e)) <= HolderRank(s)
  {
    hide InRange, AllWellFormed, Retired, StopLocked, Views, Step;
    if e.Starter? || e.WatchArm? || e.WatchExit? || e.WatchReady? || e.CloseServer? {
      FreeStepsKeepHolder(s, e);
    } else {
      PassesKeepHolder(s, e);
    }
    var c := s.calls[s.mu.value];
    if c.StopWaiting? {
      WaitsInRange(s, s.mu.value);
      hide Enabled, Drives;
      StepFrame(s, e, c.k);
    }
  }

  // ----- the lock is released -----

  ghost function DriveCount(s: State, es: seq<Event>): nat
    requires Inv(s) && IsRun(s, es)
    decreases |es|
  {
    if es == [] then 0 else
      StepKeeps(s, es[0]);
      (if Drives(s, es[0]) then 1 else 0) + DriveCount(Step(s, es[0]), es[1..])
  }

  // The call that holds the lock holds it all along.
  ghost predicate HeldThroughout(s: State, es: seq<Event>)
    requires Inv(s) && IsRun(s, es)
    decreases |es|
  {
    && s.mu.Some?
    && (es == [] || (StepKeeps(s, es[0]); Step(s, es[0]).mu == s.mu && HeldThroughout(Step(s, es[0]), es[1..])))
  }

  lemma {:induction false} HoldingIsShort(s: State, es: seq<Event>)
    requires Inv(s) && s.panic.None? && IsRun(s, es) && HeldThroughout(s, es) && Exec(s, es).panic.None?
    ensures DriveCount(s, es) + 1 <= HolderRank(s) <= 6
    decreases |es|
  {
    hide WellFormed, InRange, Views, Retired, StopLocked, Step, Drives, HolderRank;
    HolderRankBound(s);
    if es != [] {
      var t := Step(s, es[0]);
      StepKeeps(s, es[0]);
      PanicEnds(t, es[1..]);
      if Drives(s, es[0]) {
        DrivingCountsDown(s, es[0]);
      } else {
        OthersKeepTheHolder(s, es[0]);
      }
      HoldingIsShort(t, es[1..]);
    }
  }

  // Whatever else runs: once six driving steps have been taken, the call that
  // held the lock has let go of it, or the server has panicked.
  lemma LockIsReleased(s: State, es: seq<Event>)
    requires Inv(s) && s.panic.None? && s.mu.Some? && IsRun(s, es) && DriveCount(s, es) >= HolderRank(s)
    ensures Exec(s, es).panic.Some? || !HeldThroughout(s, es)
    ensures HolderRank(s) <= 6
  {
    hide Core, IsRun, Exec, HeldThroughout, DriveCount, HolderRank;
    HolderRankBound(s);
    if Exec(s, es).panic.None? && HeldThroughout(s, es) {
      HoldingIsShort(s, es);
    }
  }
}
