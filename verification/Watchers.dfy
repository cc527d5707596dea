// When Healthy lies: exactly which runs end with the current cluster marked
// healthy before any pass over it, and a client for which that never happens.
module Watchers {
  import opened Basics
  import opened Registry
  import opened Lifecycle
  import opened Runs
  import opened Effects
  import opened Health

  // ----- whose watcher publishes, and who closes readyc -----

  // A watcher of an earlier cluster publishes into cluster k.
  ghost predicate Strays(s: State, e: Event, k: nat) {
    e.WatchPublish? && e.w < k && s.network == Some(k)
  }

  // The library's answer about network k is written down, by start() or by a call.
  ghost predicate WritesDown(s: State, e: Event, k: nat) {
    || (e.PassApply? && e.id in s.calls && InPass(s.calls[e.id]) && s.calls[e.id].k == k)
    || (e.Starter? && e.k == k && e.m.Apply?)
  }

  // It happens somewhere in the run.
  ghost predicate Strayed(s: State, es: seq<Event>, k: nat)
    requires Inv(s) && IsRun(s, es)
    decreases |es|
  {
    es != [] && (Strays(s, es[0], k) || (StepKeeps(s, es[0]); Strayed(Step(s, es[0]), es[1..], k)))
  }

  ghost predicate WrittenDown(s: State, es: seq<Event>, k: nat)
    requires Inv(s) && IsRun(s, es)
    decreases |es|
  {
    es != [] && (WritesDown(s, es[0], k) || (StepKeeps(s, es[0]); WrittenDown(Step(s, es[0]), es[1..], k)))
  }

  // Network k, if there is one yet, is ready; cluster k says Healthy.
  predicate ReadyAt(s: State, k: nat) {
    k < |s.nets| && s.nets[k].readyc
  }

  predicate HealthyAt(s: State, k: nat) {
    k < |s.clusters| && s.clusters[k].healthy
  }

  // Cluster k is current or still to come.
  predicate NotOver(s: State, k: nat) {
    s.network == Some(k) || k >= |s.nets|
  }

  // A watcher looks at the slot after its own cluster was installed.
  ghost predicate LooksAhead(s: State) {
    forall w :: 0 <= w < |s.watchers| ==>
      match s.watchers[w]
      case Watching(k) => w <= k
      case Firing(k) => w <= k
      case _ => true
  }

  // ----- one step -----

  lemma LooksAheadStep(s: State, e: Event)
    requires Inv(s) && LooksAhead(s) && Enabled(s, e)
    ensures Step(s, e).panic.None? ==> LooksAhead(Step(s, e))
  {
    hide WellFormed, View, CallInRange, WatcherInRange;
    if e.StartBody? || e.WatchArm? || e.WatchExit? || e.WatchReady? || e.WatchPublish? {
      hide InitialNet;
    } else {
      WatchersStay(s, e);
      hide Step;
    }
  }

  lemma WatchersStay(s: State, e: Event)
    requires Paired(s) && InRange(s) && Enabled(s, e)
    requires !e.StartBody? && !e.WatchArm? && !e.WatchExit? && !e.WatchReady? && !e.WatchPublish?
    ensures Step(s, e).watchers == s.watchers
  {
    hide InRange, NodeAdded, Refresh, Committed, StartMoved, CanMove, RemoveLocked, RestartLocked, LibraryStopped,
      CloseStop, Enumerates, LibraryAllows;
  }

  lemma MoveReadies(net: Net, m: StartMove)
    requires WellFormed(net) && CanMove(net, m) && StartMoved(net, m).Done?
    ensures StartMoved(net, m).value.readyc <==> net.readyc || m.Apply?
  {
    hide ConfigsOk, InfosOk, Agreement, Filled, Refresh;
    if m.Apply? {
      RefreshKeeps(net, net.pc.snapshot);
    }
  }

  lemma StarterReadies(s: State, e: Event, k: nat)
    requires Inv(s) && Enabled(s, e) && e.Starter? && Step(s, e).panic.None?
    ensures ReadyAt(Step(s, e), k) <==> ReadyAt(s, k) || WritesDown(s, e, k)
  {
    hide WellFormed, View, CallInRange, WatcherInRange, StartMoved, CanMove;
    MoveReadies(s.nets[e.k], e.m);
  }

  lemma PassReadies(s: State, e: Event, k: nat)
    requires Inv(s) && Enabled(s, e) && e.PassApply? && Step(s, e).panic.None?
    ensures ReadyAt(Step(s, e), k) <==> ReadyAt(s, k) || WritesDown(s, e, k)
  {
    hide WellFormed, View, WatcherInRange, Refresh, RestartPending, OnlyAddresses;
    var c := s.calls[e.id];
    assert CallInRange(s, c);
    PassWrites(s, e.id);
    CallsNetUp(s, e.id);
    RefreshKeeps(s.nets[c.k], c.p.snapshot);
    hide Step;
  }

  lemma BodyReadies(s: State, e: Event, k: nat)
    requires Inv(s) && Enabled(s, e) && Step(s, e).panic.None? && (e.RemoveBody? || e.RestartBody?)
    ensures ReadyAt(Step(s, e), k) <==> ReadyAt(s, k)
  {
    hide WellFormed, View, CallInRange, WatcherInRange, RestartLocked, RemoveLocked, Enumerates, RestartPending,
      RestartTouches;
    var j := s.network.value;
    if e.RemoveBody? {
      RemoveKeeps(s.nets[j], s.calls[e.id].name, e.r, e.order);
    } else {
      RestartKeeps(s.nets[j], s.calls[e.id].name, s.calls[e.id].start, e.r);
    }
  }

  lemma OtherReadies(s: State, e: Event, k: nat)
    requires Inv(s) && Enabled(s, e) && Step(s, e).panic.None? && (e.StartBody? || e.HealthBody?)
    ensures ReadyAt(Step(s, e), k) <==> ReadyAt(s, k)
  {
    hide WellFormed, View, CallInRange, WatcherInRange, Enumerates, InitialInfos, FirstNames;
  }

  lemma AddReadies(s: State, e: Event, k: nat)
    requires Inv(s) && Enabled(s, e) && e.RestartAdd?
    ensures ReadyAt(Step(s, e), k) <==> ReadyAt(s, k)
  {
    hide WellFormed, View, WatcherInRange, RestartPending;
    assert CallInRange(s, s.calls[e.id]);
    hide CallInRange;
  }

  lemma StopReadies(s: State, e: Event, k: nat)
    requires Inv(s) && Enabled(s, e) && Step(s, e).panic.None? && (e.StopBegin? || e.StopLibrary? || e.StopFinish?)
    ensures ReadyAt(Step(s, e), k) <==> ReadyAt(s, k)
  {
    hide WellFormed, View, WatcherInRange, RestartPending;
    assert CallInRange(s, s.calls[e.id]);
    hide CallInRange;
  }

  // Only a pass over network k, written down, closes its readyc.
  lemma ReadyStep(s: State, e: Event, k: nat)
    requires Inv(s) && Enabled(s, e) && Step(s, e).panic.None?
    ensures ReadyAt(Step(s, e), k) <==> ReadyAt(s, k) || WritesDown(s, e, k)
  {
    hide InRange, AllWellFormed, Retired, LockHeld, StopLocked, Views, Step, ReadyAt;
    if e.Starter? {
      StarterReadies(s, e, k);
    } else if e.PassApply? {
      PassReadies(s, e, k);
    } else if e.RemoveBody? || e.RestartBody? {
      BodyReadies(s, e, k);
    } else if e.StartBody? || e.HealthBody? {
      OtherReadies(s, e, k);
    } else if e.RestartAdd? {
      AddReadies(s, e, k);
    } else if e.StopBegin? || e.StopLibrary? || e.StopFinish? {
      StopReadies(s, e, k);
    } else {
      QuietReadies(s, e, k);
    }
  }

  lemma QuietReadies(s: State, e: Event, k: nat)
    requires Paired(s) && InRange(s) && Enabled(s, e)
    requires e.Arrive? || e.AbortStart? || e.HealthBegin? || e.PassFail? || e.PassSee?
             || e.WatchArm? || e.WatchExit? || e.WatchReady? || e.WatchPublish? || e.CloseServer?
    ensures ReadyAt(Step(s, e), k) <==> ReadyAt(s, k)
  {
    hide InRange;
  }

  // While cluster k is not over, only a publication into it changes its flag.
  lemma FlagStep(s: State, e: Event, k: nat)
    requires Inv(s) && Enabled(s, e) && Step(s, e).panic.None? && NotOver(Step(s, e), k)
    ensures NotOver(s, k)
    ensures HealthyAt(Step(s, e), k) <==> HealthyAt(s, k) || (e.WatchPublish? && s.network == Some(k))
  {
    hide WellFormed, CallInRange, WatcherInRange, View, Step;
    StepKeeps(s, e);
    if k < |s.clusters| {
      HealthyStep(s, e, k);
      if e.WatchPublish? {
        PublishRaises(s, e);
      }
    } else {
      if |s.clusters| < |Step(s, e).clusters| {
        NewFlag(s, e);
      }
    }
  }

  lemma PublishRaises(s: State, e: Event)
    requires Inv(s) && Enabled(s, e) && e.WatchPublish? && s.network.Some?
    ensures HealthyAt(Step(s, e), s.network.value)
  {
    hide WellFormed, CallInRange, WatcherInRange, View;
  }

  lemma NewFlag(s: State, e: Event)
    requires Inv(s) && Enabled(s, e) && |s.clusters| < |Step(s, e).clusters|
    ensures |Step(s, e).clusters| == |s.clusters| + 1 && !Step(s, e).clusters[|s.clusters|].healthy && !e.WatchPublish?
  {
    hide WellFormed, CallInRange, WatcherInRange, View, InitialNet;
    if !e.StartBody? {
      StepKeeps(s, e);
    }
  }

  // A cluster's own watcher has seen its readyc closed.
  lemma OwnWatcherIsRight(s: State, e: Event, k: nat)
    requires Inv(s) && LooksAhead(s) && Enabled(s, e) && e.WatchPublish? && s.network == Some(k) && !Strays(s, e, k)
    ensures ReadyAt(s, k)
  {
    hide WellFormed, CallInRange, View;
    assert WatcherInRange(s, s.watchers[e.w]);
  }

  // ----- whole runs -----

  lemma {:induction false} ReadyFrom(s: State, es: seq<Event>, k: nat)
    requires Inv(s) && IsRun(s, es) && Exec(s, es).panic.None?
    ensures ReadyAt(Exec(s, es), k) <==> ReadyAt(s, k) || WrittenDown(s, es, k)
    decreases |es|
  {
    hide InRange, AllWellFormed, Retired, LockHeld, StopLocked, Views, Step, ReadyAt, WritesDown;
    if es != [] {
      StepKeeps(s, es[0]);
      PanicEnds(Step(s, es[0]), es[1..]);
      ReadyStep(s, es[0], k);
      ReadyFrom(Step(s, es[0]), es[1..], k);
    }
  }

  lemma {:induction false} LiesFrom(s: State, es: seq<Event>, k: nat)
    requires Inv(s) && LooksAhead(s) && IsRun(s, es) && Exec(s, es).panic.None? && NotOver(Exec(s, es), k)
    ensures NotOver(s, k)
    ensures HealthyAt(Exec(s, es), k) && !ReadyAt(Exec(s, es), k)
            <==> (HealthyAt(s, k) || Strayed(s, es, k)) && !ReadyAt(Exec(s, es), k)
    decreases |es|
  {
    hide InRange, AllWellFormed, Retired, LockHeld, StopLocked, Views, Step, ReadyAt, HealthyAt, NotOver,
      LooksAhead;
    if es != [] {
      var e, t := es[0], Step(s, es[0]);
      StepKeeps(s, e);
      PanicEnds(t, es[1..]);
      LooksAheadStep(s, e);
      LiesFrom(t, es[1..], k);
      FlagStep(s, e, k);
      if e.WatchPublish? && s.network == Some(k) && !Strays(s, e, k) {
        OwnWatcherIsRight(s, e, k);
        ReadyStep(s, e, k);
        ReadyFrom(t, es[1..], k);
      }
    }
  }

  // Over all runs: the current cluster says Healthy without being ready if and
  // only if a watcher of an earlier cluster has published into it and no pass
  // over it has been written down.
  lemma HealthyLiesExactlyWhen(es: seq<Event>)
    requires Inv(INIT) && IsRun(INIT, es)
    ensures var s := Exec(INIT, es);
      s.panic.None? && s.network.Some? ==>
        var k := s.network.value;
        && k < |s.nets| == |s.clusters|
        && (s.clusters[k].healthy && !s.nets[k].readyc
            <==> Strayed(INIT, es, k) && !WrittenDown(INIT, es, k))
  {
    hide Step, IsRun, Exec, Strayed, WrittenDown, InRange, AllWellFormed, Retired, LockHeld, StopLocked, Views;
    var s := Exec(INIT, es);
    if s.panic.None? && s.network.Some? {
      ReadyFrom(INIT, es, s.network.value);
      LiesFrom(INIT, es, s.network.value);
    }
  }

  // ----- what a watcher waits for -----

  predicate IsWatchers(e: Event, w: nat) {
    (e.WatchArm? || e.WatchExit? || e.WatchReady? || e.WatchPublish?) && e.w == w
  }

  // A watcher at its select is blocked exactly while the server is open and the
  // network it looks at is neither stopped nor ready; so it never outlasts a
  // cluster that is over.
  lemma WatcherBlockedExactlyWhen(s: State, w: nat)
    requires Inv(s) && s.panic.None? && w < |s.watchers| && s.watchers[w].Watching?
    ensures var k := s.watchers[w].k;
      && k < |s.nets|
      && ((forall e :: IsWatchers(e, w) ==> !Enabled(s, e)) <==> !s.closed && !s.nets[k].stopc && !s.nets[k].readyc)
      && (s.network != Some(k) ==> Enabled(s, WatchExit(w)))
      && (s.nets[k].readyc ==> Enabled(s, WatchReady(w)))
  {
    hide WellFormed, View, CallInRange;
    var k := s.watchers[w].k;
    assert WatcherInRange(s, s.watchers[w]);
    if s.closed || s.nets[k].stopc {
      assert IsWatchers(WatchExit(w), w) && Enabled(s, WatchExit(w));
    } else if s.nets[k].readyc {
      assert IsWatchers(WatchReady(w), w) && Enabled(s, WatchReady(w));
    }
  }

  // ----- a client for which Healthy never lies -----

  ghost predicate SaysHealthy(s: State) {
    s.network.Some? && HealthyAt(s, s.network.value)
  }

  // No Stop gets the lock before the current cluster says Healthy. Any number
  // of calls may be under way, and they may be any.
  ghost predicate Patient(s: State, e: Event) {
    e.StopBegin? && s.network.Some? ==> SaysHealthy(s)
  }

  predicate Stopping(c: Call) {
    c.StopClosing? || c.StopWaiting?
  }

  // Whoever is still watching watches the current cluster, and for that.
  ghost predicate WatchesCurrent(s: State, w: nat)
    requires w < |s.watchers|
  {
    match s.watchers[w]
    case Gone => true
    case Armed => s.network == Some(w)
    case Watching(k) => s.network == Some(w) && k == w
    case Firing(k) => s.network == Some(w) && k == w
  }

  ghost predicate Attached(s: State) {
    && (forall w :: 0 <= w < |s.watchers| ==> WatchesCurrent(s, w))
    && (SaysHealthy(s) ==>
          ReadyAt(s, s.network.value) && s.network.value < |s.watchers| && s.watchers[s.network.value].Gone?)
    && (forall id :: id in s.calls && Stopping(s.calls[id]) ==> SaysHealthy(s))
  }

  // A step that moves neither pointers, flags nor watchers.
  lemma AttachedFrame(s: State, t: State)
    requires Attached(s) && t.watchers == s.watchers && Quiet(s, t)
    requires forall k: nat :: ReadyAt(s, k) ==> ReadyAt(t, k)
    requires forall id :: id in t.calls && Stopping(t.calls[id]) ==> SaysHealthy(s)
    ensures Attached(t)
  {
    hide ReadyAt;
    forall w | 0 <= w < |t.watchers| ensures WatchesCurrent(t, w) {
      assert WatchesCurrent(s, w);
    }
  }

  lemma AttachedQuiet(s: State, e: Event)
    requires Inv(s) && Attached(s) && Enabled(s, e) && Patient(s, e) && Step(s, e).panic.None?
    requires !e.StartBody? && !e.StopFinish? && !e.WatchArm? && !e.WatchExit? && !e.WatchReady? && !e.WatchPublish?
    ensures Attached(Step(s, e))
  {
    hide InRange, AllWellFormed, Retired, LockHeld, StopLocked, Views, Step, WatchesCurrent, ReadyAt, HealthyAt, Quiet;
    var t := Step(s, e);
    StepKeeps(s, e);
    WatchersStay(s, e);
    forall k: nat | ReadyAt(s, k) ensures ReadyAt(t, k) {
      ReadyStep(s, e, k);
    }
    forall id | id in t.calls && Stopping(t.calls[id]) ensures SaysHealthy(s) {
      StopComesFrom(s, e, id);
      StopHasSlot(s, e);
    }
    AttachedFrame(s, t);
  }

  // A Stop that goes on without a panic has found a network.
  lemma StopHasSlot(s: State, e: Event)
    requires Paired(s) && InRange(s) && Enabled(s, e) && Step(s, e).panic.None?
    ensures e.StopBegin? ==> s.network.Some?
  {
    hide InRange;
  }

  lemma AttachedInstall(s: State, e: Event)
    requires Inv(s) && Attached(s) && Enabled(s, e) && e.StartBody? && Step(s, e).panic.None?
    ensures Attached(Step(s, e))
  {
    hide WellFormed, View, CallInRange, WatcherInRange, InitialNet;
    var t := Step(s, e);
    forall w | 0 <= w < |t.watchers| ensures WatchesCurrent(t, w) {
      assert w < |s.watchers| ==> WatchesCurrent(s, w);
    }
  }

  // The cluster that is stopped is healthy, so its watcher is gone.
  lemma AttachedStopped(s: State, e: Event)
    requires Inv(s) && Attached(s) && Enabled(s, e) && e.StopFinish?
    ensures Attached(Step(s, e))
  {
    hide WellFormed, View, WatcherInRange, RestartPending;
    assert CallInRange(s, s.calls[e.id]);
    hide CallInRange;
    var t := Step(s, e);
    assert Stopping(s.calls[e.id]);
    forall w | 0 <= w < |t.watchers| ensures WatchesCurrent(t, w) {
      assert WatchesCurrent(s, w);
    }
  }

  lemma AttachedWatch(s: State, e: Event)
    requires Inv(s) && Attached(s) && Enabled(s, e) && Step(s, e).panic.None?
    requires e.WatchArm? || e.WatchExit? || e.WatchReady? || e.WatchPublish?
    ensures Attached(Step(s, e))
  {
    hide WellFormed, View, CallInRange;
    var t := Step(s, e);
    assert WatchesCurrent(s, e.w) && WatcherInRange(s, s.watchers[e.w]);
    hide WatcherInRange;
    forall w | 0 <= w < |t.watchers| ensures WatchesCurrent(t, w) {
      assert WatchesCurrent(s, w);
    }
  }

  lemma AttachedStep(s: State, e: Event)
    requires Inv(s) && Attached(s) && Enabled(s, e) && Patient(s, e)
    ensures Step(s, e).panic.None? ==> Attached(Step(s, e))
    ensures e.WatchArm? || e.WatchPublish? ==> Step(s, e).panic.None?
  {
    hide InRange, AllWellFormed, Retired, LockHeld, StopLocked, Views, Step, Attached;
    if e.WatchArm? || e.WatchPublish? {
      WatcherFindsSlot(s, e);
    }
    if Step(s, e).panic.None? {
      if e.StartBody? {
        AttachedInstall(s, e);
      } else if e.StopFinish? {
        AttachedStopped(s, e);
      } else if e.WatchArm? || e.WatchExit? || e.WatchReady? || e.WatchPublish? {
        AttachedWatch(s, e);
      } else {
        AttachedQuiet(s, e);
      }
    }
  }

  lemma WatcherFindsSlot(s: State, e: Event)
    requires Inv(s) && Attached(s) && Enabled(s, e) && (e.WatchArm? || e.WatchPublish?)
    ensures Step(s, e).panic.None?
  {
    hide WellFormed, View, CallInRange, WatcherInRange;
    assert WatchesCurrent(s, e.w);
  }

  ghost predicate AllPatient(s: State, es: seq<Event>)
    requires Inv(s) && IsRun(s, es)
    decreases |es|
  {
    es == [] || (Patient(s, es[0]) && (StepKeeps(s, es[0]); AllPatient(Step(s, es[0]), es[1..])))
  }

  lemma {:induction false} AttachedFrom(s: State, es: seq<Event>)
    requires Inv(s) && s.panic.None? && Attached(s) && IsRun(s, es) && AllPatient(s, es)
    ensures Exec(s, es).panic.None? ==> Attached(Exec(s, es))
    decreases |es|
  {
    hide InRange, AllWellFormed, Retired, LockHeld, StopLocked, Views, Step, Attached, Patient;
    if es != [] {
      StepKeeps(s, es[0]);
      PanicEnds(Step(s, es[0]), es[1..]);
      AttachedStep(s, es[0]);
      if Step(s, es[0]).panic.None? {
        AttachedFrom(Step(s, es[0]), es[1..]);
      }
    }
  }

  lemma NobodyIsAttached()
    ensures Attached(INIT)
  {
  }

  lemma AttachedIsTruthful(s: State)
    requires Attached(s)
    ensures Truthful(s)
    ensures forall w :: 0 <= w < |s.watchers| ==> WatchesCurrent(s, w)
    ensures forall e :: Enabled(s, e) && (e.WatchArm? || e.WatchPublish?) ==> s.network == Some(e.w)
  {
    hide CallInRange, WatcherInRange;
    forall e | Enabled(s, e) && (e.WatchArm? || e.WatchPublish?) ensures s.network == Some(e.w) {
      assert WatchesCurrent(s, e.w);
    }
  }

  // However the calls overlap: as long as no Stop gets the lock before the
  // current cluster says Healthy, Healthy is never a lie, every watcher that is
  // left watches the current cluster, and none of them meets an empty slot.
  lemma PatientRunsAreTruthful(es: seq<Event>)
    requires Inv(INIT) && IsRun(INIT, es) && AllPatient(INIT, es) && Exec(INIT, es).panic.None?
    ensures var s := Exec(INIT, es);
      && Truthful(s)
      && (forall w :: 0 <= w < |s.watchers| ==> WatchesCurrent(s, w))
      && (forall e :: Enabled(s, e) && (e.WatchArm? || e.WatchPublish?) ==> s.network == Some(e.w))
  {
    hide Core, Step, IsRun, Exec, AllPatient, Attached;
    assert Attached(INIT) by {
      NobodyIsAttached();
    }
    AttachedFrom(INIT, es);
    AttachedIsTruthful(Exec(INIT, es));
  }
}
