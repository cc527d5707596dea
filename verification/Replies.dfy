// Which cluster Health answers about: the one whose wait it has passed, or
// another that has taken its place since.
module Replies {
  import opened Basics
  import opened Registry
  import opened Lifecycle
  import opened Runs
  import opened Health
  import opened Watchers

  // ----- a call stands still while others move -----

  // The step is one of call `id`.
  predicate IsStepOf(e: Event, id: nat) {
    match e
    case Starter(_, _) => false
    case WatchArm(_) => false
    case WatchExit(_) => false
    case WatchReady(_) => false
    case WatchPublish(_) => false
    case CloseServer => false
    case _ => e.id == id
  }

  lemma BodiesLeaveCalls(s: State, e: Event, id: nat)
    requires Paired(s) && InRange(s) && Enabled(s, e) && id in s.calls && !IsStepOf(e, id) && Step(s, e).panic.None?
    requires e.StartBody? || e.HealthBody? || e.RemoveBody? || e.RestartBody? || e.StopBegin?
    ensures id in Step(s, e).calls && Step(s, e).calls[id] == s.calls[id]
  {
    hide InRange, RemoveLocked, RestartLocked, InitialNet, CloseStop, Enumerates, LibraryAllows;
  }

  lemma CallStays(s: State, e: Event, id: nat)
    requires Paired(s) && InRange(s) && Enabled(s, e) && id in s.calls && !IsStepOf(e, id) && Step(s, e).panic.None?
    ensures id in Step(s, e).calls && Step(s, e).calls[id] == s.calls[id]
  {
    hide InRange, Refresh, Committed, LibraryStopped, StartMoved, CanMove, NodeAdded;
    hide OnStart, OnHealth, OnRemove, OnRestart, OnStopBegin, Enumerates, LibraryAllows;
    if e.StartBody? || e.HealthBody? || e.RemoveBody? || e.RestartBody? || e.StopBegin? {
      BodiesLeaveCalls(s, e, id);
    }
  }

  // ----- Health waits -----

  // The steps that end a Health call: its answer, or an error of its wait.
  predicate EndsHealth(e: Event, id: nat) {
    (e.HealthBody? || e.PassFail?) && e.id == id
  }

  // Health looks at the slot in s, waits for what it finds there, and has not
  // answered after `during`, which leads to t.
  ghost predicate HealthWaits(s: State, id: nat, during: seq<Event>, t: State) {
    && Inv(s) && Enabled(s, HealthBegin(id))
    && var s1 := Step(s, HealthBegin(id));
    && Inv(s1) && s1.panic.None? && IsRun(s1, during)
    && (forall e :: e in during ==> !EndsHealth(e, id))
    && t == Exec(s1, during)
  }

  // It can answer now: its wait is over and it gets the lock.
  ghost predicate HealthRuns(s: State, id: nat, during: seq<Event>, t: State, order: seq<string>) {
    HealthWaits(s, id, during, t) && Enabled(t, HealthBody(id, order))
  }

  // It waits for network k, or network k has passed that wait.
  predicate WaitsFor(s: State, id: nat, k: nat) {
    && id in s.calls
    && ((s.calls[id].HealthPass? && s.calls[id].k == k) || (s.calls[id].WantPublish? && ReadyAt(s, k)))
  }

  lemma OwnStepWaits(s: State, e: Event, id: nat, k: nat)
    requires Inv(s) && Enabled(s, e) && WaitsFor(s, id, k) && IsStepOf(e, id) && !EndsHealth(e, id)
    ensures Step(s, e).panic.None? ==> WaitsFor(Step(s, e), id, k)
  {
    hide WellFormed, View, CallInRange, WatcherInRange, Refresh, ReadyAt;
    if e.PassApply? && Step(s, e).panic.None? {
      ReadyStep(s, e, k);
    }
  }

  lemma WaitsForStays(s: State, e: Event, id: nat, k: nat)
    requires Inv(s) && Enabled(s, e) && WaitsFor(s, id, k) && !EndsHealth(e, id)
    ensures Step(s, e).panic.None? ==> WaitsFor(Step(s, e), id, k)
  {
    hide InRange, AllWellFormed, Retired, LockHeld, StopLocked, Views, Step, ReadyAt;
    if Step(s, e).panic.None? {
      if IsStepOf(e, id) {
        OwnStepWaits(s, e, id, k);
      } else {
        CallStays(s, e, id);
        ReadyStep(s, e, k);
      }
    }
  }

  lemma {:induction false} WaitsForFrom(s: State, es: seq<Event>, id: nat, k: nat)
    requires Inv(s) && s.panic.None? && IsRun(s, es) && WaitsFor(s, id, k)
    requires forall e :: e in es ==> !EndsHealth(e, id)
    ensures Exec(s, es).panic.None? ==> WaitsFor(Exec(s, es), id, k)
    decreases |es|
  {
    hide InRange, AllWellFormed, Retired, LockHeld, StopLocked, Views, Step, WaitsFor, EndsHealth;
    if es != [] {
      StepKeeps(s, es[0]);
      WaitsForStays(s, es[0], id, k);
      PanicEnds(Step(s, es[0]), es[1..]);
      if Step(s, es[0]).panic.None? {
        WaitsForFrom(Step(s, es[0]), es[1..], id, k);
      }
    }
  }

  lemma HealthBegun(s: State, id: nat)
    requires Inv(s) && Enabled(s, HealthBegin(id)) && Step(s, HealthBegin(id)).panic.None?
    ensures s.network.Some?
    ensures var s1 := Step(s, HealthBegin(id));
      WaitsFor(s1, id, s.network.value) && Installed(s1) == 1 && |s1.nets| == s.network.value + 1
  {
    hide InRange, AllWellFormed, Retired, LockHeld, StopLocked, Views;
  }

  lemma HealthAnswers(t: State, id: nat, order: seq<string>)
    requires Inv(t) && Enabled(t, HealthBody(id, order))
    ensures Step(t, HealthBody(id, order)).panic.None? <==> t.network.Some?
    ensures t.network.Some? ==>
              && ShowsAll(Step(t, HealthBody(id, order)), t.network.value)
              && Step(t, HealthBody(id, order)).network == t.network && t.network.value + 1 == |t.nets|
  {
    hide InRange, AllWellFormed, Retired, LockHeld, StopLocked, Views, OnHealth, ShowsAll, Enumerates;
    HealthKeeps(t, id, order);
  }

  // Health answers about the cluster it waited for, moved on by one for every
  // Stop that finished meanwhile: about that cluster itself if and only if no
  // Stop did. It panics if and only if the slot is empty.
  lemma HealthAnswersAbout(s: State, id: nat, during: seq<Event>, t: State, order: seq<string>)
    requires HealthRuns(s, id, during, t, order)
    ensures Inv(t) && s.network.Some? && ReadyAt(t, s.network.value)
    ensures Step(t, HealthBody(id, order)).panic.None? <==> t.network.Some?
    ensures var j := s.network.value; var u := Step(t, HealthBody(id, order));
      u.panic.None? ==>
        && u.network == Some(j + StopCount(during)) && ShowsAll(u, j + StopCount(during))
        && (u.network == Some(j) <==> StopCount(during) == 0)
  {
    hide InRange, AllWellFormed, Retired, LockHeld, StopLocked, Views, Step, IsRun, Exec, ShowsAll, ReadyAt;
    HealthBegun(s, id);
    var s1 := Step(s, HealthBegin(id));
    WaitsForFrom(s1, during, id, s.network.value);
    InstallsFrom(s1, during);
    HealthAnswers(t, id, order);
  }

  // ----- every Health that answers has come about like that -----

  ghost predicate HealthTraced(t: State, id: nat) {
    t.panic.None? && id in t.calls && (t.calls[id].HealthPass? || t.calls[id].WantPublish?) ==>
      exists s, during :: HealthWaits(s, id, during, t)
  }

  // Where a waiting Health comes from.
  lemma HealthComesFrom(s: State, e: Event, id: nat)
    requires Inv(s) && Enabled(s, e) && Step(s, e).panic.None? && id in Step(s, e).calls
    requires Step(s, e).calls[id].HealthPass? || Step(s, e).calls[id].WantPublish?
    ensures || e == HealthBegin(id)
            || (id in s.calls && (s.calls[id].HealthPass? || s.calls[id].WantPublish?) && !EndsHealth(e, id))
  {
    hide InRange, AllWellFormed, Retired, StopLocked, Views, LockHeld, Step;
    if !IsStepOf(e, id) {
      NewCallsArrive(s, e, id);
      CallStays(s, e, id);
    } else {
      OwnHealthStep(s, e, id);
    }
  }

  lemma OwnHealthStep(s: State, e: Event, id: nat)
    requires Inv(s) && Enabled(s, e) && Step(s, e).panic.None? && id in Step(s, e).calls && IsStepOf(e, id)
    requires Step(s, e).calls[id].HealthPass? || Step(s, e).calls[id].WantPublish?
    ensures || e == HealthBegin(id)
            || (id in s.calls && (s.calls[id].HealthPass? || s.calls[id].WantPublish?) && !EndsHealth(e, id))
  {
    hide InRange, AllWellFormed, Retired, StopLocked, Views, LockHeld;
    hide RemoveLocked, RestartLocked, InitialNet, Refresh, Committed, LibraryStopped, CloseStop, NodeAdded, Enumerates,
      LibraryAllows;
  }

  lemma NewCallsArrive(s: State, e: Event, id: nat)
    requires Paired(s) && InRange(s) && Enabled(s, e) && id in Step(s, e).calls && !IsStepOf(e, id)
    ensures id in s.calls
  {
    hide InRange, Refresh, Committed, LibraryStopped, StartMoved, CanMove, NodeAdded, RemoveLocked, RestartLocked,
      InitialNet, CloseStop, Enumerates, LibraryAllows;
  }

  lemma HealthTracedStep(s: State, e: Event, id: nat)
    requires Inv(s) && Enabled(s, e) && HealthTraced(s, id)
    ensures HealthTraced(Step(s, e), id)
  {
    hide InRange, AllWellFormed, Retired, LockHeld, StopLocked, Views, Step, HealthWaits, EndsHealth;
    var t := Step(s, e);
    if t.panic.None? && id in t.calls && (t.calls[id].HealthPass? || t.calls[id].WantPublish?) {
      HealthComesFrom(s, e, id);
      if e == HealthBegin(id) {
        HealthStarts(s, id);
      } else {
        var s', during :| HealthWaits(s', id, during, s);
        HealthWaitsOn(s', id, during, s, e);
      }
    }
  }

  lemma HealthStarts(s: State, id: nat)
    requires Inv(s) && Enabled(s, HealthBegin(id)) && Step(s, HealthBegin(id)).panic.None?
    ensures HealthWaits(s, id, [], Step(s, HealthBegin(id)))
  {
    hide InRange, AllWellFormed, Retired, LockHeld, StopLocked, Views, Step;
    StepKeeps(s, HealthBegin(id));
  }

  lemma HealthWaitsOn(s: State, id: nat, during: seq<Event>, t: State, e: Event)
    requires HealthWaits(s, id, during, t) && Inv(t) && Enabled(t, e) && !EndsHealth(e, id)
    ensures HealthWaits(s, id, during + [e], Step(t, e))
  {
    hide InRange, AllWellFormed, Retired, LockHeld, StopLocked, Views, IsRun, Exec, Step, EndsHealth;
    AppendRun(Step(s, HealthBegin(id)), during, e);
  }

  lemma {:induction false} HealthTracedFrom(s: State, es: seq<Event>, id: nat)
    requires Inv(s) && IsRun(s, es) && HealthTraced(s, id)
    ensures HealthTraced(Exec(s, es), id)
    decreases |es|
  {
    hide InRange, AllWellFormed, Retired, LockHeld, StopLocked, Views, Step, HealthTraced;
    if es != [] {
      StepKeeps(s, es[0]);
      HealthTracedStep(s, es[0], id);
      HealthTracedFrom(Step(s, es[0]), es[1..], id);
    }
  }

  lemma EveryHealthRuns(es: seq<Event>, id: nat, order: seq<string>)
    requires Inv(INIT) && IsRun(INIT, es) && Enabled(Exec(INIT, es), HealthBody(id, order))
    ensures exists s, during :: HealthRuns(s, id, during, Exec(INIT, es), order)
  {
    hide Core, Step, IsRun, Exec, HealthWaits;
    assert HealthTraced(INIT, id);
    HealthTracedFrom(INIT, es, id);
    var s, during :| HealthWaits(s, id, during, Exec(INIT, es));
    assert HealthRuns(s, id, during, Exec(INIT, es), order);
  }
}
