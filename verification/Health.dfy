// What the Healthy flag means, who changes it, and when the registry and the
// library hold the same nodes.
module Health {
  import opened Basics
  import opened Registry
  import opened Lifecycle
  import opened Runs
  import Config

  // ----- who changes Healthy -----

  // A watcher raises the current cluster's flag; a Stop lowers that of the
  // cluster its pre-check saw. A network that is not current never is again.
  lemma HealthyStep(s: State, e: Event, k: nat)
    requires Inv(s) && Enabled(s, e) && k < |s.clusters|
    ensures var t := Step(s, e);
      && k < |t.clusters|
      && (t.clusters[k].healthy && !s.clusters[k].healthy ==> e.WatchPublish? && s.network == Some(k))
      && (s.clusters[k].healthy && !t.clusters[k].healthy ==>
            e.StopFinish? && s.calls[e.id].info == k && t.network.None?)
      && (s.network != Some(k) ==> t.network != Some(k))
      && (|s.clusters| < |t.clusters| ==>
            s.network.None? && t.network == Some(|s.clusters|) && !t.clusters[|s.clusters|].healthy)
  {
    hide InRange, AllWellFormed, Retired, LockHeld, StopLocked, Views, Step;
    StepKeeps(s, e);
    if e.StopFinish? {
      StopMovesFlag(s, e, k);
    } else if e.StartBody? || e.WatchPublish? {
      OthersMoveFlag(s, e, k);
    }
  }

  lemma StopMovesFlag(s: State, e: Event, k: nat)
    requires Inv(s) && Enabled(s, e) && k < |s.clusters| && e.StopFinish?
    ensures var t := Step(s, e);
      && |t.clusters| == |s.clusters| && t.network.None?
      && t.clusters[k].healthy == (s.clusters[k].healthy && s.calls[e.id].info != k)
  {
    hide WellFormed, View, WatcherInRange;
    assert CallInRange(s, s.calls[e.id]);
  }

  lemma OthersMoveFlag(s: State, e: Event, k: nat)
    requires Inv(s) && Enabled(s, e) && k < |s.clusters| && (e.StartBody? || e.WatchPublish?)
    ensures var t := Step(s, e);
      && k < |t.clusters|
      && (t.clusters[k].healthy <==> s.clusters[k].healthy || (e.WatchPublish? && s.network == Some(k)))
      && (s.network != Some(k) ==> t.network != Some(k))
      && (|s.clusters| < |t.clusters| ==>
            s.network.None? && t.network == Some(|s.clusters|) && !t.clusters[|s.clusters|].healthy)
  {
    hide WellFormed, View, CallInRange, WatcherInRange, InitialNet;
  }

  // Once raised, a cluster's flag stays up while the cluster is current.
  lemma {:induction false} HealthyStays(s: State, es: seq<Event>, k: nat)
    requires Inv(s) && s.panic.None? && IsRun(s, es) && k < |s.clusters|
    requires s.clusters[k].healthy || s.network != Some(k)
    ensures var t := Exec(s, es);
      k < |t.clusters| && (t.clusters[k].healthy || t.network != Some(k))
    decreases |es|
  {
    hide WellFormed, InRange, Views, Step;
    if es != [] {
      StepKeeps(s, es[0]);
      HealthyStep(s, es[0], k);
      if Step(s, es[0]).panic.None? {
        HealthyStays(Step(s, es[0]), es[1..], k);
      } else {
        PanicEnds(Step(s, es[0]), es[1..]);
      }
    }
  }

  // Call `id` is a Stop that passes its pre-check in s and has not got the lock
  // after `before`, which leads to t.
  ghost predicate StopWaits(s: State, id: nat, before: seq<Event>, t: State) {
    && Inv(s) && Enabled(s, Arrive(id, StopReq)) && s.clusterInfo.Some?
    && var s0 := Step(s, Arrive(id, StopReq));
    && Inv(s0) && IsRun(s0, before) && StopBegin(id) !in before
    && t == Exec(s0, before)
  }

  // It then gets the lock, and has not finished after `during`.
  ghost predicate StopGoesOn(s: State, id: nat, before: seq<Event>, during: seq<Event>, t: State) {
    exists s1 ::
      && StopWaits(s, id, before, s1) && Inv(s1) && Enabled(s1, StopBegin(id))
      && var s2 := Step(s1, StopBegin(id));
      && Inv(s2) && s2.panic.None? && IsRun(s2, during) && StopFinish(id) !in during
      && t == Exec(s2, during)
  }

  // It can finish now.
  ghost predicate StopRuns(s: State, id: nat, before: seq<Event>, during: seq<Event>, t: State) {
    StopGoesOn(s, id, before, during, t) && Enabled(t, StopFinish(id))
  }

  predicate IsWaiting(s: State, id: nat, info: nat) {
    id in s.calls && s.calls[id] == WantStop(info)
  }

  lemma WantStopStaysLocked(s: State, e: Event, id: nat, info: nat)
    requires Paired(s) && InRange(s) && Enabled(s, e) && IsWaiting(s, id, info) && e != StopBegin(id)
    requires e.StartBody? || e.HealthBody? || e.RemoveBody? || e.RestartBody? || e.StopBegin?
    ensures Step(s, e).panic.None? ==> IsWaiting(Step(s, e), id, info)
  {
    hide InRange, RemoveLocked, RestartLocked, InitialNet, CloseStop, Enumerates, LibraryAllows;
  }

  lemma WantStopStays(s: State, e: Event, id: nat, info: nat)
    requires Paired(s) && InRange(s) && Enabled(s, e) && IsWaiting(s, id, info) && e != StopBegin(id)
    ensures Step(s, e).panic.None? ==> IsWaiting(Step(s, e), id, info)
  {
    hide InRange, Refresh, Committed, LibraryStopped, StartMoved, CanMove, NodeAdded;
    hide OnStart, OnHealth, OnRemove, OnRestart, OnStopBegin, Enumerates, LibraryAllows;
    if e.StartBody? || e.HealthBody? || e.RemoveBody? || e.RestartBody? || e.StopBegin? {
      WantStopStaysLocked(s, e, id, info);
    }
  }

  lemma {:induction false} WantStopWaits(s: State, es: seq<Event>, id: nat, info: nat)
    requires Inv(s) && s.panic.None? && IsRun(s, es) && IsWaiting(s, id, info) && StopBegin(id) !in es
    ensures Exec(s, es).panic.None? ==> IsWaiting(Exec(s, es), id, info)
    decreases |es|
  {
    hide WellFormed, InRange, Views, Retired, LockHeld, StopLocked, Step, IsWaiting;
    if es != [] {
      StepKeeps(s, es[0]);
      WantStopStays(s, es[0], id, info);
      PanicEnds(Step(s, es[0]), es[1..]);
      if Step(s, es[0]).panic.None? {
        WantStopWaits(Step(s, es[0]), es[1..], id, info);
      }
    }
  }

  // A Stop that has the lock goes on stopping the same network.
  predicate IsStopping(s: State, id: nat, k: nat, info: nat) {
    id in s.calls && (s.calls[id] == StopClosing(k, info) || s.calls[id] == StopWaiting(k, info))
  }

  lemma StoppingStays(s: State, e: Event, id: nat, k: nat, info: nat)
    requires Inv(s) && Enabled(s, e) && IsStopping(s, id, k, info) && e != StopFinish(id)
    ensures Step(s, e).panic.None? ==> IsStopping(Step(s, e), id, k, info)
  {
    hide InRange, AllWellFormed, Retired, StopLocked, Views;
    hide RemoveLocked, RestartLocked, InitialNet, Refresh, Committed, LibraryStopped, CloseStop, StartMoved,
      CanMove, NodeAdded;
  }

  lemma {:induction false} StoppingWaits(s: State, es: seq<Event>, id: nat, k: nat, info: nat)
    requires Inv(s) && s.panic.None? && IsRun(s, es) && IsStopping(s, id, k, info) && StopFinish(id) !in es
    ensures Exec(s, es).panic.None? ==> IsStopping(Exec(s, es), id, k, info)
    decreases |es|
  {
    hide WellFormed, InRange, Views, Retired, LockHeld, StopLocked, Step, IsStopping;
    if es != [] {
      StepKeeps(s, es[0]);
      StoppingStays(s, es[0], id, k, info);
      PanicEnds(Step(s, es[0]), es[1..]);
      if Step(s, es[0]).panic.None? {
        StoppingWaits(Step(s, es[0]), es[1..], id, k, info);
      }
    }
  }

  // Of the Stops that pass their pre-check, each stops the cluster it saw,
  // moved on by one for every other Stop that finishes before it gets the lock.
  lemma StopStops(s: State, id: nat, before: seq<Event>, during: seq<Event>, t: State)
    requires StopRuns(s, id, before, during, t)
    ensures s.clusterInfo.Some? && id in t.calls
    ensures t.calls[id] == StopWaiting(s.clusterInfo.value + StopCount(before), s.clusterInfo.value)
  {
    hide WellFormed, InRange, Views, Retired, LockHeld, StopLocked, IsRun, Exec;
    var s1 :| StopWaits(s, id, before, s1) && Inv(s1) && Enabled(s1, StopBegin(id))
      && var s2 := Step(s1, StopBegin(id));
      && Inv(s2) && s2.panic.None? && IsRun(s2, during) && StopFinish(id) !in during
      && t == Exec(s2, during);
    var s0 := Step(s, Arrive(id, StopReq));
    var s2 := Step(s1, StopBegin(id));
    var info := s.clusterInfo.value;
    hide Step;
    StopAsks(s, id);
    WantStopWaits(s0, before, id, info);
    InstallsFrom(s0, before);
    hide Enabled;
    StopHasCluster(s1, id);
    assert s1.network == Some(info + StopCount(before));
    StopBegun(s1, id, info, info + StopCount(before));
    StoppingWaits(s2, during, id, info + StopCount(before), info);
  }

  lemma StopAsks(s: State, id: nat)
    requires Inv(s) && Enabled(s, Arrive(id, StopReq)) && s.clusterInfo.Some?
    ensures var s0 := Step(s, Arrive(id, StopReq)); var info := s.clusterInfo.value;
      s0.panic.None? && IsWaiting(s0, id, info) && Installed(s0) == 1 && |s0.nets| == info + 1
  {
    hide InRange, AllWellFormed, Retired, LockHeld, StopLocked, Views;
  }

  // A Stop that goes on without a panic has found a network.
  lemma StopHasCluster(s: State, id: nat)
    requires Inv(s) && Enabled(s, StopBegin(id)) && Step(s, StopBegin(id)).panic.None?
    ensures s.network == Some(|s.nets| - 1)
  {
    hide InRange, AllWellFormed, Retired, LockHeld, StopLocked, Views;
  }

  lemma StopBegun(s: State, id: nat, info: nat, k: nat)
    requires Inv(s) && Enabled(s, StopBegin(id)) && s.calls[id] == WantStop(info) && s.network == Some(k)
    ensures IsStopping(Step(s, StopBegin(id)), id, k, info)
  {
    hide WellFormed, View, CallInRange, WatcherInRange;
    NetFacts(s.nets[k]);
  }

  // ----- every Stop that finishes has come about like that -----

  ghost predicate Traced(t: State, id: nat) {
    t.panic.None? && id in t.calls ==>
      && (t.calls[id].WantStop? ==> exists s, before :: StopWaits(s, id, before, t))
      && (t.calls[id].StopClosing? || t.calls[id].StopWaiting? ==>
            exists s, before, during :: StopGoesOn(s, id, before, during, t))
  }

  // Where a Stop's call comes from.
  lemma StopComesFrom(s: State, e: Event, id: nat)
    requires Inv(s) && Enabled(s, e) && Step(s, e).panic.None? && id in Step(s, e).calls
    ensures var c := Step(s, e).calls[id];
      && (c.WantStop? ==>
            || (e == Arrive(id, StopReq) && s.clusterInfo.Some?)
            || (id in s.calls && s.calls[id].WantStop? && e != StopBegin(id)))
      && (c.StopClosing? || c.StopWaiting? ==>
            || (e == StopBegin(id) && s.calls[id].WantStop?)
            || (id in s.calls && (s.calls[id].StopClosing? || s.calls[id].StopWaiting?) && e != StopFinish(id)))
  {
    hide InRange, AllWellFormed, Retired, StopLocked, Views, LockHeld;
    hide LibraryStopped, CloseStop, CanMove, Enumerates, LibraryAllows;
    hide OnStart, OnHealth, OnRemove, OnRestart, OnRestartAdd, OnPassApply, OnStarter;
    if e.StartBody? || e.HealthBody? || e.RemoveBody? || e.RestartBody? {
      BodiesKeepStops(s, e, id);
    } else if e.RestartAdd? || e.PassApply? || e.Starter? {
      NetStepsKeepStops(s, e, id);
    }
  }

  lemma NetStepsKeepStops(s: State, e: Event, id: nat)
    requires Paired(s) && InRange(s) && Enabled(s, e) && Step(s, e).panic.None? && id in Step(s, e).calls
    requires e.RestartAdd? || e.PassApply? || e.Starter?
    ensures var c := Step(s, e).calls[id];
      c.WantStop? || c.StopClosing? || c.StopWaiting? ==> id in s.calls && s.calls[id] == c
  {
    hide InRange, NodeAdded, Refresh, Committed, StartMoved, CanMove;
  }

  lemma BodiesKeepStops(s: State, e: Event, id: nat)
    requires Paired(s) && InRange(s) && Enabled(s, e) && Step(s, e).panic.None? && id in Step(s, e).calls
    requires e.StartBody? || e.HealthBody? || e.RemoveBody? || e.RestartBody?
    ensures var c := Step(s, e).calls[id];
      c.WantStop? || c.StopClosing? || c.StopWaiting? ==> id in s.calls && s.calls[id] == c
  {
    hide InRange, RemoveLocked, RestartLocked, InitialNet, Enumerates, LibraryAllows;
  }

  lemma StopWaitsOn(s: State, id: nat, before: seq<Event>, t: State, e: Event)
    requires StopWaits(s, id, before, t) && Inv(t) && Enabled(t, e) && e != StopBegin(id)
    ensures StopWaits(s, id, before + [e], Step(t, e))
  {
    hide WellFormed, InRange, Views, Retired, LockHeld, StopLocked, IsRun, Exec, Step;
    AppendRun(Step(s, Arrive(id, StopReq)), before, e);
  }

  lemma StopGoesFurther(s: State, id: nat, before: seq<Event>, during: seq<Event>, t: State, e: Event)
    requires StopGoesOn(s, id, before, during, t) && Inv(t) && Enabled(t, e) && e != StopFinish(id)
    ensures StopGoesOn(s, id, before, during + [e], Step(t, e))
  {
    hide WellFormed, InRange, Views, Retired, LockHeld, StopLocked, IsRun, Exec, Step, StopWaits;
    var s1 :| StopWaits(s, id, before, s1) && Inv(s1) && Enabled(s1, StopBegin(id))
      && var s2 := Step(s1, StopBegin(id));
      && Inv(s2) && s2.panic.None? && IsRun(s2, during) && StopFinish(id) !in during
      && t == Exec(s2, during);
    AppendRun(Step(s1, StopBegin(id)), during, e);
  }

  lemma StopArrives(s: State, id: nat)
    requires Inv(s) && Enabled(s, Arrive(id, StopReq)) && s.clusterInfo.Some?
    ensures StopWaits(s, id, [], Step(s, Arrive(id, StopReq)))
  {
    hide WellFormed, InRange, Views, Retired, LockHeld, StopLocked, Step;
    StepKeeps(s, Arrive(id, StopReq));
  }

  lemma StopGetsLock(s: State, id: nat, before: seq<Event>, t: State)
    requires StopWaits(s, id, before, t) && Inv(t) && Enabled(t, StopBegin(id)) && Step(t, StopBegin(id)).panic.None?
    ensures StopGoesOn(s, id, before, [], Step(t, StopBegin(id)))
  {
    hide WellFormed, InRange, Views, Retired, LockHeld, StopLocked, Step, StopWaits;
    StepKeeps(t, StopBegin(id));
    var u := Step(t, StopBegin(id));
    assert IsRun(u, []) && Exec(u, []) == u;
  }

  lemma TracedStep(s: State, e: Event, id: nat)
    requires Inv(s) && Enabled(s, e) && Traced(s, id)
    ensures Traced(Step(s, e), id)
  {
    hide WellFormed, InRange, Views, Retired, LockHeld, StopLocked, Step, StopWaits, StopGoesOn;
    var t := Step(s, e);
    if t.panic.None? && id in t.calls {
      StopComesFrom(s, e, id);
      if t.calls[id].WantStop? {
        if e == Arrive(id, StopReq) {
          StopArrives(s, id);
        } else {
          var s', before :| StopWaits(s', id, before, s);
          StopWaitsOn(s', id, before, s, e);
        }
      } else if t.calls[id].StopClosing? || t.calls[id].StopWaiting? {
        if e == StopBegin(id) {
          var s', before :| StopWaits(s', id, before, s);
          StopGetsLock(s', id, before, s);
        } else {
          var s', before, during :| StopGoesOn(s', id, before, during, s);
          StopGoesFurther(s', id, before, during, s, e);
        }
      }
    }
  }

  lemma {:induction false} TracedFrom(s: State, es: seq<Event>, id: nat)
    requires Inv(s) && IsRun(s, es) && Traced(s, id)
    ensures Traced(Exec(s, es), id)
    decreases |es|
  {
    hide WellFormed, InRange, Views, Retired, LockHeld, StopLocked, Step, Traced;
    if es != [] {
      StepKeeps(s, es[0]);
      TracedStep(s, es[0], id);
      TracedFrom(Step(s, es[0]), es[1..], id);
    }
  }

  lemma EveryStopRuns(es: seq<Event>, id: nat)
    requires Inv(INIT) && IsRun(INIT, es) && Enabled(Exec(INIT, es), StopFinish(id))
    ensures exists s, before, during :: StopRuns(s, id, before, during, Exec(INIT, es))
  {
    hide Core, Step, IsRun, Exec, StopWaits, StopGoesOn;
    assert Traced(INIT, id);
    TracedFrom(INIT, es, id);
    var s, before, during :| StopGoesOn(s, id, before, during, Exec(INIT, es));
    assert StopRuns(s, id, before, during, Exec(INIT, es));
  }

  // So Stop lowers the flag of the cluster it stopped if and only if no other
  // Stop finished between its pre-check and its lock.
  lemma StopLowersTheRightFlag(s: State, id: nat, before: seq<Event>, during: seq<Event>, t: State)
    requires StopRuns(s, id, before, during, t)
    ensures Inv(t) && s.clusterInfo.Some?
    ensures var k := s.clusterInfo.value + StopCount(before); var u := Step(t, StopFinish(id));
      && k < |t.clusters| == |u.clusters| && k < |u.nets|
      && t.network == Some(k) && u.network.None? && u.nets[k].donec
      && (u.clusters[k].healthy <==> t.clusters[k].healthy && StopCount(before) > 0)
  {
    hide Core, Step, IsRun, Exec, Enabled;
    StopStops(s, id, before, during, t);
    StopFinishes(t, id);
  }

  lemma StopFinishes(t: State, id: nat)
    requires Inv(t) && Enabled(t, StopFinish(id))
    ensures var k := t.calls[id].k; var u := Step(t, StopFinish(id));
      && k < |t.clusters| == |u.clusters| && k < |u.nets|
      && t.network == Some(k) && u.network.None? && u.nets[k].donec
      && (u.clusters[k].healthy <==> t.clusters[k].healthy && t.calls[id].info != k)
  {
    hide WellFormed, View, WatcherInRange;
    assert CallInRange(t, t.calls[id]);
  }

  // ----- what Healthy says -----

  // Healthy of the current cluster implies that its network's readyc is closed.
  ghost predicate Truthful(s: State) {
    s.network.Some? && s.network.value < |s.nets| == |s.clusters| ==>
      (s.clusters[s.network.value].healthy ==> s.nets[s.network.value].readyc)
  }

  // The guard the watcher lacks: what it selected on is still current.
  predicate Guarded(s: State, e: Event) {
    e.WatchPublish? && e.w < |s.watchers| && s.watchers[e.w].Firing? ==> s.network == Some(s.watchers[e.w].k)
  }

  // Only a watcher's publication can make Healthy a lie, and it does so exactly
  // when the current network is not ready; the guard rules that out.
  lemma TruthfulStep(s: State, e: Event)
    requires Inv(s) && Truthful(s) && Enabled(s, e)
    ensures !e.WatchPublish? ==> Truthful(Step(s, e))
    ensures e.WatchPublish? && s.network.Some? ==> (Truthful(Step(s, e)) <==> s.nets[s.network.value].readyc)
    ensures Guarded(s, e) ==> Truthful(Step(s, e))
  {
    hide WellFormed, View, CallInRange, InitialNet;
    StepKeeps(s, e);
    if e.Starter? {
      StarterFrame(s, e);
    }
    if e.WatchPublish? {
      assert WatcherInRange(s, s.watchers[e.w]);
    }
  }

  ghost predicate AllGuarded(s: State, es: seq<Event>)
    requires Inv(s) && IsRun(s, es)
    decreases |es|
  {
    es == [] || (Guarded(s, es[0]) && (StepKeeps(s, es[0]); AllGuarded(Step(s, es[0]), es[1..])))
  }

  lemma {:induction false} TruthfulFrom(s: State, es: seq<Event>)
    requires Inv(s) && Truthful(s) && IsRun(s, es) && AllGuarded(s, es)
    ensures Truthful(Exec(s, es))
    decreases |es|
  {
    hide WellFormed, InRange, Views, Step, Truthful, Guarded;
    if es != [] {
      StepKeeps(s, es[0]);
      TruthfulStep(s, es[0]);
      TruthfulFrom(Step(s, es[0]), es[1..]);
    }
  }

  // With the guard, Healthy means in every run that the current network is
  // ready: a pass has completed, and every node it was told of that has not
  // been removed since shows that node's address and identity.
  lemma HealthIsTruthful(es: seq<Event>)
    requires Inv(INIT) && IsRun(INIT, es) && AllGuarded(INIT, es)
    ensures var s := Exec(INIT, es);
      s.panic.None? && s.network.Some? ==>
        var k := s.network.value;
        k < |s.nets| == |s.clusters| && (s.clusters[k].healthy ==>
          && s.nets[k].readyc && s.nets[k].nodes.Some?
          && forall n :: n in s.nets[k].nodes.value && n in s.nets[k].infos ==>
               && ReadUri(s.nets[k].infos[n].uri) == Some((s.nets[k].nodes.value[n].url, s.nets[k].nodes.value[n].port))
               && s.nets[k].infos[n].id == s.nets[k].nodes.value[n].id
               && n in s.nets[k].apiClis && s.nets[k].apiClis[n] == s.nets[k].nodes.value[n].client)
  {
    TruthfulFrom(INIT, es);
    forall n: LiveNode ensures ReadUri(Uri(n)) == Some((n.url, n.port)) {
      UriReads(n);
    }
    hide ConfigsOk, InfosOk, Agreement, View, CallInRange, Uri, ReadUri;
  }

  // ----- when the library and the registry hold the same nodes -----

  // No library call fails in this step.
  predicate LibraryWorks(s: State, e: Event) {
    match e
    case RemoveBody(id, r, _) => Known(s, id) ==> r.LibOk?
    case RestartBody(id, r) => Known(s, id) ==> r.LibOk?
    case RestartAdd(_, node) => node.Some?
    case _ => true
  }

  predicate Known(s: State, id: nat) {
    && id in s.calls && (s.calls[id].WantRemove? || s.calls[id].WantRestart?)
    && s.network.Some? && s.network.value < |s.nets| && s.calls[id].name in s.nets[s.network.value].infos
  }

  // The live nodes are those with an info, except the one that a restart has
  // removed and is about to add.
  ghost predicate Synced(s: State) {
    s.network.Some? && s.network.value < |s.nets| ==>
      var net := s.nets[s.network.value];
      net.nw.Some? && !net.stopc ==>
        net.nw.value.Keys == net.infos.Keys - InTransit(s)
  }

  function InTransit(s: State): set<string> {
    if s.mu.Some? && s.mu.value in s.calls && s.calls[s.mu.value].RestartAdding? then {s.calls[s.mu.value].name} else {}
  }

  // The nets' keys and the node in transit are what they were.
  ghost predicate KeysKept(s: State, t: State) {
    && t.network == s.network && InTransit(t) == InTransit(s)
    && (s.network.Some? && s.network.value < |s.nets| == |t.nets| ==>
          var net, n := s.nets[s.network.value], t.nets[s.network.value];
          n.nw == net.nw && n.infos.Keys == net.infos.Keys && (net.stopc ==> n.stopc))
  }

  lemma RemoveSynced(s: State, e: Event)
    requires Inv(s) && Synced(s) && Enabled(s, e) && e.RemoveBody? && LibraryWorks(s, e)
    ensures Synced(Step(s, e))
  {
    hide WellFormed, View, WatcherInRange, CallInRange, Enumerates;
  }

  lemma RestartSynced(s: State, e: Event)
    requires Inv(s) && Synced(s) && Enabled(s, e) && e.RestartBody? && LibraryWorks(s, e)
    ensures Synced(Step(s, e))
  {
    hide WellFormed, View, WatcherInRange, CallInRange, Config.RestartText, RestartLocked;
    if s.network.Some? {
      RestartKeeps(s.nets[s.network.value], s.calls[e.id].name, s.calls[e.id].start, e.r);
    }
  }

  lemma RestartAddSynced(s: State, e: Event)
    requires Inv(s) && Synced(s) && Enabled(s, e) && e.RestartAdd? && LibraryWorks(s, e)
    ensures Synced(Step(s, e))
  {
    hide WellFormed, View, WatcherInRange, Config.RestartText;
    assert CallInRange(s, s.calls[e.id]);
    assert s.mu == Some(e.id);
  }

  lemma RefreshNodes(net: Net, snapshot: map<string, LiveNode>)
    ensures Refresh(net, snapshot).Done? ==>
              var n := Refresh(net, snapshot).value;
              n.nw == net.nw && n.infos.Keys == net.infos.Keys && n.stopc == net.stopc
  {
  }

  lemma PassSynced(s: State, e: Event)
    requires Paired(s) && InRange(s) && LockHeld(s) && Synced(s) && Enabled(s, e) && e.PassApply?
    ensures Step(s, e).panic.None? ==> Synced(Step(s, e))
  {
    hide Refresh, RestartPending;
    var c := s.calls[e.id];
    assert CallInRange(s, c);
    RefreshNodes(s.nets[c.k], c.p.snapshot);
    HolderOnly(s, e.id);
  }

  // A call that is not the holder's cannot be adding a node back.
  lemma HolderOnly(s: State, id: nat)
    requires LockHeld(s) && id in s.calls && InPass(s.calls[id])
    ensures Holds(s.calls[id]) ==> InTransit(s) == {}
    ensures InTransit(Reply(s, id)) == InTransit(s)
    ensures forall c: Call :: !c.RestartAdding? ==> InTransit(GoOn(s, id, c)) == InTransit(s)
  {
  }

  lemma StartNodes(net: Net, m: StartMove)
    requires CanMove(net, m) && StartMoved(net, m).Done?
    requires net.pc.Creating? ==> net.nw.None? && net.infos.Keys == ConfigNames(|net.cfgs|)
    ensures var n := StartMoved(net, m).value;
      && n.infos.Keys == net.infos.Keys && n.stopc == net.stopc
      && (n.nw == net.nw || (net.nw.None? && n.nw.Some? && n.nw.value.Keys == net.infos.Keys))
  {
    hide Refresh, ConfigNames;
    if m.Apply? {
      RefreshNodes(net, net.pc.snapshot);
    }
  }

  lemma StartSynced(s: State, e: Event)
    requires Inv(s) && Synced(s) && Enabled(s, e) && e.Starter?
    ensures Step(s, e).panic.None? ==> Synced(Step(s, e))
  {
    hide View, WatcherInRange, CallInRange, WellFormed, StartMoved;
    NetFacts(s.nets[e.k]);
    if StartMoved(s.nets[e.k], e.m).Done? {
      StartNodes(s.nets[e.k], e.m);
    }
    if InTransit(s) != {} {
      TransitNeedsLibrary(s);
    }
  }

  lemma TransitNeedsLibrary(s: State)
    requires Core(s) && InTransit(s) != {}
    ensures s.network.Some? && s.network.value < |s.nets| && s.nets[s.network.value].nw.Some?
  {
    hide WellFormed, View;
    assert CallInRange(s, s.calls[s.mu.value]);
  }

  lemma StopSynced(s: State, e: Event)
    requires Inv(s) && Synced(s) && Enabled(s, e) && (e.StopBegin? || e.StopLibrary? || e.StopFinish?)
    ensures Synced(Step(s, e))
  {
    hide WellFormed, View, WatcherInRange;
    assert CallInRange(s, s.calls[e.id]);
    if e.StopBegin? && s.network.Some? {
      NetFacts(s.nets[s.network.value]);
    }
  }

  // Steps that touch neither the nodes nor the transit of a restart.
  lemma KeysKeptSynced(s: State, t: State)
    requires Synced(s) && KeysKept(s, t) && |t.nets| == |s.nets|
    ensures Synced(t)
  {
  }

  lemma CallSynced(s: State, e: Event)
    requires Inv(s) && Synced(s) && Enabled(s, e)
    requires e.Arrive? || e.AbortStart? || e.HealthBegin? || e.HealthBody? || e.PassFail? || e.PassSee?
    ensures Synced(Step(s, e))
  {
    hide WellFormed, View, InRange, Retired, StopLocked, Views, Synced;
    CallKeepsTransit(s, e);
    KeysKeptSynced(s, Step(s, e));
  }

  lemma CallKeepsTransit(s: State, e: Event)
    requires Paired(s) && InRange(s) && LockHeld(s) && Enabled(s, e)
    requires e.Arrive? || e.AbortStart? || e.HealthBegin? || e.HealthBody? || e.PassFail? || e.PassSee?
    ensures KeysKept(s, Step(s, e)) && |Step(s, e).nets| == |s.nets|
  {
    hide InRange, Enumerates;
  }

  lemma StartBodySynced(s: State, e: Event)
    requires Inv(s) && Synced(s) && Enabled(s, e) && e.StartBody?
    ensures Synced(Step(s, e))
  {
    hide WellFormed, View, WatcherInRange, CallInRange, InitialInfos;
  }

  lemma WatchSynced(s: State, e: Event)
    requires Inv(s) && Synced(s) && Enabled(s, e)
    requires e.WatchArm? || e.WatchExit? || e.WatchReady? || e.WatchPublish? || e.CloseServer?
    ensures Synced(Step(s, e))
  {
    hide WellFormed, View, WatcherInRange, CallInRange, Synced;
    KeysKeptSynced(s, Step(s, e));
  }

  lemma SyncedStep(s: State, e: Event)
    requires Inv(s) && Synced(s) && Enabled(s, e) && LibraryWorks(s, e)
    ensures Step(s, e).panic.None? ==> Synced(Step(s, e))
  {
    hide WellFormed, View, CallInRange, WatcherInRange, Synced, LibraryWorks, Step;
    match e
    case RemoveBody(_, _, _) => RemoveSynced(s, e);
    case RestartBody(_, _) => RestartSynced(s, e);
    case RestartAdd(_, _) => RestartAddSynced(s, e);
    case PassApply(_) => PassSynced(s, e);
    case Starter(_, _) => StartSynced(s, e);
    case StopBegin(_) => StopSynced(s, e);
    case StopLibrary(_, _) => StopSynced(s, e);
    case StopFinish(_) => StopSynced(s, e);
    case StartBody(_, _, _) => StartBodySynced(s, e);
    case WatchArm(_) => WatchSynced(s, e);
    case WatchExit(_) => WatchSynced(s, e);
    case WatchReady(_) => WatchSynced(s, e);
    case WatchPublish(_) => WatchSynced(s, e);
    case CloseServer => WatchSynced(s, e);
    case _ => CallSynced(s, e);
  }

  ghost predicate LibraryAlwaysWorks(s: State, es: seq<Event>)
    requires Inv(s) && IsRun(s, es)
    decreases |es|
  {
    es == [] || (LibraryWorks(s, es[0]) && (StepKeeps(s, es[0]); LibraryAlwaysWorks(Step(s, es[0]), es[1..])))
  }

  lemma {:induction false} SyncedFrom(s: State, es: seq<Event>)
    requires Inv(s) && Synced(s) && IsRun(s, es) && LibraryAlwaysWorks(s, es)
    ensures Exec(s, es).panic.None? ==> Synced(Exec(s, es))
    decreases |es|
  {
    hide WellFormed, InRange, Views, Step, Synced, LibraryWorks;
    if es != [] {
      StepKeeps(s, es[0]);
      SyncedStep(s, es[0]);
      if Step(s, es[0]).panic.None? {
        SyncedFrom(Step(s, es[0]), es[1..]);
      } else {
        PanicEnds(Step(s, es[0]), es[1..]);
      }
    }
  }

  // In every run the live nodes have infos and the infos have configurations;
  // live nodes and infos are the same names on every run in which no library
  // call failed, whenever the lock is free and the cluster is up.
  lemma LiveInfosConfigs(es: seq<Event>)
    requires Inv(INIT) && IsRun(INIT, es)
    ensures var s := Exec(INIT, es);
      s.panic.None? && s.network.Some? ==>
        s.network.value < |s.nets| &&
        var net := s.nets[s.network.value];
        && net.infos.Keys <= ConfigNames(|net.cfgs|)
        && (net.nw.Some? ==> net.nw.value.Keys <= net.infos.Keys)
        && (net.nw.Some? && s.mu.None? && LibraryAlwaysWorks(INIT, es) ==> net.nw.value.Keys == net.infos.Keys)
  {
    if LibraryAlwaysWorks(INIT, es) {
      SyncedFrom(INIT, es);
    }
    hide ConfigsOk, Agreement, Filled, ChannelsOk, View, CallInRange;
  }
}
