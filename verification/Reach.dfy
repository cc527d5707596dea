// Runs on which the code breaks its promises: every panic that a step can raise
// is reached, Healthy lies, Stop lowers the wrong flag, a Config field goes stale.
module Reach {
  import opened Basics
  import opened Registry
  import opened Lifecycle
  import opened Runs
  import opened Health
  import opened Effects
  import opened Panics
  import opened History
  import opened Replies
  import Config

  ghost predicate Reachable(s: State) {
    Inv(s) && Inv(INIT) && exists es :: IsRun(INIT, es) && Exec(INIT, es) == s
  }

  lemma InitReachable()
    ensures Reachable(INIT)
  {
    assert IsRun(INIT, []) && Exec(INIT, []) == INIT;
  }

  lemma ReachStep(s: State, e: Event)
    requires Reachable(s) && Enabled(s, e)
    ensures Paired(s) && InRange(s) && Reachable(Step(s, e))
  {
    hide WellFormed, InRange, Views, Step;
    var es :| IsRun(INIT, es) && Exec(INIT, es) == s;
    StepKeeps(s, e);
    AppendRun(INIT, es, e);
  }

  // ----- building blocks -----

  lemma ShapeOf(s: State)
    requires Reachable(s) && s.panic.None?
    ensures |s.nets| == |s.clusters| == |s.watchers| && s.network == s.clusterInfo
    ensures s.network.Some? ==> s.network.value + 1 == |s.nets|
  {
  }

  lemma CanInstall(s: State, id: nat, l: Launch, defaults: seq<NodeConfig>) returns (t: State)
    requires Reachable(s) && s.panic.None? && s.mu.None? && s.network.None? && id !in s.calls && |defaults| <= |COLORS|
    ensures Reachable(t)
    ensures t == s.(network := Some(|s.nets|), clusterInfo := Some(|s.clusters|),
                    nets := s.nets + [InitialNet(l, defaults)],
                    clusters := s.clusters + [Cluster(l.root, None, None, false)], watchers := s.watchers + [Armed])
  {
    hide WellFormed, CallInRange, WatcherInRange, View, InitialNet;
    var e1, e2 := Arrive(id, StartReq(l)), StartBody(id, defaults, true);
    ReachStep(s, e1);
    var s1 := Step(s, e1);
    ReachStep(s1, e2);
    t := Step(s1, e2);
    assert s.calls[id := WantStart(l)] - {id} == s.calls;
  }

  lemma CanCreate(s: State, k: nat, node: LiveNode) returns (t: State)
    requires Reachable(s) && s.panic.None? && k < |s.nets| && s.nets[k].pc.Creating?
    ensures Reachable(t) && k < |t.nets| && t == SetNet(s, k, t.nets[k]) && t.nets[k].pc.Waiting?
    ensures t.nets[k].nw.Some? && t.nets[k].nw.value.Keys == s.nets[k].infos.Keys
    ensures t.nets[k] == s.nets[k].(nw := t.nets[k].nw, pc := Waiting)
  {
    hide WellFormed, CallInRange, WatcherInRange, View, ConfigNames;
    NetFacts(s.nets[k]);
    var live := map n | n in s.nets[k].infos :: node;
    assert live.Keys == s.nets[k].infos.Keys;
    var e := Starter(k, Create(Some(live)));
    ReachStep(s, e);
    t := Step(s, e);
  }

  lemma CanSee(s: State, k: nat) returns (t: State)
    requires Reachable(s) && s.panic.None? && k < |s.nets| && s.nets[k].pc.Waiting? && s.nets[k].nw.Some?
    ensures Reachable(t) && t == SetNet(s, k, s.nets[k].(pc := Refreshing(s.nets[k].nw.value)))
  {
    hide WellFormed, CallInRange, WatcherInRange, View;
    var e := Starter(k, See);
    ReachStep(s, e);
    t := Step(s, e);
  }

  lemma CanPass(s: State, k: nat) returns (t: State)
    requires Reachable(s) && s.panic.None? && k < |s.nets| && s.nets[k].pc.Waiting? && s.nets[k].nw.Some?
    ensures Reachable(t) && k < |t.nets| && t == SetNet(s, k, t.nets[k]) && t.nets[k].pc.Closing? && t.nets[k].readyc
    ensures t.nets[k].nw == s.nets[k].nw && OnlyAddresses(s.nets[k], t.nets[k])
  {
    hide WellFormed, CallInRange, WatcherInRange, View, Refresh;
    var s1 := CanSee(s, k);
    NetFacts(s.nets[k]);
    RefreshKeeps(s1.nets[k], s1.nets[k].pc.snapshot);
    var e := Starter(k, Apply);
    ReachStep(s1, e);
    t := Step(s1, e);
  }

  // A cluster that is up, its start() about to return.
  ghost predicate Up(t: State, k: nat) {
    && Reachable(t) && t.panic.None? && t.mu.None?
    && t.network == Some(k) && k < |t.nets| == |t.clusters| == |t.watchers|
    && t.nets[k].pc.Closing? && t.nets[k].readyc
    && t.nets[k].nw.Some? && t.nets[k].nw.value.Keys == t.nets[k].infos.Keys
  }

  lemma CanBringUp(s: State, id: nat, l: Launch, defaults: seq<NodeConfig>, node: LiveNode) returns (t: State)
    requires Reachable(s) && s.panic.None? && s.mu.None? && s.network.None? && id !in s.calls && |defaults| <= |COLORS|
    ensures Up(t, |s.nets|) && OnlyAddresses(InitialNet(l, defaults), t.nets[|s.nets|])
    ensures t.calls == s.calls && |t.nets| == |s.nets| + 1
    ensures t.watchers == s.watchers + [Armed] && t.clusters == s.clusters + [Cluster(l.root, None, None, false)]
  {
    hide WellFormed, CallInRange, WatcherInRange, View, Reachable, InitialNet, OnlyAddresses;
    var k := |s.nets|;
    ShapeOf(s);
    var s1 := CanInstall(s, id, l, defaults);
    StartsCreating(l, defaults);
    var s2 := CanCreate(s1, k, node);
    t := CanPass(s2, k);
    CreatedSame(s1.nets[k], s2.nets[k], t.nets[k]);
  }

  lemma StartsCreating(l: Launch, defaults: seq<NodeConfig>)
    requires |defaults| <= |COLORS|
    ensures var net := InitialNet(l, defaults);
      && net.pc.Creating? && net.nw.None? && !net.readyc && net.infos.Keys == ConfigNames(|defaults|)
  {
    InitialInfosKeys(l, |defaults|);
  }

  lemma CreatedSame(a: Net, b: Net, c: Net)
    requires b == a.(nw := b.nw, pc := b.pc) && a.nw.None? && a.pc.Creating? && OnlyAddresses(b, c)
    ensures OnlyAddresses(a, c) && c.infos.Keys == a.infos.Keys && c.infos.Keys == b.infos.Keys
  {
  }

  // The cluster's watcher sees readyc closed.
  lemma CanFire(s: State, k: nat) returns (t: State)
    requires Reachable(s) && s.panic.None? && s.network == Some(k) && k < |s.nets| && s.nets[k].readyc
    requires k < |s.watchers| && s.watchers[k].Armed?
    ensures Reachable(t) && t == SetWatcher(s, k, Firing(k))
  {
    hide WellFormed, CallInRange, WatcherInRange, View;
    var e1, e2 := WatchArm(k), WatchReady(k);
    ReachStep(s, e1);
    var s1 := Step(s, e1);
    ReachStep(s1, e2);
    t := Step(s1, e2);
    assert t.watchers == s.watchers[k := Firing(k)];
  }

  // A call passes its pre-check on a bootstrapped server.
  function Awaiting(req: Request, info: nat): Call {
    match req
    case StartReq(l) => WantStart(l)
    case HealthReq => WantHealth
    case RemoveReq(name) => WantRemove(name)
    case RestartReq(name, start) => WantRestart(name, start)
    case StopReq => WantStop(info)
  }

  lemma CanAsk(s: State, id: nat, req: Request) returns (t: State)
    requires Reachable(s) && s.panic.None? && s.mu.None? && s.network.Some? && id !in s.calls && !req.StartReq?
    ensures Reachable(t) && t == s.(calls := s.calls[id := Awaiting(req, s.network.value)])
  {
    hide WellFormed, CallInRange, WatcherInRange, View;
    ShapeOf(s);
    ReachStep(s, Arrive(id, req));
    t := Step(s, Arrive(id, req));
  }

  lemma CanCloseStopc(s: State, id: nat, k: nat) returns (t: State)
    requires Reachable(s) && s.panic.None? && s.mu.None? && id in s.calls && s.calls[id].WantStop?
    requires s.network == Some(k) && k < |s.nets|
    ensures Reachable(t) && k < |t.nets| && t == Acquire(SetNet(s, k, t.nets[k]), id, StopClosing(k, s.calls[id].info))
    ensures t.nets[k] == s.nets[k].(stopc := true, stopOnce := true)
  {
    hide WellFormed, CallInRange, WatcherInRange, View;
    StopBeginKeeps(s, id);
    NetFacts(s.nets[k]);
    ReachStep(s, StopBegin(id));
    t := Step(s, StopBegin(id));
  }

  lemma CanStopLibrary(s: State, id: nat, k: nat) returns (t: State)
    requires Reachable(s) && s.panic.None? && id in s.calls && s.calls[id].StopClosing? && s.calls[id].k == k
    requires k < |s.nets| && s.nets[k].nw.Some?
    ensures Reachable(t) && k < |t.nets| && t == GoOn(SetNet(s, k, t.nets[k]), id, StopWaiting(k, s.calls[id].info))
    ensures t.nets[k].pc == s.nets[k].pc && t.nets[k].donec == s.nets[k].donec
  {
    hide WellFormed, CallInRange, WatcherInRange, View;
    ReachStep(s, StopLibrary(id, {}));
    t := Step(s, StopLibrary(id, {}));
  }

  // A Stop gets the lock and waits until start() has returned.
  lemma CanStopNearly(s: State, id: nat, k: nat) returns (t: State)
    requires Up(s, k) && id in s.calls && s.calls[id].WantStop?
    ensures Reachable(t) && Enabled(t, StopFinish(id)) && |t.nets| == |s.nets|
    ensures t == Acquire(s, id, StopWaiting(k, s.calls[id].info)).(nets := t.nets)
  {
    hide WellFormed, CallInRange, WatcherInRange, View, Reachable;
    var s1 := CanCloseStopc(s, id, k);
    var s2 := CanStopLibrary(s1, id, k);
    t := CanReturn(s2, k);
    assert s.calls[id := StopClosing(k, s.calls[id].info)][id := StopWaiting(k, s.calls[id].info)]
        == s.calls[id := StopWaiting(k, s.calls[id].info)];
  }

  lemma CanReturn(s: State, k: nat) returns (t: State)
    requires Reachable(s) && s.panic.None? && k < |s.nets| && s.nets[k].pc.Closing?
    ensures Reachable(t) && k < |t.nets| && t == SetNet(s, k, t.nets[k]) && t.nets[k].donec
  {
    hide WellFormed, CallInRange, WatcherInRange, View;
    NetFacts(s.nets[k]);
    ReachStep(s, Starter(k, CloseDonec));
    t := Step(s, Starter(k, CloseDonec));
  }

  lemma CanFinishStop(s: State, id: nat) returns (t: State)
    requires Reachable(s) && Enabled(s, StopFinish(id))
    ensures Reachable(t) && t.panic.None? && t.network.None? && t.mu.None? && t.calls == s.calls - {id}
    ensures |t.nets| == |s.nets| && t.watchers == s.watchers
  {
    hide WellFormed, CallInRange, WatcherInRange, View;
    ReachStep(s, StopFinish(id));
    t := Step(s, StopFinish(id));
  }

  // A cluster is stopped by a call that nobody else has the id of; the calls in
  // flight stay where they are.
  lemma CanStop(s: State, id: nat, k: nat) returns (t: State)
    requires Up(s, k) && id !in s.calls
    ensures Reachable(t) && t.panic.None? && t.network.None? && t.mu.None? && t.calls == s.calls
    ensures |t.nets| == |s.nets| && t.watchers == s.watchers
  {
    hide WellFormed, CallInRange, WatcherInRange, View, Reachable;
    var s1 := CanAsk(s, id, StopReq);
    var s2 := CanStopNearly(s1, id, k);
    t := CanFinishStop(s2, id);
    assert s2.calls - {id} == s.calls;
  }

  // A first cluster that is up.
  const LAUNCH := Launch("", "", "", "")
  const NODE := LiveNode("", 0, "", 0)
  const DEFAULTS: seq<NodeConfig> := [NodeConfig("", "", Foreign(0), 0)]

  lemma CanStartFirst() returns (t: State)
    ensures Up(t, 0) && t.calls == map[] && t.watchers == [Armed] && |t.nets| == 1
    ensures t.nets[0].infos.Keys == {NodeName(0)}
  {
    hide WellFormed, CallInRange, WatcherInRange, View, Reachable, InitialNet, OnlyAddresses;
    InitReachable();
    t := CanBringUp(INIT, 0, LAUNCH, DEFAULTS, NODE);
    OneName(LAUNCH, DEFAULTS, t.nets[0]);
  }

  lemma OneName(l: Launch, defaults: seq<NodeConfig>, n: Net)
    requires |defaults| == 1 && OnlyAddresses(InitialNet(l, defaults), n)
    ensures n.infos.Keys == {NodeName(0)}
  {
    InitialInfosKeys(l, 1);
    assert ConfigNames(1) == ConfigNames(0) + {NodeName(0)};
  }

  // ----- Healthy can lie -----

  // Without the guard: a watcher left over from a stopped cluster raises the
  // flag of a new one whose start() has not even created its network. The new
  // cluster may be any.
  lemma HealthyCanLie(l: Launch, defaults: seq<NodeConfig>)
    requires |defaults| <= |COLORS|
    ensures exists t ::
              && Reachable(t) && t.panic.None? && !Truthful(t)
              && |t.nets| == 2 && t.network == Some(1) && t.nets[1] == InitialNet(l, defaults)
  {
    hide WellFormed, CallInRange, WatcherInRange, View, Reachable, Up, InitialNet;
    var s1 := CanReachLeftOver();
    var s2 := CanInstall(s1, 0, l, defaults);
    ShapeOf(s2);
    StartsCreating(l, defaults);
    var t := PublishNow(s2, 0);
    assert !Truthful(t);
  }

  // A stopped cluster whose watcher is still about to publish.
  lemma CanReachLeftOver() returns (t: State)
    ensures Reachable(t) && t.panic.None? && t.mu.None? && t.calls == map[] && t.network.None?
    ensures |t.nets| == 1 && t.watchers == [Firing(0)]
  {
    hide WellFormed, CallInRange, WatcherInRange, View, Reachable;
    var s1 := CanStartFirst();
    var s2 := CanFire(s1, 0);
    t := CanStop(s2, 0, 0);
  }

  lemma PublishNow(s: State, w: nat) returns (t: State)
    requires Reachable(s) && s.panic.None? && s.mu.None? && s.network.Some? && w < |s.watchers| && s.watchers[w].Firing?
    ensures Reachable(t) && t.panic.None? && t.nets == s.nets && t.calls == s.calls && t.mu == s.mu
    ensures t.network == s.network && |t.watchers| == |s.watchers| && |t.clusters| == |s.clusters|
    ensures s.network.value < |s.nets| == |s.clusters| && t.clusters[s.network.value].healthy
  {
    hide WellFormed, CallInRange, WatcherInRange, View;
    ReachStep(s, WatchPublish(w));
    t := Step(s, WatchPublish(w));
  }

  // ----- Stop can lower another cluster's flag -----

  // A Stop is about to finish and will leave the flag of its cluster up.
  ghost predicate MissesTheFlag(s: State, id: nat) {
    && Reachable(s) && Enabled(s, StopFinish(id))
    && var k, t := s.calls[id].k, Step(s, StopFinish(id));
       k < |s.clusters| == |t.clusters| && s.clusters[k].healthy && t.clusters[k].healthy
  }

  // Two Stops pass their pre-check on one cluster. The first stops it, a second
  // cluster starts and turns healthy, and the other Stop stops that one without
  // lowering its flag.
  lemma StopCanMissTheFlag()
    ensures exists s, id :: MissesTheFlag(s, id)
  {
    hide WellFormed, CallInRange, WatcherInRange, View, Reachable, InitialNet;
    var s1 := CanStartFirst();
    var s2 := CanAsk(s1, 1, StopReq);
    var s3 := CanStop(s2, 0, 0);
    var s4 := CanBringUp(s3, 0, LAUNCH, DEFAULTS, NODE);
    var s5 := CanFire(s4, 1);
    var s6 := PublishNow(s5, 1);
    var s7 := CanStopNearly(s6, 1, 1);
    assert s7.calls[1] == StopWaiting(1, 0);
    LeavesFlag(s7, 1);
  }

  lemma LeavesFlag(s: State, id: nat)
    requires Reachable(s) && Enabled(s, StopFinish(id)) && s.calls[id].info != s.calls[id].k
    requires s.calls[id].k < |s.clusters| && s.clusters[s.calls[id].k].healthy
    ensures MissesTheFlag(s, id)
  {
    hide WellFormed, CallInRange, WatcherInRange, View, IsRun, Exec;
    ReachStep(s, StopFinish(id));
    StopFinishes(s, id);
  }

  // ----- every panic that a step can raise does happen -----

  datatype Kind = Arrives | StartAborts | StartLocked | HealthBegins | HealthLocked | RemoveLocks | RestartLocks
                | RestartAdds | PassFails | PassSees | PassApplies | StopBegins | StopsLibrary | StopFinishing
                | StarterMoves | WatcherArms | WatcherExits | WatcherSeesReady | WatcherPublishes | ServerCloses

  function KindOf(e: Event): Kind {
    match e
    case Arrive(_, _) => Arrives
    case AbortStart(_) => StartAborts
    case StartBody(_, _, _) => StartLocked
    case HealthBegin(_) => HealthBegins
    case HealthBody(_, _) => HealthLocked
    case RemoveBody(_, _, _) => RemoveLocks
    case RestartBody(_, _) => RestartLocks
    case RestartAdd(_, _) => RestartAdds
    case PassFail(_, _) => PassFails
    case PassSee(_) => PassSees
    case PassApply(_) => PassApplies
    case StopBegin(_) => StopBegins
    case StopLibrary(_, _) => StopsLibrary
    case StopFinish(_) => StopFinishing
    case Starter(_, _) => StarterMoves
    case WatchArm(_) => WatcherArms
    case WatchExit(_) => WatcherExits
    case WatchReady(_) => WatcherSeesReady
    case WatchPublish(_) => WatcherPublishes
    case CloseServer => ServerCloses
  }

  // What each kind of step can panic with.
  function Raises(k: Kind): set<Panic> {
    match k
    // the default configuration has more nodes than there are colours
    case StartLocked => {IndexRange}
    // a Stop has emptied the slot since the pre-check, or nothing is created yet
    case HealthBegins => {NilNetwork, NilLibrary}
    case RemoveLocks => {NilNetwork, NilLibrary}
    case RestartLocks => {NilNetwork, NilLibrary, NilRequest}
    case HealthLocked => {NilNetwork}
    case StopBegins => {NilNetwork}
    case StopsLibrary => {NilLibrary}
    // a node that was seen has been removed
    case PassApplies => {NilEntry}
    case StarterMoves => {NilEntry}
    // a Stop came before the watcher looked
    case WatcherArms => {NilNetwork}
    case WatcherPublishes => {NilNetwork}
    case _ => {}
  }

  // A run leads to a state in which this step panics.
  ghost predicate PanicsAt(s: State, e: Event, p: Panic) {
    Reachable(s) && Enabled(s, e) && Step(s, e).panic == Some(p)
  }

  // A run leads to a step of this kind that raises this panic.
  ghost predicate Happens(k: Kind, p: Panic) {
    exists s, e :: PanicsAt(s, e, p) && KindOf(e) == k
  }

  // A call past its pre-check, and the slot emptied by a Stop in between.
  lemma CanStrand(req: Request) returns (t: State)
    requires !req.StartReq?
    ensures Reachable(t) && t.panic.None? && t.mu.None? && t.network.None?
    ensures 1 in t.calls && t.calls[1] == Awaiting(req, 0)
  {
    hide WellFormed, CallInRange, WatcherInRange, View, Reachable;
    var s1 := CanStartFirst();
    var s2 := CanAsk(s1, 1, req);
    t := CanStop(s2, 0, 0);
  }

  lemma StrandedPanics(s: State, e: Event)
    requires Reachable(s) && Enabled(s, e) && s.network.None?
    requires e.HealthBegin? || e.HealthBody? || e.RemoveBody? || e.RestartBody? || e.StopBegin? || e.WatchArm?
             || e.WatchPublish?
    ensures Happens(KindOf(e), NilNetwork)
  {
    hide WellFormed, CallInRange, WatcherInRange, View;
    assert Step(s, e).panic == Some(NilNetwork);
    assert PanicsAt(s, e, NilNetwork);
  }

  lemma CanWantPublish() returns (t: State)
    ensures Up(t, 0) && t.calls == map[1 := WantPublish] && |t.nets| == 1
  {
    hide WellFormed, CallInRange, WatcherInRange, View, Reachable;
    var s1 := CanStartFirst();
    var s2 := CanSeeAs(s1, 0);
    t := CanApplyAs(s2, s1, 0);
  }

  // Health's pass has seen the library's answer.
  lemma CanSeeAs(s: State, k: nat) returns (t: State)
    requires Up(s, k) && s.calls == map[]
    ensures Reachable(t) && t == s.(calls := map[1 := HealthPass(k, Seen(s.nets[k].nw.value))])
  {
    hide WellFormed, CallInRange, WatcherInRange, View, IsRun, Exec;
    var s1 := CanPoll(s, k);
    ReachStep(s1, PassSee(1));
    t := Step(s1, PassSee(1));
    assert t.calls == map[1 := HealthPass(k, Seen(s.nets[k].nw.value))];
  }

  lemma CanPoll(s: State, k: nat) returns (t: State)
    requires Up(s, k) && s.calls == map[]
    ensures Reachable(t) && t == s.(calls := map[1 := HealthPass(k, Polling)])
  {
    hide WellFormed, CallInRange, WatcherInRange, View, IsRun, Exec;
    var s1 := CanAsk(s, 1, HealthReq);
    ReachStep(s1, HealthBegin(1));
    t := Step(s1, HealthBegin(1));
    assert t.calls == map[1 := HealthPass(k, Polling)];
  }

  lemma CanApplyAs(s: State, up: State, k: nat) returns (t: State)
    requires Up(up, k) && Reachable(s) && s == up.(calls := map[1 := HealthPass(k, Seen(up.nets[k].nw.value))])
    ensures Up(t, k) && t.calls == map[1 := WantPublish] && |t.nets| == |s.nets|
  {
    hide WellFormed, CallInRange, WatcherInRange, View, Refresh;
    RefreshKeeps(s.nets[k], up.nets[k].nw.value);
    ReachStep(s, PassApply(1));
    t := Step(s, PassApply(1));
    assert t.calls == map[1 := WantPublish];
  }

  lemma NilNetworkAfterStop()
    ensures Happens(HealthBegins, NilNetwork) && Happens(RemoveLocks, NilNetwork)
    ensures Happens(RestartLocks, NilNetwork) && Happens(StopBegins, NilNetwork)
  {
    hide Core, Reachable, Happens, Step;
    var s1 := CanStrand(HealthReq);
    StrandedPanics(s1, HealthBegin(1));
    var s2 := CanStrand(RemoveReq(""));
    StrandedPanics(s2, RemoveBody(1, LibErr(false), []));
    var s3 := CanStrand(RestartReq("", None));
    StrandedPanics(s3, RestartBody(1, LibErr(false)));
    var s4 := CanStrand(StopReq);
    StrandedPanics(s4, StopBegin(1));
  }

  // A Stop between the pre-check and the lock, between Health's wait and its
  // lock, or before the watcher looks leaves them with no network.
  lemma NilNetworkHappens(k: Kind)
    requires NilNetwork in Raises(k)
    ensures Happens(k, NilNetwork)
  {
    hide Core, Reachable, Happens, Step;
    NilNetworkAfterStop();
    if k == HealthLocked {
      var s1 := CanWantPublish();
      var s2 := CanStop(s1, 0, 0);
      StrandedPanics(s2, HealthBody(1, []));
    } else if k == WatcherArms {
      var s1 := CanStartFirst();
      var s2 := CanStop(s1, 0, 0);
      StrandedPanics(s2, WatchArm(0));
    } else if k == WatcherPublishes {
      var s1 := CanReachLeftOver();
      StrandedPanics(s1, WatchPublish(0));
    }
  }

  // A cluster right after Start: its start() has created nothing yet.
  lemma CanInstallFirst() returns (t: State)
    ensures Reachable(t) && t.panic.None? && t.mu.None? && t.network == Some(0) && |t.nets| == 1 && t.calls == map[]
    ensures t.nets[0].nw.None? && t.nets[0].pc.Creating? && t.nets[0].infos.Keys == {NodeName(0)}
  {
    hide WellFormed, CallInRange, WatcherInRange, View, Reachable, InitialNet;
    InitReachable();
    t := CanInstall(INIT, 0, LAUNCH, DEFAULTS);
    StartsCreating(LAUNCH, DEFAULTS);
    assert ConfigNames(1) == ConfigNames(0) + {NodeName(0)};
  }

  lemma NoLibraryPanics(s: State, e: Event)
    requires Reachable(s) && Enabled(s, e) && s.network == Some(0) && 0 < |s.nets| && s.nets[0].nw.None?
    requires e.HealthBegin? || e.RemoveBody? || e.StopLibrary?
    requires e.RemoveBody? ==> s.calls[e.id].name in s.nets[0].infos
    ensures Happens(KindOf(e), NilLibrary)
  {
    hide WellFormed, WatcherInRange, View, RestartPending;
    if e.StopLibrary? {
      assert CallInRange(s, s.calls[e.id]);
    }
    hide CallInRange;
    assert Step(s, e).panic == Some(NilLibrary);
    assert PanicsAt(s, e, NilLibrary);
  }

  lemma NoLibraryForRestart(s: State, id: nat)
    requires Reachable(s) && Enabled(s, RestartBody(id, LibErr(false)))
    requires s.network == Some(0) && 0 < |s.nets| && s.nets[0].nw.None?
    requires s.calls[id].name in s.nets[0].infos && s.calls[id].start == Some(RestartStart("", Some("")))
    ensures Happens(RestartLocks, NilLibrary)
  {
    hide WellFormed, CallInRange, WatcherInRange, View, RestartLocked;
    var e := RestartBody(id, LibErr(false));
    RestartWithoutLibrary(s.nets[0], s.calls[id].name, s.calls[id].start, LibErr(false));
    assert Step(s, e).panic == Some(NilLibrary);
    assert PanicsAt(s, e, NilLibrary);
  }

  lemma RestartWithoutLibrary(net: Net, name: string, start: Option<RestartStart>, r: LibResult)
    requires WellFormed(net) && name in net.infos && start.Some? && start.value.subnets.Some? && net.nw.None?
    ensures RestartLocked(net, name, start, r) == Panicked(NilLibrary)
  {
    hide WellFormed;
    RestartSearchSucceeds(net, name);
  }

  lemma NodeCallsWithoutLibrary()
    ensures Happens(RemoveLocks, NilLibrary) && Happens(RestartLocks, NilLibrary)
  {
    hide Core, Reachable, Happens, Step, Enumerates;
    var name := NodeName(0);
    var s1 := CanInstallFirst();
    var s2 := CanAsk(s1, 1, RemoveReq(name));
    NothingLeft(s2.nets[0], name);
    NoLibraryPanics(s2, RemoveBody(1, LibErr(false), []));
    var s3 := CanAsk(s1, 1, RestartReq(name, Some(RestartStart("", Some("")))));
    NoLibraryForRestart(s3, 1);
  }

  lemma ClusterCallsWithoutLibrary()
    ensures Happens(HealthBegins, NilLibrary) && Happens(StopsLibrary, NilLibrary)
  {
    hide Core, Reachable, Happens, Step;
    var s1 := CanInstallFirst();
    var s2 := CanAsk(s1, 1, HealthReq);
    NoLibraryPanics(s2, HealthBegin(1));
    var s3 := CanAsk(s1, 1, StopReq);
    var s4 := CanCloseStopc(s3, 1, 0);
    NoLibraryPanics(s4, StopLibrary(1, {}));
  }

  // A call that comes before start() has created the library's network.
  lemma NilLibraryHappens(k: Kind)
    requires NilLibrary in Raises(k)
    ensures Happens(k, NilLibrary)
  {
    hide Happens;
    NodeCallsWithoutLibrary();
    ClusterCallsWithoutLibrary();
  }

  lemma NothingLeft(net: Net, name: string)
    requires net.infos.Keys == {name}
    ensures Enumerates([], net.infos.Keys - {name})
  {
    assert net.infos.Keys - {name} == {};
  }

  // A default configuration with more nodes than there are colours.
  lemma IndexRangeHappens(l: Launch, defaults: seq<NodeConfig>)
    requires |defaults| > |COLORS|
    ensures Happens(StartLocked, IndexRange)
    ensures exists s :: PanicsAt(s, StartBody(0, defaults, true), IndexRange) && s.calls[0] == WantStart(l)
  {
    hide WellFormed, CallInRange, WatcherInRange, View, InitialNet;
    InitReachable();
    ReachStep(INIT, Arrive(0, StartReq(l)));
    var s := Step(INIT, Arrive(0, StartReq(l)));
    var e := StartBody(0, defaults, true);
    assert PanicsAt(s, e, IndexRange);
  }

  // A restart request without its start request, or without the subnets in it.
  lemma NilRequestHappens(start: Option<RestartStart>)
    requires start.None? || start.value.subnets.None?
    ensures Happens(RestartLocks, NilRequest)
    ensures exists s, name :: PanicsAt(s, RestartBody(1, LibOk), NilRequest) && s.calls[1] == WantRestart(name, start)
  {
    hide WellFormed, CallInRange, WatcherInRange, View, Reachable, IsRun, Exec;
    var name := NodeName(0);
    var s := CanStartFirst();
    var s1 := CanAsk(s, 1, RestartReq(name, start));
    IncompletePanics(s1, name, start);
    assert PanicsAt(s1, RestartBody(1, LibOk), NilRequest);
  }

  lemma IncompletePanics(s: State, name: string, start: Option<RestartStart>)
    requires Reachable(s) && s.panic.None? && s.mu.None? && s.network == Some(0) && 0 < |s.nets|
    requires 1 in s.calls && s.calls[1] == WantRestart(name, start) && (start.None? || start.value.subnets.None?)
    requires name in s.nets[0].infos && s.nets[0].nw.Some? && name in s.nets[0].nw.value
    ensures Enabled(s, RestartBody(1, LibOk)) && Paired(s) && InRange(s)
    ensures Step(s, RestartBody(1, LibOk)).panic == Some(NilRequest)
  {
    hide WellFormed, CallInRange, WatcherInRange, View;
    RestartSearchSucceeds(s.nets[0], name);
  }

  // A step that goes well, and panics once this RemoveNode has come first.
  ghost predicate LosesNode(s: State, r: Event, e: Event) {
    && Reachable(s) && r.RemoveBody? && Enabled(s, r) && Enabled(s, e)
    && Step(s, e).panic.None? && PanicsAt(Step(s, r), e, NilEntry)
  }

  const REMOVAL := RemoveBody(2, LibOk, [])

  // RemoveNode is about to take away the only node.
  ghost predicate AboutToRemove(s: State) {
    && Reachable(s) && Enabled(s, REMOVAL) && s.network == Some(0) && 0 < |s.nets| && s.nets[0].nw.Some?
    && s.nets[0].infos.Keys == s.nets[0].nw.value.Keys == {s.calls[2].name}
  }

  lemma CanAskRemoval(s: State, name: string) returns (t: State)
    requires Reachable(s) && s.panic.None? && s.mu.None? && s.network == Some(0) && 0 < |s.nets| && 2 !in s.calls
    requires s.nets[0].nw.Some? && s.nets[0].infos.Keys == s.nets[0].nw.value.Keys == {name}
    ensures AboutToRemove(t) && t == s.(calls := s.calls[2 := WantRemove(name)])
  {
    hide WellFormed, CallInRange, WatcherInRange, View, Reachable, Enumerates;
    t := CanAsk(s, 2, RemoveReq(name));
    NothingLeft(t.nets[0], name);
  }

  lemma RemovalDone(s: State)
    requires AboutToRemove(s)
    ensures Paired(s) && InRange(s)
    ensures var t := Step(s, REMOVAL);
      && Reachable(t) && t.panic.None? && t.calls - {2} == s.calls - {2}
      && |t.nets| == |s.nets| && t.nets[0].infos == map[] && t.nets[0].pc == s.nets[0].pc
  {
    hide WellFormed, CallInRange, WatcherInRange, View, Enumerates;
    ReachStep(s, REMOVAL);
  }

  lemma PassLosesNode()
    ensures exists s :: LosesNode(s, REMOVAL, PassApply(1))
  {
    hide WellFormed, CallInRange, WatcherInRange, View, Reachable, LosesNode, AboutToRemove;
    var s := CanStartFirst();
    var s1 := CanSeeAs(s, 0);
    var s2 := CanAskRemoval(s1, NodeName(0));
    PassIsLost(s2, s.nets[0].nw.value);
  }

  lemma PassIsLost(s: State, seen: map<string, LiveNode>)
    requires AboutToRemove(s) && 1 in s.calls && s.calls[1] == HealthPass(0, Seen(seen))
    requires seen.Keys == s.nets[0].infos.Keys
    ensures LosesNode(s, REMOVAL, PassApply(1))
  {
    hide Core, Step, Enumerates, LibraryAllows, IsRun, Exec;
    RemovalDone(s);
    var t := Step(s, REMOVAL);
    assert 1 in t.calls - {2} && t.calls[1] == s.calls[1];
    PassGoesWell(s, seen);
    assert s.calls[2].name in seen;
    LostPanics(t, seen);
  }

  lemma PassGoesWell(s: State, seen: map<string, LiveNode>)
    requires Inv(s) && s.panic.None? && 1 in s.calls && s.calls[1] == HealthPass(0, Seen(seen))
    requires 0 < |s.nets| && seen.Keys == s.nets[0].infos.Keys
    ensures Enabled(s, PassApply(1)) && Step(s, PassApply(1)).panic.None?
  {
    hide WellFormed, CallInRange, WatcherInRange, View, OnPassApply;
    PassApplyKeeps(s, 1);
  }

  lemma LostPanics(s: State, lost: map<string, LiveNode>)
    requires Reachable(s) && s.panic.None? && 1 in s.calls && s.calls[1] == HealthPass(0, Seen(lost))
    requires 0 < |s.nets| && !(lost.Keys <= s.nets[0].infos.Keys)
    ensures PanicsAt(s, PassApply(1), NilEntry)
  {
    hide WellFormed, CallInRange, WatcherInRange, View;
  }

  lemma StartLosesNode()
    ensures exists s :: LosesNode(s, REMOVAL, Starter(0, Apply))
  {
    hide WellFormed, CallInRange, WatcherInRange, View, Reachable, LosesNode, AboutToRemove;
    var s1 := CanInstallFirst();
    var s2 := CanCreate(s1, 0, NODE);
    var s3 := CanSee(s2, 0);
    var s4 := CanAskRemoval(s3, NodeName(0));
    StartIsLost(s4);
  }

  lemma StartIsLost(s: State)
    requires AboutToRemove(s) && s.nets[0].pc.Refreshing? && s.nets[0].pc.snapshot.Keys == s.nets[0].infos.Keys
    ensures LosesNode(s, REMOVAL, Starter(0, Apply))
  {
    hide Core, Step, Enumerates, LibraryAllows, IsRun, Exec;
    RemovalDone(s);
    StartGoesWell(s);
    assert s.calls[2].name in s.nets[0].pc.snapshot;
    StaleStartPanics(Step(s, REMOVAL));
  }

  lemma StartGoesWell(s: State)
    requires Inv(s) && s.panic.None? && 0 < |s.nets| && s.nets[0].pc.Refreshing? && !StaleSnapshot(s.nets[0])
    ensures Enabled(s, Starter(0, Apply)) && Step(s, Starter(0, Apply)).panic.None?
  {
    hide WellFormed, CallInRange, WatcherInRange, View, StartMoved;
    StartMoveKeeps(s.nets[0], Apply);
  }

  lemma StaleStartPanics(s: State)
    requires Reachable(s) && s.panic.None? && 0 < |s.nets| && StaleSnapshot(s.nets[0])
    ensures PanicsAt(s, Starter(0, Apply), NilEntry)
  {
    hide WellFormed, CallInRange, WatcherInRange, View;
  }

  // Health's pass, or start()'s, has seen a node and would write it down; a
  // RemoveNode that comes first makes it panic.
  lemma NilEntryHappens(k: Kind)
    requires NilEntry in Raises(k)
    ensures Happens(k, NilEntry)
    ensures exists s, e :: LosesNode(s, REMOVAL, e) && KindOf(e) == k
  {
    hide PanicsAt, Reachable, Inv, Step, Enabled;
    PassLosesNode();
    StartLosesNode();
    var e := if k == PassApplies then PassApply(1) else Starter(0, Apply);
    var s :| LosesNode(s, REMOVAL, e);
    LosingPanics(s, e);
    hide LosesNode;
  }

  lemma LosingPanics(s: State, e: Event)
    requires LosesNode(s, REMOVAL, e)
    ensures Happens(KindOf(e), NilEntry)
  {
    hide WellFormed, CallInRange, WatcherInRange, View, PanicsAt, Step, Enabled;
  }

  // A step raises nothing else.
  lemma RaisesNoOther(s: State, e: Event)
    requires Inv(s) && Enabled(s, e) && Step(s, e).panic.Some?
    ensures Step(s, e).panic.value in Raises(KindOf(e))
  {
    hide WellFormed, View, CallInRange, WatcherInRange;
    PanicsExactlyWhen(s, e);
    hide Fragile;
    if e.RemoveBody? || e.RestartBody? {
      BodyRaises(s, e);
    } else if e.StopBegin? || e.StopLibrary? {
      StopRaises(s, e);
    }
  }

  lemma BodyRaises(s: State, e: Event)
    requires Inv(s) && Enabled(s, e) && (e.RemoveBody? || e.RestartBody?) && Step(s, e).panic.Some?
    ensures Step(s, e).panic.value in Raises(KindOf(e))
  {
    hide WellFormed, View, CallInRange, WatcherInRange, Enumerates, Config.RestartText;
    if e.RestartBody? && s.network.Some? && s.calls[e.id].name in s.nets[s.network.value].infos {
      RestartSearchSucceeds(s.nets[s.network.value], s.calls[e.id].name);
    }
  }

  lemma StopRaises(s: State, e: Event)
    requires Inv(s) && Enabled(s, e) && (e.StopBegin? || e.StopLibrary?) && Step(s, e).panic.Some?
    ensures Step(s, e).panic.value in Raises(KindOf(e))
  {
    hide WellFormed, View, WatcherInRange, RestartPending, OnStopBegin, OnStopLibrary;
    if e.StopBegin? {
      StopBeginKeeps(s, e.id);
      StopBeginRaises(s, e.id);
    } else {
      StopLibraryRaises(s, e.id, e.left);
    }
  }

  lemma StopBeginRaises(s: State, id: nat)
    requires Paired(s) && InRange(s) && id in s.calls && s.calls[id].WantStop? && s.network.None?
    ensures OnStopBegin(s, id).panic == Some(NilNetwork)
  {
  }

  lemma StopLibraryRaises(s: State, id: nat, left: set<string>)
    requires Core(s) && s.panic.None? && id in s.calls && s.calls[id].StopClosing?
    requires OnStopLibrary(s, id, left).panic.Some?
    ensures OnStopLibrary(s, id, left).panic == Some(NilLibrary)
  {
    hide WellFormed, View, WatcherInRange, RestartPending;
  }

  // Which steps panic, and with what, in some run: exactly these.
  lemma StepsThatPanic(k: Kind, p: Panic)
    ensures Happens(k, p) <==> p in Raises(k)
  {
    hide PanicsAt;
    if p in Raises(k) {
      hide Happens;
      match p
      case NilNetwork => NilNetworkHappens(k);
      case NilLibrary => NilLibraryHappens(k);
      case NilEntry => NilEntryHappens(k);
      case NilRequest => NilRequestHappens(None);
      case IndexRange => IndexRangeHappens(LAUNCH, seq(6, i => DEFAULTS[0]));
      case DoubleClose =>
    } else if Happens(k, p) {
      var s, e :| PanicsAt(s, e, p) && KindOf(e) == k;
      PanicsAtRaises(s, e, p);
    }
  }

  lemma PanicsAtRaises(s: State, e: Event, p: Panic)
    requires PanicsAt(s, e, p)
    ensures p in Raises(KindOf(e)) && CanPanic(p)
  {
    hide Core, Step, Enabled;
    ReachStep(s, e);
    RaisesNoOther(s, e);
  }

  lemma ReachableInv(s: State)
    requires Reachable(s)
    ensures Inv(s)
  {
  }

  ghost predicate CanPanic(p: Panic) {
    exists t :: Reachable(t) && t.panic == Some(p)
  }

  // Every panic but a double close can happen.
  lemma PanicsThatHappen(p: Panic)
    ensures CanPanic(p) <==> p != DoubleClose
  {
    if p != DoubleClose {
      var k := match p
        case NilNetwork => StopBegins
        case NilLibrary => StopsLibrary
        case NilEntry => PassApplies
        case NilRequest => RestartLocks
        case _ => StartLocked;
      StepsThatPanic(k, p);
      hide PanicsAt, CanPanic;
      var s, e :| PanicsAt(s, e, p) && KindOf(e) == k;
      PanicsAtRaises(s, e, p);
    }
  }

  // ----- Health can answer about a cluster it has not waited for -----

  // Call 1 has waited for cluster 0 and answers about cluster 1, this launch's,
  // whose network is not even created.
  ghost predicate AnswersForAnother(t: State, order: seq<string>, l: Launch, defaults: seq<NodeConfig>)
    requires |defaults| <= |COLORS|
  {
    && Reachable(t) && Enabled(t, HealthBody(1, order)) && Step(t, HealthBody(1, order)).panic.None?
    && |t.nets| == 2 && t.network == Some(1) && t.nets[1] == InitialNet(l, defaults)
    && exists s, during :: HealthRuns(s, 1, during, t, order) && s.network == Some(0)
  }

  // Its wait over, a Stop and a Start come before it gets the lock.
  lemma HealthCanAnswerForAnother(l: Launch, defaults: seq<NodeConfig>)
    requires |defaults| <= |COLORS|
    ensures exists t, order :: AnswersForAnother(t, order, l, defaults)
  {
    hide WellFormed, CallInRange, WatcherInRange, View, Reachable, Up, InitialNet, Enumerates, AnswersForAnother;
    var s1 := CanWantPublish();
    var s2 := CanStop(s1, 0, 0);
    var t := CanInstall(s2, 0, l, defaults);
    ShapeOf(t);
    StartsCreating(l, defaults);
    NamesEnumerate(|defaults|);
    AnswerIsAnother(t, FirstNames(|defaults|), l, defaults);
  }

  lemma AnswerIsAnother(t: State, order: seq<string>, l: Launch, defaults: seq<NodeConfig>)
    requires |defaults| <= |COLORS| && Reachable(t) && Enabled(t, HealthBody(1, order))
    requires |t.nets| == 2 && t.network == Some(1) && t.nets[1] == InitialNet(l, defaults) && !t.nets[1].readyc
    ensures AnswersForAnother(t, order, l, defaults)
  {
    hide Core, IsRun, Exec, InitialNet, Enabled, Step, HealthRuns;
    var es :| IsRun(INIT, es) && Exec(INIT, es) == t;
    EveryHealthRuns(es, 1, order);
    var s, during :| HealthRuns(s, 1, during, t, order);
    HealthAnswersAbout(s, 1, during, t, order);
    ReachStep(t, HealthBody(1, order));
  }

  // ----- a Config field goes stale -----

  // A restart begins on the only node of a cluster.
  lemma CanBeginRestart(s: State, name: string, subnets: string) returns (t: State)
    requires Up(s, 0) && s.calls == map[] && name in s.nets[0].infos
    ensures Reachable(t) && t.panic.None? && t.network == Some(0) && |t.nets| == |s.nets|
    ensures t.nets[0].root == s.nets[0].root
    ensures FieldsKept(s.nets[0], t.nets[0]) && t.nets[0].cfgs == s.nets[0].cfgs
    ensures 1 in t.calls && t.calls[1].RestartAdding? && t.calls[1].k == 0 && t.calls[1].name == name
    ensures t.calls[1].cfg.configFile == RestartFile(s.nets[0].root, name, subnets)
  {
    hide WellFormed, CallInRange, WatcherInRange, View, RestartLocked, FieldsKept, RestartFile;
    var start := Some(RestartStart("", Some(subnets)));
    var s1 := CanAsk(s, 1, RestartReq(name, start));
    var e := RestartBody(1, LibOk);
    RestartPanicsWhen(s1.nets[0], name, start, LibOk);
    BegunFile(s1.nets[0], name, start, LibOk);
    RestartMarks(s1.nets[0], name, start, LibOk);
    ReachStep(s1, e);
    t := Step(s1, e);
  }

  // One step that commits nothing.
  lemma CanGoOn(s: State, e: Event) returns (t: State)
    requires Reachable(s) && Enabled(s, e) && 0 < |s.nets| && !Commits(s, e, 0) && Step(s, e).panic.None?
    ensures Reachable(t) && Paired(s) && InRange(s) && t == Step(s, e)
    ensures 0 < |t.nets| && t.nets[0].root == s.nets[0].root
    ensures FieldsKept(s.nets[0], t.nets[0]) && t.nets[0].cfgs == s.nets[0].cfgs
  {
    hide Core, Step, IsRun, Exec, Enabled, Commits, FieldsKept;
    ReachStep(s, e);
    ReachableInv(s);
    SettingsStep(s, e, 0);
    StepFrame(s, e, 0);
    t := Step(s, e);
  }

  // The restart adds its node back, waits, and commits.
  lemma CanCommit(s: State) returns (t: State)
    requires Reachable(s) && s.panic.None? && s.network == Some(0) && 0 < |s.nets|
    requires 1 in s.calls && s.calls[1].RestartAdding? && s.calls[1].k == 0
    ensures Reachable(t) && t.panic.None? && 0 < |t.nets| && t.nets[0].root == s.nets[0].root
    ensures FieldsKept(s.nets[0], t.nets[0])
    ensures var c := s.calls[1];
      && c.idx < |s.nets[0].cfgs| && s.nets[0].cfgs[c.idx].name == c.name && c.name in t.nets[0].infos
      && t.nets[0].cfgs == s.nets[0].cfgs[c.idx := c.cfg]
  {
    hide Core, IsRun, Exec, FieldsKept, Step, Reachable, SameNode, Agrees;
    var s1 := CanAddBack(s);
    var s2 := CanSeeAgain(s1);
    t := CanApply(s2);
    FieldsKeptTwice(s.nets[0], s1.nets[0], s2.nets[0]);
    FieldsKeptTwice(s.nets[0], s2.nets[0], t.nets[0]);
  }

  lemma FieldsKeptTwice(a: Net, b: Net, c: Net)
    requires FieldsKept(a, b) && FieldsKept(b, c)
    ensures FieldsKept(a, c)
  {
  }

  lemma CanAddBack(s: State) returns (t: State)
    requires Reachable(s) && s.panic.None? && 0 < |s.nets| && 1 in s.calls && s.calls[1].RestartAdding?
    requires s.calls[1].k == 0
    ensures Reachable(t) && t.panic.None? && 0 < |t.nets| && t.nets[0].root == s.nets[0].root
    ensures FieldsKept(s.nets[0], t.nets[0]) && t.nets[0].cfgs == s.nets[0].cfgs
    ensures var c := s.calls[1]; 1 in t.calls && t.calls[1] == RestartPass(0, c.name, c.idx, c.cfg, Polling)
  {
    hide WellFormed, CallInRange, WatcherInRange, View, NodeAdded, FieldsKept, IsRun, Exec;
    t := CanGoOn(s, RestartAdd(1, Some(NODE)));
  }

  lemma CanSeeAgain(s: State) returns (t: State)
    requires Reachable(s) && s.panic.None? && 0 < |s.nets| && 1 in s.calls && s.calls[1].RestartPass?
    requires s.calls[1].k == 0
    requires s.calls[1].p.Polling?
    ensures Reachable(t) && t.panic.None? && 0 < |t.nets| && t.nets[0].root == s.nets[0].root
    ensures FieldsKept(s.nets[0], t.nets[0]) && t.nets[0].cfgs == s.nets[0].cfgs
    ensures 1 in t.calls && t.calls[1].RestartPass? && t.calls[1] == s.calls[1].(p := t.calls[1].p)
    ensures t.calls[1].p.Seen?
  {
    hide WellFormed, CallInRange, WatcherInRange, View, FieldsKept, IsRun, Exec;
    t := CanGoOn(s, PassSee(1));
  }

  lemma CanApply(s: State) returns (t: State)
    requires Reachable(s) && s.panic.None? && 0 < |s.nets| && 1 in s.calls && s.calls[1].RestartPass?
    requires s.calls[1].k == 0
    requires s.calls[1].p.Seen?
    ensures Reachable(t) && t.panic.None? && 0 < |t.nets| && t.nets[0].root == s.nets[0].root
    ensures FieldsKept(s.nets[0], t.nets[0])
    ensures var c := s.calls[1];
      && c.idx < |s.nets[0].cfgs| && s.nets[0].cfgs[c.idx].name == c.name && c.name in t.nets[0].infos
      && t.nets[0].cfgs == s.nets[0].cfgs[c.idx := c.cfg]
  {
    hide WellFormed, InRange, Views, Retired, LockHeld, StopLocked, OnPassApply, FieldsKept, IsRun, Exec,
      SameNode, Agrees;
    var e := PassApply(1);
    PassApplyKeeps(s, 1);
    SettingsStep(s, e, 0);
    StepFrame(s, e, 0);
    ReachStep(s, e);
    t := Step(s, e);
  }

  // A cluster of one node is launched and its node restarted.
  lemma CanRestartFirst(l: Launch, d: NodeConfig, subnets: string) returns (t: State)
    ensures var name := NodeName(0);
      && Reachable(t) && t.panic.None? && |t.nets| > 0 && |t.nets[0].cfgs| == 1 && name in t.nets[0].infos
      && t.nets[0].infos[name].config == LaunchFile(l, name)
      && t.nets[0].cfgs[0].configFile == RestartFile(l.root, name, subnets)
  {
    hide WellFormed, CallInRange, WatcherInRange, View, Reachable, FieldsKept, LaunchFile, RestartFile,
      InitialNet, OnlyAddresses;
    InitReachable();
    var name := NodeName(0);
    var s1 := CanBringUp(INIT, 0, l, [d], NODE);
    FirstNode(l, d, s1.nets[0]);
    var s2 := CanBeginRestart(s1, name, subnets);
    t := CanCommit(s2);
    KeptTo(s1.nets[0], s2.nets[0], t.nets[0], name);
  }

  // For every launch and every restart there is a run after which the node's
  // Config field is the launch's file and its configuration file the restart's.
  lemma ConfigFieldGoesStale(l: Launch, d: NodeConfig, subnets: string)
    ensures exists t :: var name := NodeName(0);
      && Reachable(t) && t.panic.None? && |t.nets| > 0 && |t.nets[0].cfgs| == 1 && name in t.nets[0].infos
      && t.nets[0].infos[name].config == LaunchFile(l, name)
      && t.nets[0].cfgs[0].configFile == RestartFile(l.root, name, subnets)
      && (t.nets[0].infos[name].config == t.nets[0].cfgs[0].configFile
          <==> Config.EffectiveLevel(l.level) == "INFO" && l.subnets == subnets)
  {
    hide Reachable, LaunchFile, RestartFile;
    var t := CanRestartFirst(l, d, subnets);
    FilesDiffer(l, NodeName(0), subnets);
  }

  lemma FirstNode(l: Launch, d: NodeConfig, net: Net)
    requires OnlyAddresses(InitialNet(l, [d]), net)
    ensures |net.cfgs| == 1 && NodeName(0) in net.infos && net.root == l.root
    ensures net.infos[NodeName(0)].config == LaunchFile(l, NodeName(0)) == net.cfgs[0].configFile
  {
    hide NodeName, LogDir, DbDir, Config.StartText;
    InitialInfosKeys(l, 1);
    InitialInfosAt(l, 1, 0);
  }

  lemma KeptTo(a: Net, b: Net, c: Net, name: string)
    requires FieldsKept(a, b) && FieldsKept(b, c) && name in c.infos
    ensures name in a.infos && c.infos[name].config == a.infos[name].config
  {
  }

  lemma FilesDiffer(l: Launch, name: string, subnets: string)
    ensures LaunchFile(l, name) == RestartFile(l.root, name, subnets)
            <==> Config.EffectiveLevel(l.level) == "INFO" && l.subnets == subnets
  {
    hide LogDir, DbDir, Config.StartText, Config.RestartText, Config.EffectiveLevel;
    Config.SameFileExactlyWhen(l.level, LogDir(l.root, name), DbDir(l.root, name), l.subnets, subnets);
  }

  // ----- a request can put a member into the file -----

  // A run leads to a first node whose configuration file reads like this.
  ghost predicate FirstFileReads(t: State, ms: seq<Config.Member>) {
    && Reachable(t) && t.panic.None? && |t.nets| > 0 && |t.nets[0].cfgs| > 0
    && Config.ReadObject(t.nets[0].cfgs[0].configFile) == Some(ms)
  }

  // Subnets with quotes in them get through to the file, at launch and at a
  // restart: it reads as one member more, whichever the caller likes.
  lemma QuotedSubnetsGetThrough(l: Launch, d: NodeConfig, x: string, key: string, y: string)
    requires Config.Plain(l.root) && Config.Plain(l.level)
    requires Config.Plain(x) && Config.Plain(key) && Config.Plain(y)
    ensures exists t ::
              FirstFileReads(t, LaunchSettings(l.(subnets := x), NodeName(0)) + [(key, Config.Text(y))])
    ensures exists t ::
              FirstFileReads(t, SettingsOf(l, map[NodeName(0) := Asked("", x)], NodeName(0)) + [(key, Config.Text(y))])
  {
    hide Reachable, Up, OnlyAddresses, InitialNet, LaunchFile, RestartFile, LaunchSettings, Config.ReadObject,
      Config.Plain, Config.ConfigMembers, Config.Injected, NodeName, LogDir, DbDir;
    var quoted := Config.Injected(x, key, y);
    var l' := l.(subnets := quoted);
    QuotedFilesRead(l, l.root, 0, x, key, y);
    var t1 := CanLaunchFirst(l', d);
    assert FirstFileReads(t1, LaunchSettings(l.(subnets := x), NodeName(0)) + [(key, Config.Text(y))]);
    var t2 := CanRestartFirst(l, d, quoted);
    assert FirstFileReads(t2, SettingsOf(l, map[NodeName(0) := Asked("", x)], NodeName(0)) + [(key, Config.Text(y))]);
  }

  lemma CanLaunchFirst(l: Launch, d: NodeConfig) returns (t: State)
    ensures Reachable(t) && t.panic.None? && |t.nets| > 0 && |t.nets[0].cfgs| == 1
    ensures t.nets[0].cfgs[0].configFile == LaunchFile(l, NodeName(0))
  {
    hide WellFormed, CallInRange, WatcherInRange, View, Reachable, InitialNet, OnlyAddresses, LaunchFile;
    InitReachable();
    t := CanBringUp(INIT, 0, l, [d], NODE);
    FirstNode(l, d, t.nets[0]);
  }
}
