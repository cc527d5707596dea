// The server as a state machine: handlers split at their pre-check and their
// lock, the start() goroutines, the readiness watchers and the waits between.
// A state records a panic when a step raises one; nothing runs after it.
module Lifecycle {
  import opened Basics
  import opened Registry
  import Config

  // ----- state -----

  datatype Request = StartReq(l: Launch) | HealthReq | RemoveReq(name: string)
                   | RestartReq(name: string, start: Option<RestartStart>) | StopReq

  // A handler's waitForHealthy: waiting on the library, or holding its answer.
  datatype Pass = Polling | Seen(snapshot: map<string, LiveNode>)

  // A call that has passed its pre-check. Networks and cluster infos are named
  // by their index in the state.
  datatype Call =
    | WantStart(l: Launch)
    | WantHealth
    | HealthPass(k: nat, p: Pass)
    | WantPublish
    | WantRemove(name: string)
    | RemovePass(k: nat, p: Pass)
    | WantRestart(name: string, start: Option<RestartStart>)
    | RestartAdding(k: nat, name: string, idx: nat, cfg: NodeConfig)
    | RestartPass(k: nat, name: string, idx: nat, cfg: NodeConfig, p: Pass)
    | WantStop(info: nat)
    | StopClosing(k: nat, info: nat)
    | StopWaiting(k: nat, info: nat)

  // The goroutine Start spawns: not yet at its select, selecting on network k's
  // channels, past `<-readyc` and wanting the lock, or returned.
  datatype Watcher = Armed | Watching(k: nat) | Firing(k: nat) | Gone

  // `infosOf` names the network whose info map the field points to.
  datatype Cluster = Cluster(root: string, names: Option<seq<string>>, infosOf: Option<nat>, healthy: bool)

  // `mu` is the call that holds the write lock.
  datatype State = State(
    mu: Option<nat>,
    network: Option<nat>, clusterInfo: Option<nat>,
    nets: seq<Net>, clusters: seq<Cluster>, watchers: seq<Watcher>,
    calls: map<nat, Call>, closed: bool, panic: Option<Panic>)

  const INIT := State(None, None, None, [], [], [], map[], false, None)

  datatype Event =
    | Arrive(id: nat, req: Request)
    | AbortStart(id: nat)
    | StartBody(id: nat, defaults: seq<NodeConfig>, loggerOk: bool)
    | HealthBegin(id: nat)
    | HealthBody(id: nat, order: seq<string>)
    | RemoveBody(id: nat, r: LibResult, order: seq<string>)
    | RestartBody(id: nat, r: LibResult)
    | RestartAdd(id: nat, node: Option<LiveNode>)
    | PassFail(id: nat, why: WaitEnd)
    | PassSee(id: nat)
    | PassApply(id: nat)
    | StopBegin(id: nat)
    | StopLibrary(id: nat, left: set<string>)
    | StopFinish(id: nat)
    | Starter(k: nat, m: StartMove)
    | WatchArm(w: nat)
    | WatchExit(w: nat)
    | WatchReady(w: nat)
    | WatchPublish(w: nat)
    | CloseServer

  predicate InPass(c: Call) {
    c.HealthPass? || c.RemovePass? || c.RestartPass?
  }

  // The calls that hold the lock.
  predicate Holds(c: Call) {
    c.RemovePass? || c.RestartAdding? || c.RestartPass? || c.StopClosing? || c.StopWaiting?
  }

  // ----- when a step can happen -----

  ghost predicate Enabled(s: State, e: Event) {
    && s.panic.None?
    && match e
       case Arrive(id, _) => id !in s.calls && s.mu.None?
       case AbortStart(id) => id in s.calls && s.calls[id].WantStart?
       case StartBody(id, _, _) => id in s.calls && s.calls[id].WantStart? && s.mu.None?
       case HealthBegin(id) => id in s.calls && s.calls[id].WantHealth?
       case HealthBody(id, order) =>
         && id in s.calls && s.calls[id].WantPublish? && s.mu.None?
         && (s.network.Some? && s.network.value < |s.nets| ==> Enumerates(order, s.nets[s.network.value].infos.Keys))
       case RemoveBody(id, r, order) =>
         && id in s.calls && s.calls[id].WantRemove? && s.mu.None?
         && (s.network.Some? && s.network.value < |s.nets| ==>
               && LibraryAllows(s.nets[s.network.value], s.calls[id].name, r)
               && Enumerates(order, s.nets[s.network.value].infos.Keys - {s.calls[id].name}))
       case RestartBody(id, r) =>
         && id in s.calls && s.calls[id].WantRestart? && s.mu.None?
         && (s.network.Some? && s.network.value < |s.nets| ==>
               LibraryAllows(s.nets[s.network.value], s.calls[id].name, r))
       case RestartAdd(id, node) => id in s.calls && s.calls[id].RestartAdding?
       case PassFail(id, why) =>
         && id in s.calls && InPass(s.calls[id]) && s.calls[id].p.Polling?
         && (why.Aborted? ==> s.calls[id].k < |s.nets| && s.nets[s.calls[id].k].stopc)
       case PassSee(id) => id in s.calls && InPass(s.calls[id]) && s.calls[id].p.Polling?
       case PassApply(id) => id in s.calls && InPass(s.calls[id]) && s.calls[id].p.Seen?
       case StopBegin(id) => id in s.calls && s.calls[id].WantStop? && s.mu.None?
       case StopLibrary(id, _) => id in s.calls && s.calls[id].StopClosing?
       case StopFinish(id) =>
         && id in s.calls && s.calls[id].StopWaiting?
         && s.calls[id].k < |s.nets| && s.nets[s.calls[id].k].donec
       case Starter(k, m) => k < |s.nets| && CanMove(s.nets[k], m)
       case WatchArm(w) => w < |s.watchers| && s.watchers[w].Armed?
       case WatchExit(w) =>
         && w < |s.watchers| && s.watchers[w].Watching? && s.watchers[w].k < |s.nets|
         && (s.closed || s.nets[s.watchers[w].k].stopc)
       case WatchReady(w) =>
         && w < |s.watchers| && s.watchers[w].Watching? && s.watchers[w].k < |s.nets|
         && s.nets[s.watchers[w].k].readyc
       case WatchPublish(w) => w < |s.watchers| && s.watchers[w].Firing? && s.mu.None?
       case CloseServer => !s.closed
  }

  // ----- small updates -----

  function Crash(s: State, p: Panic): State {
    s.(panic := Some(p))
  }

  function Reply(s: State, id: nat): State {
    s.(calls := s.calls - {id})
  }

  function Release(s: State, id: nat): State {
    s.(mu := None, calls := s.calls - {id})
  }

  function GoOn(s: State, id: nat, c: Call): State {
    s.(calls := s.calls[id := c])
  }

  function Acquire(s: State, id: nat, c: Call): State {
    s.(mu := Some(id), calls := s.calls[id := c])
  }

  function SetNet(s: State, k: nat, n: Net): State
    requires k < |s.nets|
  {
    s.(nets := s.nets[k := n])
  }

  // Network k's names and info map become cluster k's.
  function Publish(s: State, k: nat): State
    requires k < |s.nets| == |s.clusters|
  {
    s.(clusters := s.clusters[k := s.clusters[k].(names := Some(s.nets[k].nodeNames), infosOf := Some(k))])
  }

  // ----- the shape every state has -----

  // Both pointers are set and cleared together, and name the last network.
  ghost predicate Paired(s: State) {
    && |s.nets| == |s.clusters| == |s.watchers|
    && s.network == s.clusterInfo
    && (s.network.Some? ==> s.network.value + 1 == |s.nets|)
  }

  // Indices held by calls and watchers are in range.
  ghost predicate InRange(s: State) {
    && (forall id :: id in s.calls ==> CallInRange(s, s.calls[id]))
    && (forall w :: 0 <= w < |s.watchers| ==> WatcherInRange(s, s.watchers[w]))
  }

  ghost predicate CallInRange(s: State, c: Call) {
    match c
    case HealthPass(k, p) => k < |s.nets| && s.nets[k].nw.Some?
    case RemovePass(k, p) => s.network == Some(k) && k < |s.nets| && s.nets[k].nw.Some? && PassFresh(s, k, p)
    case RestartAdding(k, name, idx, cfg) =>
      s.network == Some(k) && k < |s.nets| && s.nets[k].nw.Some? && RestartPending(s.nets[k], name, idx, cfg)
    case RestartPass(k, name, idx, cfg, p) =>
      && s.network == Some(k) && k < |s.nets| && s.nets[k].nw.Some? && RestartPending(s.nets[k], name, idx, cfg)
      && PassFresh(s, k, p)
    case WantStop(info) => info < |s.clusters|
    case StopClosing(k, info) => s.network == Some(k) && k < |s.nets| && s.nets[k].stopc && info < |s.clusters|
    case StopWaiting(k, info) =>
      s.network == Some(k) && k < |s.nets| && s.nets[k].stopc && s.nets[k].nw.Some? && info < |s.clusters|
    case _ => true
  }

  // A locked pass has seen only nodes that still have an info.
  ghost predicate PassFresh(s: State, k: nat, p: Pass)
    requires k < |s.nets|
  {
    p.Seen? ==> p.snapshot.Keys <= s.nets[k].infos.Keys
  }

  ghost predicate WatcherInRange(s: State, w: Watcher) {
    match w
    case Watching(k) => k < |s.nets|
    case Firing(k) => k < |s.nets| && s.nets[k].readyc
    case _ => true
  }

  // ----- steps -----

  function OnArrive(s: State, id: nat, req: Request): State {
    match req
    case StartReq(l) => if s.clusterInfo.Some? then s else GoOn(s, id, WantStart(l))
    case HealthReq => if s.clusterInfo.None? then s else GoOn(s, id, WantHealth)
    case RemoveReq(name) => if s.clusterInfo.None? then s else GoOn(s, id, WantRemove(name))
    case RestartReq(name, start) => if s.clusterInfo.None? then s else GoOn(s, id, WantRestart(name, start))
    case StopReq => if s.clusterInfo.None? then s else GoOn(s, id, WantStop(s.clusterInfo.value))
  }

  function OnStart(s: State, id: nat, defaults: seq<NodeConfig>, loggerOk: bool): State
    requires id in s.calls && s.calls[id].WantStart?
  {
    var l := s.calls[id].l;
    if s.network.Some? then Reply(s, id)
    else if !loggerOk then Reply(s.(network := None), id)
    else
      match NewNetwork(l, defaults)
      case Panicked(p) => Crash(s, p)
      case Done(net) =>
        Reply(s.(network := Some(|s.nets|), clusterInfo := Some(|s.clusters|),
                 nets := s.nets + [net],
                 clusters := s.clusters + [Cluster(l.root, None, None, false)],
                 watchers := s.watchers + [Armed]), id)
  }

  function OnHealthBegin(s: State, id: nat): State
    requires Paired(s)
  {
    if s.network.None? then Crash(s, NilNetwork)
    else if s.nets[s.network.value].nw.None? then Crash(s, NilLibrary)
    else GoOn(s, id, HealthPass(s.network.value, Polling))
  }

  function OnHealth(s: State, id: nat, order: seq<string>): State
    requires Paired(s)
  {
    if s.network.None? then Crash(s, NilNetwork) else
      var k := s.network.value;
      Reply(Publish(SetNet(s, k, s.nets[k].(nodeNames := order)), k), id)
  }

  function OnRemove(s: State, id: nat, r: LibResult, order: seq<string>): State
    requires Paired(s) && id in s.calls && s.calls[id].WantRemove?
  {
    if s.network.None? then Crash(s, NilNetwork) else
      var k := s.network.value;
      match RemoveLocked(s.nets[k], s.calls[id].name, r, order)
      case Panicked(p) => Crash(s, p)
      case Done(RemoveFails(err, net)) => Reply(SetNet(s, k, net), id)
      case Done(Removed(net)) => Acquire(Publish(SetNet(s, k, net), k), id, RemovePass(k, Polling))
  }

  function OnRestart(s: State, id: nat, r: LibResult): State
    requires Paired(s) && id in s.calls && s.calls[id].WantRestart?
  {
    if s.network.None? then Crash(s, NilNetwork) else
      var k, name := s.network.value, s.calls[id].name;
      match RestartLocked(s.nets[k], name, s.calls[id].start, r)
      case Panicked(p) => Crash(s, p)
      case Done(RestartFails(err, net)) => Reply(SetNet(s, k, net), id)
      case Done(Restarting(net, idx, cfg)) => Acquire(SetNet(s, k, net), id, RestartAdding(k, name, idx, cfg))
  }

  function OnRestartAdd(s: State, id: nat, node: Option<LiveNode>): State
    requires InRange(s) && id in s.calls && s.calls[id].RestartAdding?
  {
    var c := s.calls[id];
    if node.None? then Release(s, id)
    else
      var t := SetNet(s, c.k, NodeAdded(s.nets[c.k], c.name, node.value));
      GoOn(t, id, RestartPass(c.k, c.name, c.idx, c.cfg, Polling))
  }

  function OnPassFail(s: State, id: nat): State
    requires id in s.calls
  {
    if Holds(s.calls[id]) then Release(s, id) else Reply(s, id)
  }

  function OnPassSee(s: State, id: nat): State
    requires InRange(s) && id in s.calls && InPass(s.calls[id])
  {
    var c := s.calls[id];
    GoOn(s, id, c.(p := Seen(s.nets[c.k].nw.value)))
  }

  function OnPassApply(s: State, id: nat): State
    requires Paired(s) && InRange(s) && id in s.calls && InPass(s.calls[id]) && s.calls[id].p.Seen?
  {
    var c := s.calls[id];
    match Refresh(s.nets[c.k], c.p.snapshot)
    case Panicked(p) => Crash(s, p)
    case Done(net) =>
      match c
      case HealthPass(k, _) => GoOn(SetNet(s, k, net), id, WantPublish)
      case RemovePass(k, _) => Release(SetNet(s, k, net), id)
      case RestartPass(k, name, idx, cfg, _) =>
        var t := SetNet(s, k, Committed(net, name, idx, cfg));
        Release(t.(clusters := t.clusters[k := t.clusters[k].(infosOf := Some(k))]), id)
      case _ => s
  }

  // Clearing the slot; `info` is the cluster info the pre-check returned.
  function Cleared(s: State, id: nat, info: nat): State
    requires info < |s.clusters|
  {
    Release(s.(network := None, clusterInfo := None,
               clusters := s.clusters[info := s.clusters[info].(healthy := false)]), id)
  }

  function OnStopBegin(s: State, id: nat): State
    requires Paired(s) && InRange(s) && id in s.calls && s.calls[id].WantStop?
  {
    var info := s.calls[id].info;
    if s.network.None? then Crash(s, NilNetwork) else
      var k := s.network.value;
      if s.nets[k].stopOnce then Cleared(s, id, info) else
        match CloseStop(s.nets[k])
        case Panicked(p) => Crash(s, p)
        case Done(net) => Acquire(SetNet(s, k, net), id, StopClosing(k, info))
  }

  function OnStopLibrary(s: State, id: nat, left: set<string>): State
    requires InRange(s) && id in s.calls && s.calls[id].StopClosing?
  {
    var c := s.calls[id];
    match LibraryStopped(s.nets[c.k], left)
    case Panicked(p) => Crash(s, p)
    case Done(net) => GoOn(SetNet(s, c.k, net), id, StopWaiting(c.k, c.info))
  }

  function OnStarter(s: State, k: nat, m: StartMove): State
    requires k < |s.nets| && CanMove(s.nets[k], m)
  {
    match StartMoved(s.nets[k], m)
    case Panicked(p) => Crash(s, p)
    case Done(n) => SetNet(s, k, n)
  }

  function SetWatcher(s: State, w: nat, x: Watcher): State
    requires w < |s.watchers|
  {
    s.(watchers := s.watchers[w := x])
  }

  function OnWatchArm(s: State, w: nat): State
    requires w < |s.watchers|
  {
    if s.network.None? then Crash(s, NilNetwork) else SetWatcher(s, w, Watching(s.network.value))
  }

  // The watcher publishes into whatever cluster is current by then.
  function OnWatchPublish(s: State, w: nat): State
    requires Paired(s) && w < |s.watchers|
  {
    if s.network.None? then Crash(s, NilNetwork) else
      var k := s.network.value;
      var t := Publish(s, k);
      SetWatcher(t.(clusters := t.clusters[k := t.clusters[k].(healthy := true)]), w, Gone)
  }

  ghost function Step(s: State, e: Event): State
    requires Paired(s) && InRange(s) && Enabled(s, e)
  {
    match e
    case Arrive(id, req) => OnArrive(s, id, req)
    case AbortStart(id) => Reply(s, id)
    case StartBody(id, defaults, loggerOk) => OnStart(s, id, defaults, loggerOk)
    case HealthBegin(id) => OnHealthBegin(s, id)
    case HealthBody(id, order) => OnHealth(s, id, order)
    case RemoveBody(id, r, order) => OnRemove(s, id, r, order)
    case RestartBody(id, r) => OnRestart(s, id, r)
    case RestartAdd(id, node) => OnRestartAdd(s, id, node)
    case PassFail(id, _) => OnPassFail(s, id)
    case PassSee(id) => OnPassSee(s, id)
    case PassApply(id) => OnPassApply(s, id)
    case StopBegin(id) => OnStopBegin(s, id)
    case StopLibrary(id, left) => OnStopLibrary(s, id, left)
    case StopFinish(id) => Cleared(s, id, s.calls[id].info)
    case WatchArm(w) => OnWatchArm(s, w)
    case WatchExit(w) => SetWatcher(s, w, Gone)
    case WatchReady(w) => SetWatcher(s, w, Firing(s.watchers[w].k))
    case WatchPublish(w) => OnWatchPublish(s, w)
    case CloseServer => s.(closed := true)
    case Starter(k, m) => OnStarter(s, k, m)
  }

  // ----- the invariant -----

  ghost predicate AllWellFormed(s: State) {
    forall k :: 0 <= k < |s.nets| ==> WellFormed(s.nets[k])
  }

  // A network that is no longer current has been stopped and its start() has returned.
  ghost predicate Retired(s: State) {
    forall k :: 0 <= k < |s.nets| && s.network != Some(k) ==> s.nets[k].pc.Exited? && s.nets[k].stopc
  }

  // Exactly the lock's holder is inside a locked body.
  ghost predicate LockHeld(s: State) {
    && (s.mu.Some? ==> s.mu.value in s.calls)
    && (forall id :: id in s.calls ==> (Holds(s.calls[id]) <==> s.mu == Some(id)))
  }

  // The current network is being stopped only by a Stop that holds the lock.
  ghost predicate StopLocked(s: State) {
    s.network.Some? && s.network.value < |s.nets| && s.nets[s.network.value].stopc ==>
      && s.mu.Some? && s.mu.value in s.calls
      && (s.calls[s.mu.value].StopClosing? || s.calls[s.mu.value].StopWaiting?)
  }

  // A cluster info shows nothing, or what its own network holds.
  ghost predicate View(c: Cluster, k: nat, net: Net) {
    && c.root == net.root
    && (c.names.Some? ==> c.names.value == net.nodeNames && c.infosOf.Some?)
    && (c.infosOf.Some? ==> c.infosOf.value == k)
    && (c.healthy ==> c.names.Some?)
  }

  ghost predicate Views(s: State) {
    |s.clusters| == |s.nets| && forall k :: 0 <= k < |s.nets| ==> View(s.clusters[k], k, s.nets[k])
  }

  ghost predicate Core(s: State) {
    Paired(s) && InRange(s) && AllWellFormed(s) && Retired(s) && LockHeld(s) && StopLocked(s) && Views(s)
  }

  ghost predicate Inv(s: State) {
    && (s.panic.None? ==> Core(s))
    && s.panic != Some(DoubleClose)
  }

  // No step but start()'s own moves a program counter.
  ghost predicate NetsSteady(s: State, t: State) {
    |s.nets| <= |t.nets| && forall k :: 0 <= k < |s.nets| ==> Steady(s.nets[k], t.nets[k])
  }

  // Neither pointer moves and no Healthy flag changes.
  ghost predicate Quiet(s: State, t: State) {
    && t.network == s.network && |t.nets| == |s.nets| && |t.clusters| == |s.clusters|
    && (forall k :: 0 <= k < |s.clusters| ==> t.clusters[k].healthy == s.clusters[k].healthy)
  }

  // ----- what threads that do not hold the lock do to a network -----

  lemma PendingSurvives(net: Net, n: Net, name: string, idx: nat, cfg: NodeConfig)
    requires OnlyAddresses(net, n) && RestartPending(net, name, idx, cfg)
    ensures RestartPending(n, name, idx, cfg) && idx < |n.cfgs|
  {
    hide Config.RestartText;
  }

  lemma AddressesKeep(s: State, k: nat, n: Net)
    requires Core(s) && k < |s.nets| && WellFormed(n) && OnlyAddresses(s.nets[k], n)
    ensures Core(SetNet(s, k, n))
  {
    hide WellFormed, RestartPending;
    var t := SetNet(s, k, n);
    forall id | id in t.calls ensures CallInRange(t, t.calls[id]) {
      assert CallInRange(s, s.calls[id]);
      var c := s.calls[id];
      if (c.RestartAdding? || c.RestartPass?) && c.k == k {
        PendingSurvives(s.nets[k], n, c.name, c.idx, c.cfg);
      }
    }
    forall w | 0 <= w < |t.watchers| ensures WatcherInRange(t, t.watchers[w]) {
      assert WatcherInRange(s, s.watchers[w]);
    }
    assert Views(t) by {
      assert forall j :: 0 <= j < |s.nets| ==> View(s.clusters[j], j, s.nets[j]);
    }
  }

  // ----- what the lock's holder may do to the current network -----

  // Nobody else is inside a locked body, so the settings may change too.
  lemma LockedUpdateKeeps(s: State, k: nat, n: Net, c: Cluster)
    requires Core(s) && s.mu.None? && s.network == Some(k)
    requires WellFormed(n) && View(c, k, n)
    requires n.stopc == s.nets[k].stopc
    requires s.nets[k].nw.Some? ==> n.nw.Some?
    requires s.nets[k].readyc ==> n.readyc
    ensures Core(SetNet(s, k, n).(clusters := s.clusters[k := c]))
  {
    hide WellFormed, RestartPending;
    var t := SetNet(s, k, n).(clusters := s.clusters[k := c]);
    forall id | id in t.calls ensures CallInRange(t, t.calls[id]) {
      assert CallInRange(s, s.calls[id]);
    }
    forall w | 0 <= w < |t.watchers| ensures WatcherInRange(t, t.watchers[w]) {
      assert WatcherInRange(s, s.watchers[w]);
    }
    assert Views(t) by {
      assert forall j :: 0 <= j < |s.nets| ==> View(s.clusters[j], j, s.nets[j]);
    }
  }

  // Ranges depend only on the networks.
  lemma RangesKept(s: State, t: State)
    requires t.nets == s.nets && t.network == s.network && |t.clusters| == |s.clusters|
    ensures forall c :: CallInRange(s, c) ==> CallInRange(t, c)
    ensures forall w :: WatcherInRange(s, w) ==> WatcherInRange(t, w)
  {
    hide RestartPending;
  }

  lemma ReplyKeeps(s: State, id: nat)
    requires Core(s) && s.mu != Some(id)
    ensures Core(Reply(s, id))
  {
    hide WellFormed, View, CallInRange, WatcherInRange;
    RangesKept(s, Reply(s, id));
  }

  lemma GoOnKeeps(s: State, id: nat, c: Call)
    requires Core(s) && CallInRange(s, c)
    requires s.mu != Some(id) && !Holds(c)
    ensures Core(GoOn(s, id, c))
  {
    hide WellFormed, View, CallInRange, WatcherInRange;
    RangesKept(s, GoOn(s, id, c));
  }

  lemma AcquireKeeps(s: State, id: nat, c: Call)
    requires Core(s) && s.mu.None? && CallInRange(s, c) && Holds(c) && !c.StopClosing? && !c.StopWaiting?
    ensures Core(Acquire(s, id, c))
  {
    hide WellFormed, View, CallInRange, WatcherInRange;
    RangesKept(s, Acquire(s, id, c));
  }

  // The holder goes on inside its body.
  lemma HolderGoesOnKeeps(s: State, id: nat, c: Call)
    requires Core(s) && s.mu == Some(id) && CallInRange(s, c) && Holds(c)
    requires s.calls[id].StopClosing? ==> c.StopWaiting?
    requires s.calls[id].StopWaiting? ==> c.StopWaiting?
    ensures Core(GoOn(s, id, c))
  {
    hide WellFormed, View, CallInRange, WatcherInRange;
    RangesKept(s, GoOn(s, id, c));
  }

  lemma ReleaseKeeps(s: State, id: nat)
    requires Core(s) && s.mu == Some(id) && !s.calls[id].StopClosing? && !s.calls[id].StopWaiting?
    ensures Core(Release(s, id))
  {
    hide WellFormed, View, CallInRange, WatcherInRange;
    RangesKept(s, Release(s, id));
  }

  // ----- every step keeps it -----

  lemma StarterKeeps(s: State, k: nat, m: StartMove)
    requires Core(s) && s.panic.None? && k < |s.nets| && CanMove(s.nets[k], m)
    ensures Inv(OnStarter(s, k, m)) && Quiet(s, OnStarter(s, k, m))
  {
    StartMoveKeeps(s.nets[k], m);
    if StartMoved(s.nets[k], m).Done? {
      AddressesKeep(s, k, StartMoved(s.nets[k], m).value);
    }
  }

  lemma ArriveKeeps(s: State, id: nat, req: Request)
    requires Core(s) && s.panic.None? && id !in s.calls && s.mu.None?
    ensures Inv(OnArrive(s, id, req)) && NetsSteady(s, OnArrive(s, id, req)) && Quiet(s, OnArrive(s, id, req))
  {
    hide WellFormed, RestartPending;
    if OnArrive(s, id, req) != s {
      GoOnKeeps(s, id, OnArrive(s, id, req).calls[id]);
    }
  }

  lemma StartKeeps(s: State, id: nat, defaults: seq<NodeConfig>, loggerOk: bool)
    requires Core(s) && s.panic.None? && s.mu.None? && id in s.calls && s.calls[id].WantStart?
    ensures Inv(OnStart(s, id, defaults, loggerOk)) && NetsSteady(s, OnStart(s, id, defaults, loggerOk))
  {
    hide WellFormed, InitialNet, CallInRange, WatcherInRange, View;
    var l := s.calls[id].l;
    ReplyKeeps(s, id);
    if s.network.None? && loggerOk && NewNetwork(l, defaults).Done? {
      NewNetworkWellFormed(l, defaults);
      NewNetworkRoot(l, defaults);
      InstallKeeps(Reply(s, id), InitialNet(l, defaults), l.root);
    }
  }

  lemma InstallKeeps(s: State, net: Net, root: string)
    requires Core(s) && s.mu.None? && s.network.None?
    requires WellFormed(net) && !net.stopc && net.root == root
    ensures Core(s.(network := Some(|s.nets|), clusterInfo := Some(|s.clusters|), nets := s.nets + [net],
                    clusters := s.clusters + [Cluster(root, None, None, false)], watchers := s.watchers + [Armed]))
  {
    hide WellFormed, RestartPending;
    var t := s.(network := Some(|s.nets|), clusterInfo := Some(|s.clusters|), nets := s.nets + [net],
                clusters := s.clusters + [Cluster(root, None, None, false)], watchers := s.watchers + [Armed]);
    forall x | x in t.calls ensures CallInRange(t, t.calls[x]) {
      assert CallInRange(s, s.calls[x]);
    }
    forall w | 0 <= w < |t.watchers| ensures WatcherInRange(t, t.watchers[w]) {
      assert w < |s.watchers| ==> WatcherInRange(s, s.watchers[w]);
    }
    assert Views(t) by {
      assert forall j :: 0 <= j < |s.nets| ==> View(s.clusters[j], j, s.nets[j]);
    }
  }

  // Network k's own map is published, and names that list it once each.
  ghost predicate ShowsAll(t: State, k: nat) {
    && k < |t.clusters| && k < |t.nets| && t.clusters[k].infosOf == Some(k)
    && t.clusters[k].names.Some? && Enumerates(t.clusters[k].names.value, t.nets[k].infos.Keys)
  }

  lemma HealthKeeps(s: State, id: nat, order: seq<string>)
    requires Core(s) && s.panic.None? && Enabled(s, HealthBody(id, order))
    ensures Inv(OnHealth(s, id, order)) && NetsSteady(s, OnHealth(s, id, order)) && Quiet(s, OnHealth(s, id, order))
    ensures OnHealth(s, id, order).panic.None? <==> s.network.Some?
    ensures s.network.Some? ==> ShowsAll(OnHealth(s, id, order), s.network.value)
  {
    hide WellFormed, RestartPending, Enumerates, CallInRange;
    if s.network.Some? {
      var k := s.network.value;
      var n := s.nets[k].(nodeNames := order);
      var c := s.clusters[k].(names := Some(order), infosOf := Some(k));
      NamesKeep(s.nets[k], order);
      LockedUpdateKeeps(s, k, n, c);
      ReplyKeeps(SetNet(s, k, n).(clusters := s.clusters[k := c]), id);
    }
  }

  lemma NamesKeep(net: Net, order: seq<string>)
    requires WellFormed(net) && Enumerates(order, net.infos.Keys)
    ensures WellFormed(net.(nodeNames := order))
  {
    hide Enumerates;
  }

  lemma RemoveStepKeeps(s: State, id: nat, r: LibResult, order: seq<string>)
    requires Core(s) && s.panic.None? && Enabled(s, RemoveBody(id, r, order))
    ensures Inv(OnRemove(s, id, r, order)) && NetsSteady(s, OnRemove(s, id, r, order))
    ensures Quiet(s, OnRemove(s, id, r, order))
    // it waits only once it has published what is left
    ensures var t := OnRemove(s, id, r, order);
      t.panic.None? && id in t.calls ==>
        && t.network.Some? && t.mu == Some(id) && t.calls[id] == RemovePass(t.network.value, Polling)
        && ShowsAll(t, t.network.value) && s.calls[id].name !in t.nets[t.network.value].infos
  {
    hide Core, WellFormed, RemoveLocked, Enumerates, View;
    if s.network.Some? {
      CoreShape(s);
      var k, net := s.network.value, s.nets[s.network.value];
      RemoveKeeps(net, s.calls[id].name, r, order);
      var o := RemoveLocked(net, s.calls[id].name, r, order);
      if o.Done? && o.value.RemoveFails? {
        BodyRefuses(s, id, k, o.value.net);
      } else if o.Done? {
        RemovalPublishes(s, id, k, o.value.net);
      }
    }
  }

  lemma RemovalPublishes(s: State, id: nat, k: nat, n: Net)
    requires Core(s) && s.mu.None? && s.network == Some(k) && k < |s.nets| == |s.clusters|
    requires WellFormed(n) && SignalsKept(s.nets[k], n) && n.nw.Some?
    ensures Core(Acquire(Publish(SetNet(s, k, n), k), id, RemovePass(k, Polling)))
  {
    hide WellFormed, WatcherInRange;
    var c := s.clusters[k].(names := Some(n.nodeNames), infosOf := Some(k));
    LockedUpdateKeeps(s, k, n, c);
    AcquireKeeps(SetNet(s, k, n).(clusters := s.clusters[k := c]), id, RemovePass(k, Polling));
  }

  lemma CoreShape(s: State)
    requires Core(s)
    ensures Paired(s) && InRange(s)
    ensures forall k :: 0 <= k < |s.nets| ==> WellFormed(s.nets[k])
    ensures s.mu.None? ==> forall id :: id in s.calls ==> !Holds(s.calls[id])
  {
    hide WellFormed, View, CallInRange, WatcherInRange;
  }

  // A locked body replies an error: the network may have changed.
  lemma BodyRefuses(s: State, id: nat, k: nat, n: Net)
    requires Core(s) && s.mu.None? && s.network == Some(k) && k < |s.nets|
    requires WellFormed(n) && SignalsKept(s.nets[k], n) && n.nodeNames == s.nets[k].nodeNames
    ensures Core(Reply(SetNet(s, k, n), id))
  {
    hide WellFormed, CallInRange, WatcherInRange;
    assert View(s.clusters[k], k, s.nets[k]);
    LockedUpdateKeeps(s, k, n, s.clusters[k]);
    assert s.clusters[k := s.clusters[k]] == s.clusters;
    ReplyKeeps(SetNet(s, k, n), id);
  }

  lemma RestartStepKeeps(s: State, id: nat, r: LibResult)
    requires Core(s) && s.panic.None? && Enabled(s, RestartBody(id, r))
    ensures Inv(OnRestart(s, id, r)) && NetsSteady(s, OnRestart(s, id, r)) && Quiet(s, OnRestart(s, id, r))
  {
    hide Core, WellFormed, RestartLocked, RestartPending, RestartTouches, View;
    if s.network.Some? {
      var k, name := s.network.value, s.calls[id].name;
      CoreShape(s);
      RestartKeeps(s.nets[k], name, s.calls[id].start, r);
      var o := RestartLocked(s.nets[k], name, s.calls[id].start, r);
      if o.Done? {
        TouchesNames(s.nets[k], o.value.net, name);
        if o.value.RestartFails? {
          BodyRefuses(s, id, k, o.value.net);
        } else {
          RestartAcquires(s, id, k, o.value.net, name, o.value.idx, o.value.cfg);
        }
      }
    }
  }

  lemma TouchesNames(net: Net, n: Net, name: string)
    requires RestartTouches(net, n, name)
    ensures n.nodeNames == net.nodeNames
  {
  }

  lemma RestartAcquires(s: State, id: nat, k: nat, n: Net, name: string, idx: nat, cfg: NodeConfig)
    requires Core(s) && s.mu.None? && s.network == Some(k) && k < |s.nets|
    requires WellFormed(n) && SignalsKept(s.nets[k], n) && n.nodeNames == s.nets[k].nodeNames
    requires n.nw.Some? && RestartPending(n, name, idx, cfg)
    ensures Core(Acquire(SetNet(s, k, n), id, RestartAdding(k, name, idx, cfg)))
  {
    hide WellFormed, WatcherInRange, RestartPending;
    assert View(s.clusters[k], k, s.nets[k]);
    LockedUpdateKeeps(s, k, n, s.clusters[k]);
    assert s.clusters[k := s.clusters[k]] == s.clusters;
    AcquireKeeps(SetNet(s, k, n), id, RestartAdding(k, name, idx, cfg));
  }

  lemma RestartAddKeeps(s: State, id: nat, node: Option<LiveNode>)
    requires Core(s) && s.panic.None? && id in s.calls && s.calls[id].RestartAdding?
    ensures Inv(OnRestartAdd(s, id, node)) && NetsSteady(s, OnRestartAdd(s, id, node))
    ensures Quiet(s, OnRestartAdd(s, id, node))
  {
    hide WellFormed, RestartPending, OnlyAddresses;
    var c := s.calls[id];
    assert CallInRange(s, c);
    hide NodeAdded;
    if node.None? {
      ReleaseKeeps(s, id);
    } else {
      NodeAddedKeeps(s.nets[c.k], c.name, c.idx, c.cfg, node.value);
      var n := NodeAdded(s.nets[c.k], c.name, node.value);
      AddressesKeep(s, c.k, n);
      HolderGoesOnKeeps(SetNet(s, c.k, n), id, RestartPass(c.k, c.name, c.idx, c.cfg, Polling));
    }
  }

  lemma PassSeeKeeps(s: State, id: nat)
    requires Core(s) && s.panic.None? && id in s.calls && InPass(s.calls[id])
    ensures Inv(OnPassSee(s, id)) && NetsSteady(s, OnPassSee(s, id)) && Quiet(s, OnPassSee(s, id))
  {
    hide WellFormed, RestartPending;
    var c := s.calls[id];
    assert CallInRange(s, c);
    CallsNetUp(s, id);
    NetFacts(s.nets[c.k]);
    var c' := c.(p := Seen(s.nets[c.k].nw.value));
    if c.HealthPass? {
      GoOnKeeps(s, id, c');
    } else {
      HolderGoesOnKeeps(s, id, c');
    }
  }

  lemma CallsNetUp(s: State, id: nat)
    requires Core(s) && id in s.calls && InPass(s.calls[id])
    ensures s.calls[id].k < |s.nets| && s.nets[s.calls[id].k].nw.Some?
  {
    assert CallInRange(s, s.calls[id]);
  }

  lemma PassRefreshes(s: State, id: nat)
    requires Core(s) && id in s.calls && InPass(s.calls[id]) && s.calls[id].p.Seen?
    ensures CallInRange(s, s.calls[id])
    ensures var c := s.calls[id]; var o := Refresh(s.nets[c.k], c.p.snapshot);
      && o != Panicked(DoubleClose)
      && (o.Panicked? <==> c.HealthPass? && !(c.p.snapshot.Keys <= s.nets[c.k].infos.Keys))
      && (o.Done? ==>
            && Core(SetNet(s, c.k, o.value)) && WellFormed(o.value)
            && OnlyAddresses(s.nets[c.k], o.value) && Steady(s.nets[c.k], o.value))
  {
    hide WellFormed, Refresh, RestartPending, OnlyAddresses;
    var c := s.calls[id];
    assert CallInRange(s, c);
    CallsNetUp(s, id);
    RefreshKeeps(s.nets[c.k], c.p.snapshot);
    var o := Refresh(s.nets[c.k], c.p.snapshot);
    if o.Done? {
      AddressesKeep(s, c.k, o.value);
    }
  }

  lemma RestartApplies(s: State, id: nat)
    requires Core(s) && s.panic.None? && id in s.calls && s.calls[id].RestartPass? && s.calls[id].p.Seen?
    ensures Core(OnPassApply(s, id)) && NetsSteady(s, OnPassApply(s, id)) && Quiet(s, OnPassApply(s, id))
    ensures OnPassApply(s, id).panic.None?
  {
    hide WellFormed, Refresh, RestartPending, OnlyAddresses, Committed, View, WatcherInRange;
    var c := s.calls[id];
    PassRefreshes(s, id);
    hide CallInRange;
    var n := Refresh(s.nets[c.k], c.p.snapshot).value;
    PassCommits(s, id, n);
    hide Core;
  }

  lemma PassCommits(s: State, id: nat, n: Net)
    requires Core(s) && id in s.calls && s.calls[id].RestartPass? && CallInRange(s, s.calls[id])
    requires var k := s.calls[id].k;
      k < |s.nets| && Core(SetNet(s, k, n)) && WellFormed(n) && OnlyAddresses(s.nets[k], n)
    ensures var c := s.calls[id];
      && c.idx < |n.cfgs| && Steady(n, Committed(n, c.name, c.idx, c.cfg))
      && c.k < |s.clusters|
      && var t := SetNet(s, c.k, Committed(n, c.name, c.idx, c.cfg));
         Core(Release(t.(clusters := t.clusters[c.k := t.clusters[c.k].(infosOf := Some(c.k))]), id))
  {
    hide WellFormed, RestartPending, OnlyAddresses, View, WatcherInRange, Committed;
    var c := s.calls[id];
    ReleaseKeeps(SetNet(s, c.k, n), id);
    PendingSurvives(s.nets[c.k], n, c.name, c.idx, c.cfg);
    CommitKeeps(n, c.name, c.idx, c.cfg);
    CommitStepKeeps(s, id, c.k, n, c.name, c.idx, c.cfg);
  }

  lemma RemoveApplies(s: State, id: nat)
    requires Core(s) && s.panic.None? && id in s.calls && s.calls[id].RemovePass? && s.calls[id].p.Seen?
    ensures Core(OnPassApply(s, id)) && NetsSteady(s, OnPassApply(s, id)) && Quiet(s, OnPassApply(s, id))
    ensures OnPassApply(s, id).panic.None?
  {
    hide WellFormed, Refresh, OnlyAddresses, View;
    var c := s.calls[id];
    PassRefreshes(s, id);
    ReleaseKeeps(SetNet(s, c.k, Refresh(s.nets[c.k], c.p.snapshot).value), id);
  }

  lemma HealthApplies(s: State, id: nat)
    requires Core(s) && s.panic.None? && id in s.calls && s.calls[id].HealthPass? && s.calls[id].p.Seen?
    ensures Inv(OnPassApply(s, id)) && NetsSteady(s, OnPassApply(s, id)) && Quiet(s, OnPassApply(s, id))
    ensures OnPassApply(s, id).panic.Some? <==> !(s.calls[id].p.snapshot.Keys <= s.nets[s.calls[id].k].infos.Keys)
  {
    hide WellFormed, Refresh, OnlyAddresses, View;
    var c := s.calls[id];
    PassRefreshes(s, id);
    var o := Refresh(s.nets[c.k], c.p.snapshot);
    if o.Done? {
      GoOnKeeps(SetNet(s, c.k, o.value), id, WantPublish);
    }
  }

  // A pass that holds the lock never panics; Health's may, when a node it saw
  // has been removed since.
  lemma PassApplyKeeps(s: State, id: nat)
    requires Core(s) && s.panic.None? && id in s.calls && InPass(s.calls[id]) && s.calls[id].p.Seen?
    ensures Inv(OnPassApply(s, id)) && NetsSteady(s, OnPassApply(s, id)) && Quiet(s, OnPassApply(s, id))
    ensures OnPassApply(s, id).panic.Some? <==>
              s.calls[id].HealthPass? && !(s.calls[id].p.snapshot.Keys <= s.nets[s.calls[id].k].infos.Keys)
  {
    hide Core, OnPassApply;
    if s.calls[id].RestartPass? {
      RestartApplies(s, id);
    } else if s.calls[id].RemovePass? {
      RemoveApplies(s, id);
    } else {
      HealthApplies(s, id);
    }
  }

  lemma CommitStepKeeps(s: State, id: nat, k: nat, n: Net, name: string, idx: nat, cfg: NodeConfig)
    requires k < |s.nets| && Core(Release(SetNet(s, k, n), id)) && s.network == Some(k)
    requires idx < |n.cfgs| && WellFormed(Committed(n, name, idx, cfg))
    ensures var t := SetNet(s, k, Committed(n, name, idx, cfg));
      && k < |t.clusters|
      && Core(Release(t.(clusters := t.clusters[k := t.clusters[k].(infosOf := Some(k))]), id))
  {
    hide WellFormed;
    var u := Release(SetNet(s, k, n), id);
    var m := Committed(n, name, idx, cfg);
    var c := u.clusters[k].(infosOf := Some(k));
    assert View(u.clusters[k], k, u.nets[k]);
    LockedUpdateKeeps(u, k, m, c);
    assert s.nets[k := n][k := m] == s.nets[k := m];
    assert SetNet(u, k, m).(clusters := u.clusters[k := c])
        == Release(SetNet(s, k, m).(clusters := s.clusters[k := c]), id);
  }

  lemma StopBeginKeeps(s: State, id: nat)
    requires Core(s) && s.panic.None? && s.mu.None? && id in s.calls && s.calls[id].WantStop?
    ensures Inv(OnStopBegin(s, id)) && NetsSteady(s, OnStopBegin(s, id)) && Quiet(s, OnStopBegin(s, id))
    ensures OnStopBegin(s, id).panic.Some? <==> s.network.None?
  {
    hide WellFormed, RestartPending, CloseStop, View;
    assert CallInRange(s, s.calls[id]);
    if s.network.Some? {
      var k := s.network.value;
      StopStepsKeep(s.nets[k], {});
      NetFacts(s.nets[k]);
      StoppingKeeps(s, id, k, CloseStop(s.nets[k]).value);
    }
  }

  lemma StoppingKeeps(s: State, id: nat, k: nat, n: Net)
    requires Core(s) && s.mu.None? && id in s.calls && s.calls[id].WantStop? && s.network == Some(k)
    requires WellFormed(n) && n == s.nets[k].(stopOnce := true, stopc := true)
    ensures Core(Acquire(SetNet(s, k, n), id, StopClosing(k, s.calls[id].info)))
  {
    hide WellFormed, RestartPending;
    var t := Acquire(SetNet(s, k, n), id, StopClosing(k, s.calls[id].info));
    forall x | x in t.calls ensures CallInRange(t, t.calls[x]) {
      assert x in s.calls && x != id ==> CallInRange(s, s.calls[x]);
      assert CallInRange(s, s.calls[id]);
    }
    forall w | 0 <= w < |t.watchers| ensures WatcherInRange(t, t.watchers[w]) {
      assert WatcherInRange(s, s.watchers[w]);
    }
    assert Views(t) by {
      assert forall j :: 0 <= j < |s.nets| ==> View(s.clusters[j], j, s.nets[j]);
    }
  }

  lemma StopLibraryKeeps(s: State, id: nat, left: set<string>)
    requires Core(s) && s.panic.None? && id in s.calls && s.calls[id].StopClosing?
    ensures Inv(OnStopLibrary(s, id, left)) && NetsSteady(s, OnStopLibrary(s, id, left))
    ensures Quiet(s, OnStopLibrary(s, id, left))
    ensures OnStopLibrary(s, id, left).panic.Some? <==> s.nets[s.calls[id].k].nw.None?
  {
    hide WellFormed, RestartPending, OnlyAddresses, LibraryStopped;
    var c := s.calls[id];
    assert CallInRange(s, c);
    StopStepsKeep(s.nets[c.k], left);
    if s.nets[c.k].nw.Some? {
      var n := LibraryStopped(s.nets[c.k], left).value;
      AddressesKeep(s, c.k, n);
      assert CallInRange(SetNet(s, c.k, n), c);
      assert CallInRange(SetNet(s, c.k, n), StopWaiting(c.k, c.info));
      HolderGoesOnKeeps(SetNet(s, c.k, n), id, StopWaiting(c.k, c.info));
    }
  }

  lemma ClusterUpdateKeeps(s: State, k: nat, c: Cluster)
    requires Core(s) && k < |s.clusters| && View(c, k, s.nets[k])
    ensures Core(s.(clusters := s.clusters[k := c]))
  {
    hide WellFormed, View, CallInRange, WatcherInRange;
    RangesKept(s, s.(clusters := s.clusters[k := c]));
  }

  lemma ClearKeeps(s: State, id: nat)
    requires Core(s) && id in s.calls && s.calls[id].StopWaiting? && s.nets[s.calls[id].k].donec
    ensures Core(Release(s.(network := None, clusterInfo := None), id))
  {
    hide WellFormed, RestartPending, View;
    var c := s.calls[id];
    assert CallInRange(s, c);
    NetFacts(s.nets[c.k]);
    var t := Release(s.(network := None, clusterInfo := None), id);
    forall x | x in t.calls ensures CallInRange(t, t.calls[x]) {
      assert CallInRange(s, s.calls[x]);
      assert !Holds(s.calls[x]);
    }
    forall w | 0 <= w < |t.watchers| ensures WatcherInRange(t, t.watchers[w]) {
      assert WatcherInRange(s, s.watchers[w]);
    }
  }

  lemma StopFinishKeeps(s: State, id: nat)
    requires Core(s) && id in s.calls && s.calls[id].StopWaiting? && s.nets[s.calls[id].k].donec
    ensures Core(Cleared(s, id, s.calls[id].info))
  {
    hide WellFormed, RestartPending;
    var info := s.calls[id].info;
    assert CallInRange(s, s.calls[id]);
    assert View(s.clusters[info], info, s.nets[info]);
    ClearKeeps(s, id);
    var t := Release(s.(network := None, clusterInfo := None), id);
    ClusterUpdateKeeps(t, info, s.clusters[info].(healthy := false));
  }

  lemma SetWatcherKeeps(s: State, w: nat, x: Watcher)
    requires Core(s) && w < |s.watchers| && WatcherInRange(s, x)
    ensures Core(SetWatcher(s, w, x))
  {
    hide WellFormed, View, CallInRange, WatcherInRange;
    RangesKept(s, SetWatcher(s, w, x));
  }

  lemma WatchPublishKeeps(s: State, w: nat)
    requires Core(s) && s.panic.None? && s.mu.None? && w < |s.watchers|
    ensures Inv(OnWatchPublish(s, w)) && NetsSteady(s, OnWatchPublish(s, w))
  {
    hide WellFormed, RestartPending;
    if s.network.Some? {
      var k := s.network.value;
      var c := s.clusters[k].(names := Some(s.nets[k].nodeNames), infosOf := Some(k), healthy := true);
      SetWatcherKeeps(s, w, Gone);
      var u := SetWatcher(s, w, Gone);
      LockedUpdateKeeps(u, k, u.nets[k], c);
      assert u.nets[k := u.nets[k]] == u.nets;
      assert SetNet(u, k, u.nets[k]).(clusters := u.clusters[k := c]) == OnWatchPublish(s, w);
    }
  }

  lemma HealthBeginKeeps(s: State, id: nat)
    requires Core(s) && s.panic.None? && id in s.calls && s.calls[id].WantHealth?
    ensures Inv(OnHealthBegin(s, id)) && NetsSteady(s, OnHealthBegin(s, id)) && Quiet(s, OnHealthBegin(s, id))
  {
    hide WellFormed, RestartPending;
    if s.network.Some? && s.nets[s.network.value].nw.Some? {
      GoOnKeeps(s, id, HealthPass(s.network.value, Polling));
    }
  }

  lemma WatchKeeps(s: State, e: Event)
    requires Core(s) && Enabled(s, e)
    requires (e.WatchArm? || e.WatchExit? || e.WatchReady? || e.WatchPublish? || e.CloseServer?)
    ensures Inv(Step(s, e)) && NetsSteady(s, Step(s, e))
    ensures !e.WatchPublish? ==> Quiet(s, Step(s, e))
  {
    hide WellFormed, RestartPending, View, CallInRange, OnWatchPublish;
    match e
    case WatchArm(w) => if s.network.Some? { SetWatcherKeeps(s, w, Watching(s.network.value)); }
    case WatchExit(w) => SetWatcherKeeps(s, w, Gone);
    case WatchReady(w) => SetWatcherKeeps(s, w, Firing(s.watchers[w].k));
    case WatchPublish(w) => WatchPublishKeeps(s, w);
    case CloseServer => CloseServerKeeps(s);
    case _ =>
  }

  lemma QuitKeeps(s: State, e: Event)
    requires Core(s) && Enabled(s, e) && (e.AbortStart? || e.PassFail? || e.StopFinish?)
    ensures Inv(Step(s, e)) && NetsSteady(s, Step(s, e))
    ensures !e.StopFinish? ==> Quiet(s, Step(s, e))
  {
    hide WellFormed, RestartPending, View, CallInRange;
    match e
    case AbortStart(id) => ReplyKeeps(s, id);
    case PassFail(id, _) => if Holds(s.calls[id]) { ReleaseKeeps(s, id); } else { ReplyKeeps(s, id); }
    case StopFinish(id) => StopFinishKeeps(s, id);
    case _ =>
  }

  // Every step keeps the invariant, and no step closes a channel twice.
  lemma StepKeeps(s: State, e: Event)
    requires Inv(s) && Enabled(s, e)
    ensures Inv(Step(s, e))
    ensures !e.Starter? ==> NetsSteady(s, Step(s, e))
    ensures !e.StartBody? && !e.StopFinish? && !e.WatchPublish? ==> Quiet(s, Step(s, e))
  {
    hide Core, OnArrive, OnStart, OnHealthBegin, OnHealth, OnRemove, OnRestart, OnRestartAdd, OnPassFail, OnPassSee,
      OnPassApply, OnStopBegin, OnStopLibrary, OnStarter, OnWatchArm, OnWatchPublish, NetsSteady, Quiet;
    match e
    case Arrive(id, req) => ArriveKeeps(s, id, req);
    case StartBody(id, defaults, loggerOk) => StartKeeps(s, id, defaults, loggerOk);
    case HealthBegin(id) => HealthBeginKeeps(s, id);
    case HealthBody(id, order) => HealthKeeps(s, id, order);
    case RemoveBody(id, r, order) => RemoveStepKeeps(s, id, r, order);
    case RestartBody(id, r) => RestartStepKeeps(s, id, r);
    case RestartAdd(id, node) => RestartAddKeeps(s, id, node);
    case PassSee(id) => PassSeeKeeps(s, id);
    case PassApply(id) => PassApplyKeeps(s, id);
    case StopBegin(id) => StopBeginKeeps(s, id);
    case StopLibrary(id, left) => StopLibraryKeeps(s, id, left);
    case Starter(k, m) => StarterKeeps(s, k, m);
    case AbortStart(_) => QuitKeeps(s, e);
    case PassFail(_, _) => QuitKeeps(s, e);
    case StopFinish(_) => QuitKeeps(s, e);
    case _ => WatchKeeps(s, e);
  }

  lemma CloseServerKeeps(s: State)
    requires Core(s)
    ensures Core(s.(closed := true))
  {
    hide WellFormed, View, CallInRange, WatcherInRange;
    RangesKept(s, s.(closed := true));
  }
}
