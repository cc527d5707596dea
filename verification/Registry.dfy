// One cluster's node registry as a value: the node configurations, the node
// infos, the library's live nodes, the signal channels and the start()
// goroutine, with every state change the server makes to them.
module Registry {
  import opened Basics
  import opened Config

  // ----- data -----

  // The run-time panics the code can raise.
  datatype Panic = NilNetwork | NilLibrary | NilEntry | NilRequest | IndexRange | DoubleClose

  datatype Result<+T> = Done(value: T) | Panicked(why: Panic)

  datatype Err = AlreadyBootstrapped | NotBootstrapped | NodeNotFound | UnexpectedType
               | LibraryError | LoggerError | NotHealthy | TempDirError | NotExists

  // A node as the library reports it.
  datatype LiveNode = LiveNode(url: string, port: nat, id: string, client: int)

  datatype Impl = Local(binaryPath: string, color: string, writer: string) | Foreign(tag: int)

  // `rest` stands for the fields that are only ever copied.
  datatype NodeConfig = NodeConfig(name: string, configFile: string, impl: Impl, rest: int)

  datatype Info = Info(name: string, execPath: string, uri: string, id: string, logDir: string, dbDir: string,
                       subnets: string, config: string)

  // Where the start() goroutine stands.
  datatype StartPc = Creating | Waiting | Refreshing(snapshot: map<string, LiveNode>) | SendingErr | Closing | Exited

  // `root` is the logger's directory. `stale` and `stops` are history: the nodes
  // whose last restart has not succeeded, and how often the library's Stop was called.
  datatype Net = Net(
    root: string,
    cfgs: seq<NodeConfig>,
    nw: Option<map<string, LiveNode>>,
    nodeNames: seq<string>,
    nodes: Option<map<string, LiveNode>>,
    infos: map<string, Info>,
    apiClis: map<string, int>,
    readyc: bool, readyOnce: bool,
    stopc: bool, stopOnce: bool,
    donec: bool, errc: nat,
    pc: StartPc,
    stale: set<string>,
    stops: nat)

  datatype Launch = Launch(execPath: string, root: string, subnets: string, level: string)

  datatype RestartStart = RestartStart(execPath: string, subnets: Option<string>)

  // What the library's RemoveNode does; a failing one may or may not drop the node.
  datatype LibResult = LibOk | LibErr(dropped: bool)

  // How a locked body goes on: reply an error, or wait for health.
  datatype RemoveStep = RemoveFails(err: Err, net: Net) | Removed(net: Net)
  datatype RestartStep = RestartFails(err: Err, net: Net) | Restarting(net: Net, idx: nat, cfg: NodeConfig)

  const COLORS: seq<string> := ["{{green}}", "{{orange}}", "{{blue}}", "{{magenta}}", "{{cyan}}"]

  function Uri(n: LiveNode): string {
    "http://" + n.url + ":" + Decimal(n.port)
  }

  // ----- reading an address -----

  // Before and after the last colon.
  function AtLastColon(s: string): (r: Option<(string, string)>) {
    if s == [] then None
    else if s[|s| - 1] == ':' then Some((s[..|s| - 1], []))
    else
      match AtLastColon(s[..|s| - 1])
      case None => None
      case Some((a, b)) => Some((a, b + [s[|s| - 1]]))
  }

  predicate IsNumeral(s: string) {
    s != [] && forall c :: c in s ==> '0' <= c <= '9'
  }

  // The host and the port that an address names.
  function ReadUri(s: string): (r: Option<(string, nat)>) {
    if !("http://" <= s) then None else
      match AtLastColon(s[7..])
      case None => None
      case Some((url, port)) => if IsNumeral(port) then Some((url, NumeralValue(port))) else None
  }

  lemma {:induction false} AtLastColonBack(url: string, d: string)
    requires ':' !in d
    ensures AtLastColon(url + ":" + d) == Some((url, d))
  {
    var s := url + ":" + d;
    if d == [] {
      assert s[..|s| - 1] == url;
    } else {
      AtLastColonBack(url, d[..|d| - 1]);
      assert s[..|s| - 1] == url + ":" + d[..|d| - 1];
      assert d[..|d| - 1] + [d[|d| - 1]] == d;
    }
  }

  // Every node's address, whatever its URL holds, reads back as URL and port.
  lemma UriReads(n: LiveNode)
    ensures ReadUri(Uri(n)) == Some((n.url, n.port))
  {
    hide Decimal, NumeralValue, AtLastColon;
    DecimalRoundTrip(n.port);
    assert Uri(n)[7..] == n.url + ":" + Decimal(n.port);
    AtLastColonBack(n.url, Decimal(n.port));
  }

  // So two nodes share an address exactly when they share URL and port.
  lemma UriInjective(m: LiveNode, n: LiveNode)
    ensures Uri(m) == Uri(n) <==> m.url == n.url && m.port == n.port
  {
    hide ReadUri;
    UriReads(m);
    UriReads(n);
  }

  // ----- newNetwork -----

  function ConfigAt(l: Launch, d: NodeConfig, i: nat): NodeConfig
    requires i < |COLORS|
  {
    var name := NodeName(i);
    d.(name := name,
       configFile := StartText(l.level, LogDir(l.root, name), DbDir(l.root, name), l.subnets),
       impl := Local(l.execPath, COLORS[i], name))
  }

  function InfoAt(l: Launch, i: nat): Info {
    var name := NodeName(i);
    var logDir, dbDir := LogDir(l.root, name), DbDir(l.root, name);
    Info(name, l.execPath, "", "", logDir, dbDir, l.subnets, StartText(l.level, logDir, dbDir, l.subnets))
  }

  function InitialInfos(l: Launch, k: nat): map<string, Info> {
    if k == 0 then map[] else InitialInfos(l, k - 1)[NodeName(k - 1) := InfoAt(l, k - 1)]
  }

  function InitialNet(l: Launch, defaults: seq<NodeConfig>): Net
    requires |defaults| <= |COLORS|
  {
    Net(l.root,
        seq(|defaults|, i requires 0 <= i < |defaults| => ConfigAt(l, defaults[i], i)),
        None,
        FirstNames(|defaults|),
        None, InitialInfos(l, |defaults|), map[], false, false, false, false, false, 0, Creating, {}, 0)
  }

  function NewNetwork(l: Launch, defaults: seq<NodeConfig>): Result<Net> {
    if |defaults| <= |COLORS| then Done(InitialNet(l, defaults)) else Panicked(IndexRange)
  }

  // ----- waitForHealthy, after the library reported healthy -----

  function Reported(info: Info, n: LiveNode): Info {
    info.(uri := Uri(n), id := n.id)
  }

  function ReportAll(infos: map<string, Info>, snapshot: map<string, LiveNode>): map<string, Info> {
    map n | n in infos :: if n in snapshot then Reported(infos[n], snapshot[n]) else infos[n]
  }

  function Clients(snapshot: map<string, LiveNode>): map<string, int> {
    map n | n in snapshot :: snapshot[n].client
  }

  function CloseReady(net: Net): Result<Net> {
    if net.readyOnce then Done(net)
    else if net.readyc then Panicked(DoubleClose)
    else Done(net.(readyOnce := true, readyc := true))
  }

  function Refresh(net: Net, snapshot: map<string, LiveNode>): Result<Net> {
    if !(snapshot.Keys <= net.infos.Keys) then Panicked(NilEntry)
    else CloseReady(net.(nodes := Some(snapshot), infos := ReportAll(net.infos, snapshot),
                         apiClis := net.apiClis + Clients(snapshot)))
  }

  // ----- the start() goroutine -----

  // How a wait for health ends without nodes: stopc is closed, the deadline
  // passes, or Healthy or GetAllNodes returns an error.
  datatype WaitEnd = Aborted | TimedOut | LibraryFailed

  // Its next move: local.NewNetwork returning nodes or an error, the wait
  // failing, GetAllNodes answering, the answer written down, the error sent to
  // errc, donec closed.
  datatype StartMove = Create(live: Option<map<string, LiveNode>>) | Fail(why: WaitEnd) | See | Apply
                     | SendErr | CloseDonec

  predicate CanMove(net: Net, m: StartMove) {
    match m
    case Create(live) => net.pc.Creating? && (live.Some? ==> live.value.Keys == ConfigNames(|net.cfgs|))
    case Fail(why) => net.pc.Waiting? && (why.Aborted? ==> net.stopc)
    case See => net.pc.Waiting? && net.nw.Some?
    case Apply => net.pc.Refreshing?
    case SendErr => net.pc.SendingErr? && net.errc < 1
    case CloseDonec => net.pc.Closing?
  }

  function StartMoved(net: Net, m: StartMove): Result<Net>
    requires CanMove(net, m)
  {
    match m
    case Create(live) => Done(if live.Some? then net.(nw := live, pc := Waiting) else net.(pc := SendingErr))
    case Fail(_) => Done(net.(pc := SendingErr))
    case See => Done(net.(pc := Refreshing(net.nw.value)))
    case Apply =>
      (match Refresh(net, net.pc.snapshot)
       case Panicked(p) => Panicked(p)
       case Done(n) => Done(n.(pc := Closing)))
    case SendErr => Done(net.(errc := net.errc + 1, pc := Closing))
    case CloseDonec => if net.donec then Panicked(DoubleClose) else Done(net.(donec := true, pc := Exited))
  }

  // Moves left before start() returns.
  function Rank(pc: StartPc): nat {
    match pc
    case Creating => 5
    case Waiting => 4
    case Refreshing(_) => 3
    case SendingErr => 2
    case Closing => 1
    case Exited => 0
  }

  // ----- stop -----

  function CloseStop(net: Net): Result<Net> {
    if net.stopc then Panicked(DoubleClose) else Done(net.(stopOnce := true, stopc := true))
  }

  // The library's Stop keeps some of the live nodes, usually none.
  function LibraryStopped(net: Net, left: set<string>): Result<Net> {
    if net.nw.None? then Panicked(NilLibrary)
    else Done(net.(nw := Some(map n | n in net.nw.value && n in left :: net.nw.value[n]), stops := net.stops + 1))
  }

  // ----- RemoveNode -----

  function Dropped(live: map<string, LiveNode>, name: string, r: LibResult): map<string, LiveNode> {
    if r.LibOk? || r.dropped then live - {name} else live
  }

  // Up to the wait; `order` is the order in which the remaining infos are listed.
  function RemoveLocked(net: Net, name: string, r: LibResult, order: seq<string>): Result<RemoveStep> {
    if name !in net.infos then Done(RemoveFails(NodeNotFound, net))
    else if net.nw.None? then Panicked(NilLibrary)
    else
      var n := net.(nw := Some(Dropped(net.nw.value, name, r)));
      if r.LibErr? then Done(RemoveFails(LibraryError, n))
      else Done(Removed(n.(infos := net.infos - {name}, nodeNames := order)))
  }

  // ----- RestartNode -----

  // The index of the first configuration with this name, or the length.
  function FindConfig(cfgs: seq<NodeConfig>, name: string): (i: nat)
    ensures i <= |cfgs|
    ensures i < |cfgs| ==> cfgs[i].name == name
    ensures forall j :: 0 <= j < i ==> cfgs[j].name != name
  {
    if cfgs == [] || cfgs[0].name == name then 0 else FindConfig(cfgs[1..], name) + 1
  }

  function Relabelled(info: Info, execPath: string, subnets: string): Info {
    info.(execPath := execPath, subnets := subnets)
  }

  // The info is rewritten through its pointer before anything can fail.
  function Marked(net: Net, name: string, execPath: string, subnets: string): Net
    requires name in net.infos
  {
    net.(infos := net.infos[name := Relabelled(net.infos[name], execPath, subnets)], stale := net.stale + {name})
  }

  // Up to the library's RemoveNode.
  function RestartLocked(net: Net, name: string, start: Option<RestartStart>, r: LibResult): Result<RestartStep> {
    if name !in net.infos then Done(RestartFails(NodeNotFound, net)) else
      var idx := FindConfig(net.cfgs, name);
      if idx == |net.cfgs| then Done(RestartFails(NodeNotFound, net))
      else if start.None? || start.value.subnets.None? then Panicked(NilRequest)
      else
        var n := Marked(net, name, start.value.execPath, start.value.subnets.value);
        var info := n.infos[name];
        var was := net.cfgs[idx];
        if !was.impl.Local? then Done(RestartFails(UnexpectedType, n))
        else if net.nw.None? then Panicked(NilLibrary)
        else
          var cfg := was.(configFile := RestartText(info.logDir, info.dbDir, info.subnets),
                          impl := was.impl.(binaryPath := info.execPath));
          var n2 := n.(nw := Some(Dropped(net.nw.value, name, r)));
          if r.LibErr? then Done(RestartFails(LibraryError, n2)) else Done(Restarting(n2, idx, cfg))
  }

  function NodeAdded(net: Net, name: string, node: LiveNode): Net
    requires net.nw.Some?
  {
    net.(nw := Some(net.nw.value[name := node]))
  }

  // After the wait: the new configuration replaces the old one.
  function Committed(net: Net, name: string, idx: nat, cfg: NodeConfig): Net
    requires idx < |net.cfgs|
  {
    net.(cfgs := net.cfgs[idx := cfg], stale := net.stale - {name})
  }

  // ----- what every state keeps -----

  function ConfigNames(n: nat): set<string> {
    if n == 0 then {} else ConfigNames(n - 1) + {NodeName(n - 1)}
  }

  ghost predicate KeepsDirs(text: string, logDir: string, dbDir: string) {
    exists level, subnets :: text == ConfigText(level, logDir, dbDir, subnets)
  }

  ghost predicate KeepsSubnets(text: string, logDir: string, dbDir: string, subnets: string) {
    exists level :: text == ConfigText(level, logDir, dbDir, subnets)
  }

  ghost predicate ConfigsOk(net: Net) {
    forall i :: 0 <= i < |net.cfgs| ==>
      && net.cfgs[i].name == NodeName(i)
      && net.cfgs[i].impl.Local?
      && KeepsDirs(net.cfgs[i].configFile, LogDir(net.root, NodeName(i)), DbDir(net.root, NodeName(i)))
  }

  ghost predicate InfosOk(net: Net) {
    && net.infos.Keys <= ConfigNames(|net.cfgs|)
    && forall n :: n in net.infos ==>
         && net.infos[n].name == n
         && net.infos[n].logDir == LogDir(net.root, n)
         && net.infos[n].dbDir == DbDir(net.root, n)
  }

  // The info says what the configuration runs.
  ghost predicate Agrees(info: Info, cfg: NodeConfig) {
    && cfg.impl.Local?
    && cfg.impl.binaryPath == info.execPath
    && KeepsSubnets(cfg.configFile, info.logDir, info.dbDir, info.subnets)
  }

  ghost predicate Agreement(net: Net) {
    forall i :: 0 <= i < |net.cfgs| && net.cfgs[i].name in net.infos && net.cfgs[i].name !in net.stale ==>
      Agrees(net.infos[net.cfgs[i].name], net.cfgs[i])
  }

  ghost predicate LiveKnown(net: Net) {
    net.nw.Some? ==> net.nw.value.Keys <= net.infos.Keys
  }

  // Every node of the last completed pass shows the address the library gave.
  ghost predicate Filled(net: Net) {
    net.nodes.Some? ==>
      forall n :: n in net.nodes.value ==>
        && n in net.apiClis && net.apiClis[n] == net.nodes.value[n].client
        && (n in net.infos ==> net.infos[n].uri == Uri(net.nodes.value[n]) && net.infos[n].id == net.nodes.value[n].id)
  }

  ghost predicate ChannelsOk(net: Net) {
    && net.readyOnce == net.readyc
    && net.stopOnce == net.stopc
    && net.donec == net.pc.Exited?
    && net.errc <= (if net.pc.Closing? || net.pc.Exited? then 1 else 0)
    // start() ends with readyc closed or with its error sent
    && (net.pc.Closing? || net.pc.Exited? ==> net.readyc || net.errc == 1)
    && (net.pc.Creating? ==> net.nw.None? && net.infos.Keys == ConfigNames(|net.cfgs|))
    && (net.pc.Waiting? || net.pc.Refreshing? ==> net.nw.Some?)
    && (net.nodes.Some? ==> net.nw.Some?)
    && (net.readyc <==> net.nodes.Some?)
  }

  ghost predicate WellFormed(net: Net) {
    && ConfigsOk(net) && InfosOk(net) && Agreement(net) && LiveKnown(net) && Filled(net) && ChannelsOk(net)
    && Enumerates(net.nodeNames, net.infos.Keys)
  }

  // ----- newNetwork establishes it -----

  lemma {:induction false} ConfigNamesAre(n: nat, name: string)
    ensures name in ConfigNames(n) <==> exists i :: 0 <= i < n && NodeName(i) == name
  {
    if n != 0 {
      ConfigNamesAre(n - 1, name);
    }
  }

  lemma LaterNameIsNew(i: nat, n: nat)
    requires n <= i
    ensures NodeName(i) !in ConfigNames(n)
  {
    ConfigNamesAre(n, NodeName(i));
    if NodeName(i) in ConfigNames(n) {
      var j :| 0 <= j < n && NodeName(j) == NodeName(i);
      NodeNameInjective(i, j);
    }
  }

  lemma {:induction false} InitialInfosAt(l: Launch, k: nat, i: nat)
    requires i < k
    ensures NodeName(i) in InitialInfos(l, k)
    ensures InitialInfos(l, k)[NodeName(i)] == InfoAt(l, i)
  {
    hide NodeName, StartText;
    if i < k - 1 {
      InitialInfosAt(l, k - 1, i);
      if NodeName(i) == NodeName(k - 1) {
        NodeNameInjective(i, k - 1);
      }
    }
  }

  lemma {:induction false} InitialInfosKeys(l: Launch, k: nat)
    ensures InitialInfos(l, k).Keys == ConfigNames(k)
    ensures forall n :: n in InitialInfos(l, k) ==>
              var info := InitialInfos(l, k)[n];
              && info.name == n && info.logDir == LogDir(l.root, n) && info.dbDir == DbDir(l.root, n)
              && info.config == StartText(l.level, LogDir(l.root, n), DbDir(l.root, n), l.subnets)
  {
    hide NodeName, StartText;
    if k != 0 {
      InitialInfosKeys(l, k - 1);
    }
  }

  function FirstNames(n: nat): seq<string> {
    seq(n, i requires 0 <= i < n => NodeName(i))
  }

  lemma {:induction false} NamesEnumerate(n: nat)
    ensures Enumerates(FirstNames(n), ConfigNames(n))
    ensures |ConfigNames(n)| == n
  {
    hide NodeName;
    if n == 0 {
      assert FirstNames(n) == [];
    } else {
      NamesEnumerate(n - 1);
      LaterNameIsNew(n - 1, n - 1);
      assert FirstNames(n) == FirstNames(n - 1) + [NodeName(n - 1)];
    }
  }

  lemma NewNetworkWellFormed(l: Launch, defaults: seq<NodeConfig>)
    requires |defaults| <= |COLORS|
    ensures WellFormed(InitialNet(l, defaults)) && !InitialNet(l, defaults).stopc
    ensures |InitialNet(l, defaults).infos| == |defaults|
    ensures forall i :: 0 <= i < |defaults| ==>
              var net := InitialNet(l, defaults);
              NodeName(i) in net.infos && net.infos[NodeName(i)].config == net.cfgs[i].configFile
  {
    var net := InitialNet(l, defaults);
    InitialInfosKeys(l, |defaults|);
    NamesEnumerate(|defaults|);
    assert |net.infos.Keys| == |net.infos|;
    forall i | 0 <= i < |defaults|
      ensures NodeName(i) in net.infos && net.infos[NodeName(i)] == InfoAt(l, i)
      ensures KeepsSubnets(net.cfgs[i].configFile, InfoAt(l, i).logDir, InfoAt(l, i).dbDir, l.subnets)
      ensures KeepsDirs(net.cfgs[i].configFile, InfoAt(l, i).logDir, InfoAt(l, i).dbDir)
    {
      InitialInfosAt(l, |defaults|, i);
      assert net.cfgs[i].configFile
          == ConfigText(EffectiveLevel(l.level), InfoAt(l, i).logDir, InfoAt(l, i).dbDir, l.subnets);
    }
  }

  lemma NewNetworkRoot(l: Launch, defaults: seq<NodeConfig>)
    requires |defaults| <= |COLORS|
    ensures InitialNet(l, defaults).root == l.root
  {
  }

  // Each entry of a new network is its default with name, file and
  // implementation set; the implementation and the info are what was asked for.
  lemma NewNetworkKeepsDefaults(l: Launch, defaults: seq<NodeConfig>, i: nat)
    requires i < |defaults| <= |COLORS|
    ensures var net := InitialNet(l, defaults); var name := NodeName(i);
      && |net.cfgs| == |defaults|
      && net.cfgs[i] == defaults[i].(name := name, configFile := net.cfgs[i].configFile, impl := net.cfgs[i].impl)
      && net.cfgs[i].impl == Local(l.execPath, COLORS[i], name)
      && name in net.infos
      && net.infos[name].execPath == l.execPath && net.infos[name].subnets == l.subnets
      && net.infos[name].uri == "" && net.infos[name].id == ""
      && net.infos[name].config == net.cfgs[i].configFile
  {
    hide NodeName, StartText, LogDir, DbDir;
    InitialInfosAt(l, |defaults|, i);
  }

  // ----- every state change keeps it -----

  // What a step that does not hold the lock may change of a network, as far as
  // the others are concerned: addresses are filled in and signals are raised.
  ghost predicate OnlyAddresses(net: Net, n: Net) {
    && n.root == net.root && n.cfgs == net.cfgs && n.stale == net.stale && n.nodeNames == net.nodeNames
    && n.stopc == net.stopc
    && n.infos.Keys == net.infos.Keys
    && (forall x :: x in net.infos ==> n.infos[x] == net.infos[x].(uri := n.infos[x].uri, id := n.infos[x].id))
    && (net.nw.Some? ==> n.nw.Some?)
    && (net.readyc ==> n.readyc)
    && (net.pc.Exited? ==> n.pc.Exited?)
  }

  // What any step but start()'s own leaves of a network.
  ghost predicate Steady(net: Net, n: Net) {
    n.root == net.root && |n.cfgs| == |net.cfgs| && n.pc == net.pc && (net.readyc ==> n.readyc)
  }

  lemma AddressesDoNotMatter(net: Net, n: Net)
    requires ConfigsOk(net) && InfosOk(net) && Agreement(net) && OnlyAddresses(net, n)
    ensures ConfigsOk(n) && InfosOk(n) && Agreement(n)
  {
    hide NodeName, LogDir, DbDir, KeepsDirs, KeepsSubnets, ConfigNames;
    forall i | 0 <= i < |n.cfgs| && n.cfgs[i].name in n.infos && n.cfgs[i].name !in n.stale
      ensures Agrees(n.infos[n.cfgs[i].name], n.cfgs[i])
    {
      assert Agrees(net.infos[net.cfgs[i].name], net.cfgs[i]);
    }
  }

  lemma ReportAllIs(infos: map<string, Info>, snapshot: map<string, LiveNode>)
    ensures ReportAll(infos, snapshot).Keys == infos.Keys
    ensures forall x :: x in infos ==>
              ReportAll(infos, snapshot)[x]
              == infos[x].(uri := ReportAll(infos, snapshot)[x].uri, id := ReportAll(infos, snapshot)[x].id)
    ensures forall x :: x in infos && x in snapshot ==>
              && ReportAll(infos, snapshot)[x].uri == Uri(snapshot[x])
              && ReportAll(infos, snapshot)[x].id == snapshot[x].id
  {
  }

  lemma PassFills(net: Net, snapshot: map<string, LiveNode>)
    requires net.nodes == Some(snapshot) && snapshot.Keys <= net.infos.Keys
    requires forall x :: x in net.infos && x in snapshot ==>
               net.infos[x].uri == Uri(snapshot[x]) && net.infos[x].id == snapshot[x].id
    requires exists before :: net.apiClis == before + Clients(snapshot)
    ensures Filled(net)
  {
    hide Uri;
  }

  // A pass panics exactly when it saw a node that has no info any more; it
  // never closes readyc twice.
  lemma RefreshKeeps(net: Net, snapshot: map<string, LiveNode>)
    requires WellFormed(net) && net.nw.Some?
    ensures Refresh(net, snapshot).Panicked? <==> !(snapshot.Keys <= net.infos.Keys)
    ensures Refresh(net, snapshot) != Panicked(DoubleClose)
    ensures Refresh(net, snapshot).Done? ==>
              var n := Refresh(net, snapshot).value;
              && WellFormed(n) && OnlyAddresses(net, n) && Steady(net, n) && n.readyc && n.nodes == Some(snapshot)
              && n == net.(nodes := n.nodes, infos := n.infos, apiClis := n.apiClis, readyc := true, readyOnce := true)
  {
    hide ConfigsOk, InfosOk, Agreement, Filled, ReportAll, Clients, Enumerates, ConfigNames, Uri;
    if snapshot.Keys <= net.infos.Keys {
      ReportAllIs(net.infos, snapshot);
      var n := Refresh(net, snapshot).value;
      AddressesDoNotMatter(net, n);
      PassFills(n, snapshot);
    }
  }

  // Every move of start() counts down, and only Apply can panic.
  lemma StartMoveKeeps(net: Net, m: StartMove)
    requires WellFormed(net) && CanMove(net, m)
    ensures StartMoved(net, m).Panicked? <==> m.Apply? && !(net.pc.snapshot.Keys <= net.infos.Keys)
    ensures StartMoved(net, m) != Panicked(DoubleClose)
    ensures StartMoved(net, m).Done? ==>
              var n := StartMoved(net, m).value;
              WellFormed(n) && OnlyAddresses(net, n) && Rank(n.pc) < Rank(net.pc)
  {
    hide ConfigsOk, InfosOk, Agreement, Filled, ConfigNames, Enumerates, Refresh;
    if m.Apply? {
      RefreshKeeps(net, net.pc.snapshot);
      if net.pc.snapshot.Keys <= net.infos.Keys {
        SettingsKept(Refresh(net, net.pc.snapshot).value, StartMoved(net, m).value);
      }
    } else if StartMoved(net, m).Done? {
      SettingsKept(net, StartMoved(net, m).value);
    }
  }

  // Signals and the program counter do not bear on the settings.
  lemma SettingsKept(net: Net, n: Net)
    requires ConfigsOk(net) && InfosOk(net) && Agreement(net) && Filled(net)
    requires n == net.(pc := n.pc, nw := n.nw, errc := n.errc, donec := n.donec, stopc := n.stopc,
                       stopOnce := n.stopOnce, stops := n.stops)
    ensures ConfigsOk(n) && InfosOk(n) && Agreement(n) && Filled(n)
  {
    hide NodeName, LogDir, DbDir, KeepsDirs, KeepsSubnets, ConfigNames;
  }

  // The facts about one network that its readers use.
  lemma NetFacts(net: Net)
    requires WellFormed(net)
    ensures net.donec <==> net.pc.Exited?
    ensures net.stopOnce <==> net.stopc
    ensures net.readyc ==> net.nodes.Some?
    ensures net.nw.Some? ==> net.nw.value.Keys <= net.infos.Keys
    ensures net.errc <= 1 && (net.pc.SendingErr? ==> net.errc == 0)
    ensures net.donec ==> net.readyc || net.errc == 1
    ensures net.pc.Waiting? || net.pc.Refreshing? ==> net.nw.Some?
    ensures net.pc.Creating? ==> net.nw.None? && net.infos.Keys == ConfigNames(|net.cfgs|)
  {
  }

  // start() holds a node that has no info any more.
  predicate StaleSnapshot(net: Net) {
    net.pc.Refreshing? && !(net.pc.snapshot.Keys <= net.infos.Keys)
  }

  lemma MovesAreNotStale(net: Net, m: StartMove)
    requires WellFormed(net) && CanMove(net, m)
    ensures StartMoved(net, m).Panicked? <==> StaleSnapshot(net)
    ensures StartMoved(net, m).Done? ==> !StaleSnapshot(StartMoved(net, m).value)
  {
    hide ConfigsOk, InfosOk, Agreement, Filled, Refresh;
    StartMoveKeeps(net, m);
    if m.Apply? {
      RefreshKeeps(net, net.pc.snapshot);
    }
  }

  lemma OnlyAddressesTwice(a: Net, b: Net, c: Net)
    requires OnlyAddresses(a, b) && OnlyAddresses(b, c)
    ensures OnlyAddresses(a, c)
  {
  }

  // Moves that start() makes by itself, whatever the library and the clock do.
  predicate Forced(m: StartMove) {
    m == Fail(Aborted) || m.Apply? || m.SendErr? || m.CloseDonec?
  }

  // Until start() has returned it has a move. Once the library's network is
  // there, it has one that needs neither the library nor the clock, unless it
  // waits for health and stopc is still open.
  lemma StartCanMove(net: Net)
    requires WellFormed(net)
    ensures !net.pc.Exited? <==> exists m :: CanMove(net, m)
    ensures (exists m :: CanMove(net, m) && Forced(m))
            <==> !net.pc.Exited? && !net.pc.Creating? && (net.pc.Waiting? ==> net.stopc)
  {
    match net.pc
    case Creating => assert CanMove(net, Create(None));
    case Waiting =>
      assert CanMove(net, Fail(TimedOut));
      assert net.stopc ==> CanMove(net, Fail(Aborted)) && Forced(Fail(Aborted));
    case Refreshing(_) => assert CanMove(net, Apply) && Forced(Apply);
    case SendingErr => assert CanMove(net, SendErr) && Forced(SendErr);
    case Closing => assert CanMove(net, CloseDonec) && Forced(CloseDonec);
    case Exited =>
  }

  lemma StopStepsKeep(net: Net, left: set<string>)
    requires WellFormed(net)
    ensures CloseStop(net).Panicked? <==> net.stopOnce
    ensures CloseStop(net).Done? ==>
              WellFormed(CloseStop(net).value) && CloseStop(net).value == net.(stopOnce := true, stopc := true)
    ensures LibraryStopped(net, left).Panicked? <==> net.nw.None?
    ensures LibraryStopped(net, left) != Panicked(DoubleClose)
    ensures LibraryStopped(net, left).Done? ==>
              var n := LibraryStopped(net, left).value;
              && WellFormed(n) && OnlyAddresses(net, n) && Steady(net, n) && n.nw.Some?
              // the library is stopped: of its nodes those in `left` stay live, and no other
              && n == net.(nw := n.nw, stops := net.stops + 1)
              && (forall x :: x in n.nw.value <==> x in net.nw.value && x in left)
              && (forall x :: x in n.nw.value ==> n.nw.value[x] == net.nw.value[x])
  {
    hide ConfigsOk, InfosOk, Agreement, Filled, ConfigNames, Enumerates;
    if CloseStop(net).Done? {
      SettingsKept(net, CloseStop(net).value);
    }
    if LibraryStopped(net, left).Done? {
      SettingsKept(net, LibraryStopped(net, left).value);
    }
  }

  // The library refuses to remove a node that it does not have.
  predicate LibraryAllows(net: Net, name: string, r: LibResult) {
    net.nw.Some? && r.LibOk? ==> name in net.nw.value
  }

  // What a locked body leaves alone.
  predicate SignalsKept(net: Net, n: Net) {
    && n.stopc == net.stopc && n.readyc == net.readyc && n.pc == net.pc && n.root == net.root
    && |n.cfgs| == |net.cfgs|
    && (net.nw.Some? ==> n.nw.Some?)
  }

  lemma RemoveKeeps(net: Net, name: string, r: LibResult, order: seq<string>)
    requires WellFormed(net) && (r.LibOk? ==> Enumerates(order, net.infos.Keys - {name}))
    ensures var o := RemoveLocked(net, name, r, order);
      && o != Panicked(DoubleClose)
      && (o.Panicked? <==> name in net.infos && net.nw.None?)
      && (o.Done? && o.value.RemoveFails? ==>
            && WellFormed(o.value.net) && SignalsKept(net, o.value.net)
            && o.value.net.infos == net.infos && o.value.net.nodeNames == net.nodeNames)
      && (o.Done? && o.value.Removed? ==>
            && WellFormed(o.value.net) && SignalsKept(net, o.value.net) && o.value.net.nw.Some?
            && o.value.net.infos == net.infos - {name} && o.value.net.nodeNames == order
            && name !in o.value.net.nw.value)
  {
    hide NodeName, LogDir, DbDir, KeepsDirs, KeepsSubnets;
    var o := RemoveLocked(net, name, r, order);
    if o.Done? && o.value.Removed? {
      assert o.value.net.infos.Keys == net.infos.Keys - {name};
    }
  }

  // The state between a restart's first write and its commit.
  ghost predicate RestartPending(net: Net, name: string, idx: nat, cfg: NodeConfig) {
    && net.nw.Some? && name in net.infos && name in net.stale
    && idx < |net.cfgs| && net.cfgs[idx].name == name && net.cfgs[idx].impl.Local?
    && var info := net.infos[name];
       cfg == net.cfgs[idx].(configFile := RestartText(info.logDir, info.dbDir, info.subnets),
                             impl := net.cfgs[idx].impl.(binaryPath := info.execPath))
  }

  // The search finds the one entry of a known node, so the second not-found
  // exit and the type-assertion exit are never taken.
  lemma RestartSearchSucceeds(net: Net, name: string)
    requires WellFormed(net) && name in net.infos
    ensures var idx := FindConfig(net.cfgs, name);
      && idx < |net.cfgs| && net.cfgs[idx].name == name && net.cfgs[idx].impl.Local?
      && forall j :: 0 <= j < |net.cfgs| && j != idx ==> net.cfgs[j].name != name
  {
    ConfigNamesAre(|net.cfgs|, name);
    var i :| 0 <= i < |net.cfgs| && NodeName(i) == name;
    assert net.cfgs[i].name == name;
    var idx := FindConfig(net.cfgs, name);
    forall j | 0 <= j < |net.cfgs| && j != idx ensures net.cfgs[j].name != name {
      if net.cfgs[j].name == name {
        NodeNameInjective(idx, j);
      }
    }
  }

  // No node but this one comes, goes or is replaced.
  predicate OthersLive(nw: Option<map<string, LiveNode>>, after: Option<map<string, LiveNode>>, name: string) {
    && (nw.Some? <==> after.Some?)
    && (nw.Some? && after.Some? ==> after.value - {name} == nw.value - {name})
  }

  // A restart, failing or not, touches this node only: its binary and subnets
  // in the info, its place among the live nodes and its mark.
  ghost predicate RestartTouches(net: Net, n: Net, name: string) {
    && n == net.(infos := n.infos, nw := n.nw, stale := n.stale)
    && n.infos.Keys == net.infos.Keys
    && (forall x :: x in net.infos && x != name ==> n.infos[x] == net.infos[x])
    && (name in net.infos ==>
          n.infos[name] == net.infos[name].(execPath := n.infos[name].execPath, subnets := n.infos[name].subnets))
    && OthersLive(net.nw, n.nw, name)
    && net.stale <= n.stale <= net.stale + {name}
  }

  // What the locked body makes of the network once its lookups have passed.
  function Begun(net: Net, name: string, start: RestartStart, r: LibResult): Net
    requires name in net.infos && net.nw.Some? && start.subnets.Some?
  {
    Marked(net, name, start.execPath, start.subnets.value).(nw := Some(Dropped(net.nw.value, name, r)))
  }

  lemma BegunKeeps(net: Net, name: string, start: RestartStart, r: LibResult)
    requires WellFormed(net) && name in net.infos && net.nw.Some? && start.subnets.Some?
    ensures var n := Begun(net, name, start, r);
      && WellFormed(n) && SignalsKept(net, n) && RestartTouches(net, n, name)
      && (r.LibOk? ==> n.nw.value.Keys == net.nw.value.Keys - {name})
  {
    hide ConfigsOk, InfosOk, Agreement, Filled, ConfigNames, Enumerates;
    RelabelKeeps(net, name, start.execPath, start.subnets.value);
    SettingsKept(Marked(net, name, start.execPath, start.subnets.value), Begun(net, name, start, r));
  }

  lemma RestartPanicsWhen(net: Net, name: string, start: Option<RestartStart>, r: LibResult)
    requires WellFormed(net)
    ensures var o := RestartLocked(net, name, start, r);
      && o != Panicked(DoubleClose)
      && (o.Panicked? <==> name in net.infos && (start.None? || start.value.subnets.None? || net.nw.None?))
      && (name !in net.infos ==> o == Done(RestartFails(NodeNotFound, net)))
      && (name in net.infos && o.Done? ==>
            var n := Begun(net, name, start.value, r);
            if r.LibErr? then o == Done(RestartFails(LibraryError, n))
            else o.value.Restarting? && o.value.net == n && RestartPending(n, name, o.value.idx, o.value.cfg))
  {
    hide WellFormed, RestartText;
    if name in net.infos {
      RestartSearchSucceeds(net, name);
    }
  }

  lemma RestartKeeps(net: Net, name: string, start: Option<RestartStart>, r: LibResult)
    requires WellFormed(net)
    ensures var o := RestartLocked(net, name, start, r);
      && o != Panicked(DoubleClose)
      && (o.Panicked? <==> name in net.infos && (start.None? || start.value.subnets.None? || net.nw.None?))
      && (o.Done? && o.value.RestartFails? ==>
            && (o.value.err == NodeNotFound <==> name !in net.infos)
            && o.value.err != UnexpectedType
            && (o.value.err == NodeNotFound ==> o.value.net == net)
            && (r.LibOk? ==> o.value.err == NodeNotFound)
            && WellFormed(o.value.net) && SignalsKept(net, o.value.net) && RestartTouches(net, o.value.net, name))
      && (o.Done? && o.value.Restarting? ==>
            && WellFormed(o.value.net) && SignalsKept(net, o.value.net) && RestartTouches(net, o.value.net, name)
            && o.value.net.nw.Some? && o.value.net.nw.value.Keys == net.nw.value.Keys - {name}
            && RestartPending(o.value.net, name, o.value.idx, o.value.cfg))
  {
    hide WellFormed, RestartLocked, RestartPending;
    RestartPanicsWhen(net, name, start, r);
    if name in net.infos && RestartLocked(net, name, start, r).Done? {
      BegunKeeps(net, name, start.value, r);
    }
  }

  lemma RelabelKeeps(net: Net, name: string, execPath: string, subnets: string)
    requires WellFormed(net) && name in net.infos
    ensures var n := Marked(net, name, execPath, subnets); WellFormed(n) && n.infos.Keys == net.infos.Keys
  {
    hide NodeName, LogDir, DbDir, KeepsDirs, KeepsSubnets, ConfigNames, Uri;
    var n := Marked(net, name, execPath, subnets);
    assert n.infos.Keys == net.infos.Keys;
    assert forall x :: x in net.infos ==>
      n.infos[x] == net.infos[x].(execPath := n.infos[x].execPath, subnets := n.infos[x].subnets);
    forall i | 0 <= i < |n.cfgs| && n.cfgs[i].name in n.infos && n.cfgs[i].name !in n.stale
      ensures Agrees(n.infos[n.cfgs[i].name], n.cfgs[i])
    {
      assert Agrees(net.infos[net.cfgs[i].name], net.cfgs[i]);
    }
  }

  lemma NodeAddedKeeps(net: Net, name: string, idx: nat, cfg: NodeConfig, node: LiveNode)
    requires WellFormed(net) && RestartPending(net, name, idx, cfg)
    ensures WellFormed(NodeAdded(net, name, node)) && RestartPending(NodeAdded(net, name, node), name, idx, cfg)
    ensures OnlyAddresses(net, NodeAdded(net, name, node))
  {
    hide ConfigsOk, InfosOk, Agreement, Filled, ConfigNames, Enumerates, RestartText;
    SettingsKept(net, NodeAdded(net, name, node));
  }

  // A successful restart changes one entry, and in it only the configuration
  // file and the binary path; the directories stay those of newNetwork.
  lemma CommitKeeps(net: Net, name: string, idx: nat, cfg: NodeConfig)
    requires WellFormed(net) && RestartPending(net, name, idx, cfg)
    ensures var n := Committed(net, name, idx, cfg);
      && WellFormed(n) && n.stale == net.stale - {name}
      && Steady(net, n)
      && (forall j :: 0 <= j < |net.cfgs| && j != idx ==> n.cfgs[j] == net.cfgs[j])
      && n.cfgs[idx] == net.cfgs[idx].(configFile := n.cfgs[idx].configFile,
                                       impl := net.cfgs[idx].impl.(binaryPath := net.infos[name].execPath))
      && Agrees(n.infos[name], n.cfgs[idx])
  {
    hide ConfigsOk, InfosOk, Agreement, Filled, ConfigNames, Enumerates, RestartText, KeepsDirs, KeepsSubnets;
    PendingFile(net, name, idx, cfg);
    CommitSettings(net, name, idx, cfg);
  }

  // The file that a restart has rendered keeps directories and subnets.
  lemma PendingFile(net: Net, name: string, idx: nat, cfg: NodeConfig)
    requires ConfigsOk(net) && InfosOk(net) && RestartPending(net, name, idx, cfg)
    ensures cfg.name == name == NodeName(idx) && Agrees(net.infos[name], cfg)
    ensures KeepsDirs(cfg.configFile, LogDir(net.root, name), DbDir(net.root, name))
  {
    hide RestartText, ConfigText, LogDir, DbDir, NodeName, ConfigNames;
    var info := net.infos[name];
    RestartTemplateAgrees(info.logDir, info.dbDir, info.subnets);
    assert cfg.configFile == ConfigText("INFO", info.logDir, info.dbDir, info.subnets);
  }

  lemma CommitSettings(net: Net, name: string, idx: nat, cfg: NodeConfig)
    requires ConfigsOk(net) && InfosOk(net) && Agreement(net) && Filled(net) && name in net.infos && idx < |net.cfgs|
    requires cfg.name == name == NodeName(idx) && Agrees(net.infos[name], cfg)
    requires KeepsDirs(cfg.configFile, LogDir(net.root, name), DbDir(net.root, name))
    ensures var n := Committed(net, name, idx, cfg); ConfigsOk(n) && InfosOk(n) && Agreement(n) && Filled(n)
  {
    hide LogDir, DbDir, NodeName, KeepsDirs, KeepsSubnets, ConfigNames, Uri;
    forall j | 0 <= j < |net.cfgs| && j != idx ensures net.cfgs[j].name != name {
      if net.cfgs[j].name == name {
        NodeNameInjective(idx, j);
      }
    }
    var n := Committed(net, name, idx, cfg);
    forall i | 0 <= i < |n.cfgs| && n.cfgs[i].name in n.infos && n.cfgs[i].name !in n.stale
      ensures Agrees(n.infos[n.cfgs[i].name], n.cfgs[i])
    {
      assert i != idx ==> Agrees(net.infos[net.cfgs[i].name], net.cfgs[i]);
    }
  }
}
