// The server's objects as the code has them: node infos reached through
// pointers, an info map shared by the network and the published cluster info,
// a configuration array updated in place. Every method is tied to the change
// that module Registry describes on values.
module Objects {
  import opened Basics
  import opened Config
  import opened Registry
  import opened Uris

  class NodeInfo {
    var name: string
    var execPath: string
    var uri: string
    var id: string
    var logDir: string
    var dbDir: string
    var whitelistedSubnets: string
    var config: string

    constructor (i: Info)
      ensures View() == i
    {
      name, execPath, uri, id := i.name, i.execPath, i.uri, i.id;
      logDir, dbDir, whitelistedSubnets, config := i.logDir, i.dbDir, i.subnets, i.config;
    }

    method SetAddress(n: LiveNode)
      modifies this
      ensures View() == Reported(old(View()), n)
    {
      uri := Uri(n);
      id := n.id;
    }

    function View(): Info
      reads this
    {
      Info(name, execPath, uri, id, logDir, dbDir, whitelistedSubnets, config)
    }
  }

  // A map object: whoever holds the reference sees every insertion and deletion.
  class InfoMap {
    var entries: map<string, NodeInfo>

    constructor ()
      ensures entries == map[]
    {
      entries := map[];
    }

    ghost predicate Distinct()
      reads this
    {
      forall a, b :: a in entries && b in entries && a != b ==> entries[a] != entries[b]
    }

    ghost function View(): map<string, Info>
      reads this, entries.Values
    {
      map n | n in entries :: entries[n].View()
    }

    lemma ViewKeys()
      ensures View().Keys == entries.Keys
    {
    }

    method Insert(name: string, info: NodeInfo)
      requires Distinct() && info !in entries.Values && name !in entries
      modifies this
      ensures Distinct() && entries == old(entries)[name := info]
      ensures entries.Values == old(entries.Values) + {info}
      ensures View() == old(View())[name := info.View()]
    {
      entries := entries[name := info];
      assert name in entries;
      forall x | x in old(entries.Values) ensures x in entries.Values {
        var n :| n in old(entries) && old(entries)[n] == x;
        assert entries[n] == x;
      }
    }

    method Delete(name: string)
      requires Distinct()
      modifies this
      ensures Distinct() && entries == old(entries) - {name}
      ensures entries.Values <= old(entries.Values)
      ensures View() == old(View()) - {name}
    {
      entries := entries - {name};
    }

    // One entry is written through its pointer.
    method SetAddress(name: string, n: LiveNode)
      requires Distinct() && name in entries
      modifies entries[name]
      ensures View() == old(View())[name := Reported(old(View())[name], n)]
    {
      hide Reported;
      entries[name].SetAddress(n);
    }

    method Get(name: string) returns (info: Info)
      requires name in entries
      ensures name in View() && info == View()[name]
    {
      info := entries[name].View();
    }

    method Relabel(name: string, execPath: string, subnets: string)
      requires Distinct() && name in entries
      modifies entries[name]
      ensures View() == old(View())[name := Relabelled(old(View())[name], execPath, subnets)]
    {
      entries[name].execPath := execPath;
      entries[name].whitelistedSubnets := subnets;
    }

    // Its keys, in whatever order the iteration visits them.
    method Names() returns (order: seq<string>)
      ensures Enumerates(order, entries.Keys)
    {
      order := [];
      var rest := entries.Keys;
      while rest != {}
        invariant rest <= entries.Keys
        invariant multiset(order) == multiset(entries.Keys - rest)
        decreases |rest|
      {
        var n :| n in rest;
        rest := rest - {n};
        order := order + [n];
        assert entries.Keys - rest == (entries.Keys - (rest + {n})) + {n};
      }
      assert entries.Keys - rest == entries.Keys;
    }

    // The addresses of its infos, sorted.
    method Addresses() returns (answer: seq<string>)
      ensures IsUriList(answer, View())
      ensures forall x :: x in answer ==> exists n :: n in entries && entries[n].uri == x
    {
      hide IsUriList, Enumerates;
      ViewKeys();
      var order := Names();
      EnumerationMembers(order, entries.Keys);
      var uris: seq<string> := [];
      for i := 0 to |order|
        invariant |uris| == i && forall j :: 0 <= j < i ==> uris[j] == View()[order[j]].uri
      {
        uris := uris + [entries[order[i]].uri];
      }
      AnyOrderSorts(order, View());
      assert uris == UrisAlong(order, View());
      answer := Sort(uris);
      forall x | x in answer ensures exists n :: n in entries && entries[n].uri == x {
        AnswerHolds(answer, View(), x);
      }
    }
  }

  // A call of the library and what it answered.
  datatype LibCall =
    | Created(cfgs: seq<NodeConfig>)
    | HealthyCalled(ok: bool)
    | NodesCalled(nodes: Option<map<string, LiveNode>>)
    | RemoveCalled(name: string, r: LibResult)
    | AddCalled(cfg: NodeConfig, node: Option<LiveNode>)
    | StopCalled(left: set<string>)

  // How often Stop was called.
  function Stops(log: seq<LibCall>): nat {
    if log == [] then 0 else Stops(log[..|log| - 1]) + if log[|log| - 1].StopCalled? then 1 else 0
  }

  lemma StopsOne(log: seq<LibCall>, c: LibCall)
    ensures Stops(log + [c]) == Stops(log) + if c.StopCalled? then 1 else 0
  {
    assert (log + [c])[..|log|] == log;
  }

  // A wait for health ends without success: an answer of the library's that is
  // in its log is a failure, or the deadline passes or stopc is closed first.
  predicate WaitFails(added: seq<LibCall>, late: bool, aborted: bool) {
    || added == [HealthyCalled(false)]
    || added == [HealthyCalled(true), NodesCalled(None)]
    || (|added| == 1 && added[0].HealthyCalled? && (late || aborted))
  }

  // It ends with success: the library is healthy and these are its nodes.
  predicate WaitPasses(added: seq<LibCall>, live: map<string, LiveNode>) {
    added == [HealthyCalled(true), NodesCalled(Some(live))]
  }

  // What a move of start() calls.
  predicate MoveCalls(m: StartMove, added: seq<LibCall>, live: map<string, LiveNode>) {
    match m
    case See => WaitPasses(added, live)
    case Fail(why) => WaitFails(added, why.TimedOut?, why.Aborted?)
    case _ => added == []
  }

  // What was called after `before`, `after` being the log by then.
  function Since(before: seq<LibCall>, after: seq<LibCall>): seq<LibCall>
    requires |before| <= |after|
  {
    after[|before|..]
  }

  // RestartNode has removed the node and asks for this configuration to be
  // added: that failed, or the wait after it did, or nothing did.
  predicate ResumeCalls(failure: Option<Err>, cfg: NodeConfig, added: seq<LibCall>, live: map<string, LiveNode>,
                        late: bool, aborted: bool) {
    match failure
    case None => |added| >= 1 && AddedBack(added[0], cfg) && WaitPasses(added[1..], live)
    case Some(NotHealthy) => |added| >= 1 && AddedBack(added[0], cfg) && WaitFails(added[1..], late, aborted)
    case Some(_) => added == [AddCalled(cfg, None)]
  }

  predicate AddedBack(c: LibCall, cfg: NodeConfig) {
    c.AddCalled? && c.cfg == cfg && c.node.Some?
  }

  predicate RestartCalls(failure: Option<Err>, name: string, cfg: NodeConfig, added: seq<LibCall>,
                         live: map<string, LiveNode>, late: bool, aborted: bool) {
    |added| >= 1 && added[0] == RemoveCalled(name, LibOk) && ResumeCalls(failure, cfg, added[1..], live, late, aborted)
  }

  // The library's RemoveNode has failed.
  predicate RemoveFailed(added: seq<LibCall>, name: string) {
    |added| == 1 && added[0].RemoveCalled? && added[0].name == name && added[0].r.LibErr?
  }

  // What RestartNode asks the library to run: the node's entry with the
  // request's binary and the file rendered for the request's subnets.
  ghost predicate AsksFor(cfg: NodeConfig, net: Net, name: string, start: Option<RestartStart>) {
    && name in net.infos && start.Some? && start.value.subnets.Some?
    && var idx := FindConfig(net.cfgs, name);
    && idx < |net.cfgs| && net.cfgs[idx].impl.Local?
    && cfg == net.cfgs[idx].(configFile := cfg.configFile,
                             impl := net.cfgs[idx].impl.(binaryPath := start.value.execPath))
    && cfg.configFile == RestartText(net.infos[name].logDir, net.infos[name].dbDir, start.value.subnets.value)
  }

  // What a reply of RestartNode says of the library's answers.
  ghost predicate RestartAnswers(reply: Reply, net: Net, name: string, start: Option<RestartStart>,
                                 added: seq<LibCall>, live: map<string, LiveNode>, late: bool, aborted: bool) {
    match reply
    case Panics(_) => true
    case Replied =>
      exists cfg :: AsksFor(cfg, net, name, start) && RestartCalls(None, name, cfg, added, live, late, aborted)
    case Refused(err) =>
      if err != LibraryError && err != NotHealthy then added == []
      else || (err == LibraryError && RemoveFailed(added, name))
           || exists cfg ::
                AsksFor(cfg, net, name, start) && RestartCalls(Some(err), name, cfg, added, live, late, aborted)
  }

  // The same of the logs before and after.
  ghost predicate Grows(before: seq<LibCall>, after: seq<LibCall>) {
    |before| <= |after| && after == before + Since(before, after)
  }

  ghost predicate ResumeLogged(failure: Option<Err>, cfg: NodeConfig, before: seq<LibCall>, after: seq<LibCall>,
                               live: map<string, LiveNode>, late: bool, aborted: bool) {
    Grows(before, after) && ResumeCalls(failure, cfg, Since(before, after), live, late, aborted)
  }

  ghost predicate RestartLogged(reply: Reply, net: Net, name: string, start: Option<RestartStart>,
                                before: seq<LibCall>, after: seq<LibCall>,
                                live: map<string, LiveNode>, late: bool, aborted: bool) {
    Grows(before, after) && RestartAnswers(reply, net, name, start, Since(before, after), live, late, aborted)
  }

  ghost predicate WaitLogged(passed: bool, before: seq<LibCall>, after: seq<LibCall>, live: map<string, LiveNode>,
                             late: bool, aborted: bool) {
    && Grows(before, after)
    && if passed then WaitPasses(Since(before, after), live) else WaitFails(Since(before, after), late, aborted)
  }

  // What a reply of RemoveNode says of the library's answers.
  ghost predicate RemoveLogged(reply: Reply, name: string, before: seq<LibCall>, after: seq<LibCall>,
                               live: map<string, LiveNode>, late: bool) {
    Grows(before, after) &&
    var added := Since(before, after);
    match reply
    case Panics(_) => true
    case Replied => |added| >= 1 && added[0] == RemoveCalled(name, LibOk) && WaitPasses(added[1..], live)
    case Refused(NotHealthy) =>
      |added| >= 1 && added[0] == RemoveCalled(name, LibOk) && WaitFails(added[1..], late, false)
    case Refused(LibraryError) => RemoveFailed(added, name)
    case Refused(_) => added == []
  }

  lemma SinceOne(before: seq<LibCall>, c: LibCall)
    ensures Since(before, before + [c]) == [c]
  {
  }

  lemma SinceTwo(before: seq<LibCall>, c: LibCall, d: LibCall)
    ensures Since(before, before + [c] + [d]) == [c, d]
    ensures before + [c] + [d] == before + [c, d]
  {
  }

  lemma FailureIsNoPass(added: seq<LibCall>, late: bool, aborted: bool, live: map<string, LiveNode>)
    requires WaitFails(added, late, aborted)
    ensures !WaitPasses(added, live)
  {
    if added == [HealthyCalled(true), NodesCalled(None)] {
      assert added[1] == NodesCalled(None);
    }
  }

  lemma SinceNothing(before: seq<LibCall>)
    ensures Since(before, before) == []
  {
  }

  // A call, and what was called after it.
  lemma SinceMore(before: seq<LibCall>, c: LibCall, after: seq<LibCall>)
    requires |before| + 1 <= |after| && after == before + [c] + Since(before + [c], after)
    ensures after == before + Since(before, after)
    ensures Since(before, after) == [c] + Since(before + [c], after)
    ensures Since(before, after)[0] == c && Since(before, after)[1..] == Since(before + [c], after)
  {
    var more := Since(before + [c], after);
    assert before + [c] + more == before + ([c] + more);
  }

  lemma AddRefused(before: seq<LibCall>, cfg: NodeConfig, live: map<string, LiveNode>, late: bool, aborted: bool)
    ensures ResumeLogged(Some(LibraryError), cfg, before, before + [AddCalled(cfg, None)], live, late, aborted)
  {
    SinceOne(before, AddCalled(cfg, None));
  }

  lemma AddedAndWaited(before: seq<LibCall>, cfg: NodeConfig, node: Option<LiveNode>, after: seq<LibCall>, passed: bool,
                       live: map<string, LiveNode>, late: bool, aborted: bool)
    requires node.Some? && WaitLogged(passed, before + [AddCalled(cfg, node)], after, live, late, aborted)
    ensures ResumeLogged(if passed then None else Some(NotHealthy), cfg, before, after, live, late, aborted)
  {
    hide WaitPasses, WaitFails, Since;
    SinceMore(before, AddCalled(cfg, node), after);
  }

  lemma PassesWith(before: seq<LibCall>, after: seq<LibCall>, live: map<string, LiveNode>)
    requires after == before + [HealthyCalled(true), NodesCalled(Some(live))]
    ensures WaitPasses(Since(before, after), live)
  {
  }

  // The library's network. What it does is up to it, within these contracts;
  // its log says what it was asked and what it answered.
  class Library {
    var live: map<string, LiveNode>
    ghost var log: seq<LibCall>

    constructor (ghost cfgs: seq<NodeConfig>, nodes: map<string, LiveNode>)
      ensures live == nodes && log == [Created(cfgs)]
    {
      live := nodes;
      log := [Created(cfgs)];
    }

    // local.NewNetwork: null when it fails.
    static method Create(cfgs: seq<NodeConfig>) returns (nw: Library?)
      ensures nw != null ==> fresh(nw) && nw.live.Keys == ConfigNameSet(cfgs) && nw.log == [Created(cfgs)]
    {
      var names := ConfigNameSet(cfgs);
      var rest, nodes: map<string, LiveNode> := names, map[];
      while rest != {}
        invariant rest <= names && nodes.Keys == names - rest
        decreases |rest|
      {
        var n :| n in rest;
        var node: LiveNode := *;
        rest, nodes := rest - {n}, nodes[n := node];
      }
      if * { nw := new Library(cfgs, nodes); } else { nw := null; }
    }

    method Healthy() returns (ok: bool)
      modifies `log
      ensures log == old(log) + [HealthyCalled(ok)]
    {
      ok := *;
      log := log + [HealthyCalled(ok)];
    }

    method GetAllNodes() returns (nodes: Option<map<string, LiveNode>>)
      modifies `log
      ensures nodes.Some? ==> nodes.value == live
      ensures log == old(log) + [NodesCalled(nodes)]
    {
      if * { nodes := Some(live); } else { nodes := None; }
      log := log + [NodesCalled(nodes)];
    }

    method RemoveNode(name: string) returns (r: LibResult)
      modifies this
      ensures r.LibOk? ==> name in old(live)
      ensures live == Dropped(old(live), name, r) && log == old(log) + [RemoveCalled(name, r)]
    {
      var works: bool := *;
      if name in live && works {
        live := live - {name};
        r := LibOk;
      } else if * {
        live := live - {name};
        r := LibErr(true);
      } else {
        r := LibErr(false);
      }
      log := log + [RemoveCalled(name, r)];
    }

    method AddNode(cfg: NodeConfig) returns (node: Option<LiveNode>)
      modifies this
      ensures live == if node.Some? then old(live)[cfg.name := node.value] else old(live)
      ensures log == old(log) + [AddCalled(cfg, node)]
    {
      var works: bool := *;
      if cfg.name !in live && works {
        var n: LiveNode := *;
        live := live[cfg.name := n];
        node := Some(n);
      } else {
        node := None;
      }
      log := log + [AddCalled(cfg, node)];
    }

    method Stop() returns (left: set<string>)
      modifies this
      ensures live == map n | n in old(live) && n in left :: old(live)[n]
      ensures log == old(log) + [StopCalled(left)]
    {
      left := *;
      live := map n | n in live && n in left :: live[n];
      log := log + [StopCalled(left)];
    }
  }

  function ConfigNameSet(cfgs: seq<NodeConfig>): set<string> {
    set c | c in cfgs :: c.name
  }

  lemma ConfigNameSetIs(net: Net)
    requires WellFormed(net)
    ensures ConfigNameSet(net.cfgs) == ConfigNames(|net.cfgs|)
  {
    hide InfosOk, Agreement, Filled, ChannelsOk, KeepsDirs, NodeName;
    forall name ensures name in ConfigNameSet(net.cfgs) <==> name in ConfigNames(|net.cfgs|) {
      ConfigNamesAre(|net.cfgs|, name);
      if i: nat :| i < |net.cfgs| && NodeName(i) == name {
        assert net.cfgs[i] in net.cfgs;
      }
    }
  }

  datatype Reply = Replied | Refused(err: Err) | Panics(why: Panic)

  // How a wait ends.
  datatype Waited = Passed | NotPassed | WaitPanics(why: Panic)

  // The answer's nodes that have been written down, `rest` being still to do.
  function Part(snapshot: map<string, LiveNode>, rest: set<string>): map<string, LiveNode> {
    snapshot - rest
  }

  lemma PartStart(infos: map<string, Info>, clients: map<string, int>, snapshot: map<string, LiveNode>)
    ensures ReportAll(infos, Part(snapshot, snapshot.Keys)) == infos
    ensures clients + Clients(Part(snapshot, snapshot.Keys)) == clients
  {
  }

  lemma PartStep(infos: map<string, Info>, clients: map<string, int>, snapshot: map<string, LiveNode>,
                 rest: set<string>, n: string)
    requires n in rest && rest <= snapshot.Keys && n in infos
    ensures var done := ReportAll(infos, Part(snapshot, rest));
      n in done && ReportAll(infos, Part(snapshot, rest - {n})) == done[n := Reported(done[n], snapshot[n])]
    ensures clients + Clients(Part(snapshot, rest - {n}))
            == (clients + Clients(Part(snapshot, rest)))[n := snapshot[n].client]
  {
    hide Uri;
  }

  lemma ReportedReads(infos: map<string, Info>, snapshot: map<string, LiveNode>, n: string)
    requires n in infos && n in snapshot
    ensures n in ReportAll(infos, snapshot) && ReportAll(infos, snapshot)[n].id == snapshot[n].id
    ensures ReadUri(ReportAll(infos, snapshot)[n].uri) == Some((snapshot[n].url, snapshot[n].port))
  {
    hide Uri, ReadUri;
    UriReads(snapshot[n]);
  }

  lemma PartEnd(snapshot: map<string, LiveNode>)
    ensures Part(snapshot, {}) == snapshot
  {
  }

  lemma OnlyAddressesFirst(base: Net, closed: Net, n: Net)
    requires closed == base.(stopOnce := true, stopc := true) && OnlyAddresses(closed, n) && n.pc == closed.pc
    ensures OnlyAddresses(base.(stopc := true), n)
    ensures StaleSnapshot(n) == StaleSnapshot(base)
  {
  }

  lemma MarkedIs(net: Net, name: string, execPath: string, subnets: string)
    requires name in net.infos
    ensures var n := Marked(net, name, execPath, subnets);
      && n.infos.Keys == net.infos.Keys && n.cfgs == net.cfgs && n.nw == net.nw
      && name in n.infos
  {
  }

  lemma PendingFacts(net: Net, name: string, idx: nat, cfg: NodeConfig)
    requires RestartPending(net, name, idx, cfg)
    ensures net.nw.Some? && cfg.name == name && idx < |net.cfgs|
  {
    hide RestartText;
  }

  lemma NodeAddedIs(net: Net, name: string, node: LiveNode)
    requires net.nw.Some?
    ensures NodeAdded(net, name, node) == net.(nw := NodeAdded(net, name, node).nw)
  {
  }

  lemma AddressesKeepPending(net: Net, n: Net, name: string, idx: nat, cfg: NodeConfig)
    requires OnlyAddresses(net, n) && RestartPending(net, name, idx, cfg)
    ensures RestartPending(n, name, idx, cfg)
  {
    hide RestartText;
  }

  lemma PendingAgrees(net: Net, name: string, idx: nat, cfg: NodeConfig)
    requires WellFormed(net) && RestartPending(net, name, idx, cfg)
    ensures name in net.infos && idx < |net.cfgs| && Agrees(net.infos[name], cfg)
  {
    hide WellFormed, RestartText, Agrees;
    CommitKeeps(net, name, idx, cfg);
  }

  lemma BeginIs(net: Net, name: string, start: Option<RestartStart>, r: LibResult, n: Net, idx: nat, cfg: NodeConfig)
    requires RestartLocked(net, name, start, r) == Done(Restarting(n, idx, cfg))
    ensures name in net.infos && name in n.stale
    ensures start.Some? && start.value.subnets.Some? && idx == FindConfig(net.cfgs, name) && idx < |net.cfgs|
    ensures n.cfgs == net.cfgs && name in n.infos && net.cfgs[idx].impl.Local?
    ensures n.infos[name] == Relabelled(net.infos[name], start.value.execPath, start.value.subnets.value)
    ensures cfg == net.cfgs[idx].(configFile := cfg.configFile,
                                  impl := net.cfgs[idx].impl.(binaryPath := start.value.execPath))
    ensures cfg.configFile == RestartText(net.infos[name].logDir, net.infos[name].dbDir, start.value.subnets.value)
  {
    hide RestartText;
  }

  // The library has removed the node, and RestartNode goes on from here.
  ghost predicate Resumes(before: Net, net: Net, name: string, start: Option<RestartStart>, idx: nat, cfg: NodeConfig) {
    RestartLocked(before, name, start, LibOk) == Done(Restarting(net, idx, cfg)) && RestartTouches(before, net, name)
  }

  lemma BeginAsks(net: Net, name: string, start: Option<RestartStart>, r: LibResult, n: Net, idx: nat, cfg: NodeConfig)
    requires RestartLocked(net, name, start, r) == Done(Restarting(n, idx, cfg))
    ensures AsksFor(cfg, net, name, start) && name in net.infos
  {
    hide RestartText, RestartLocked;
    BeginIs(net, name, start, r, n, idx, cfg);
  }

  lemma BeginPanicsWith(net: Net, name: string, start: Option<RestartStart>, r: LibResult)
    requires RestartLocked(net, name, start, r).Panicked?
    ensures RestartLocked(net, name, start, r).why
            == if start.None? || start.value.subnets.None? then NilRequest else NilLibrary
  {
    hide RestartText, FindConfig;
  }

  lemma NoneYet(l: Launch)
    ensures FirstNames(0) == [] && InitialInfos(l, 0) == map[] && ConfigNames(0) == {}
  {
  }

  lemma OneMore(l: Launch, i: nat)
    ensures FirstNames(i + 1) == FirstNames(i) + [NodeName(i)]
    ensures InitialInfos(l, i + 1) == InitialInfos(l, i)[NodeName(i) := InfoAt(l, i)]
    ensures ConfigNames(i + 1) == ConfigNames(i) + {NodeName(i)}
    ensures NodeName(i) !in ConfigNames(i)
  {
    hide NodeName, InfoAt;
    LaterNameIsNew(i, i);
  }

  lemma EntryCount(l: Launch, defaults: seq<NodeConfig>)
    requires |defaults| <= |COLORS|
    ensures |InitialNet(l, defaults).cfgs| == |defaults|
  {
  }

  lemma InitialNetIs(l: Launch, defaults: seq<NodeConfig>, net: Net)
    requires |defaults| <= |COLORS| && |net.cfgs| == |defaults|
    requires forall j :: 0 <= j < |defaults| ==> net.cfgs[j] == ConfigAt(l, defaults[j], j)
    requires net == Net(l.root, net.cfgs, None, FirstNames(|defaults|), None, InitialInfos(l, |defaults|), map[],
                        false, false, false, false, false, 0, Creating, {}, 0)
    ensures net == InitialNet(l, defaults)
  {
    assert net.cfgs == InitialNet(l, defaults).cfgs;
  }

  // Between the two logs lies one call of Stop, and it left these.
  predicate StopLogged(before: seq<LibCall>, after: seq<LibCall>, left: set<string>) {
    && |before| < |after| && after[..|before|] == before && after[|before|] == StopCalled(left)
    && Stops(after[|before| + 1..]) == 0
  }

  lemma NoStops()
    ensures Stops([]) == 0
  {
  }

  lemma {:induction false} StopsSum(a: seq<LibCall>, b: seq<LibCall>)
    ensures Stops(a + b) == Stops(a) + Stops(b)
  {
    if b == [] {
      assert a + b == a;
    } else {
      StopsSum(a, b[..|b| - 1]);
      assert (a + b)[..|a + b| - 1] == a + b[..|b| - 1];
    }
  }

  lemma MovesDoNotStop(m: StartMove, added: seq<LibCall>, live: map<string, LiveNode>)
    requires MoveCalls(m, added, live)
    ensures Stops(added) == 0
  {
    assert forall i :: 0 <= i < |added| ==> !added[i].StopCalled?;
    NoneIsStop(added);
  }

  lemma {:induction false} NoneIsStop(log: seq<LibCall>)
    requires forall i :: 0 <= i < |log| ==> !log[i].StopCalled?
    ensures Stops(log) == 0
  {
    if log != [] {
      NoneIsStop(log[..|log| - 1]);
    }
  }

  lemma StopStaysLogged(before: seq<LibCall>, after: seq<LibCall>, left: set<string>, m: StartMove,
                        added: seq<LibCall>, live: map<string, LiveNode>)
    requires StopLogged(before, after, left) && MoveCalls(m, added, live)
    ensures StopLogged(before, after + added, left)
  {
    hide Stops, MoveCalls;
    MovesDoNotStop(m, added, live);
    StopsSum(after[|before| + 1..], added);
    assert (after + added)[|before| + 1..] == after[|before| + 1..] + added;
  }

  lemma PanicIsStale(net: Net, m: StartMove)
    requires WellFormed(net) && CanMove(net, m) && StartMoved(net, m).Panicked?
    ensures StaleSnapshot(net)
  {
    hide WellFormed, StartMoved, StaleSnapshot;
    MovesAreNotStale(net, m);
  }

  // How far RestartNode got before its wait.
  datatype Begun = Began(idx: nat, cfg: NodeConfig) | BeginFails(err: Err) | BeginPanics(why: Panic)

  class LocalNetwork {
    const root: string
    const nodeConfigs: array<NodeConfig>
    const nodeInfos: InfoMap
    var nw: Library?
    var nodeNames: seq<string>
    var nodes: Option<map<string, LiveNode>>
    var apiClis: map<string, int>
    var readyc: bool
    var readyOnce: bool
    var stopc: bool
    var stopOnce: bool
    var donec: bool
    var errc: nat
    var pc: StartPc
    ghost var stale: set<string>

    ghost function Repr(): set<object>
      reads this, nodeInfos
    {
      {this, nodeConfigs, nodeInfos} + nodeInfos.entries.Values + if nw == null then {} else {nw}
    }

    ghost function View(): Net
      reads this, nodeInfos, Repr()
    {
      Net(root, nodeConfigs[..], if nw == null then None else Some(nw.live), nodeNames, nodes, nodeInfos.View(),
          apiClis, readyc, readyOnce, stopc, stopOnce, donec, errc, pc, stale, if nw == null then 0 else Stops(nw.log))
    }

    ghost predicate Valid()
      reads this, nodeInfos, Repr()
    {
      nodeInfos.Distinct() && WellFormed(View())
    }

    constructor (root: string, nodeConfigs: array<NodeConfig>, nodeNames: seq<string>, nodeInfos: InfoMap)
      ensures this.root == root && this.nodeConfigs == nodeConfigs && this.nodeInfos == nodeInfos
      ensures nw == null && View() == Net(root, nodeConfigs[..], None, nodeNames, None, nodeInfos.View(), map[],
                                          false, false, false, false, false, 0, Creating, {}, 0)
    {
      this.root, this.nodeConfigs, this.nodeInfos, this.nodeNames := root, nodeConfigs, nodeInfos, nodeNames;
      nw, nodes, apiClis := null, None, map[];
      readyc, readyOnce, stopc, stopOnce, donec := false, false, false, false, false;
      errc, pc, stale := 0, Creating, {};
    }

    // newNetwork's loop body: one node's name, configuration and info.
    static method Fill(l: Launch, cfgs: array<NodeConfig>, i: nat, infos: InfoMap)
      requires i < cfgs.Length && i < |COLORS|
      requires infos.Distinct() && NodeName(i) !in infos.entries
      modifies cfgs, infos
      ensures cfgs[i] == ConfigAt(l, old(cfgs[i]), i)
      ensures forall j :: 0 <= j < cfgs.Length && j != i ==> cfgs[j] == old(cfgs[j])
      ensures infos.Distinct() && fresh(infos.entries.Values - old(infos.entries.Values))
      ensures infos.entries.Keys == old(infos.entries.Keys) + {NodeName(i)}
      ensures infos.View() == old(infos.View())[NodeName(i) := InfoAt(l, i)]
    {
      hide NodeName, LogDir, DbDir, StartText;
      var name := NodeName(i);
      var logDir, dbDir := LogDir(l.root, name), DbDir(l.root, name);
      cfgs[i] := cfgs[i].(name := name,
                          configFile := StartText(l.level, logDir, dbDir, l.subnets),
                          impl := Local(l.execPath, COLORS[i], name));
      var info := new NodeInfo(Info(name, l.execPath, "", "", logDir, dbDir, l.subnets, cfgs[i].configFile));
      infos.Insert(name, info);
    }

    // newNetwork's loop, one node at a time; false when the colour index runs
    // out of range.
    static method FillAll(l: Launch, cfgs: array<NodeConfig>, infos: InfoMap) returns (ok: bool, names: seq<string>)
      requires infos.entries == map[]
      modifies cfgs, infos
      ensures ok <==> cfgs.Length <= |COLORS|
      ensures ok ==>
                && names == FirstNames(cfgs.Length)
                && (forall j :: 0 <= j < cfgs.Length ==> cfgs[j] == ConfigAt(l, old(cfgs[j]), j))
                && infos.Distinct() && infos.View() == InitialInfos(l, cfgs.Length)
      ensures fresh(infos.entries.Values)
    {
      hide NodeName, ConfigAt, InfoAt, FirstNames, InitialInfos, ConfigNames;
      NoneYet(l);
      names := [];
      for i := 0 to cfgs.Length
        invariant i <= |COLORS|
        invariant fresh(infos.entries.Values)
        invariant names == FirstNames(i)
        invariant forall j :: 0 <= j < i ==> cfgs[j] == ConfigAt(l, old(cfgs[j]), j)
        invariant forall j :: i <= j < cfgs.Length ==> cfgs[j] == old(cfgs[j])
        invariant infos.entries.Keys == ConfigNames(i)
        invariant infos.Distinct() && infos.View() == InitialInfos(l, i)
      {
        if i % cfgs.Length >= |COLORS| {
          return false, names;
        }
        names := names + [NodeName(i)];
        OneMore(l, i);
        Fill(l, cfgs, i, infos);
      }
      return true, names;
    }

    // newNetwork; None when it panics.
    static method New(l: Launch, defaults: seq<NodeConfig>) returns (r: Option<LocalNetwork>)
      ensures r.Some? <==> |defaults| <= |COLORS|
      ensures r.Some? ==> fresh(r.value.Repr()) && r.value.Valid() && r.value.View() == InitialNet(l, defaults)
      ensures r.Some? ==> r.value.Launched(l, defaults)
    {
      hide LocalNetwork.Launched, ConfigAt, InfoAt, WellFormed, InitialNet, InitialInfos, FirstNames, ConfigNames,
        NodeName;
      var cfgs := new NodeConfig[|defaults|](i requires 0 <= i < |defaults| => defaults[i]);
      var infos := new InfoMap();
      var ok, names := FillAll(l, cfgs, infos);
      if !ok {
        return None;
      }
      var net := Assemble(l, defaults, cfgs, names, infos);
      net.LaunchedIs(l, defaults);
      r := Some(net);
    }

    static method Assemble(l: Launch, ghost defaults: seq<NodeConfig>, cfgs: array<NodeConfig>, names: seq<string>,
                           infos: InfoMap)
      returns (net: LocalNetwork)
      requires |defaults| <= |COLORS| && cfgs.Length == |defaults| && names == FirstNames(|defaults|)
      requires forall j :: 0 <= j < |defaults| ==> cfgs[j] == ConfigAt(l, defaults[j], j)
      requires infos.Distinct() && infos.View() == InitialInfos(l, |defaults|)
      ensures fresh(net) && net.nodeConfigs == cfgs && net.nodeInfos == infos && net.nw == null
      ensures infos.entries == old(infos.entries)
      ensures net.Valid() && net.View() == InitialNet(l, defaults)
    {
      hide ConfigAt, InfoAt, WellFormed, InitialNet, InitialInfos, FirstNames, ConfigNames, NodeName;
      ghost var shown, list := infos.View(), cfgs[..];
      net := new LocalNetwork(l.root, cfgs, names, infos);
      assert net.nodeInfos.View() == shown && net.nodeConfigs[..] == list;
      NewNetworkWellFormed(l, defaults);
      InitialNetIs(l, defaults, net.View());
    }

    // Every entry is the library's default one, but for its name, its file and
    // its implementation, which runs the binary that was asked for; so do the
    // infos say, with the subnets that were asked for.
    ghost predicate Launched(l: Launch, defaults: seq<NodeConfig>)
      reads this, nodeConfigs, nodeInfos, nodeInfos.entries.Values
    {
      && nodeConfigs.Length == |defaults| <= |COLORS|
      && forall i :: 0 <= i < |defaults| ==>
           && nodeConfigs[i] == defaults[i].(name := NodeName(i), configFile := nodeConfigs[i].configFile,
                                             impl := nodeConfigs[i].impl)
           && nodeConfigs[i].impl == Local(l.execPath, COLORS[i], NodeName(i))
           && NodeName(i) in nodeInfos.entries
           && nodeInfos.entries[NodeName(i)].execPath == l.execPath
           && nodeInfos.entries[NodeName(i)].whitelistedSubnets == l.subnets
    }

    lemma LaunchedIs(l: Launch, defaults: seq<NodeConfig>)
      requires |defaults| <= |COLORS| && View() == InitialNet(l, defaults)
      ensures Launched(l, defaults)
    {
      hide InitialNet, NodeName, InfoMap.View;
      nodeInfos.ViewKeys();
      ViewFacts();
      EntryCount(l, defaults);
      forall i | 0 <= i < |defaults|
        ensures NodeName(i) in nodeInfos.entries
        ensures nodeConfigs[i] == defaults[i].(name := NodeName(i), configFile := nodeConfigs[i].configFile,
                                               impl := nodeConfigs[i].impl)
        ensures nodeConfigs[i].impl == Local(l.execPath, COLORS[i], NodeName(i))
        ensures nodeInfos.entries[NodeName(i)].execPath == l.execPath
        ensures nodeInfos.entries[NodeName(i)].whitelistedSubnets == l.subnets
      {
        NewNetworkKeepsDefaults(l, defaults, i);
        ViewAt(NodeName(i));
        assert nodeConfigs[..][i] == nodeConfigs[i];
      }
    }

    // waitForHealthy's loop over the reported nodes; false when one has no info.
    method Report(snapshot: map<string, LiveNode>) returns (ok: bool)
      requires nodeInfos.Distinct()
      modifies `apiClis, nodeInfos.entries.Values
      ensures ok <==> snapshot.Keys <= nodeInfos.entries.Keys
      ensures ok ==> apiClis == old(apiClis) + Clients(snapshot)
      ensures ok ==> nodeInfos.View() == ReportAll(old(nodeInfos.View()), snapshot)
      // each address reads back as the URL and the port that were reported
      ensures ok ==> forall n :: n in snapshot ==>
                && n in nodeInfos.entries && nodeInfos.entries[n].id == snapshot[n].id
                && ReadUri(nodeInfos.entries[n].uri) == Some((snapshot[n].url, snapshot[n].port))
    {
      hide Reported, InfoMap.View, ReportAll, Clients, Part;
      ghost var before := nodeInfos.View();
      nodeInfos.ViewKeys();
      var rest := snapshot.Keys;
      PartStart(before, apiClis, snapshot);
      while rest != {}
        invariant rest <= snapshot.Keys && snapshot.Keys - rest <= nodeInfos.entries.Keys
        invariant nodeInfos.View().Keys == nodeInfos.entries.Keys
        invariant nodeInfos.View() == ReportAll(before, Part(snapshot, rest))
        invariant apiClis == old(apiClis) + Clients(Part(snapshot, rest))
        decreases |rest|
        modifies `apiClis, nodeInfos.entries.Values
      {
        var n :| n in rest;
        if n !in nodeInfos.entries {
          return false;
        }
        PartStep(before, old(apiClis), snapshot, rest, n);
        nodeInfos.SetAddress(n, snapshot[n]);
        apiClis := apiClis[n := snapshot[n].client];
        rest := rest - {n};
      }
      PartEnd(snapshot);
      forall n | n in snapshot
        ensures nodeInfos.entries[n].id == snapshot[n].id
        ensures ReadUri(nodeInfos.entries[n].uri) == Some((snapshot[n].url, snapshot[n].port))
      {
        ReportedReads(before, snapshot, n);
        ViewAt(n);
      }
      return true;
    }

    lemma ViewAt(n: string)
      requires n in nodeInfos.entries
      ensures n in nodeInfos.View() && nodeInfos.View()[n].uri == nodeInfos.entries[n].uri
      ensures nodeInfos.View()[n].id == nodeInfos.entries[n].id
      ensures nodeInfos.View()[n].execPath == nodeInfos.entries[n].execPath
      ensures nodeInfos.View()[n].subnets == nodeInfos.entries[n].whitelistedSubnets
    {
    }

    // The part of waitForHealthy that follows the library's answer.
    method Finish(snapshot: map<string, LiveNode>) returns (r: Result<()>)
      requires nodeInfos.Distinct()
      modifies `nodes, `apiClis, `readyc, `readyOnce, nodeInfos.entries.Values
      ensures nodeInfos.Distinct()
      ensures r.Panicked? <==> Refresh(old(View()), snapshot).Panicked?
      ensures r.Done? ==> Refresh(old(View()), snapshot) == Done(View())
    {
      hide ReportAll, Clients, InfoMap.View;
      nodeInfos.ViewKeys();
      nodes := Some(snapshot);
      var ok := Report(snapshot);
      if !ok {
        return Panicked(NilEntry);
      }
      r := SignalReady();
    }

    // readyc is closed once.
    method SignalReady() returns (r: Result<()>)
      modifies `readyc, `readyOnce
      ensures r.Panicked? <==> CloseReady(old(View())).Panicked?
      ensures r.Done? ==> CloseReady(old(View())) == Done(View())
    {
      hide InfoMap.View;
      if !readyOnce {
        readyOnce := true;
        if readyc {
          return Panicked(DoubleClose);
        }
        readyc := true;
      }
      return Done(());
    }

    // The library is asked; nothing but its log changes.
    method AskHealthy() returns (ok: bool)
      requires nw != null
      modifies nw`log
      ensures nw.log == old(nw.log) + [HealthyCalled(ok)] && View() == old(View())
    {
      hide InfoMap.View;
      StopsOne(nw.log, HealthyCalled(true));
      StopsOne(nw.log, HealthyCalled(false));
      ok := nw.Healthy();
    }

    method AskNodes() returns (nodes: Option<map<string, LiveNode>>)
      requires nw != null
      modifies nw`log
      ensures nodes.Some? ==> nodes.value == nw.live
      ensures nw.log == old(nw.log) + [NodesCalled(nodes)] && View() == old(View())
    {
      hide InfoMap.View;
      ghost var before := nw.log;
      nodes := nw.GetAllNodes();
      StopsOne(before, NodesCalled(nodes));
    }

    // `late` says whether the deadline passes before the library answers.
    method WaitForHealthy(late: bool) returns (r: Waited)
      requires Valid()
      modifies `nodes, `apiClis, `readyc, `readyOnce, nodeInfos.entries.Values, if nw == null then {} else {nw}
      ensures nw != null ==> nw.live == old(nw.live)
      ensures r.WaitPanics? <==> nw == null
      ensures r.WaitPanics? ==> r.why == NilLibrary
      ensures r.NotPassed? ==> View() == old(View())
      ensures r.Passed? ==> Refresh(old(View()), nw.live) == Done(View())
      ensures !r.WaitPanics? ==> Valid()
      // it passes if and only if the library answered that it is healthy and
      // what its nodes are; otherwise an answer was a failure or came too late
      ensures nw != null ==> |old(nw.log)| <= |nw.log| && nw.log == old(nw.log) + Since(old(nw.log), nw.log)
      ensures nw != null ==> (r.Passed? <==> WaitPasses(Since(old(nw.log), nw.log), nw.live))
      ensures r.NotPassed? ==> WaitFails(Since(old(nw.log), nw.log), late, stopc)
      ensures late ==> !r.Passed?
    {
      hide WellFormed, Refresh, InfoMap.View, View, Since, WaitPasses;
      if nw == null {
        return WaitPanics(NilLibrary);
      }
      ghost var log := nw.log;
      ViewFacts();
      var healthy := AskHealthy();
      SinceOne(log, HealthyCalled(healthy));
      var aborts: bool := *;
      if late || (stopc && aborts) || !healthy {
        FailureIsNoPass(Since(log, nw.log), late, stopc, nw.live);
        return NotPassed;
      }
      var got := AskNodes();
      SinceTwo(log, HealthyCalled(true), NodesCalled(got));
      if got.None? {
        FailureIsNoPass(Since(log, nw.log), late, stopc, nw.live);
        return NotPassed;
      }
      Pass(got.value);
      PassesWith(log, nw.log, nw.live);
      return Passed;
    }

    method Pass(snapshot: map<string, LiveNode>)
      requires Valid() && nw != null && snapshot == nw.live
      modifies `nodes, `apiClis, `readyc, `readyOnce, nodeInfos.entries.Values
      ensures Valid() && Refresh(old(View()), nw.live) == Done(View())
    {
      hide WellFormed, Refresh, InfoMap.View, View;
      NetFacts(View());
      ViewFacts();
      RefreshKeeps(View(), snapshot);
      var done := Finish(snapshot);
    }

    lemma ViewFacts()
      ensures View().infos.Keys == nodeInfos.entries.Keys
      ensures View().nw == if nw == null then None else Some(nw.live)
      ensures View().stopOnce == stopOnce && View().nodeNames == nodeNames && View().cfgs == nodeConfigs[..]
      ensures View().pc == pc && View().stopc == stopc
    {
    }

    // If the last pass was told of the node, its address reads back as that.
    ghost predicate ReadsAsReported(n: string)
      requires n in nodeInfos.entries
      reads this, nodeInfos, nodeInfos.entries.Values
    {
      nodes.Some? && n in nodes.value ==>
        ReadUri(nodeInfos.entries[n].uri) == Some((nodes.value[n].url, nodes.value[n].port))
    }

    lemma ReportedReadsBack(n: string)
      requires Valid() && n in nodeInfos.entries
      ensures ReadsAsReported(n)
    {
      hide ConfigsOk, InfosOk, Agreement, Uri, ReadUri;
      ViewAt(n);
      if nodes.Some? && n in nodes.value {
        UriReads(nodes.value[n]);
      }
    }

    // ----- the start() goroutine, one move at a time -----

    method Create() returns (ghost m: StartMove)
      requires Valid() && pc.Creating?
      modifies `nw, `pc
      ensures m.Create? && CanMove(old(View()), m) && StartMoved(old(View()), m) == Done(View())
      ensures nw == null || (fresh(nw) && nw.log == [Created(nodeConfigs[..])])
    {
      hide WellFormed, Refresh, InfoMap.View, ConfigNames, ConfigNameSet;
      NetFacts(View());
      ConfigNameSetIs(View());
      assert Stops([Created(nodeConfigs[..])]) == 0 by {
        StopsOne([], Created(nodeConfigs[..]));
        assert [] + [Created(nodeConfigs[..])] == [Created(nodeConfigs[..])];
      }
      var lib := Library.Create(nodeConfigs[..]);
      m := StartMove.Create(if lib == null then None else Some(lib.live));
      nw := lib;
      pc := if lib == null then SendingErr else StartPc.Waiting;
    }

    // `late` says whether the deadline passes before the library answers.
    method Wait(late: bool) returns (ghost m: StartMove)
      requires Valid() && pc.Waiting?
      modifies `pc, if nw == null then {} else {nw}
      ensures CanMove(old(View()), m) && StartMoved(old(View()), m) == Done(View())
      ensures nw != null && nw.live == old(nw.live)
      ensures |old(nw.log)| <= |nw.log| && nw.log == old(nw.log) + Since(old(nw.log), nw.log)
      ensures MoveCalls(m, Since(old(nw.log), nw.log), nw.live)
      ensures m == Fail(TimedOut) <==> late
    {
      hide WellFormed, Refresh, InfoMap.View, View, StartMoved, CanMove, Since, WaitPasses;
      ViewFacts();
      NetFacts(View());
      ghost var log := nw.log;
      var healthy := AskHealthy();
      ViewFacts();
      SinceOne(log, HealthyCalled(healthy));
      var aborts: bool := *;
      if late || (stopc && aborts) || !healthy {
        m := GiveUp(if late then TimedOut else if stopc && aborts then Aborted else LibraryFailed);
        return;
      }
      var got := AskNodes();
      ViewFacts();
      SinceTwo(log, HealthyCalled(true), NodesCalled(got));
      if got.None? {
        m := GiveUp(LibraryFailed);
      } else {
        m := TakeNodes(got.value);
        PassesWith(log, nw.log, nw.live);
      }
    }

    method GiveUp(why: WaitEnd) returns (ghost m: StartMove)
      requires pc.Waiting? && (why.Aborted? ==> stopc)
      modifies `pc
      ensures m == Fail(why) && CanMove(old(View()), m) && StartMoved(old(View()), m) == Done(View())
    {
      hide InfoMap.View;
      m, pc := Fail(why), SendingErr;
    }

    method TakeNodes(snapshot: map<string, LiveNode>) returns (ghost m: StartMove)
      requires pc.Waiting? && nw != null && snapshot == nw.live
      modifies `pc
      ensures m == See && CanMove(old(View()), m) && StartMoved(old(View()), m) == Done(View())
    {
      hide InfoMap.View;
      m, pc := See, Refreshing(snapshot);
    }

    method Apply() returns (r: Result<()>)
      requires Valid() && pc.Refreshing?
      modifies `nodes, `apiClis, `readyc, `readyOnce, nodeInfos.entries.Values, `pc
      ensures r.Panicked? <==> StartMoved(old(View()), StartMove.Apply).Panicked?
      ensures r.Done? ==> StartMoved(old(View()), StartMove.Apply) == Done(View())
      ensures nodeInfos.Distinct()
    {
      hide WellFormed, Refresh, InfoMap.View;
      r := Finish(pc.snapshot);
      if r.Done? {
        pc := Closing;
      }
    }

    method SendErr()
      requires Valid() && pc.SendingErr?
      modifies `errc, `pc
      ensures CanMove(old(View()), StartMove.SendErr) && StartMoved(old(View()), StartMove.SendErr) == Done(View())
    {
      hide WellFormed, InfoMap.View;
      NetFacts(View());
      errc, pc := errc + 1, Closing;
    }

    method CloseDonec() returns (r: Result<()>)
      requires Valid() && pc.Closing?
      modifies `donec, `pc
      ensures r.Done? && StartMoved(old(View()), StartMove.CloseDonec) == Done(View())
    {
      hide WellFormed, InfoMap.View;
      NetFacts(View());
      if donec {
        return Panicked(DoubleClose);
      }
      donec, pc := true, Exited;
      return Done(());
    }

    method StartStep(late: bool) returns (r: Result<()>, ghost m: StartMove)
      requires Valid() && !pc.Exited?
      modifies this, nodeInfos.entries.Values, if nw == null then {} else {nw}
      ensures CanMove(old(View()), m)
      ensures r.Panicked? <==> StartMoved(old(View()), m).Panicked?
      ensures r.Done? ==> StartMoved(old(View()), m) == Done(View()) && Valid()
      ensures nw == old(nw) || (fresh(nw) && nw.log == [Created(nodeConfigs[..])])
      ensures !old(pc).Creating? ==> nw == old(nw)
      // what it asks of the library, and which answer makes it go on
      ensures old(nw) != null ==>
                && nw == old(nw) && nw.live == old(nw.live)
                && |old(nw.log)| <= |nw.log| && nw.log == old(nw.log) + Since(old(nw.log), nw.log)
                && MoveCalls(m, Since(old(nw.log), nw.log), nw.live)
      ensures m == Fail(TimedOut) ==> late
    {
      hide WellFormed, InfoMap.View, StartMoved;
      ghost var before := View();
      NetFacts(before);
      r := Done(());
      match pc {
        case Creating => m := Create();
        case Waiting => m := Wait(late);
        case Refreshing(_) => m := StartMove.Apply; r := Apply();
        case SendingErr => m := StartMove.SendErr; SendErr();
        case Closing => m := StartMove.CloseDonec; r := CloseDonec();
        case Exited =>
      }
      StartMoveKeeps(before, m);
    }

    // stop(): it closes stopc, stops the library and waits for donec, while
    // start() goes on moving.
    method Stop() returns (r: Result<()>, ghost left: set<string>)
      requires Valid()
      modifies Repr()
      ensures nw == old(nw) && (r.Done? ==> Valid())
      ensures r.Panicked? <==> !old(stopOnce) && (nw == null || StaleSnapshot(old(View())))
      ensures r.Panicked? ==> r.why == if nw == null then NilLibrary else NilEntry
      ensures old(stopOnce) ==> View() == old(View())
      ensures r.Done? && !old(stopOnce) ==> donec && stopc && OnlyAddresses(old(View()).(stopc := true), View())
      // the library's Stop is called, once, and ends all nodes but those in `left`
      ensures r.Done? && !old(stopOnce) ==>
                && nw != null && StopLogged(old(nw.log), nw.log, left)
                && forall n :: n in nw.live <==> n in old(nw.live) && n in left
    {
      hide WellFormed, InfoMap.View, StartMoved, OnlyAddresses, CanMove, StopLogged, MoveCalls;
      left := {};
      if stopOnce {
        return Done(()), left;
      }
      ghost var base := View();
      var ok := CloseStopc();
      if nw == null {
        return Panicked(NilLibrary), left;
      }
      ghost var closed, log := View(), nw.log;
      left := StopLibrary();
      OnlyAddressesFirst(base, closed, View());
      while !donec
        invariant Valid() && nw == old(nw) && nw != null && stopc
        invariant OnlyAddresses(base.(stopc := true), View())
        invariant StaleSnapshot(View()) == StaleSnapshot(base)
        invariant StopLogged(log, nw.log, left)
        invariant forall n :: n in nw.live <==> n in old(nw.live) && n in left
        decreases Rank(pc)
        modifies this, nodeInfos.entries.Values, nw
      {
        ghost var now, was := View(), nw.log;
        NetFacts(now);
        ghost var m;
        var late: bool, done: Result<()> := *, Done(());
        done, m := StartStep(late);
        MovesAreNotStale(now, m);
        if done.Panicked? {
          PanicIsStale(now, m);
          return Panicked(NilEntry), left;
        }
        StartMoveKeeps(now, m);
        OnlyAddressesTwice(base.(stopc := true), now, View());
        StopStaysLogged(log, was, left, m, Since(was, nw.log), nw.live);
      }
      NetFacts(View());
      return Done(()), left;
    }

    method CloseStopc() returns (r: Result<()>)
      requires Valid() && !stopOnce
      modifies `stopc, `stopOnce
      ensures r.Done? && Valid() && View() == old(View()).(stopOnce := true, stopc := true)
    {
      hide WellFormed, InfoMap.View;
      NetFacts(View());
      StopStepsKeep(View(), {});
      stopOnce := true;
      if stopc {
        return Panicked(DoubleClose);
      }
      stopc := true;
      return Done(());
    }

    method StopLibrary() returns (ghost left: set<string>)
      requires Valid() && nw != null
      modifies nw
      ensures Valid() && OnlyAddresses(old(View()), View())
      ensures View() == old(View()).(nw := View().nw, stops := old(View()).stops + 1)
      ensures StopLogged(old(nw.log), nw.log, left)
      ensures forall n :: n in nw.live <==> n in old(nw.live) && n in left
    {
      hide WellFormed, InfoMap.View, OnlyAddresses, Stops;
      ghost var base, log := View(), nw.log;
      var kept := nw.Stop();
      left := kept;
      StopsOne(log, StopCalled(left));
      StopStepsKeep(base, left);
      assert View() == LibraryStopped(base, left).value;
      assert nw.log[|log| + 1..] == [];
      NoStops();
    }

    // ----- pieces of the locked bodies -----

    method Find(name: string) returns (idx: nat)
      ensures idx == FindConfig(nodeConfigs[..], name)
    {
      for i := 0 to nodeConfigs.Length
        invariant forall j :: 0 <= j < i ==> nodeConfigs[j].name != name
      {
        if nodeConfigs[i].name == name {
          return i;
        }
      }
      return nodeConfigs.Length;
    }

    method ListNames()
      modifies `nodeNames
      ensures View() == old(View()).(nodeNames := nodeNames)
      ensures Enumerates(nodeNames, nodeInfos.entries.Keys)
    {
      hide Enumerates;
      nodeNames := nodeInfos.Names();
    }

    method LibraryRemove(name: string) returns (r: LibResult)
      requires nw != null
      modifies nw
      ensures r.LibOk? ==> name in old(nw.live)
      ensures View() == old(View()).(nw := Some(Dropped(old(nw.live), name, r)))
      ensures nw.log == old(nw.log) + [RemoveCalled(name, r)]
    {
      hide InfoMap.View, Dropped, Stops;
      ghost var log := nw.log;
      r := nw.RemoveNode(name);
      StopsOne(log, RemoveCalled(name, r));
    }

    method LibraryAdd(cfg: NodeConfig) returns (node: Option<LiveNode>)
      requires nw != null
      modifies nw
      ensures node.None? ==> View() == old(View()) && nw.live == old(nw.live)
      ensures node.Some? ==> View() == NodeAdded(old(View()), cfg.name, node.value)
      ensures node.Some? ==> cfg.name in nw.live && nw.live - {cfg.name} == old(nw.live) - {cfg.name}
      ensures nw.log == old(nw.log) + [AddCalled(cfg, node)]
    {
      hide InfoMap.View, Stops;
      ghost var log := nw.log;
      node := nw.AddNode(cfg);
      StopsOne(log, AddCalled(cfg, node));
    }

    // RemoveNode's body up to the publication: the library first, then the map
    // entry and the name list.
    method Remove(name: string) returns (r: LibResult)
      requires Valid() && nw != null && name in nodeInfos.entries
      modifies nw, nodeInfos, `nodeNames
      ensures Valid() && nodeInfos.entries.Values <= old(nodeInfos.entries.Values)
      ensures RemoveLocked(old(View()), name, r, nodeNames)
              == Done(if r.LibOk? then Removed(View()) else RemoveFails(LibraryError, View()))
      ensures r.LibErr? ==> nodeInfos.entries == old(nodeInfos.entries) && nodeNames == old(nodeNames)
      ensures nw.log == old(nw.log) + [RemoveCalled(name, r)]
    {
      hide WellFormed, InfoMap.View, Enumerates, Dropped, Stops;
      ghost var before := View();
      nodeInfos.ViewKeys();
      r := LibraryRemove(name);
      if r.LibErr? {
        RemoveKeeps(before, name, r, nodeNames);
      } else {
        Forget(name);
        ListNames();
        nodeInfos.ViewKeys();
        RemoveKeeps(before, name, r, nodeNames);
      }
    }

    // RestartNode's writes through the node's info pointer.
    method Mark(name: string, execPath: string, subnets: string)
      requires nodeInfos.Distinct() && name in nodeInfos.entries
      modifies `stale, nodeInfos.entries[name]
      ensures nodeInfos.View().Keys == nodeInfos.entries.Keys
      ensures name in old(View()).infos && View() == Marked(old(View()), name, execPath, subnets)
    {
      hide InfoMap.View, Relabelled;
      nodeInfos.ViewKeys();
      nodeInfos.Relabel(name, execPath, subnets);
      nodeInfos.ViewKeys();
      stale := stale + {name};
    }

    // RestartNode's body up to the library's RemoveNode.
    method BeginRestart(name: string, start: Option<RestartStart>) returns (o: Begun, ghost r: LibResult)
      requires Valid()
      modifies `stale, nodeInfos.entries.Values, if nw == null then {} else {nw}
      ensures LibraryAllows(old(View()), name, r)
      ensures o.BeginPanics? <==> RestartLocked(old(View()), name, start, r).Panicked?
      ensures o.BeginPanics? ==> RestartLocked(old(View()), name, start, r) == Panicked(o.why)
      ensures o.BeginFails? ==> RestartLocked(old(View()), name, start, r) == Done(RestartFails(o.err, View()))
      ensures o.BeginFails? ==> o.err == NodeNotFound || o.err == UnexpectedType || o.err == LibraryError
      ensures o.Began? ==>
                && nw != null && r.LibOk?
                && RestartLocked(old(View()), name, start, r) == Done(Restarting(View(), o.idx, o.cfg))
      ensures nodeInfos.Distinct()
      ensures o.Began? || o == BeginFails(LibraryError) ==>
                nw != null && nw.log == old(nw.log) + [RemoveCalled(name, r)]
      ensures o == BeginFails(LibraryError) ==> r.LibErr?
      ensures o.BeginFails? && o.err != LibraryError && nw != null ==> nw.log == old(nw.log)
    {
      hide WellFormed, InfoMap.View, Dropped, RestartText, Relabelled, FindConfig, Marked, Stops;
      nodeInfos.ViewKeys();
      r := LibErr(false);
      if name !in nodeInfos.entries {
        return BeginFails(NodeNotFound), r;
      }
      var idx := Find(name);
      if idx == nodeConfigs.Length {
        return BeginFails(NodeNotFound), r;
      }
      if start.None? || start.value.subnets.None? {
        return BeginPanics(NilRequest), r;
      }
      ghost var before := View();
      Mark(name, start.value.execPath, start.value.subnets.value);
      MarkedIs(before, name, start.value.execPath, start.value.subnets.value);
      var cfg := nodeConfigs[idx];
      if !cfg.impl.Local? {
        return BeginFails(UnexpectedType), r;
      }
      if nw == null {
        return BeginPanics(NilLibrary), r;
      }
      var info := nodeInfos.Get(name);
      cfg := cfg.(configFile := RestartText(info.logDir, info.dbDir, info.subnets),
                  impl := cfg.impl.(binaryPath := info.execPath));
      var removed := LibraryRemove(name);
      r := removed;
      return if removed.LibOk? then Began(idx, cfg) else BeginFails(LibraryError), r;
    }

    method Commit(name: string, idx: nat, cfg: NodeConfig)
      requires idx < nodeConfigs.Length
      modifies `stale, nodeConfigs
      ensures View() == Committed(old(View()), name, idx, cfg)
    {
      hide InfoMap.View;
      nodeConfigs[idx] := cfg;
      stale := stale - {name};
    }

    // RestartNode's body from the library's AddNode to the new configuration.
    method AddBack(name: string, idx: nat, cfg: NodeConfig) returns (ok: bool)
      requires nw != null && Valid() && RestartPending(View(), name, idx, cfg)
      modifies nw
      ensures Valid() && View() == old(View()).(nw := Some(nw.live)) && nw.live - {name} == old(nw.live) - {name}
      ensures ok ==> RestartPending(View(), name, idx, cfg) && OnlyAddresses(old(View()), View()) && name in nw.live
      ensures exists node: Option<LiveNode> :: (ok <==> node.Some?) && nw.log == old(nw.log) + [AddCalled(cfg, node)]
    {
      hide WellFormed, InfoMap.View, RestartPending, OnlyAddresses, NodeAdded;
      ghost var before := View();
      PendingFacts(before, name, idx, cfg);
      var node := LibraryAdd(cfg);
      if node.Some? {
        NodeAddedKeeps(before, name, idx, cfg, node.value);
        NodeAddedIs(before, name, node.value);
      }
      return node.Some?;
    }

    method WaitPending(name: string, idx: nat, cfg: NodeConfig, late: bool) returns (ok: bool)
      requires nw != null && Valid() && RestartPending(View(), name, idx, cfg)
      modifies `nodes, `apiClis, `readyc, `readyOnce, nodeInfos.entries.Values, nw
      ensures Valid() && nw.live == old(nw.live)
      ensures if ok then RestartPending(View(), name, idx, cfg) && OnlyAddresses(old(View()), View())
              else View() == old(View())
      ensures WaitLogged(ok, old(nw.log), nw.log, nw.live, late, stopc)
    {
      hide WellFormed, InfoMap.View, View, Refresh, RestartPending, OnlyAddresses, WaitPasses, WaitFails;
      ghost var before := View();
      ViewFacts();
      var waited := WaitForHealthy(late);
      ViewFacts();
      if waited.Passed? {
        NetFacts(before);
        RefreshKeeps(before, nw.live);
        AddressesKeepPending(before, View(), name, idx, cfg);
      }
      return waited.Passed?;
    }

    method CommitPending(name: string, idx: nat, cfg: NodeConfig)
      requires Valid() && RestartPending(View(), name, idx, cfg)
      modifies `stale, nodeConfigs
      ensures Valid() && idx < |old(View()).cfgs| && View() == Committed(old(View()), name, idx, cfg)
      ensures name in old(View()).infos && Agrees(old(View()).infos[name], cfg)
    {
      hide WellFormed, InfoMap.View, RestartPending, Committed, Agrees;
      ghost var before := View();
      PendingFacts(before, name, idx, cfg);
      CommitKeeps(before, name, idx, cfg);
      PendingAgrees(before, name, idx, cfg);
      Commit(name, idx, cfg);
    }

    method Readd(name: string, idx: nat, cfg: NodeConfig, late: bool) returns (failure: Option<Err>, ghost g: Net)
      requires nw != null && Valid() && RestartPending(View(), name, idx, cfg)
      modifies nw, `nodes, `apiClis, `readyc, `readyOnce, `stale, nodeInfos.entries.Values, nodeConfigs
      ensures Valid()
      ensures failure.None? || failure == Some(LibraryError) || failure == Some(NotHealthy)
      ensures failure.Some? ==> View() == old(View()).(nw := Some(nw.live)) && nw.live - {name} == old(nw.live) - {name}
      ensures failure.None? ==>
                && g.nw.Some? && name in g.nw.value && g.nw.value - {name} == old(nw.live) - {name}
                && OnlyAddresses(old(View()), g) && idx < |g.cfgs| && name in g.infos
                && Agrees(g.infos[name], cfg) && View() == Committed(g, name, idx, cfg)
      ensures nw != null && ResumeLogged(failure, cfg, old(nw.log), nw.log, nw.live, late, stopc)
    {
      hide WellFormed, InfoMap.View, RestartPending, OnlyAddresses, Committed, Agrees, View, WaitLogged, ResumeLogged;
      ghost var before, log := View(), nw.log;
      ViewFacts();
      g := before;
      var ok := AddBack(name, idx, cfg);
      ghost var node: Option<LiveNode> :| (ok <==> node.Some?) && nw.log == log + [AddCalled(cfg, node)];
      if !ok {
        AddRefused(log, cfg, nw.live, late, stopc);
        return Some(LibraryError), g;
      }
      ghost var added := View();
      ok := WaitPending(name, idx, cfg, late);
      AddedAndWaited(log, cfg, node, nw.log, ok, nw.live, late, stopc);
      if !ok {
        return Some(NotHealthy), g;
      }
      g := View();
      ViewFacts();
      OnlyAddressesTwice(before, added, g);
      CommitPending(name, idx, cfg);
      return None, g;
    }

    // RestartNode's locked body, but for the publication.
    method Restart(name: string, start: Option<RestartStart>, late: bool) returns (reply: Reply)
      requires Valid()
      modifies `nodes, `apiClis, `readyc, `readyOnce, `stale, nodeInfos.entries.Values, nodeConfigs,
        if nw == null then {} else {nw}
      ensures reply.Refused? ==> reply.err != UnexpectedType && reply.err != NotBootstrapped
      ensures reply == Refused(NodeNotFound) <==> name !in nodeInfos.entries
      ensures reply.Panics? <==> name in nodeInfos.entries && (start.None? || start.value.subnets.None? || nw == null)
      ensures reply.Refused? ==> RestartTouches(old(View()), View(), name)
      ensures reply.Replied? ==> Restarted(old(View()), View(), name, start)
      ensures !reply.Panics? ==> Valid()
      ensures reply.Panics? ==> reply.why == if start.None? || start.value.subnets.None? then NilRequest else NilLibrary
      ensures reply.Replied? || reply == Refused(LibraryError) || reply == Refused(NotHealthy) ==> nw != null
      ensures !reply.Panics? && nw != null ==>
                RestartLogged(reply, old(View()), name, start, old(nw.log), nw.log, nw.live, late, stopc)
    {
      hide InfoMap.View, View, RestartLocked, RestartPending, Agrees, RestartTouches, Restarted, WellFormed, Since,
        AsksFor, ResumeCalls;
      ghost var before := View();
      ghost var log := if nw == null then [] else nw.log;
      SinceNothing(log);
      var o := TryRestart(name, start);
      match o {
        case BeginPanics(why) => return Panics(why);
        case BeginFails(err) => return Refused(err);
        case Began(idx, cfg) =>
          var failure := Resume(before, name, start, idx, cfg, late);
          SinceMore(log, RemoveCalled(name, LibOk), nw.log);
          return if failure.Some? then Refused(failure.value) else Replied;
      }
    }

    // What is known of the body's first part.
    method TryRestart(name: string, start: Option<RestartStart>) returns (o: Begun)
      requires Valid()
      modifies `stale, nodeInfos.entries.Values, if nw == null then {} else {nw}
      ensures o.BeginPanics? <==> name in nodeInfos.entries && (start.None? || start.value.subnets.None? || nw == null)
      ensures o.BeginFails? ==>
                && (o.err == LibraryError || o.err == NodeNotFound)
                && (o.err == NodeNotFound <==> name !in nodeInfos.entries)
                && RestartTouches(old(View()), View(), name)
      ensures o.Began? ==>
                && nw != null && name in nodeInfos.entries
                && RestartPending(View(), name, o.idx, o.cfg) && RestartTouches(old(View()), View(), name)
                && RestartLocked(old(View()), name, start, LibOk) == Done(Restarting(View(), o.idx, o.cfg))
                && AsksFor(o.cfg, old(View()), name, start) && nw.log == old(nw.log) + [RemoveCalled(name, LibOk)]
      ensures !o.BeginPanics? ==> Valid()
      ensures o.BeginPanics? ==> o.why == if start.None? || start.value.subnets.None? then NilRequest else NilLibrary
      ensures o == BeginFails(LibraryError) ==>
                && nw != null && |old(nw.log)| <= |nw.log| && nw.log == old(nw.log) + Since(old(nw.log), nw.log)
                && RemoveFailed(Since(old(nw.log), nw.log), name)
      ensures o == BeginFails(NodeNotFound) && nw != null ==> nw.log == old(nw.log)
    {
      hide InfoMap.View, View, RestartLocked, RestartPending, RestartTouches, WellFormed, Since, AsksFor;
      ghost var before := View();
      ghost var log := if nw == null then [] else nw.log;
      ViewFacts();
      ghost var r;
      o, r := BeginRestart(name, start);
      RestartKeeps(before, name, start, r);
      SinceOne(log, RemoveCalled(name, r));
      if o.Began? {
        BeginAsks(before, name, start, r, View(), o.idx, o.cfg);
      } else if o.BeginPanics? {
        BeginPanicsWith(before, name, start, r);
      }
    }

    // RestartNode's body from AddNode on; `before` is the registry it began with.
    method Resume(ghost before: Net, name: string, start: Option<RestartStart>, idx: nat, cfg: NodeConfig, late: bool)
      returns (failure: Option<Err>)
      requires nw != null && Valid() && RestartPending(View(), name, idx, cfg)
      requires Resumes(before, View(), name, start, idx, cfg)
      modifies nw, `nodes, `apiClis, `readyc, `readyOnce, `stale, nodeInfos.entries.Values, nodeConfigs
      ensures Valid()
      ensures failure.None? || failure == Some(LibraryError) || failure == Some(NotHealthy)
      ensures failure.Some? ==> RestartTouches(before, View(), name)
      ensures failure.None? ==> Restarted(before, View(), name, start)
      ensures nw != null && ResumeLogged(failure, cfg, old(nw.log), nw.log, nw.live, late, stopc)
    {
      hide InfoMap.View, View, RestartLocked, RestartPending, OnlyAddresses, Agrees, RestartTouches, Restarted,
        WellFormed, Since, ResumeCalls;
      ghost var begun := View();
      ViewFacts();
      ghost var g;
      failure, g := Readd(name, idx, cfg, late);
      ViewFacts();
      if failure.Some? {
        TouchesIs(before, begun, View(), name);
      } else {
        RestartedIs(before, begun, g, name, start, idx, cfg);
      }
    }

    // The deletion that every holder of the map sees.
    method Forget(name: string)
      requires nodeInfos.Distinct()
      modifies nodeInfos
      ensures nodeInfos.Distinct() && nodeInfos.entries == old(nodeInfos.entries) - {name}
      ensures nodeInfos.entries.Values <= old(nodeInfos.entries.Values)
      ensures View() == old(View()).(infos := old(View()).infos - {name})
    {
      hide InfoMap.View;
      nodeInfos.Delete(name);
    }
  }

  class ClusterInfo {
    const root: string
    var nodeNames: Option<seq<string>>
    var nodeInfos: InfoMap?
    var healthy: bool

    constructor (root: string)
      ensures this.root == root && nodeNames.None? && nodeInfos == null && !healthy
    {
      this.root := root;
      nodeNames, nodeInfos, healthy := None, null, false;
    }
  }

  // The handlers, run one after the other.
  class Server {
    var clusterInfo: ClusterInfo?
    var network: LocalNetwork?

    constructor ()
      ensures Valid() && network == null
    {
      clusterInfo, network := null, null;
    }

    ghost function Repr(): set<object>
      reads this, network, if network == null then {} else {network.nodeInfos}
    {
      {this} + (if clusterInfo == null then {} else {clusterInfo}) + if network == null then {} else network.Repr()
    }

    // The published info shows nothing, or the network's own map and names.
    ghost predicate Shown()
      reads this, clusterInfo, network
    {
      clusterInfo != null && network != null ==>
        && (clusterInfo.nodeNames.Some? ==>
              clusterInfo.nodeNames.value == network.nodeNames && clusterInfo.nodeInfos != null)
        && (clusterInfo.nodeInfos != null ==> clusterInfo.nodeInfos == network.nodeInfos)
        && (clusterInfo.healthy ==> clusterInfo.nodeNames.Some?)
    }

    ghost predicate Valid()
      reads this, clusterInfo, network, if network == null then {} else {network.nodeInfos} + network.Repr()
    {
      && (clusterInfo == null <==> network == null)
      && (network != null ==> network.Valid() && !network.stopOnce)
      && Shown()
    }

    // The published info is the network's current one: the same map object.
    ghost predicate Published()
      reads this, clusterInfo, network
    {
      && clusterInfo != null && network != null
      && clusterInfo.nodeNames == Some(network.nodeNames) && clusterInfo.nodeInfos == network.nodeInfos
    }

    // The two assignments that publish the network's names and infos.
    method Show()
      requires network != null && clusterInfo != null && network.Valid() && !network.stopOnce
      modifies clusterInfo`nodeNames, clusterInfo`nodeInfos
      ensures Valid() && Published() && network.View() == old(network.View())
    {
      hide WellFormed, InfoMap.View;
      clusterInfo.nodeNames := Some(network.nodeNames);
      clusterInfo.nodeInfos := network.nodeInfos;
      assert network.View() == old(network.View());
    }

    method Install(net: LocalNetwork, info: ClusterInfo)
      requires net.Valid() && !net.stopOnce && !info.healthy && info.nodeNames.None? && info.nodeInfos == null
      modifies this
      ensures network == net && clusterInfo == info && Valid() && net.View() == old(net.View())
    {
      hide WellFormed, InfoMap.View;
      network := net;
      clusterInfo := info;
      assert network.View() == old(net.View());
    }

    // `tempOk`, `execOk` and `loggerOk` say whether the temporary directory and
    // the logger could be made and whether the binary exists.
    method Start(l: Launch, defaults: seq<NodeConfig>, tempOk: bool, execOk: bool, loggerOk: bool)
      returns (reply: Reply)
      requires Valid()
      modifies this
      ensures reply == Refused(AlreadyBootstrapped) <==> old(network) != null
      ensures reply == Refused(TempDirError) <==> old(network) == null && !tempOk
      ensures reply == Refused(NotExists) <==> old(network) == null && tempOk && !execOk
      ensures reply == Refused(LoggerError) <==> old(network) == null && tempOk && execOk && !loggerOk
      ensures reply.Panics? <==> old(network) == null && tempOk && execOk && loggerOk && |defaults| > |COLORS|
      ensures reply.Refused? ==> network == old(network) && clusterInfo == old(clusterInfo)
      ensures reply.Replied? ==>
                && network != null && fresh(network.Repr()) && network.View() == InitialNet(l, defaults)
                && clusterInfo != null && fresh(clusterInfo) && clusterInfo.root == l.root && !clusterInfo.healthy
                && network.Launched(l, defaults)
      ensures reply.Panics? ==> reply.why == IndexRange
      ensures !reply.Panics? ==> Valid()
    {
      hide WellFormed, InitialNet, InfoMap.View, LocalNetwork.Launched;
      if clusterInfo != null {
        return Refused(AlreadyBootstrapped);
      }
      if !tempOk {
        return Refused(TempDirError);
      }
      var info := new ClusterInfo(l.root);
      if !execOk {
        return Refused(NotExists);
      }
      if network != null {
        return Refused(AlreadyBootstrapped);
      }
      if !loggerOk {
        network := null;
        return Refused(LoggerError);
      }
      var net := LocalNetwork.New(l, defaults);
      if net.None? {
        return Panics(IndexRange);
      }
      NewNetworkWellFormed(l, defaults);
      NetFacts(net.value.View());
      Install(net.value, info);
      network.LaunchedIs(l, defaults);
      return Replied;
    }

    // `late` says, here and below, whether the deadline of the wait passes
    // before the library answers.
    method Health(late: bool) returns (reply: Reply)
      requires Valid()
      modifies Repr()
      ensures network == old(network) && clusterInfo == old(clusterInfo)
      ensures reply == Refused(NotBootstrapped) <==> network == null
      ensures reply.Panics? <==> network != null && old(network.nw) == null
      ensures reply.Panics? ==> reply.why == NilLibrary
      ensures reply.Refused? ==> reply.err == NotBootstrapped || reply.err == NotHealthy
      ensures reply == Refused(NotHealthy) ==> network != null && network.View() == old(network.View())
      ensures reply.Replied? ==> Published() && clusterInfo.healthy == old(clusterInfo.healthy)
      ensures reply.Replied? ==>
                && network.nw != null && Refresh(old(network.View()), network.nw.live).Done?
                && network.View()
                   == Refresh(old(network.View()), network.nw.live).value.(nodeNames := network.nodeNames)
      // it replies only with what a healthy library answered, and refuses only
      // on a failure that the library answered or on the deadline
      ensures network != null ==> network.nw == old(network.nw)
      ensures network != null && !reply.Panics? ==>
                && network.nw != null
                && WaitLogged(reply.Replied?, old(network.nw.log), network.nw.log, network.nw.live, late, false)
      ensures !reply.Panics? ==> Valid()
    {
      hide WellFormed, InfoMap.View, LocalNetwork.View, Refresh, Enumerates, WaitLogged;
      if clusterInfo == null {
        return Refused(NotBootstrapped);
      }
      ghost var log := if network.nw == null then [] else network.nw.log;
      var waited := Await(late);
      if waited.WaitPanics? {
        return Panics(waited.why);
      }
      if waited.NotPassed? {
        return Refused(NotHealthy);
      }
      ListAndShow();
      return Replied;
    }

    // The wait of a handler: nobody closes stopc meanwhile.
    method Await(late: bool) returns (r: Waited)
      requires Valid() && network != null
      modifies network`nodes, network`apiClis, network`readyc, network`readyOnce,
        network.nodeInfos.entries.Values, if network.nw == null then {} else {network.nw}
      ensures r.WaitPanics? <==> network.nw == null
      ensures r.WaitPanics? ==> r.why == NilLibrary
      ensures r.NotPassed? ==> network.View() == old(network.View())
      ensures r.Passed? ==> Refresh(old(network.View()), network.nw.live) == Done(network.View())
      ensures network.nw != null ==> network.nw.live == old(network.nw.live)
      ensures network.nw != null ==>
                WaitLogged(r.Passed?, old(network.nw.log), network.nw.log, network.nw.live, late, false)
      ensures !r.WaitPanics? ==> Valid()
    {
      hide WellFormed, InfoMap.View, LocalNetwork.View, Refresh;
      StopcOpen();
      r := network.WaitForHealthy(late);
    }

    method ListAndShow()
      requires Valid() && network != null
      modifies network`nodeNames, clusterInfo`nodeNames, clusterInfo`nodeInfos
      ensures Valid() && Published() && network.View() == old(network.View()).(nodeNames := network.nodeNames)
    {
      hide WellFormed, InfoMap.View, Enumerates;
      ghost var before := network.View();
      network.nodeInfos.ViewKeys();
      network.ListNames();
      NamesMayChange(before, network.nodeNames);
      Show();
    }

    method RemoveNode(name: string, late: bool) returns (reply: Reply)
      requires Valid()
      modifies Repr()
      ensures network == old(network) && clusterInfo == old(clusterInfo)
      ensures reply == Refused(NotBootstrapped) <==> network == null
      ensures reply == Refused(NodeNotFound) <==> network != null && name !in old(network.nodeInfos.entries)
      ensures reply.Panics? <==> network != null && name in old(network.nodeInfos.entries) && old(network.nw) == null
      ensures reply.Panics? ==> reply.why == NilLibrary
      ensures reply == Refused(NodeNotFound) ==> network != null && network.View() == old(network.View())
      ensures reply == Refused(LibraryError) ==>
                && network != null
                && exists dropped ::
                     RemoveLocked(old(network.View()), name, LibErr(dropped), network.nodeNames)
                     == Done(RemoveFails(LibraryError, network.View()))
      ensures reply.Replied? || reply == Refused(NotHealthy) ==>
                Published() && var o := RemoveLocked(old(network.View()), name, LibOk, network.nodeNames);
                && o.Done? && o.value.Removed? && o.value.net.nw.Some?
                && (if reply.Replied? then Refresh(o.value.net, o.value.net.nw.value) == Done(network.View())
                    else network.View() == o.value.net)
      // which answers of the library make it reply and refuse
      ensures network != null ==> network.nw == old(network.nw)
      ensures network != null && network.nw != null ==>
                RemoveLogged(reply, name, old(network.nw.log), network.nw.log, network.nw.live, late)
      ensures !reply.Panics? ==> Valid()
    {
      hide WellFormed, InfoMap.View, LocalNetwork.View, Refresh, RemoveLocked, Since, WaitPasses, WaitFails;
      if clusterInfo == null {
        return Refused(NotBootstrapped);
      }
      if name !in network.nodeInfos.entries {
        if network.nw != null {
          SinceNothing(network.nw.log);
        }
        return Refused(NodeNotFound);
      }
      if network.nw == null {
        return Panics(NilLibrary);
      }
      reply := RemoveKnown(name, late);
    }

    // RemoveNode's body for a node that is there, on a network that is up.
    method RemoveKnown(name: string, late: bool) returns (reply: Reply)
      requires Valid() && network != null && network.nw != null && name in network.nodeInfos.entries
      modifies Repr()
      ensures network == old(network) && clusterInfo == old(clusterInfo) && network.nw == old(network.nw) && Valid()
      ensures reply.Replied? || reply == Refused(LibraryError) || reply == Refused(NotHealthy)
      ensures reply == Refused(LibraryError) ==>
                exists dropped ::
                  RemoveLocked(old(network.View()), name, LibErr(dropped), network.nodeNames)
                  == Done(RemoveFails(LibraryError, network.View()))
      ensures reply.Replied? || reply == Refused(NotHealthy) ==>
                Published() && var o := RemoveLocked(old(network.View()), name, LibOk, network.nodeNames);
                && o.Done? && o.value.Removed? && o.value.net.nw.Some?
                && (if reply.Replied? then Refresh(o.value.net, o.value.net.nw.value) == Done(network.View())
                    else network.View() == o.value.net)
      ensures RemoveLogged(reply, name, old(network.nw.log), network.nw.log, network.nw.live, late)
    {
      hide WellFormed, InfoMap.View, LocalNetwork.View, Refresh, RemoveLocked, Since, WaitPasses, WaitFails;
      ghost var log := network.nw.log;
      var r := RemoveAndShow(name);
      SinceOne(log, RemoveCalled(name, r));
      if r.LibErr? {
        assert r == LibErr(r.dropped);
        return Refused(LibraryError);
      }
      network.ViewFacts();
      var waited := Await(late);
      SinceMore(log, RemoveCalled(name, LibOk), network.nw.log);
      return if waited.Passed? then Replied else Refused(NotHealthy);
    }

    method RemoveAndShow(name: string) returns (r: LibResult)
      requires Valid() && network != null && network.nw != null && name in network.nodeInfos.entries
      modifies network.nw, network.nodeInfos, network`nodeNames, clusterInfo`nodeNames, clusterInfo`nodeInfos
      ensures Valid() && network.nodeInfos.entries.Values <= old(network.nodeInfos.entries.Values)
      ensures RemoveLocked(old(network.View()), name, r, network.nodeNames)
              == Done(if r.LibOk? then Removed(network.View()) else RemoveFails(LibraryError, network.View()))
      ensures r.LibOk? ==> Published()
      ensures network.nw.log == old(network.nw.log) + [RemoveCalled(name, r)]
    {
      hide WellFormed, InfoMap.View, LocalNetwork.View, RemoveLocked;
      r := network.Remove(name);
      if r.LibOk? {
        Show();
      }
    }

    // The one assignment with which RestartNode publishes.
    method ShowInfos()
      requires network != null && clusterInfo != null && network.Valid() && !network.stopOnce && Shown()
      modifies clusterInfo`nodeInfos
      ensures Valid() && clusterInfo.nodeInfos == network.nodeInfos && network.View() == old(network.View())
    {
      hide WellFormed, InfoMap.View;
      clusterInfo.nodeInfos := network.nodeInfos;
      assert network.View() == old(network.View());
    }

    lemma StopcOpen()
      requires Valid() && network != null
      ensures !network.stopc
    {
      hide WellFormed, InfoMap.View, LocalNetwork.View;
      network.ViewFacts();
      NetFacts(network.View());
    }

    method RestartNode(name: string, start: Option<RestartStart>, late: bool) returns (reply: Reply)
      requires Valid()
      modifies Repr()
      ensures network == old(network) && clusterInfo == old(clusterInfo)
      ensures reply == Refused(NotBootstrapped) <==> network == null
      ensures reply == Refused(NodeNotFound) <==> network != null && name !in old(network.nodeInfos.entries)
      ensures reply.Panics? <==>
                network != null && name in old(network.nodeInfos.entries)
                && (start.None? || start.value.subnets.None? || old(network.nw) == null)
      ensures reply != Refused(UnexpectedType)
      ensures network != null && reply.Refused? ==> RestartTouches(old(network.View()), network.View(), name)
      ensures reply.Replied? ==>
                && clusterInfo.nodeInfos == network.nodeInfos && clusterInfo.nodeNames == old(clusterInfo.nodeNames)
                && Restarted(old(network.View()), network.View(), name, start)
      ensures reply.Panics? ==> reply.why == if start.None? || start.value.subnets.None? then NilRequest else NilLibrary
      // which answers of the library make it reply and refuse, and what it asked for
      ensures network != null ==> network.nw == old(network.nw)
      ensures network != null && network.nw != null && !reply.Panics? ==>
                RestartLogged(reply, old(network.View()), name, start, old(network.nw.log), network.nw.log,
                              network.nw.live, late, false)
      ensures !reply.Panics? ==> Valid()
    {
      hide InfoMap.View, LocalNetwork.View, Refresh, RestartLocked, RestartPending, OnlyAddresses, Agrees,
        RestartTouches, Restarted, WellFormed, RestartLogged;
      if clusterInfo == null {
        return Refused(NotBootstrapped);
      }
      StopcOpen();
      reply := network.Restart(name, start, late);
      if reply.Replied? {
        ShowInfos();
      }
    }

    // The body runs to the end, the wait for donec included.
    method Stop() returns (reply: Reply)
      requires Valid()
      modifies Repr()
      ensures reply == Refused(NotBootstrapped) <==> old(network) == null
      ensures reply.Panics? <==>
                old(network) != null && (old(network.nw) == null || StaleSnapshot(old(network.View())))
      ensures reply.Replied? ==>
                && network == null && clusterInfo == null && !old(clusterInfo).healthy
                && old(network).donec && old(network).stopc
                && OnlyAddresses(old(network.View()).(stopc := true), old(network).View())
      // the library's Stop has been called, once, and has ended its nodes
      ensures reply.Replied? ==>
                && old(network.nw) != null && old(network).nw == old(network.nw)
                && exists left ::
                     && StopLogged(old(network.nw.log), old(network).nw.log, left)
                     && forall n :: n in old(network).nw.live <==> n in old(network.nw.live) && n in left
      ensures reply.Panics? ==> reply.why == if old(network.nw) == null then NilLibrary else NilEntry
      ensures !reply.Panics? ==> Valid()
    {
      hide WellFormed, InfoMap.View, OnlyAddresses, StopLogged;
      var info := clusterInfo;
      if info == null {
        return Refused(NotBootstrapped);
      }
      ghost var left;
      var done: Result<()>;
      done, left := network.Stop();
      if done.Panicked? {
        return Panics(done.why);
      }
      ghost var net, stopped := network, network.View();
      network := null;
      info.healthy := false;
      clusterInfo := null;
      assert net.View() == stopped;
      return Replied;
    }

    // The watcher's body, once readyc has been closed.
    method Ready() returns (reply: Reply)
      requires Valid()
      modifies clusterInfo
      ensures network == old(network) && clusterInfo == old(clusterInfo)
      ensures reply.Panics? <==> network == null
      ensures reply.Panics? ==> reply.why == NilNetwork
      ensures reply.Replied? ==> Valid() && Published() && clusterInfo.healthy && network.View() == old(network.View())
    {
      hide WellFormed, InfoMap.View;
      if network == null {
        return Panics(NilNetwork);
      }
      Show();
      ghost var shown := network.View();
      clusterInfo.healthy := true;
      assert network.View() == shown;
      return Replied;
    }

    // None before Start. The map is read as it is when the loop runs.
    method URIs() returns (answer: Option<seq<string>>)
      requires Valid()
      ensures answer.None? <==> clusterInfo == null
      ensures answer.Some? && clusterInfo.nodeInfos == null ==> answer.value == []
      ensures answer.Some? && clusterInfo.nodeInfos != null ==> IsUriList(answer.value, network.nodeInfos.View())
      // each is the address of a shown node, and reads back as the URL and the
      // port that the last pass was told of that node
      ensures answer.Some? && clusterInfo.nodeInfos != null ==>
                forall x :: x in answer.value ==>
                  exists n :: n in network.nodeInfos.entries && network.nodeInfos.entries[n].uri == x
                              && network.ReadsAsReported(n)
    {
      hide WellFormed, IsUriList, InfoMap.View, LocalNetwork.ReadsAsReported;
      if clusterInfo == null {
        return None;
      }
      if clusterInfo.nodeInfos == null {
        return Some([]);
      }
      var uris := clusterInfo.nodeInfos.Addresses();
      answer := Some(uris);
      forall n | n in network.nodeInfos.entries ensures network.ReadsAsReported(n) {
        network.ReportedReadsBack(n);
      }
    }
  }

  // What a successful restart does to the registry: one configuration changes,
  // and in it only the file and the binary path; the info says what it runs. Of
  // the other nodes only the addresses may have been filled in anew.
  ghost predicate Restarted(net: Net, n: Net, name: string, start: Option<RestartStart>) {
    && name in net.infos && n.infos.Keys == net.infos.Keys && n.stale == net.stale - {name}
    && start.Some? && start.value.subnets.Some?
    && var idx := FindConfig(net.cfgs, name);
    && idx < |net.cfgs| == |n.cfgs| && net.cfgs[idx].impl.Local?
    && n.cfgs == net.cfgs[idx := net.cfgs[idx].(configFile := n.cfgs[idx].configFile,
                                                impl := net.cfgs[idx].impl.(binaryPath := start.value.execPath))]
    && n.cfgs[idx].configFile == RestartText(net.infos[name].logDir, net.infos[name].dbDir, start.value.subnets.value)
    && n.infos[name] == net.infos[name].(execPath := start.value.execPath, subnets := start.value.subnets.value,
                                         uri := n.infos[name].uri, id := n.infos[name].id)
    && (forall x :: x in net.infos && x != name ==>
          n.infos[x] == net.infos[x].(uri := n.infos[x].uri, id := n.infos[x].id))
    && n.nw.Some? && name in n.nw.value && OthersLive(net.nw, n.nw, name)
    && Agrees(n.infos[name], n.cfgs[idx])
  }

  lemma RestartedIs(net: Net, begun: Net, g: Net, name: string, start: Option<RestartStart>, idx: nat, cfg: NodeConfig)
    requires RestartLocked(net, name, start, LibOk) == Done(Restarting(begun, idx, cfg))
    requires RestartTouches(net, begun, name)
    requires OnlyAddresses(begun, g) && idx < |g.cfgs| && name in g.infos && Agrees(g.infos[name], cfg)
    requires begun.nw.Some? && g.nw.Some? && name in g.nw.value && g.nw.value - {name} == begun.nw.value - {name}
    ensures Restarted(net, Committed(g, name, idx, cfg), name, start)
  {
    hide RestartText, Agrees, RestartLocked;
    BeginIs(net, name, start, LibOk, begun, idx, cfg);
  }

  // A failure after the restart began has touched no more than the beginning.
  lemma TouchesIs(net: Net, begun: Net, n: Net, name: string)
    requires RestartTouches(net, begun, name) && begun.nw.Some? && n.nw.Some? && n == begun.(nw := n.nw)
    requires n.nw.value - {name} == begun.nw.value - {name}
    ensures RestartTouches(net, n, name)
  {
  }

  lemma NamesMayChange(net: Net, order: seq<string>)
    requires WellFormed(net) && Enumerates(order, net.infos.Keys)
    ensures WellFormed(net.(nodeNames := order))
  {
    hide Enumerates;
  }
}
