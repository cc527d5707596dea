// What a run remembers of its launches and restarts, and what each node's
// configuration file and Config field say of that at any time.
module History {
  import opened Basics
  import opened Registry
  import opened Lifecycle
  import opened Runs
  import opened Effects
  import Config

  // ----- the past of a run -----

  // What a restart asks for.
  datatype Asked = Asked(execPath: string, subnets: string)

  // For every network the request it was launched with, the library's default
  // configuration it was made from and, for each node that a restart has been
  // committed for, what the last one asked for; `asked` is what the last restart
  // to reach its body asked for.
  datatype Past = Past(launches: seq<Launch>, defaults: seq<seq<NodeConfig>>, restarts: seq<map<string, Asked>>,
                       asked: Asked)

  const NOTHING := Past([], [], [], Asked("", ""))

  ghost function Remember(s: State, e: Event, past: Past): Past
    requires Paired(s) && InRange(s) && Enabled(s, e)
  {
    match e
    case StartBody(id, defaults, _) =>
      if |Step(s, e).nets| > |s.nets| then
        Past(past.launches + [s.calls[id].l], past.defaults + [defaults], past.restarts + [map[]], past.asked)
      else past
    case RestartBody(id, _) =>
      var start := s.calls[id].start;
      if start.Some? && start.value.subnets.Some? then
        past.(asked := Asked(start.value.execPath, start.value.subnets.value))
      else past
    case PassApply(id) =>
      var c := s.calls[id];
      if c.RestartPass? && c.k < |past.restarts| then
        past.(restarts := past.restarts[c.k := past.restarts[c.k][c.name := past.asked]])
      else past
    case _ => past
  }

  ghost function Recall(s: State, es: seq<Event>, past: Past): Past
    requires Inv(s) && IsRun(s, es)
    decreases |es|
  {
    if es == [] then past else
      StepKeeps(s, es[0]);
      Recall(Step(s, es[0]), es[1..], Remember(s, es[0], past))
  }

  // ----- what the files are -----

  // The file newNetwork renders for a node, and that of a restart.
  function LaunchFile(l: Launch, name: string): string {
    Config.StartText(l.level, LogDir(l.root, name), DbDir(l.root, name), l.subnets)
  }

  function RestartFile(root: string, name: string, subnets: string): string {
    Config.RestartText(LogDir(root, name), DbDir(root, name), subnets)
  }

  function FileOf(l: Launch, restarts: map<string, Asked>, name: string): string {
    if name in restarts then RestartFile(l.root, name, restarts[name].subnets) else LaunchFile(l, name)
  }

  function PathOf(l: Launch, restarts: map<string, Asked>, name: string): string {
    if name in restarts then restarts[name].execPath else l.execPath
  }

  // The i-th entry, made from this default.
  ghost predicate EntryRemembered(c: NodeConfig, l: Launch, d: NodeConfig, restarts: map<string, Asked>, i: nat) {
    && i < |COLORS|
    && c == d.(name := NodeName(i), configFile := FileOf(l, restarts, NodeName(i)),
               impl := Local(PathOf(l, restarts, NodeName(i)), COLORS[i], NodeName(i)))
  }

  ghost predicate NetRemembered(net: Net, l: Launch, defaults: seq<NodeConfig>, restarts: map<string, Asked>) {
    && net.root == l.root && |net.cfgs| == |defaults|
    && (forall i :: 0 <= i < |net.cfgs| ==> EntryRemembered(net.cfgs[i], l, defaults[i], restarts, i))
    && (forall n :: n in net.infos ==> net.infos[n].config == LaunchFile(l, n))
  }

  predicate IsRestart(c: Call) {
    c.RestartAdding? || c.RestartPass?
  }

  // A restart in its body carries the file and the binary that were asked for.
  ghost predicate CallRemembered(s: State, past: Past, c: Call) {
    IsRestart(c) ==>
      && c.k < |s.nets| && c.cfg.configFile == RestartFile(s.nets[c.k].root, c.name, past.asked.subnets)
      && c.cfg.impl.Local? && c.cfg.impl.binaryPath == past.asked.execPath
  }

  ghost predicate Remembers(s: State, past: Past) {
    && |past.launches| == |past.defaults| == |past.restarts| == |s.nets|
    && (forall k :: 0 <= k < |s.nets| ==>
          NetRemembered(s.nets[k], past.launches[k], past.defaults[k], past.restarts[k]))
    && (forall id :: id in s.calls ==> CallRemembered(s, past, s.calls[id]))
  }

  // ----- one step -----

  lemma NewNetRemembered(l: Launch, defaults: seq<NodeConfig>)
    requires |defaults| <= |COLORS|
    ensures NetRemembered(InitialNet(l, defaults), l, defaults, map[])
  {
    hide Config.StartText, NodeName, LogDir, DbDir;
    InitialInfosKeys(l, |defaults|);
    var net := InitialNet(l, defaults);
    forall i | 0 <= i < |net.cfgs| ensures EntryRemembered(net.cfgs[i], l, defaults[i], map[], i) {
      assert net.cfgs[i] == ConfigAt(l, defaults[i], i);
    }
  }

  lemma CommitRemembered(net: Net, n: Net, l: Launch, defaults: seq<NodeConfig>, restarts: map<string, Asked>,
                         name: string, idx: nat, cfg: NodeConfig, asked: Asked)
    requires NetRemembered(net, l, defaults, restarts) && n.root == net.root && FieldsKept(net, n)
    requires idx < |net.cfgs| && name == NodeName(idx) && n.cfgs == net.cfgs[idx := cfg]
    requires SameNode(net.cfgs[idx], cfg)
    requires cfg.configFile == RestartFile(net.root, name, asked.subnets) && cfg.impl.binaryPath == asked.execPath
    ensures NetRemembered(n, l, defaults, restarts[name := asked])
  {
    hide Config.StartText, Config.RestartText, NodeName, LogDir, DbDir;
    forall i | 0 <= i < |n.cfgs| ensures EntryRemembered(n.cfgs[i], l, defaults[i], restarts[name := asked], i) {
      assert EntryRemembered(net.cfgs[i], l, defaults[i], restarts, i);
      if i != idx && NodeName(i) == name {
        NodeNameInjective(i, idx);
      }
    }
  }

  lemma OldNetsRemembered(s: State, e: Event, past: Past, k: nat)
    requires Inv(s) && Enabled(s, e) && Remembers(s, past) && k < |s.nets| && Step(s, e).panic.None?
    ensures var t, then' := Step(s, e), Remember(s, e, past);
      && k < |t.nets| && k < |then'.launches| && k < |then'.defaults| && k < |then'.restarts|
      && NetRemembered(t.nets[k], then'.launches[k], then'.defaults[k], then'.restarts[k])
  {
    hide WellFormed, InRange, Views, Retired, LockHeld, StopLocked, Step, FieldsKept, CallRemembered, FileOf,
      LaunchFile, RestartFile;
    SettingsStep(s, e, k);
    StepFrame(s, e, k);
    assert NetRemembered(s.nets[k], past.launches[k], past.defaults[k], past.restarts[k]);
    if Commits(s, e, k) {
      CommittedRemembered(s, e, past, k);
    } else {
      SameFiles(s.nets[k], Step(s, e).nets[k], past.launches[k], past.defaults[k], past.restarts[k]);
    }
  }

  lemma SameFiles(net: Net, n: Net, l: Launch, defaults: seq<NodeConfig>, restarts: map<string, Asked>)
    requires NetRemembered(net, l, defaults, restarts)
    requires n.root == net.root && FieldsKept(net, n) && n.cfgs == net.cfgs
    ensures NetRemembered(n, l, defaults, restarts)
  {
    hide EntryRemembered, LaunchFile;
  }

  lemma CommittedRemembered(s: State, e: Event, past: Past, k: nat)
    requires Inv(s) && Enabled(s, e) && Remembers(s, past) && k < |s.nets| && Step(s, e).panic.None?
    requires Commits(s, e, k) && Moved(s, e, k) && k < |Step(s, e).nets| && Step(s, e).nets[k].root == s.nets[k].root
    ensures NetRemembered(Step(s, e).nets[k], past.launches[k], past.defaults[k],
                          past.restarts[k][s.calls[e.id].name := past.asked])
  {
    hide WellFormed, InRange, Views, Retired, LockHeld, StopLocked, Step, FieldsKept, SameNode, Agrees,
      NetRemembered, RestartFile;
    var c := s.calls[e.id];
    assert NetRemembered(s.nets[k], past.launches[k], past.defaults[k], past.restarts[k]);
    assert CallRemembered(s, past, c);
    NodesLocal(s, k, c.idx);
    CommitRemembered(s.nets[k], Step(s, e).nets[k], past.launches[k], past.defaults[k], past.restarts[k],
                     c.name, c.idx, c.cfg, past.asked);
  }

  // The restarts in their bodies are those of before, but for one that begins.
  ghost predicate RestartsKept(s: State, t: State) {
    forall id :: id in t.calls && IsRestart(t.calls[id]) ==>
      && id in s.calls && IsRestart(s.calls[id])
      && t.calls[id].k == s.calls[id].k && t.calls[id].name == s.calls[id].name && t.calls[id].cfg == s.calls[id].cfg
  }

  lemma BodiesKeepRestarts(s: State, e: Event)
    requires Paired(s) && InRange(s) && Enabled(s, e)
    requires e.StartBody? || e.HealthBody? || e.RemoveBody? || e.StopBegin? || e.StopLibrary? || e.Starter?
    ensures RestartsKept(s, Step(s, e))
  {
    hide InRange, LibraryStopped, StartMoved, CanMove, RemoveLocked, InitialNet, CloseStop, Enumerates, LibraryAllows;
  }

  lemma RestartCalls(s: State, e: Event)
    requires Paired(s) && InRange(s) && Enabled(s, e) && !e.RestartBody?
    ensures RestartsKept(s, Step(s, e))
  {
    hide InRange, NodeAdded, OnPassApply;
    hide OnStart, OnHealth, OnRemove, OnStopBegin, OnStopLibrary, OnStarter, CanMove, Enumerates, LibraryAllows;
    if e.StartBody? || e.HealthBody? || e.RemoveBody? || e.StopBegin? || e.StopLibrary? || e.Starter? {
      hide RestartsKept;
      BodiesKeepRestarts(s, e);
    } else if e.PassApply? {
      hide RestartsKept;
      PassKeepsRestarts(s, e);
    }
  }

  lemma PassKeepsRestarts(s: State, e: Event)
    requires Paired(s) && InRange(s) && Enabled(s, e) && e.PassApply?
    ensures RestartsKept(s, Step(s, e))
  {
    hide InRange, Refresh, Committed;
  }

  lemma BegunRemembered(s: State, e: Event, past: Past, id: nat)
    requires Inv(s) && Enabled(s, e) && e.RestartBody? && Step(s, e).panic.None? && id in Step(s, e).calls
    ensures CallRemembered(Step(s, e), Remember(s, e, past), Step(s, e).calls[id])
  {
    hide WellFormed, View, CallInRange, WatcherInRange, RestartLocked, Config.RestartText, LogDir, DbDir;
    var k := s.network.value;
    RestartPanicsWhen(s.nets[k], s.calls[e.id].name, s.calls[e.id].start, e.r);
    BegunFile(s.nets[k], s.calls[e.id].name, s.calls[e.id].start, e.r);
  }

  lemma BegunFile(net: Net, name: string, start: Option<RestartStart>, r: LibResult)
    requires WellFormed(net)
    ensures var o := RestartLocked(net, name, start, r);
      o.Done? && o.value.Restarting? ==>
        && start.Some? && start.value.subnets.Some? && o.value.net.root == net.root
        && o.value.cfg.configFile == RestartFile(net.root, name, start.value.subnets.value)
        && o.value.cfg.impl.Local? && o.value.cfg.impl.binaryPath == start.value.execPath
  {
    hide RestartLocked, Config.RestartText, LogDir, DbDir, ConfigsOk, Agreement, Filled, ChannelsOk;
    RestartPanicsWhen(net, name, start, r);
  }

  lemma CallsRemembered(s: State, e: Event, past: Past, id: nat)
    requires Inv(s) && Enabled(s, e) && Remembers(s, past) && Step(s, e).panic.None? && id in Step(s, e).calls
    ensures CallRemembered(Step(s, e), Remember(s, e, past), Step(s, e).calls[id])
  {
    hide WellFormed, InRange, Views, Retired, LockHeld, StopLocked, Step, NetRemembered, RestartFile;
    if e.RestartBody? {
      BegunRemembered(s, e, past, id);
    } else if IsRestart(Step(s, e).calls[id]) {
      RestartCalls(s, e);
      assert CallRemembered(s, past, s.calls[id]);
      StepFrame(s, e, s.calls[id].k);
    }
  }

  lemma InstalledRemembered(s: State, e: Event)
    requires Inv(s) && Enabled(s, e)
    ensures var t := Step(s, e);
      if e.StartBody? && |t.nets| > |s.nets| then
        |t.nets| == |s.nets| + 1 && NetRemembered(t.nets[|s.nets|], s.calls[e.id].l, e.defaults, map[])
      else |t.nets| == |s.nets|
  {
    hide WellFormed, View, CallInRange, WatcherInRange, InitialNet, NetRemembered;
    StepKeeps(s, e);
    if e.StartBody? && NewNetwork(s.calls[e.id].l, e.defaults).Done? {
      NewNetRemembered(s.calls[e.id].l, e.defaults);
    }
  }

  // Every step keeps the memory true.
  lemma RememberStep(s: State, e: Event, past: Past)
    requires Inv(s) && Enabled(s, e) && Remembers(s, past) && Step(s, e).panic.None?
    ensures Remembers(Step(s, e), Remember(s, e, past))
  {
    hide WellFormed, InRange, Views, Retired, LockHeld, StopLocked, Step, NetRemembered, CallRemembered;
    var t, then' := Step(s, e), Remember(s, e, past);
    InstalledRemembered(s, e);
    forall k | 0 <= k < |t.nets|
      ensures NetRemembered(t.nets[k], then'.launches[k], then'.defaults[k], then'.restarts[k])
    {
      if k < |s.nets| {
        OldNetsRemembered(s, e, past, k);
      }
    }
    forall id | id in t.calls ensures CallRemembered(t, then', t.calls[id]) {
      CallsRemembered(s, e, past, id);
    }
  }

  lemma {:induction false} RemembersFrom(s: State, es: seq<Event>, past: Past)
    requires Inv(s) && s.panic.None? && IsRun(s, es) && Remembers(s, past)
    ensures Exec(s, es).panic.None? ==> Remembers(Exec(s, es), Recall(s, es, past))
    decreases |es|
  {
    hide WellFormed, InRange, Views, Retired, LockHeld, StopLocked, Step, Remembers, Remember;
    if es != [] {
      StepKeeps(s, es[0]);
      PanicEnds(Step(s, es[0]), es[1..]);
      if Step(s, es[0]).panic.None? {
        RememberStep(s, es[0], past);
        RemembersFrom(Step(s, es[0]), es[1..], Remember(s, es[0], past));
      }
    }
  }

  // ----- whole runs -----

  // In every run, each node's configuration file and binary are those that the
  // last committed restart of the node asked for or, before any, the launch; its
  // Config field is the launch's for ever. All else in its entry is as in the
  // default configuration that Start read, but for the name and the writer.
  lemma FilesOverRuns(es: seq<Event>, k: nat, i: nat)
    requires Inv(INIT) && IsRun(INIT, es)
    requires var s := Exec(INIT, es); s.panic.None? && k < |s.nets| && i < |s.nets[k].cfgs|
    ensures var past := Recall(INIT, es, NOTHING); var net := Exec(INIT, es).nets[k];
      && k < |past.launches| == |past.defaults| == |past.restarts| && |past.defaults[k]| == |net.cfgs|
      && net.cfgs[i].configFile == FileOf(past.launches[k], past.restarts[k], NodeName(i))
      && net.cfgs[i].impl.Local? && i < |COLORS|
      && net.cfgs[i].impl.binaryPath
         == (if NodeName(i) in past.restarts[k] then past.restarts[k][NodeName(i)].execPath
             else past.launches[k].execPath)
      && net.cfgs[i].impl.writer == NodeName(i) && net.cfgs[i].impl.color == COLORS[i]
      && net.cfgs[i] == past.defaults[k][i].(name := NodeName(i), configFile := net.cfgs[i].configFile,
                                             impl := net.cfgs[i].impl)
      && (NodeName(i) in net.infos ==> net.infos[NodeName(i)].config == LaunchFile(past.launches[k], NodeName(i)))
  {
    hide Step, FileOf, LaunchFile;
    assert Remembers(INIT, NOTHING);
    RemembersFrom(INIT, es, NOTHING);
    var past := Recall(INIT, es, NOTHING);
    assert NetRemembered(Exec(INIT, es).nets[k], past.launches[k], past.defaults[k], past.restarts[k]);
    assert EntryRemembered(Exec(INIT, es).nets[k].cfgs[i], past.launches[k], past.defaults[k][i], past.restarts[k], i);
  }

  // RestartNode leaves NodeInfo.Config alone. In every run, for whatever
  // settings, a node's Config field is its configuration file if and only if no
  // restart of the node has been committed, or the cluster was launched at
  // level INFO and the last restart asked for the launch's subnets.
  lemma ConfigFieldAfterRestart(es: seq<Event>, k: nat, i: nat)
    requires Inv(INIT) && IsRun(INIT, es)
    requires var s := Exec(INIT, es);
      s.panic.None? && k < |s.nets| && i < |s.nets[k].cfgs| && NodeName(i) in s.nets[k].infos
    ensures var past := Recall(INIT, es, NOTHING); var net := Exec(INIT, es).nets[k]; var name := NodeName(i);
      && k < |past.launches| == |past.restarts|
      && var l := past.launches[k];
         net.infos[name].config == net.cfgs[i].configFile
         <==> name !in past.restarts[k]
              || (Config.EffectiveLevel(l.level) == "INFO" && past.restarts[k][name].subnets == l.subnets)
  {
    hide Step, LogDir, DbDir, NodeName, Config.StartText, Config.RestartText, Config.EffectiveLevel, IsRun, Exec,
      Recall, Core;
    FilesOverRuns(es, k, i);
    var past := Recall(INIT, es, NOTHING);
    var l, name := past.launches[k], NodeName(i);
    if name in past.restarts[k] {
      var asked := past.restarts[k][name];
      Config.SameFileExactlyWhen(l.level, LogDir(l.root, name), DbDir(l.root, name), l.subnets, asked.subnets);
    }
  }

  // ----- what the files read as -----

  // The settings asked for a node: the last committed restart's or the launch's.
  function LaunchSettings(l: Launch, name: string): seq<Config.Member> {
    Config.ConfigMembers(Config.EffectiveLevel(l.level), LogDir(l.root, name), DbDir(l.root, name), l.subnets)
  }

  function SettingsOf(l: Launch, restarts: map<string, Asked>, name: string): seq<Config.Member> {
    if name in restarts then
      Config.ConfigMembers("INFO", LogDir(l.root, name), DbDir(l.root, name), restarts[name].subnets)
    else LaunchSettings(l, name)
  }

  // What the client asked for needs no escape.
  predicate PlainLaunch(l: Launch) {
    Config.Plain(l.root) && Config.Plain(l.level) && Config.Plain(l.subnets)
  }

  predicate PlainAsked(l: Launch, restarts: map<string, Asked>, name: string) {
    if name in restarts then Config.Plain(l.root) && Config.Plain(restarts[name].subnets) else PlainLaunch(l)
  }

  lemma DecimalIsPlain(n: nat)
    ensures Config.Plain(Decimal(n))
  {
    DecimalRoundTrip(n);
    forall i | 0 <= i < |Decimal(n)| ensures Config.PlainChar(Decimal(n)[i]) {
      assert Decimal(n)[i] in Decimal(n);
    }
  }

  lemma PlainConcat(a: string, b: string)
    ensures Config.Plain(a + b) <==> Config.Plain(a) && Config.Plain(b)
  {
    assert forall i :: 0 <= i < |a| ==> (a + b)[i] == a[i];
    assert forall i :: 0 <= i < |b| ==> (a + b)[|a| + i] == b[i];
  }

  lemma JoinIsPlain(root: string, i: nat, leaf: string)
    requires Config.Plain(leaf)
    ensures Config.Plain(Join(root, NodeName(i), leaf)) <==> Config.Plain(root)
  {
    hide Config.Plain, Decimal;
    assert Config.Plain("/") && Config.Plain("node") by {
      ShortIsPlain();
    }
    DecimalIsPlain(i + 1);
    PlainConcat("node", Decimal(i + 1));
    PlainConcat(root, "/");
    PlainConcat(root + "/", NodeName(i));
    PlainConcat(root + "/" + NodeName(i), "/");
    PlainConcat(root + "/" + NodeName(i) + "/", leaf);
  }

  lemma ShortIsPlain()
    ensures Config.Plain("/") && Config.Plain("node") && Config.Plain("log") && Config.Plain("db-dir")
  {
  }

  lemma DirsPlain(root: string, i: nat)
    ensures Config.Plain(LogDir(root, NodeName(i))) <==> Config.Plain(root)
    ensures Config.Plain(DbDir(root, NodeName(i))) <==> Config.Plain(root)
  {
    hide Config.Plain, Join, NodeName;
    ShortIsPlain();
    JoinIsPlain(root, i, "log");
    JoinIsPlain(root, i, "db-dir");
  }

  lemma LaunchReadsBack(l: Launch, i: nat)
    ensures Config.ReadObject(LaunchFile(l, NodeName(i))) == Some(LaunchSettings(l, NodeName(i))) <==> PlainLaunch(l)
  {
    hide Config.Plain, Config.ReadObject, Config.EffectiveLevel, Config.ConfigText, Config.ConfigMembers, LogDir, DbDir,
      NodeName;
    DirsPlain(l.root, i);
    Config.EffectiveLevelPlain(l.level);
    var logDir, dbDir := LogDir(l.root, NodeName(i)), DbDir(l.root, NodeName(i));
    Config.ConfigRoundTrip(Config.EffectiveLevel(l.level), logDir, dbDir, l.subnets);
  }

  lemma RestartReadsBack(root: string, i: nat, subnets: string)
    ensures Config.ReadObject(RestartFile(root, NodeName(i), subnets))
            == Some(Config.ConfigMembers("INFO", LogDir(root, NodeName(i)), DbDir(root, NodeName(i)), subnets))
            <==> Config.Plain(root) && Config.Plain(subnets)
  {
    hide Config.Plain, Config.ReadObject, Config.ConfigText, Config.RestartText, Config.ConfigMembers, LogDir, DbDir,
      NodeName;
    DirsPlain(root, i);
    Config.FixedTextsPlain();
    Config.RestartTemplateAgrees(LogDir(root, NodeName(i)), DbDir(root, NodeName(i)), subnets);
    Config.ConfigRoundTrip("INFO", LogDir(root, NodeName(i)), DbDir(root, NodeName(i)), subnets);
  }

  // In every run a node's configuration file reads back as the settings that
  // were asked for if and only if those need no escape: the root and the last
  // committed restart's subnets or, before any, the launch's level and subnets.
  // So it is with the Config field and the launch.
  lemma FilesReadBack(es: seq<Event>, k: nat, i: nat)
    requires Inv(INIT) && IsRun(INIT, es)
    requires var s := Exec(INIT, es); s.panic.None? && k < |s.nets| && i < |s.nets[k].cfgs|
    ensures var past := Recall(INIT, es, NOTHING); var net := Exec(INIT, es).nets[k]; var name := NodeName(i);
      && k < |past.launches| == |past.restarts|
      && var l, restarts := past.launches[k], past.restarts[k];
         && (Config.ReadObject(net.cfgs[i].configFile) == Some(SettingsOf(l, restarts, name))
             <==> PlainAsked(l, restarts, name))
         && (name in net.infos ==>
               (Config.ReadObject(net.infos[name].config) == Some(LaunchSettings(l, name)) <==> PlainLaunch(l)))
  {
    hide Step, LogDir, DbDir, NodeName, LaunchFile, RestartFile, LaunchSettings, PlainLaunch, Config.ReadObject,
      Config.Plain, Config.ConfigMembers, IsRun, Exec, Recall, Core;
    FilesOverRuns(es, k, i);
    var past := Recall(INIT, es, NOTHING);
    LaunchReadsBack(past.launches[k], i);
    if NodeName(i) in past.restarts[k] {
      RestartReadsBack(past.launches[k].root, i, past.restarts[k][NodeName(i)].subnets);
    }
  }

  // Subnets with quotes in them: the file that a launch, or a restart, makes of
  // them reads as the settings without the quoted part and one member more.
  lemma QuotedFilesRead(l: Launch, root: string, i: nat, x: string, key: string, y: string)
    requires Config.Plain(x) && Config.Plain(key) && Config.Plain(y)
    ensures Config.Plain(l.root) && Config.Plain(l.level) ==>
              Config.ReadObject(LaunchFile(l.(subnets := Config.Injected(x, key, y)), NodeName(i)))
              == Some(LaunchSettings(l.(subnets := x), NodeName(i)) + [(key, Config.Text(y))])
    ensures Config.Plain(root) ==>
              Config.ReadObject(RestartFile(root, NodeName(i), Config.Injected(x, key, y)))
              == Some(Config.ConfigMembers("INFO", LogDir(root, NodeName(i)), DbDir(root, NodeName(i)), x)
                      + [(key, Config.Text(y))])
  {
    hide Config.Plain, Config.ReadObject, Config.EffectiveLevel, Config.ConfigText, Config.RestartText,
      Config.ConfigMembers, Config.Injected, LogDir, DbDir, NodeName;
    var name := NodeName(i);
    DirsPlain(l.root, i);
    DirsPlain(root, i);
    Config.FixedTextsPlain();
    Config.EffectiveLevelPlain(l.level);
    if Config.Plain(l.root) && Config.Plain(l.level) {
      Config.SubnetsAddAMember(Config.EffectiveLevel(l.level), LogDir(l.root, name), DbDir(l.root, name), x, key, y);
    }
    if Config.Plain(root) {
      Config.RestartTemplateAgrees(LogDir(root, name), DbDir(root, name), Config.Injected(x, key, y));
      Config.SubnetsAddAMember("INFO", LogDir(root, name), DbDir(root, name), x, key, y);
    }
  }
}
