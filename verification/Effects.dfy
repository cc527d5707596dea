// What each step of the server does to the settings and to the published view,
// and what is left of both over whole runs.
module Effects {
  import opened Basics
  import opened Registry
  import opened Lifecycle
  import opened Runs
  import Config

  // ----- settings -----

  // The same node: only its configuration file and binary path may differ.
  predicate SameNode(a: NodeConfig, b: NodeConfig) {
    && a.impl.Local? && b.impl.Local?
    && b == a.(configFile := b.configFile, impl := a.impl.(binaryPath := b.impl.binaryPath))
  }

  // A restart of a node of network k writes down its health pass: its last act.
  predicate Commits(s: State, e: Event, k: nat) {
    e.PassApply? && e.id in s.calls && s.calls[e.id].RestartPass? && s.calls[e.id].k == k
  }

  // A restart of network k passes its lookups.
  predicate Begins(s: State, e: Event, k: nat) {
    && e.RestartBody? && e.id in s.calls && s.calls[e.id].WantRestart? && s.network == Some(k) && k < |s.nets|
    && s.calls[e.id].name in s.nets[k].infos
  }

  // No info appears, and those that stay keep their Config field.
  predicate FieldsKept(net: Net, n: Net) {
    n.infos.Keys <= net.infos.Keys && forall x :: x in n.infos ==> n.infos[x].config == net.infos[x].config
  }

  // What a step does to network k's configurations, to the Config fields of its
  // infos and to its set of nodes whose last restart has not succeeded.
  ghost predicate SettingsMoved(s: State, e: Event, k: nat, net: Net, n: Net) {
    FieldsKept(net, n) &&
    if Commits(s, e, k) then
      var c := s.calls[e.id];
      && c.idx < |net.cfgs| && net.cfgs[c.idx].name == c.name
      && n.cfgs == net.cfgs[c.idx := c.cfg] && SameNode(net.cfgs[c.idx], c.cfg)
      && n.stale == net.stale - {c.name}
      && c.name in n.infos && Agrees(n.infos[c.name], c.cfg)
    else
      n.cfgs == net.cfgs && n.stale == net.stale + if Begins(s, e, k) then {s.calls[e.id].name} else {}
  }

  ghost predicate Moved(s: State, e: Event, k: nat)
    requires Paired(s) && InRange(s) && Enabled(s, e) && k < |s.nets|
  {
    var t := Step(s, e);
    t.panic.None? ==> k < |t.nets| && SettingsMoved(s, e, k, s.nets[k], t.nets[k])
  }

  lemma RestartMarks(net: Net, name: string, start: Option<RestartStart>, r: LibResult)
    requires WellFormed(net)
    ensures var o := RestartLocked(net, name, start, r);
      o.Done? ==>
        && o.value.net.cfgs == net.cfgs && o.value.net.stale == net.stale + (if name in net.infos then {name} else {})
        && FieldsKept(net, o.value.net)
  {
    hide WellFormed, RestartLocked, RestartPending;
    RestartPanicsWhen(net, name, start, r);
    if name in net.infos && RestartLocked(net, name, start, r).Done? {
      BegunLeaves(net, name, start.value, r);
      hide Begun;
    }
  }

  lemma BegunLeaves(net: Net, name: string, start: RestartStart, r: LibResult)
    requires name in net.infos && net.nw.Some? && start.subnets.Some?
    ensures var n := Begun(net, name, start, r);
      n.cfgs == net.cfgs && n.stale == net.stale + {name} && FieldsKept(net, n)
  {
  }

  lemma RestartBodyMoves(s: State, e: Event, k: nat)
    requires Inv(s) && Enabled(s, e) && k < |s.nets| && e.RestartBody?
    ensures Moved(s, e, k)
  {
    hide WellFormed, View, CallInRange, WatcherInRange, RestartLocked;
    if s.network.Some? {
      RestartMarks(s.nets[s.network.value], s.calls[e.id].name, s.calls[e.id].start, e.r);
    }
  }

  lemma CommitMoves(s: State, e: Event, k: nat)
    requires Inv(s) && Enabled(s, e) && k < |s.nets| && Commits(s, e, k)
    ensures Moved(s, e, k)
  {
    hide WellFormed, View, WatcherInRange, RestartPending, Refresh, Committed, Agrees, OnlyAddresses;
    var c := s.calls[e.id];
    PassRefreshes(s, e.id);
    var n := Refresh(s.nets[c.k], c.p.snapshot).value;
    PendingSurvives(s.nets[c.k], n, c.name, c.idx, c.cfg);
    CommitKeeps(n, c.name, c.idx, c.cfg);
    CommittedIs(s.nets[c.k], n, c.name, c.idx, c.cfg);
    assert Step(s, e).nets[k] == Committed(n, c.name, c.idx, c.cfg);
  }

  lemma CommittedIs(net: Net, n: Net, name: string, idx: nat, cfg: NodeConfig)
    requires OnlyAddresses(net, n) && RestartPending(n, name, idx, cfg)
    ensures idx < |n.cfgs| && n.cfgs == net.cfgs && net.cfgs[idx].name == name && name in n.infos
    ensures var m := Committed(n, name, idx, cfg);
      && m.cfgs == net.cfgs[idx := cfg] && m.stale == net.stale - {name} && m.infos == n.infos
      && SameNode(net.cfgs[idx], cfg) && FieldsKept(net, m)
  {
    hide Config.RestartText;
  }

  // The network that a pass writes to, with a restart's new configuration.
  lemma PassWrites(s: State, id: nat)
    requires Paired(s) && InRange(s) && Enabled(s, PassApply(id)) && Step(s, PassApply(id)).panic.None?
    requires CallInRange(s, s.calls[id])
    ensures var c := s.calls[id]; var t := Step(s, PassApply(id));
      && c.k < |s.nets| && Refresh(s.nets[c.k], c.p.snapshot).Done?
      && var n := Refresh(s.nets[c.k], c.p.snapshot).value;
         && (!c.RestartPass? ==> t.nets == s.nets[c.k := n])
         && (c.RestartPass? ==> c.idx < |n.cfgs| && t.nets == s.nets[c.k := Committed(n, c.name, c.idx, c.cfg)])
  {
    hide InRange, Refresh, RestartPending;
    var c := s.calls[id];
    if c.RestartPass? {
      RefreshLeaves(s.nets[c.k], c.p.snapshot);
      PendingIndex(s.nets[c.k], c.name, c.idx, c.cfg);
    }
  }

  lemma PendingIndex(net: Net, name: string, idx: nat, cfg: NodeConfig)
    requires RestartPending(net, name, idx, cfg)
    ensures idx < |net.cfgs|
  {
  }

  lemma SameFields(net: Net)
    ensures FieldsKept(net, net)
  {
  }

  lemma RefreshLeaves(net: Net, snapshot: map<string, LiveNode>)
    ensures Refresh(net, snapshot).Done? ==>
              var n := Refresh(net, snapshot).value; n.cfgs == net.cfgs && n.stale == net.stale && FieldsKept(net, n)
  {
  }

  lemma PassMoves(s: State, e: Event, k: nat)
    requires Inv(s) && Enabled(s, e) && k < |s.nets| && e.PassApply? && !Commits(s, e, k)
    ensures Moved(s, e, k)
  {
    hide WellFormed, View, WatcherInRange, RestartPending, Refresh, Committed, FieldsKept;
    if Step(s, e).panic.None? {
      var c := s.calls[e.id];
      assert CallInRange(s, c);
      PassWrites(s, e.id);
      RefreshLeaves(s.nets[c.k], c.p.snapshot);
      SameFields(s.nets[k]);
      hide Step, InRange;
    }
  }

  lemma StarterMoves(s: State, e: Event, k: nat)
    requires Inv(s) && Enabled(s, e) && k < |s.nets| && e.Starter?
    ensures Moved(s, e, k)
  {
    hide WellFormed, View, CallInRange, WatcherInRange, Step;
    StarterFrame(s, e);
  }

  lemma RemoveMoves(s: State, e: Event, k: nat)
    requires Inv(s) && Enabled(s, e) && k < |s.nets| && e.RemoveBody?
    ensures Moved(s, e, k)
  {
    hide WellFormed, View, CallInRange, WatcherInRange, Enumerates, Moved, RemoveLocked;
    if s.network.Some? {
      RemoveLeaves(s.nets[s.network.value], s.calls[e.id].name, e.r, e.order);
    }
    assert |Step(s, e).nets| == |s.nets|;
    assert Step(s, e).nets[k].cfgs == s.nets[k].cfgs && Step(s, e).nets[k].stale == s.nets[k].stale;
    SameSettings(s, e, k);
  }

  lemma RemoveLeaves(net: Net, name: string, r: LibResult, order: seq<string>)
    ensures var o := RemoveLocked(net, name, r, order);
      o.Done? ==> o.value.net.cfgs == net.cfgs && o.value.net.stale == net.stale && FieldsKept(net, o.value.net)
  {
  }

  lemma StopMoves(s: State, e: Event, k: nat)
    requires Inv(s) && Enabled(s, e) && k < |s.nets| && (e.StopBegin? || e.StopLibrary? || e.StopFinish?)
    ensures Moved(s, e, k)
  {
    hide WellFormed, View, WatcherInRange, RestartPending, Moved, CloseStop, LibraryStopped;
    assert CallInRange(s, s.calls[e.id]);
    if e.StopBegin? && s.network.Some? {
      StoppingLeaves(s.nets[s.network.value], {});
    } else if e.StopLibrary? {
      StoppingLeaves(s.nets[s.calls[e.id].k], e.left);
    }
    assert |Step(s, e).nets| == |s.nets|;
    assert Step(s, e).nets[k].cfgs == s.nets[k].cfgs && Step(s, e).nets[k].stale == s.nets[k].stale;
    SameSettings(s, e, k);
  }

  lemma StoppingLeaves(net: Net, left: set<string>)
    ensures CloseStop(net).Done? ==>
              var n := CloseStop(net).value; n.cfgs == net.cfgs && n.stale == net.stale && n.infos == net.infos
    ensures LibraryStopped(net, left).Done? ==>
              var n := LibraryStopped(net, left).value;
              n.cfgs == net.cfgs && n.stale == net.stale && n.infos == net.infos
  {
  }

  lemma SameSettings(s: State, e: Event, k: nat)
    requires Paired(s) && InRange(s) && Enabled(s, e) && k < |s.nets| == |Step(s, e).nets|
    requires Step(s, e).nets[k].cfgs == s.nets[k].cfgs && Step(s, e).nets[k].stale == s.nets[k].stale
    requires FieldsKept(s.nets[k], Step(s, e).nets[k])
    requires !e.PassApply? && !e.RestartBody?
    ensures Moved(s, e, k)
  {
    hide Step, Enabled, InRange;
  }

  lemma AddMoves(s: State, e: Event, k: nat)
    requires Inv(s) && Enabled(s, e) && k < |s.nets| && e.RestartAdd?
    ensures Moved(s, e, k)
  {
    hide WellFormed, View, WatcherInRange, RestartPending, Agrees, SameNode;
    assert CallInRange(s, s.calls[e.id]);
  }

  lemma BodyMoves(s: State, e: Event, k: nat)
    requires Inv(s) && Enabled(s, e) && k < |s.nets| && (e.StartBody? || e.HealthBody?)
    ensures Moved(s, e, k)
  {
    hide WellFormed, View, WatcherInRange, CallInRange, Enumerates, InitialNet;
  }

  lemma QuietMoves(s: State, e: Event, k: nat)
    requires Inv(s) && Enabled(s, e) && k < |s.nets|
    requires e.Arrive? || e.AbortStart? || e.HealthBegin? || e.PassFail? || e.PassSee?
             || e.WatchArm? || e.WatchExit? || e.WatchReady? || e.WatchPublish? || e.CloseServer?
    ensures Moved(s, e, k)
  {
    hide WellFormed, View, WatcherInRange, CallInRange, Moved;
    assert Step(s, e).nets == s.nets;
    SameSettings(s, e, k);
  }

  // A restart that passes its lookups marks its node; only the end of a
  // successful one changes a configuration, that node's, and unmarks it. No
  // other step touches either.
  lemma SettingsStep(s: State, e: Event, k: nat)
    requires Inv(s) && Enabled(s, e) && k < |s.nets|
    ensures Moved(s, e, k)
  {
    hide WellFormed, View, CallInRange, WatcherInRange, Moved, Commits, Step;
    StepKeeps(s, e);
    StepFrame(s, e, k);
    if e.RestartBody? {
      RestartBodyMoves(s, e, k);
    } else if e.PassApply? {
      if Commits(s, e, k) {
        CommitMoves(s, e, k);
      } else {
        PassMoves(s, e, k);
      }
    } else if e.Starter? {
      StarterMoves(s, e, k);
    } else if e.RemoveBody? {
      RemoveMoves(s, e, k);
    } else if e.RestartAdd? {
      AddMoves(s, e, k);
    } else if e.StopBegin? || e.StopLibrary? || e.StopFinish? {
      StopMoves(s, e, k);
    } else if e.StartBody? || e.HealthBody? {
      BodyMoves(s, e, k);
    } else {
      QuietMoves(s, e, k);
    }
  }

  lemma NodesLocal(s: State, k: nat, i: nat)
    requires Inv(s) && s.panic.None? && k < |s.nets| && i < |s.nets[k].cfgs|
    ensures s.nets[k].cfgs[i].impl.Local? && s.nets[k].cfgs[i].name == NodeName(i)
    ensures SameNode(s.nets[k].cfgs[i], s.nets[k].cfgs[i])
  {
    hide InfosOk, Agreement, Filled, ChannelsOk, KeepsDirs, NodeName, View, CallInRange;
  }

  // Whatever happens in between, a network keeps its root, its number of
  // configurations and, in each, everything but the file and the binary path.
  lemma {:induction false} SettingsSurvive(s: State, es: seq<Event>, k: nat, i: nat)
    requires Inv(s) && s.panic.None? && IsRun(s, es) && k < |s.nets| && i < |s.nets[k].cfgs|
    ensures var t := Exec(s, es);
      && k < |t.nets| && t.nets[k].root == s.nets[k].root && |t.nets[k].cfgs| == |s.nets[k].cfgs|
      && (t.panic.None? ==> SameNode(s.nets[k].cfgs[i], t.nets[k].cfgs[i]))
    decreases |es|
  {
    hide WellFormed, Views, InRange, Enabled, Step, SettingsMoved, Moved, SameNode;
    NodesLocal(s, k, i);
    if es != [] {
      StepKeeps(s, es[0]);
      StepFrame(s, es[0], k);
      var t := Step(s, es[0]);
      if t.panic.None? {
        SettingsStep(s, es[0], k);
        OneStepSame(s, es[0], k, i);
        SettingsSurvive(t, es[1..], k, i);
        SameNodeTwice(s.nets[k].cfgs[i], t.nets[k].cfgs[i], Exec(s, es).nets[k].cfgs[i], Exec(s, es).panic.None?);
      } else {
        PanicEnds(t, es[1..]);
      }
    }
  }

  lemma OneStepSame(s: State, e: Event, k: nat, i: nat)
    requires Paired(s) && InRange(s) && Enabled(s, e) && k < |s.nets| && i < |s.nets[k].cfgs|
    requires SameNode(s.nets[k].cfgs[i], s.nets[k].cfgs[i])
    requires Moved(s, e, k) && Step(s, e).panic.None?
    ensures k < |Step(s, e).nets|
    ensures |Step(s, e).nets[k].cfgs| == |s.nets[k].cfgs| && SameNode(s.nets[k].cfgs[i], Step(s, e).nets[k].cfgs[i])
  {
    hide Step, Agrees, InRange;
  }

  lemma SameNodeTwice(a: NodeConfig, b: NodeConfig, c: NodeConfig, known: bool)
    requires SameNode(a, b) && (known ==> SameNode(b, c))
    ensures known ==> SameNode(a, c)
  {
  }

  // In every run and for every network, each node's log and db directory, in
  // its info and in its current configuration file, are those newNetwork
  // assigned, and a node in step has one set of settings in both.
  lemma DirectoriesSurvive(es: seq<Event>, k: nat, i: nat)
    requires Inv(INIT) && IsRun(INIT, es)
    requires var s := Exec(INIT, es); s.panic.None? && k < |s.nets| && i < |s.nets[k].cfgs|
    ensures var net := Exec(INIT, es).nets[k]; var name := NodeName(i);
      var logDir, dbDir := LogDir(net.root, name), DbDir(net.root, name);
      && net.cfgs[i].name == name
      && (exists level, subnets :: net.cfgs[i].configFile == Config.ConfigText(level, logDir, dbDir, subnets))
      && (name in net.infos ==>
            && net.infos[name].logDir == logDir && net.infos[name].dbDir == dbDir
            && (name !in net.stale ==>
                  && net.cfgs[i].impl.Local? && net.cfgs[i].impl.binaryPath == net.infos[name].execPath
                  && exists level ::
                       net.cfgs[i].configFile == Config.ConfigText(level, logDir, dbDir, net.infos[name].subnets)))
  {
    hide NodeName, LogDir, DbDir, Config.ConfigText, Filled, ChannelsOk, View, CallInRange;
    var s := Exec(INIT, es);
    var net := s.nets[k];
    assert WellFormed(net);
    assert KeepsDirs(net.cfgs[i].configFile, LogDir(net.root, NodeName(i)), DbDir(net.root, NodeName(i)));
    if NodeName(i) in net.infos && NodeName(i) !in net.stale {
      assert Agrees(net.infos[net.cfgs[i].name], net.cfgs[i]);
    }
  }

  // ----- the published view -----

  // The steps that publish both names and infos of the current network.
  predicate PublishesAll(s: State, e: Event) {
    || e.HealthBody? || e.WatchPublish?
    || (e.RemoveBody? && e.r.LibOk? && e.id in s.calls && s.calls[e.id].WantRemove?
        && s.network.Some? && s.network.value < |s.nets| && s.calls[e.id].name in s.nets[s.network.value].infos)
  }

  // A publication shows the current network's names, just listed, and its own
  // map; a finished restart shows the map only; every other step leaves both alone.
  ghost predicate ViewMoved(s: State, e: Event, k: nat, t: State)
    requires k < |s.clusters|
  {
    && k < |t.clusters| && k < |t.nets| && t.clusters[k].root == s.clusters[k].root
    && if PublishesAll(s, e) && s.network == Some(k) then
         && t.clusters[k].names == Some(t.nets[k].nodeNames) && t.clusters[k].infosOf == Some(k)
         && (e.WatchPublish? ==> t.clusters[k].healthy)
       else
         && t.clusters[k].names == s.clusters[k].names
         && t.clusters[k].infosOf == if Commits(s, e, k) then Some(k) else s.clusters[k].infosOf
  }

  lemma HolderViews(s: State, e: Event, k: nat)
    requires Inv(s) && Enabled(s, e) && k < |s.clusters| && (e.RestartAdd? || e.StopLibrary?)
    ensures Step(s, e).panic.None? ==> ViewMoved(s, e, k, Step(s, e))
  {
    hide WellFormed, View, WatcherInRange, RestartPending, ViewMoved, NodeAdded, LibraryStopped;
    assert CallInRange(s, s.calls[e.id]);
    assert Step(s, e).clusters == s.clusters;
    SameViews(s, e, k);
  }

  lemma StopBeginViews(s: State, e: Event, k: nat)
    requires Inv(s) && Enabled(s, e) && k < |s.clusters| && e.StopBegin?
    ensures Step(s, e).panic.None? ==> ViewMoved(s, e, k, Step(s, e))
  {
    hide WellFormed, View, WatcherInRange, RestartPending, CloseStop, ViewMoved;
    assert CallInRange(s, s.calls[e.id]);
    if Step(s, e).panic.None? {
      NetFacts(s.nets[s.network.value]);
      assert Step(s, e).clusters == s.clusters && |Step(s, e).nets| == |s.nets|;
      SameViews(s, e, k);
    }
  }

  lemma FinishViews(s: State, e: Event, k: nat)
    requires Inv(s) && Enabled(s, e) && k < |s.clusters| && e.StopFinish?
    ensures Step(s, e).panic.None? ==> ViewMoved(s, e, k, Step(s, e))
  {
    hide WellFormed, View, WatcherInRange, RestartPending;
    assert CallInRange(s, s.calls[e.id]);
  }

  lemma PassViews(s: State, e: Event, k: nat)
    requires Inv(s) && Enabled(s, e) && k < |s.clusters| && e.PassApply?
    ensures Step(s, e).panic.None? ==> ViewMoved(s, e, k, Step(s, e))
  {
    hide WellFormed, View, WatcherInRange, RestartPending, Refresh, Committed;
    assert CallInRange(s, s.calls[e.id]);
    if Step(s, e).panic.None? {
      PassClusters(s, e.id);
      hide Step, CallInRange, InRange;
    }
  }

  // A pass shows nothing, but for a restart's last one, which shows the map.
  lemma PassClusters(s: State, id: nat)
    requires Paired(s) && InRange(s) && Enabled(s, PassApply(id)) && Step(s, PassApply(id)).panic.None?
    requires CallInRange(s, s.calls[id])
    ensures var c := s.calls[id]; var t := Step(s, PassApply(id));
      && |t.nets| == |s.nets| && c.k < |s.clusters|
      && t.clusters == if c.RestartPass? then s.clusters[c.k := s.clusters[c.k].(infosOf := Some(c.k))] else s.clusters
  {
    hide InRange, Refresh, RestartPending, Committed;
  }

  lemma BodyViews(s: State, e: Event, k: nat)
    requires Inv(s) && Enabled(s, e) && k < |s.clusters| && (e.StartBody? || e.HealthBody?)
    ensures Step(s, e).panic.None? ==> ViewMoved(s, e, k, Step(s, e))
  {
    hide WellFormed, View, WatcherInRange, CallInRange, Enumerates, InitialNet;
  }

  lemma RemoveViews(s: State, e: Event, k: nat)
    requires Inv(s) && Enabled(s, e) && k < |s.clusters| && e.RemoveBody?
    ensures Step(s, e).panic.None? ==> ViewMoved(s, e, k, Step(s, e))
  {
    hide WellFormed, View, WatcherInRange, CallInRange, Enumerates;
  }

  lemma SlotViews(s: State, e: Event, k: nat)
    requires Inv(s) && Enabled(s, e) && k < |s.clusters| && (e.RestartBody? || e.Starter?)
    ensures Step(s, e).panic.None? ==> ViewMoved(s, e, k, Step(s, e))
  {
    hide WellFormed, View, WatcherInRange, CallInRange, RestartLocked, StartMoved, CanMove, ViewMoved;
    assert Step(s, e).clusters == s.clusters && |Step(s, e).nets| == |s.nets|;
    SameViews(s, e, k);
  }

  lemma WatchViews(s: State, e: Event, k: nat)
    requires Inv(s) && Enabled(s, e) && k < |s.clusters| && e.WatchPublish?
    ensures Step(s, e).panic.None? ==> ViewMoved(s, e, k, Step(s, e))
  {
    hide WellFormed, View, WatcherInRange, CallInRange;
  }

  lemma QuietViews(s: State, e: Event, k: nat)
    requires Inv(s) && Enabled(s, e) && k < |s.clusters|
    requires e.Arrive? || e.AbortStart? || e.HealthBegin? || e.PassFail? || e.PassSee?
             || e.WatchArm? || e.WatchExit? || e.WatchReady? || e.CloseServer?
    ensures Step(s, e).panic.None? ==> ViewMoved(s, e, k, Step(s, e))
  {
    hide WellFormed, View, WatcherInRange, CallInRange, ViewMoved;
    assert Step(s, e).clusters == s.clusters && Step(s, e).nets == s.nets;
    SameViews(s, e, k);
  }

  lemma SameViews(s: State, e: Event, k: nat)
    requires Paired(s) && InRange(s) && Enabled(s, e) && k < |s.clusters|
    requires Step(s, e).clusters == s.clusters && |Step(s, e).nets| == |s.nets|
    requires !PublishesAll(s, e) && !e.PassApply?
    ensures ViewMoved(s, e, k, Step(s, e))
  {
    hide Step, Enabled, InRange;
  }

  // What each step makes of what a cluster has published; the names that are
  // published list the infos once each.
  lemma PublishStep(s: State, e: Event, k: nat)
    requires Inv(s) && Enabled(s, e) && k < |s.clusters|
    ensures var t := Step(s, e); t.panic.None? ==>
      && ViewMoved(s, e, k, t)
      && Enumerates(t.nets[k].nodeNames, t.nets[k].infos.Keys)
  {
    hide WellFormed, View, CallInRange, WatcherInRange, ViewMoved, Step, Enumerates;
    StepKeeps(s, e);
    if e.RestartAdd? || e.StopLibrary? {
      HolderViews(s, e, k);
    } else if e.StopBegin? {
      StopBeginViews(s, e, k);
    } else if e.StopFinish? {
      FinishViews(s, e, k);
    } else if e.PassApply? {
      PassViews(s, e, k);
    } else if e.StartBody? || e.HealthBody? {
      BodyViews(s, e, k);
    } else if e.RemoveBody? {
      RemoveViews(s, e, k);
    } else if e.RestartBody? || e.Starter? {
      SlotViews(s, e, k);
    } else if e.WatchPublish? {
      WatchViews(s, e, k);
    } else {
      QuietViews(s, e, k);
    }
    if Step(s, e).panic.None? {
      NamesListed(Step(s, e), k);
    }
  }

  lemma NamesListed(t: State, k: nat)
    requires Inv(t) && t.panic.None?
    ensures k < |t.nets| ==> Enumerates(t.nets[k].nodeNames, t.nets[k].infos.Keys)
  {
    hide ConfigsOk, InfosOk, Agreement, Filled, Enumerates;
  }
}
