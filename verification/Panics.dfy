// Which steps panic, and a discipline of the client under which none does.
module Panics {
  import opened Basics
  import opened Registry
  import opened Lifecycle
  import opened Runs
  import Config

  // ----- exactly when a step panics -----

  function Current(s: State): Net
    requires s.network.Some? && s.network.value < |s.nets|
  {
    s.nets[s.network.value]
  }

  // The slot is empty, or the library's network is not there yet.
  predicate NoLibrary(s: State) {
    s.network.Some? && s.network.value < |s.nets| ==> Current(s).nw.None?
  }

  ghost predicate Fragile(s: State, e: Event) {
    match e
    // the node list of the library's default configuration outgrows the colours
    case StartBody(_, defaults, loggerOk) => s.network.None? && loggerOk && |defaults| > |COLORS|
    // a Stop came between the pre-check and the lock, or nothing is created yet
    case HealthBegin(_) => s.network.None? || NoLibrary(s)
    case HealthBody(_, _) => s.network.None?
    case RemoveBody(id, _, _) =>
      s.network.None? || (s.network.value < |s.nets| && id in s.calls && s.calls[id].WantRemove?
                          && s.calls[id].name in Current(s).infos && NoLibrary(s))
    case RestartBody(id, _) =>
      s.network.None? || (s.network.value < |s.nets| && id in s.calls && s.calls[id].WantRestart?
                          && s.calls[id].name in Current(s).infos
                          && (NoLibrary(s) || s.calls[id].start.None? || s.calls[id].start.value.subnets.None?))
    case StopBegin(_) => s.network.None?
    case StopLibrary(_, _) => NoLibrary(s)
    // an unlocked pass saw a node that has been removed since
    case PassApply(id) =>
      id in s.calls && s.calls[id].HealthPass? && s.calls[id].p.Seen? && s.calls[id].k < |s.nets|
      && !(s.calls[id].p.snapshot.Keys <= s.nets[s.calls[id].k].infos.Keys)
    case Starter(k, m) =>
      m.Apply? && k < |s.nets| && s.nets[k].pc.Refreshing?
      && !(s.nets[k].pc.snapshot.Keys <= s.nets[k].infos.Keys)
    // the watcher looks at the slot after a Stop emptied it
    case WatchArm(_) => s.network.None?
    case WatchPublish(_) => s.network.None?
    case _ => false
  }

  lemma BodyPanics(s: State, e: Event)
    requires Inv(s) && Enabled(s, e) && (e.RemoveBody? || e.RestartBody?)
    ensures Step(s, e).panic.Some? <==> Fragile(s, e)
  {
    hide WellFormed, View, WatcherInRange, CallInRange, RemoveLocked, RestartLocked, Enumerates;
    if s.network.Some? {
      if e.RemoveBody? {
        RemoveKeeps(Current(s), s.calls[e.id].name, e.r, e.order);
      } else {
        RestartKeeps(Current(s), s.calls[e.id].name, s.calls[e.id].start, e.r);
      }
    }
  }

  lemma PassPanics(s: State, e: Event)
    requires Inv(s) && Enabled(s, e) && (e.PassApply? || e.Starter?)
    ensures Step(s, e).panic.Some? <==> Fragile(s, e)
  {
    hide WellFormed, View, WatcherInRange, Refresh, StartMoved, RestartPending;
    if e.PassApply? {
      assert CallInRange(s, s.calls[e.id]);
      PassApplyKeeps(s, e.id);
      hide OnPassApply;
    } else {
      StartMoveKeeps(s.nets[e.k], e.m);
    }
  }

  lemma StopPanics(s: State, e: Event)
    requires Inv(s) && Enabled(s, e) && (e.StopBegin? || e.StopLibrary?)
    ensures Step(s, e).panic.Some? <==> Fragile(s, e)
  {
    hide WellFormed, View, WatcherInRange, OnStopBegin, OnStopLibrary;
    assert CallInRange(s, s.calls[e.id]);
    if e.StopBegin? {
      StopBeginKeeps(s, e.id);
    } else {
      StopLibraryKeeps(s, e.id, e.left);
    }
  }

  // The steps that panic, and no others: a pass that holds the lock, a restart
  // adding its node back, a finishing Stop and closing a channel never do.
  lemma PanicsExactlyWhen(s: State, e: Event)
    requires Inv(s) && Enabled(s, e)
    ensures Step(s, e).panic.Some? <==> Fragile(s, e)
    ensures Step(s, e).panic != Some(DoubleClose)
  {
    hide WellFormed, View, WatcherInRange, CallInRange;
    StepKeeps(s, e);
    if e.RemoveBody? || e.RestartBody? {
      BodyPanics(s, e);
    } else if e.PassApply? || e.Starter? {
      PassPanics(s, e);
    } else if e.StopBegin? || e.StopLibrary? {
      StopPanics(s, e);
    }
  }

  // ----- a client under which nothing panics -----

  // One call at a time, nothing but a Start until the cluster says Healthy,
  // complete restart requests, and a default configuration within the colours.
  ghost predicate Disciplined(s: State, e: Event) {
    match e
    case Arrive(_, req) =>
      && s.calls == map[]
      && (req.StartReq? || s.network.None? || (s.network.value < |s.clusters| && s.clusters[s.network.value].healthy))
      && (req.RestartReq? ==> req.start.Some? && req.start.value.subnets.Some?)
    case StartBody(_, defaults, _) => |defaults| <= |COLORS|
    case _ => true
  }

  // What the discipline keeps, besides the invariant.
  ghost predicate Calm(s: State) {
    && (forall x, y :: x in s.calls && y in s.calls ==> x == y)
    && (forall w :: 0 <= w < |s.watchers| ==> CalmWatcher(s, w))
    && (forall x :: x in s.calls ==> CalmCall(s, s.calls[x]))
    && CalmStart(s)
  }

  // A watcher looks at its own network, and is gone when that is not current
  // or already healthy.
  ghost predicate CalmWatcher(s: State, w: int) {
    0 <= w < |s.watchers| && w < |s.clusters| ==>
    match s.watchers[w]
    case Gone => true
    case Armed => s.network == Some(w) && !s.clusters[w].healthy
    case Watching(k) => s.network == Some(w) && k == w && !s.clusters[w].healthy
    case Firing(k) => s.network == Some(w) && k == w && !s.clusters[w].healthy
  }

  ghost predicate IsHealthy(s: State) {
    s.network.Some? && s.network.value < |s.clusters| && s.clusters[s.network.value].healthy
  }

  ghost predicate CalmCall(s: State, c: Call) {
    match c
    case WantStart(_) => s.network.None?
    case HealthPass(k, p) =>
      IsHealthy(s) && s.network == Some(k) && k < |s.nets| && (p.Seen? ==> p.snapshot.Keys <= s.nets[k].infos.Keys)
    case WantRestart(_, start) => IsHealthy(s) && start.Some? && start.value.subnets.Some?
    case WantStop(info) => IsHealthy(s) && s.network == Some(info)
    case StopClosing(k, info) => IsHealthy(s) && info == k
    case StopWaiting(k, info) => IsHealthy(s) && info == k
    case _ => IsHealthy(s)
  }

  // The cluster turns healthy only after start() has finished its pass.
  ghost predicate CalmStart(s: State) {
    s.network.Some? && s.network.value < |s.nets| == |s.clusters| ==>
      var net := s.nets[s.network.value];
      && (s.clusters[s.network.value].healthy ==> net.readyc)
      && (net.readyc ==> net.pc.Closing? || net.pc.Exited?)
      && (net.pc.Refreshing? ==> net.pc.snapshot.Keys <= net.infos.Keys)
  }

  lemma HealthyHasLibrary(s: State)
    requires Core(s) && CalmStart(s) && IsHealthy(s)
    ensures s.network.value < |s.nets| && Current(s).nw.Some?
    ensures Current(s).pc.Closing? || Current(s).pc.Exited?
  {
    hide ConfigsOk, InfosOk, Agreement, Filled, View, CallInRange;
  }

  // Under the discipline no step meets a panic condition.
  lemma CalmIsNotFragile(s: State, e: Event)
    requires Inv(s) && Calm(s) && Enabled(s, e) && Disciplined(s, e)
    ensures !Fragile(s, e)
  {
    hide WellFormed, View;
    if IsHealthy(s) {
      HealthyHasLibrary(s);
    }
    match e
    case WatchArm(w) => assert CalmWatcher(s, w);
    case WatchPublish(w) => assert CalmWatcher(s, w);
    case HealthBegin(id) => assert CalmCall(s, s.calls[id]);
    case HealthBody(id, _) => assert CalmCall(s, s.calls[id]);
    case RemoveBody(id, _, _) => assert CalmCall(s, s.calls[id]);
    case RestartBody(id, _) => assert CalmCall(s, s.calls[id]);
    case PassApply(id) => assert CalmCall(s, s.calls[id]);
    case StopBegin(id) => assert CalmCall(s, s.calls[id]);
    case StopLibrary(id, _) => assert CalmCall(s, s.calls[id]) && CallInRange(s, s.calls[id]);
    case _ =>
  }

  // ----- the discipline keeps the calm -----

  // The watchers and start() of a step that is neither theirs nor a pointer's.
  lemma CalmRest(s: State, t: State)
    requires Paired(s) && Paired(t) && Calm(s) && Quiet(s, t) && NetsSteady(s, t) && t.watchers == s.watchers
    requires s.network.Some? && IsHealthy(s)
    ensures IsHealthy(t) && CalmStart(t) && forall w :: 0 <= w < |t.watchers| ==> CalmWatcher(t, w)
  {
    forall w | 0 <= w < |t.watchers| ensures CalmWatcher(t, w) {
      assert CalmWatcher(s, w);
    }
  }

  lemma CalmArrive(s: State, e: Event)
    requires Inv(s) && Calm(s) && Enabled(s, e) && Disciplined(s, e) && e.Arrive?
    ensures Calm(Step(s, e))
  {
    hide WellFormed, View, CallInRange, WatcherInRange;
    var t := Step(s, e);
    forall w | 0 <= w < |t.watchers| ensures CalmWatcher(t, w) {
      assert CalmWatcher(s, w);
    }
  }

  // A step that only moves one call on.
  lemma CalmCallMoves(s: State, t: State, id: nat)
    requires Calm(s) && id in s.calls
    requires t == s.(mu := t.mu, calls := t.calls) && t.calls.Keys <= s.calls.Keys
    requires id in t.calls ==> CalmCall(t, t.calls[id])
    ensures Calm(t)
  {
    forall w | 0 <= w < |t.watchers| ensures CalmWatcher(t, w) {
      assert CalmWatcher(s, w);
    }
  }

  lemma CalmLocal(s: State, e: Event)
    requires Inv(s) && Calm(s) && Enabled(s, e) && !Fragile(s, e)
    requires e.AbortStart? || e.HealthBegin? || e.PassFail? || e.PassSee?
    ensures Calm(Step(s, e))
  {
    hide WellFormed, View, RestartPending, WatcherInRange, CalmWatcher, CalmStart;
    assert CalmCall(s, s.calls[e.id]);
    assert CallInRange(s, s.calls[e.id]);
    if e.PassSee? {
      NetFacts(s.nets[s.calls[e.id].k]);
    }
    hide Calm, Core;
    CalmCallMoves(s, Step(s, e), e.id);
  }

  // A step of a call on a healthy cluster that stays current.
  lemma CalmAfter(s: State, t: State, id: nat)
    requires Paired(s) && Paired(t) && Calm(s) && Quiet(s, t) && NetsSteady(s, t) && t.watchers == s.watchers
    requires IsHealthy(s) && id in s.calls && t.calls.Keys <= s.calls.Keys
    requires id in t.calls ==> IsHealthy(t) ==> CalmCall(t, t.calls[id])
    ensures Calm(t)
  {
    hide CalmCall, CalmStart, CalmWatcher;
    CalmRest(s, t);
  }

  lemma CalmBody(s: State, e: Event)
    requires Inv(s) && Calm(s) && Enabled(s, e) && !Fragile(s, e)
    requires e.HealthBody? || e.RemoveBody? || e.RestartBody? || e.RestartAdd?
    ensures Calm(Step(s, e))
  {
    hide WellFormed, View, Fragile, CallInRange, WatcherInRange, RemoveLocked, RestartLocked, NodeAdded, CalmStart,
      CalmWatcher, Enumerates;
    StepKeeps(s, e);
    PanicsExactlyWhen(s, e);
    assert CalmCall(s, s.calls[e.id]);
    hide Quiet, NetsSteady, Calm;
    CalmAfter(s, Step(s, e), e.id);
  }

  lemma CalmApply(s: State, e: Event)
    requires Inv(s) && Calm(s) && Enabled(s, e) && !Fragile(s, e) && e.PassApply?
    ensures Calm(Step(s, e))
  {
    hide WellFormed, View, Fragile, InRange, Refresh, Committed, CalmStart, CalmWatcher;
    StepKeeps(s, e);
    PanicsExactlyWhen(s, e);
    assert CalmCall(s, s.calls[e.id]);
    PassReplies(s, e.id);
    hide Quiet, NetsSteady, Calm, Inv, Step;
    CalmAfter(s, Step(s, e), e.id);
  }

  // A pass ends its call, or leaves it to publish.
  lemma PassReplies(s: State, id: nat)
    requires Paired(s) && InRange(s) && Enabled(s, PassApply(id)) && Step(s, PassApply(id)).panic.None?
    ensures var t := Step(s, PassApply(id));
      t.watchers == s.watchers && t.calls.Keys <= s.calls.Keys && (id in t.calls ==> t.calls[id] == WantPublish)
  {
    hide InRange, Refresh, Committed;
  }

  lemma CalmStopBegin(s: State, e: Event)
    requires Inv(s) && Calm(s) && Enabled(s, e) && !Fragile(s, e) && e.StopBegin?
    ensures Calm(Step(s, e))
  {
    hide WellFormed, View, Fragile, CallInRange, WatcherInRange, CloseStop, CalmStart, CalmWatcher;
    StepKeeps(s, e);
    PanicsExactlyWhen(s, e);
    assert CalmCall(s, s.calls[e.id]);
    hide Quiet, NetsSteady, Calm, Inv;
    CalmAfter(s, Step(s, e), e.id);
  }

  lemma CalmStopLibrary(s: State, e: Event)
    requires Inv(s) && Calm(s) && Enabled(s, e) && !Fragile(s, e) && e.StopLibrary?
    ensures Calm(Step(s, e))
  {
    hide WellFormed, View, Fragile, CallInRange, WatcherInRange, LibraryStopped, CalmStart, CalmWatcher;
    StepKeeps(s, e);
    PanicsExactlyWhen(s, e);
    assert CalmCall(s, s.calls[e.id]);
    hide Quiet, NetsSteady, Calm, Inv;
    CalmAfter(s, Step(s, e), e.id);
  }

  lemma CalmSlot(s: State, e: Event)
    requires Inv(s) && Calm(s) && Enabled(s, e) && Disciplined(s, e) && !Fragile(s, e)
    requires e.StartBody? || e.StopFinish?
    ensures Calm(Step(s, e))
  {
    hide WellFormed, View, RestartPending, Fragile, WatcherInRange;
    var t := Step(s, e);
    assert CalmCall(s, s.calls[e.id]) && CallInRange(s, s.calls[e.id]);
    forall w | 0 <= w < |t.watchers| ensures CalmWatcher(t, w) {
      if w < |s.watchers| {
        assert CalmWatcher(s, w);
      }
    }
  }

  lemma CalmWatch(s: State, e: Event)
    requires Inv(s) && Calm(s) && Enabled(s, e) && !Fragile(s, e)
    requires e.WatchArm? || e.WatchExit? || e.WatchReady? || e.CloseServer?
    ensures Calm(Step(s, e))
  {
    hide WellFormed, View, CallInRange, WatcherInRange;
    var t := Step(s, e);
    if !e.CloseServer? {
      assert CalmWatcher(s, e.w);
    }
    forall w | 0 <= w < |t.watchers| ensures CalmWatcher(t, w) {
      assert CalmWatcher(s, w);
    }
    forall x | x in t.calls ensures CalmCall(t, t.calls[x]) {
      assert CalmCall(s, s.calls[x]);
    }
  }

  lemma CalmPublish(s: State, e: Event)
    requires Inv(s) && Calm(s) && Enabled(s, e) && !Fragile(s, e) && e.WatchPublish?
    ensures Calm(Step(s, e))
  {
    hide WellFormed, View, CallInRange;
    var t := Step(s, e);
    assert CalmWatcher(s, e.w) && WatcherInRange(s, s.watchers[e.w]);
    hide WatcherInRange;
    forall w | 0 <= w < |t.watchers| ensures CalmWatcher(t, w) {
      assert CalmWatcher(s, w);
    }
  }

  lemma ReadyClosed(net: Net, m: StartMove)
    requires WellFormed(net) && CanMove(net, m) && StartMoved(net, m).Done?
    ensures var n := StartMoved(net, m).value;
      && (n.pc.Refreshing? ==> n.pc.snapshot.Keys <= n.infos.Keys)
      && (n.readyc && !net.readyc ==> n.pc.Closing?)
      && (net.pc.Closing? ==> n.pc.Exited?)
  {
    hide ConfigsOk, InfosOk, Agreement, Filled, Refresh;
    if m.Apply? {
      RefreshKeeps(net, net.pc.snapshot);
    }
  }

  lemma CalmMove(s: State, e: Event)
    requires Inv(s) && Calm(s) && Enabled(s, e) && !Fragile(s, e) && e.Starter?
    ensures Calm(Step(s, e))
  {
    hide WellFormed, View, RestartPending, Fragile, CallInRange, WatcherInRange, StartMoved;
    var t := Step(s, e);
    PanicsExactlyWhen(s, e);
    StartMoveKeeps(s.nets[e.k], e.m);
    ReadyClosed(s.nets[e.k], e.m);
    assert s.network == Some(e.k);
    forall w | 0 <= w < |t.watchers| ensures CalmWatcher(t, w) {
      assert CalmWatcher(s, w);
    }
    forall x | x in t.calls ensures CalmCall(t, t.calls[x]) {
      assert CalmCall(s, s.calls[x]);
    }
  }

  lemma CalmStep(s: State, e: Event)
    requires Inv(s) && Calm(s) && Enabled(s, e) && Disciplined(s, e)
    ensures Step(s, e).panic.None? && Calm(Step(s, e))
  {
    hide Core, Calm, Enabled, Disciplined, Fragile, Step;
    CalmIsNotFragile(s, e);
    PanicsExactlyWhen(s, e);
    match e
    case Arrive(_, _) => CalmArrive(s, e);
    case AbortStart(_) => CalmLocal(s, e);
    case HealthBegin(_) => CalmLocal(s, e);
    case PassFail(_, _) => CalmLocal(s, e);
    case PassSee(_) => CalmLocal(s, e);
    case PassApply(_) => CalmApply(s, e);
    case StartBody(_, _, _) => CalmSlot(s, e);
    case StopFinish(_) => CalmSlot(s, e);
    case StopBegin(_) => CalmStopBegin(s, e);
    case StopLibrary(_, _) => CalmStopLibrary(s, e);
    case Starter(_, _) => CalmMove(s, e);
    case HealthBody(_, _) => CalmBody(s, e);
    case RemoveBody(_, _, _) => CalmBody(s, e);
    case RestartBody(_, _) => CalmBody(s, e);
    case RestartAdd(_, _) => CalmBody(s, e);
    case WatchPublish(_) => CalmPublish(s, e);
    case _ => CalmWatch(s, e);
  }

  ghost predicate AllDisciplined(s: State, es: seq<Event>)
    requires Inv(s) && IsRun(s, es)
    decreases |es|
  {
    es == [] || (Disciplined(s, es[0]) && (StepKeeps(s, es[0]); AllDisciplined(Step(s, es[0]), es[1..])))
  }

  lemma {:induction false} CalmFrom(s: State, es: seq<Event>)
    requires Inv(s) && s.panic.None? && Calm(s) && IsRun(s, es) && AllDisciplined(s, es)
    ensures Exec(s, es).panic.None? && Calm(Exec(s, es))
    decreases |es|
  {
    hide WellFormed, InRange, Views, Step, Calm, Disciplined;
    if es != [] {
      StepKeeps(s, es[0]);
      CalmStep(s, es[0]);
      CalmFrom(Step(s, es[0]), es[1..]);
    }
  }

  lemma CalmIsSafe(s: State)
    requires Core(s) && Calm(s)
    ensures IsHealthy(s) ==> s.network.value < |s.nets| && Current(s).readyc && Current(s).nodes.Some?
    ensures forall id :: id in s.calls && s.calls[id].StopWaiting? ==> s.network == Some(s.calls[id].info)
    ensures forall w :: 0 <= w < |s.watchers| && s.watchers[w].Firing? ==> s.network == Some(s.watchers[w].k)
  {
    hide AllWellFormed, Views, Retired, StopLocked, LockHeld;
    if IsHealthy(s) {
      ReadyNodes(s);
    }
    forall w | 0 <= w < |s.watchers| && s.watchers[w].Firing? ensures s.network == Some(s.watchers[w].k) {
      assert CalmWatcher(s, w);
    }
    forall id | id in s.calls && s.calls[id].StopWaiting? ensures s.network == Some(s.calls[id].info) {
      assert CalmCall(s, s.calls[id]);
      assert CallInRange(s, s.calls[id]);
    }
  }

  lemma ReadyNodes(s: State)
    requires Core(s) && IsHealthy(s) && CalmStart(s)
    ensures s.network.value < |s.nets| && Current(s).readyc && Current(s).nodes.Some?
  {
    hide WellFormed, InRange, Views;
    NetFacts(s.nets[s.network.value]);
  }

  // No run of a disciplined client panics, however the goroutines interleave
  // and whatever the library and the timers do; Healthy is then never a lie,
  // and a Stop always lowers the flag of the cluster it stops.
  lemma DisciplinedRunsAreSafe(es: seq<Event>)
    requires Inv(INIT) && IsRun(INIT, es) && AllDisciplined(INIT, es)
    ensures var s := Exec(INIT, es);
      && s.panic.None?
      && (IsHealthy(s) ==> s.network.value < |s.nets| && Current(s).readyc && Current(s).nodes.Some?)
      && (forall id :: id in s.calls && s.calls[id].StopWaiting? ==> s.network == Some(s.calls[id].info))
      && (forall w :: 0 <= w < |s.watchers| && s.watchers[w].Firing? ==> s.network == Some(s.watchers[w].k))
  {
    assert Calm(INIT);
    hide Calm, Core, IsRun, Exec, AllDisciplined;
    CalmFrom(INIT, es);
    CalmIsSafe(Exec(INIT, es));
  }
}
