// Which address every node shows: over whole runs, that of the library's last
// answer about it that was written down.
module Reports {
  import opened Basics
  import opened Registry
  import opened Lifecycle
  import opened Runs
  import opened Effects
  import opened Watchers
  import opened Uris

  // ----- what the library has reported -----

  // For every network and name the node in the last answer that names it, of
  // those that were written down.
  type Told = seq<map<string, LiveNode>>

  // The answer that this step writes down.
  ghost function Answer(s: State, e: Event, k: nat): map<string, LiveNode>
    requires WritesDown(s, e, k) && Enabled(s, e) && k < |s.nets|
  {
    if e.PassApply? then s.calls[e.id].p.snapshot else s.nets[k].pc.snapshot
  }

  ghost function NowTold(s: State, e: Event, k: nat, told: map<string, LiveNode>): map<string, LiveNode>
    requires Enabled(s, e) && k < |s.nets|
  {
    if WritesDown(s, e, k) then told + Answer(s, e, k) else told
  }

  ghost function Tell(s: State, e: Event, told: Told): Told
    requires Paired(s) && InRange(s) && Enabled(s, e) && |told| == |s.nets|
  {
    if |Step(s, e).nets| > |s.nets| then told + [map[]]
    else seq(|told|, k requires 0 <= k < |told| => NowTold(s, e, k, told[k]))
  }

  ghost function Telling(s: State, es: seq<Event>, told: Told): (r: Told)
    requires Inv(s) && IsRun(s, es)
    decreases |es|
  {
    if es == [] || |told| != |s.nets| then told else
      StepKeeps(s, es[0]);
      Telling(Step(s, es[0]), es[1..], Tell(s, es[0], told))
  }

  // ----- one step -----

  // No info appears and no address, identity or client changes.
  ghost predicate AddressesKept(net: Net, n: Net) {
    && n.infos.Keys <= net.infos.Keys && n.apiClis == net.apiClis
    && forall x :: x in n.infos ==> n.infos[x].uri == net.infos[x].uri && n.infos[x].id == net.infos[x].id
  }

  // The nodes of an answer get its addresses; the others keep theirs.
  ghost predicate AddressesWritten(net: Net, n: Net, answer: map<string, LiveNode>) {
    && n.infos.Keys <= net.infos.Keys && n.apiClis == net.apiClis + Clients(answer)
    && forall x :: x in n.infos ==>
         if x in answer then n.infos[x].uri == Uri(answer[x]) && n.infos[x].id == answer[x].id
         else n.infos[x].uri == net.infos[x].uri && n.infos[x].id == net.infos[x].id
  }

  ghost predicate AddressesMove(s: State, e: Event, k: nat)
    requires Paired(s) && InRange(s) && Enabled(s, e) && k < |s.nets|
  {
    var t := Step(s, e);
    t.panic.None? ==>
      && k < |t.nets|
      && if WritesDown(s, e, k) then AddressesWritten(s.nets[k], t.nets[k], Answer(s, e, k))
         else AddressesKept(s.nets[k], t.nets[k])
  }

  lemma RefreshWrites(net: Net, snapshot: map<string, LiveNode>)
    ensures Refresh(net, snapshot).Done? ==> AddressesWritten(net, Refresh(net, snapshot).value, snapshot)
  {
    hide Uri;
  }

  lemma SameAddresses(net: Net)
    ensures AddressesKept(net, net)
  {
  }

  lemma CommitWrites(net: Net, n: Net, answer: map<string, LiveNode>, name: string, idx: nat, cfg: NodeConfig)
    requires AddressesWritten(net, n, answer) && idx < |n.cfgs|
    ensures AddressesWritten(net, Committed(n, name, idx, cfg), answer)
  {
    hide Uri;
  }

  lemma PassMovesAddresses(s: State, e: Event, k: nat)
    requires Inv(s) && Enabled(s, e) && k < |s.nets| && e.PassApply?
    ensures AddressesMove(s, e, k)
  {
    hide WellFormed, View, WatcherInRange, RestartPending, Refresh, Committed, AddressesKept, AddressesWritten;
    if Step(s, e).panic.None? {
      var c := s.calls[e.id];
      assert CallInRange(s, c);
      PassWrites(s, e.id);
      var n := Refresh(s.nets[c.k], c.p.snapshot).value;
      RefreshWrites(s.nets[c.k], c.p.snapshot);
      if c.RestartPass? {
        CommitWrites(s.nets[c.k], n, c.p.snapshot, c.name, c.idx, c.cfg);
      }
      SameAddresses(s.nets[k]);
      hide Step, InRange;
    }
  }

  lemma MoveWrites(net: Net, m: StartMove)
    requires CanMove(net, m) && StartMoved(net, m).Done?
    ensures var n := StartMoved(net, m).value;
      if m.Apply? then AddressesWritten(net, n, net.pc.snapshot) else AddressesKept(net, n)
  {
    hide Refresh, AddressesKept, AddressesWritten;
    if m.Apply? {
      RefreshWrites(net, net.pc.snapshot);
      SamePc(net, StartMoved(net, m).value, net.pc.snapshot);
    } else {
      SameShown(net, StartMoved(net, m).value);
    }
  }

  lemma SamePc(net: Net, n: Net, answer: map<string, LiveNode>)
    requires Refresh(net, answer).Done? && n == Refresh(net, answer).value.(pc := n.pc)
    requires AddressesWritten(net, Refresh(net, answer).value, answer)
    ensures AddressesWritten(net, n, answer)
  {
    hide Refresh, Uri;
  }

  lemma SameShown(net: Net, n: Net)
    requires n.infos == net.infos && n.apiClis == net.apiClis
    ensures AddressesKept(net, n)
  {
  }

  lemma StarterMovesAddresses(s: State, e: Event, k: nat)
    requires Inv(s) && Enabled(s, e) && k < |s.nets| && e.Starter?
    ensures AddressesMove(s, e, k)
  {
    hide WellFormed, View, CallInRange, WatcherInRange, StartMoved, AddressesKept, AddressesWritten;
    if StartMoved(s.nets[e.k], e.m).Done? {
      MoveWrites(s.nets[e.k], e.m);
    }
    SameAddresses(s.nets[k]);
  }

  lemma RemoveKeepsAddresses(net: Net, name: string, r: LibResult, order: seq<string>)
    ensures RemoveLocked(net, name, r, order).Done? ==>
              AddressesKept(net, RemoveLocked(net, name, r, order).value.net)
  {
  }

  lemma TouchKeepsAddresses(net: Net, n: Net, name: string)
    requires RestartTouches(net, n, name)
    ensures AddressesKept(net, n)
  {
    forall x | x in n.infos ensures n.infos[x].uri == net.infos[x].uri && n.infos[x].id == net.infos[x].id {
      assert x != name ==> n.infos[x] == net.infos[x];
    }
  }

  lemma BodyMovesAddresses(s: State, e: Event, k: nat)
    requires Inv(s) && Enabled(s, e) && k < |s.nets| && (e.RemoveBody? || e.RestartBody?)
    ensures AddressesMove(s, e, k)
  {
    hide WellFormed, View, CallInRange, WatcherInRange, RemoveLocked, RestartLocked, RestartPending, Enumerates,
      AddressesKept, RestartTouches;
    SameAddresses(s.nets[k]);
    if s.network.Some? {
      var net := s.nets[s.network.value];
      if e.RemoveBody? {
        RemoveKeepsAddresses(net, s.calls[e.id].name, e.r, e.order);
      } else {
        RestartKeeps(net, s.calls[e.id].name, s.calls[e.id].start, e.r);
        var o := RestartLocked(net, s.calls[e.id].name, s.calls[e.id].start, e.r);
        if o.Done? {
          TouchKeepsAddresses(net, o.value.net, s.calls[e.id].name);
        }
      }
    }
  }

  lemma StopKeepsAddresses(net: Net, left: set<string>)
    ensures CloseStop(net).Done? ==> AddressesKept(net, CloseStop(net).value)
    ensures LibraryStopped(net, left).Done? ==> AddressesKept(net, LibraryStopped(net, left).value)
  {
  }

  lemma StopMovesAddresses(s: State, e: Event, k: nat)
    requires Inv(s) && Enabled(s, e) && k < |s.nets| && (e.StopBegin? || e.StopLibrary? || e.StopFinish?)
    ensures AddressesMove(s, e, k)
  {
    hide WellFormed, View, WatcherInRange, RestartPending, CloseStop, LibraryStopped, AddressesKept;
    assert CallInRange(s, s.calls[e.id]);
    hide CallInRange;
    SameAddresses(s.nets[k]);
    if e.StopBegin? && s.network.Some? {
      StopKeepsAddresses(s.nets[s.network.value], {});
    } else if e.StopLibrary? {
      StopKeepsAddresses(s.nets[s.calls[e.id].k], e.left);
    }
  }

  lemma SlotMovesAddresses(s: State, e: Event, k: nat)
    requires Inv(s) && Enabled(s, e) && k < |s.nets| && (e.StartBody? || e.HealthBody?)
    ensures AddressesMove(s, e, k)
  {
    hide WellFormed, View, CallInRange, WatcherInRange, Enumerates, InitialNet;
  }

  lemma AddMovesAddresses(s: State, e: Event, k: nat)
    requires Inv(s) && Enabled(s, e) && k < |s.nets| && e.RestartAdd?
    ensures AddressesMove(s, e, k)
  {
    hide WellFormed, View, WatcherInRange, RestartPending;
    assert CallInRange(s, s.calls[e.id]);
    hide CallInRange;
  }

  lemma QuietMovesAddresses(s: State, e: Event, k: nat)
    requires Paired(s) && InRange(s) && Enabled(s, e) && k < |s.nets|
    requires e.Arrive? || e.AbortStart? || e.HealthBegin? || e.PassFail? || e.PassSee?
             || e.WatchArm? || e.WatchExit? || e.WatchReady? || e.WatchPublish? || e.CloseServer?
    ensures AddressesMove(s, e, k)
  {
    hide InRange, AddressesKept;
    SameAddresses(s.nets[k]);
  }

  // Only writing down an answer changes what a network shows of its nodes, and
  // it shows what the answer says.
  lemma AddressStep(s: State, e: Event, k: nat)
    requires Inv(s) && Enabled(s, e) && k < |s.nets|
    ensures AddressesMove(s, e, k)
  {
    hide InRange, AllWellFormed, Retired, LockHeld, StopLocked, Views, Step, AddressesMove;
    if e.PassApply? {
      PassMovesAddresses(s, e, k);
    } else if e.Starter? {
      StarterMovesAddresses(s, e, k);
    } else if e.RemoveBody? || e.RestartBody? {
      BodyMovesAddresses(s, e, k);
    } else if e.StopBegin? || e.StopLibrary? || e.StopFinish? {
      StopMovesAddresses(s, e, k);
    } else if e.RestartAdd? {
      AddMovesAddresses(s, e, k);
    } else if e.StartBody? || e.HealthBody? {
      SlotMovesAddresses(s, e, k);
    } else {
      QuietMovesAddresses(s, e, k);
    }
  }

  // ----- whole runs -----

  // What a network shows is what it has been told.
  ghost predicate ShowsTold(net: Net, told: map<string, LiveNode>) {
    && net.apiClis == Clients(told)
    && forall x :: x in net.infos ==>
         if x in told then net.infos[x].uri == Uri(told[x]) && net.infos[x].id == told[x].id
         else net.infos[x].uri == "" && net.infos[x].id == ""
  }

  ghost predicate AllShowTold(s: State, told: Told) {
    |told| == |s.nets| && forall k :: 0 <= k < |s.nets| ==> ShowsTold(s.nets[k], told[k])
  }

  lemma WrittenShown(net: Net, n: Net, told: map<string, LiveNode>, answer: map<string, LiveNode>)
    requires ShowsTold(net, told) && AddressesWritten(net, n, answer)
    ensures ShowsTold(n, told + answer)
  {
    hide Uri;
    assert Clients(told) + Clients(answer) == Clients(told + answer);
  }

  lemma KeptShown(net: Net, n: Net, told: map<string, LiveNode>)
    requires ShowsTold(net, told) && AddressesKept(net, n)
    ensures ShowsTold(n, told)
  {
    hide Uri, Clients;
  }

  lemma NewShown(s: State, e: Event)
    requires Inv(s) && Enabled(s, e) && Step(s, e).panic.None?
    ensures |s.nets| <= |Step(s, e).nets|
    ensures |Step(s, e).nets| > |s.nets| ==>
              && |Step(s, e).nets| == |s.nets| + 1 && ShowsTold(Step(s, e).nets[|s.nets|], map[])
              && forall k: nat :: !WritesDown(s, e, k)
  {
    hide WellFormed, View, CallInRange, WatcherInRange, InitialNet;
    if e.StartBody? && |Step(s, e).nets| > |s.nets| {
      NothingShown(s.calls[e.id].l, e.defaults);
    } else {
      StepKeeps(s, e);
    }
  }

  lemma NothingShown(l: Launch, defaults: seq<NodeConfig>)
    requires |defaults| <= |COLORS|
    ensures ShowsTold(InitialNet(l, defaults), map[])
  {
    InitialInfosBlank(l, |defaults|);
  }

  lemma {:induction false} InitialInfosBlank(l: Launch, k: nat)
    ensures forall n :: n in InitialInfos(l, k) ==> InitialInfos(l, k)[n].uri == "" && InitialInfos(l, k)[n].id == ""
  {
    hide NodeName, Config.StartText;
    if k != 0 {
      InitialInfosBlank(l, k - 1);
    }
  }

  // Every step keeps it so.
  lemma ToldStep(s: State, e: Event, told: Told)
    requires Inv(s) && Enabled(s, e) && AllShowTold(s, told) && Step(s, e).panic.None?
    ensures AllShowTold(Step(s, e), Tell(s, e, told))
  {
    hide InRange, AllWellFormed, Retired, LockHeld, StopLocked, Views, Step, ShowsTold, AddressesKept, AddressesWritten,
      WritesDown;
    var t, told' := Step(s, e), Tell(s, e, told);
    NewShown(s, e);
    forall k | 0 <= k < |t.nets| ensures ShowsTold(t.nets[k], told'[k]) {
      if k < |s.nets| {
        AddressStep(s, e, k);
        assert ShowsTold(s.nets[k], told[k]);
        if WritesDown(s, e, k) {
          WrittenShown(s.nets[k], t.nets[k], told[k], Answer(s, e, k));
        } else {
          KeptShown(s.nets[k], t.nets[k], told[k]);
        }
      }
    }
  }

  lemma {:induction false} ToldFrom(s: State, es: seq<Event>, told: Told)
    requires Inv(s) && s.panic.None? && IsRun(s, es) && AllShowTold(s, told)
    ensures Exec(s, es).panic.None? ==> AllShowTold(Exec(s, es), Telling(s, es, told))
    decreases |es|
  {
    hide InRange, AllWellFormed, Retired, LockHeld, StopLocked, Views, Step, Tell, ShowsTold;
    if es != [] {
      StepKeeps(s, es[0]);
      PanicEnds(Step(s, es[0]), es[1..]);
      if Step(s, es[0]).panic.None? {
        ToldStep(s, es[0], told);
        ToldFrom(Step(s, es[0]), es[1..], Tell(s, es[0], told));
      }
    }
  }

  // In every run each node's info shows, and reads back as, the URL, port and
  // identity of the node in the last written-down answer that names it, and its
  // client is that node's; an info that no answer has named shows none.
  lemma AddressesOverRuns(es: seq<Event>, k: nat, name: string)
    requires Inv(INIT) && IsRun(INIT, es)
    requires var s := Exec(INIT, es); s.panic.None? && k < |s.nets| && name in s.nets[k].infos
    ensures var told := Telling(INIT, es, []); var net := Exec(INIT, es).nets[k];
      && k < |told|
      && (name in told[k] ==>
            && ReadUri(net.infos[name].uri) == Some((told[k][name].url, told[k][name].port))
            && net.infos[name].id == told[k][name].id
            && name in net.apiClis && net.apiClis[name] == told[k][name].client)
      && (name !in told[k] ==> net.infos[name].uri == "" && net.infos[name].id == "" && name !in net.apiClis)
  {
    hide Core, Step, IsRun, Exec, Telling, ReadUri, Uri;
    ToldFrom(INIT, es, []);
    var told := Telling(INIT, es, []);
    assert ShowsTold(Exec(INIT, es).nets[k], told[k]);
    if name in told[k] {
      UriReads(told[k][name]);
    }
  }

  // So with what URIs answers: each address in it reads back as URL and port of
  // a node that the library has reported under that name, or no answer has named
  // the node yet; and no node that has an info is missing.
  lemma UrisOverRuns(es: seq<Event>, k: nat, answer: seq<string>)
    requires Inv(INIT) && IsRun(INIT, es)
    requires var s := Exec(INIT, es); s.panic.None? && k < |s.nets| && IsUriList(answer, s.nets[k].infos)
    ensures var told := Telling(INIT, es, []); var infos := Exec(INIT, es).nets[k].infos;
      && k < |told|
      && (forall x :: x in answer ==>
            exists n :: n in infos
                        && if n in told[k] then ReadUri(x) == Some((told[k][n].url, told[k][n].port)) else x == "")
      && (forall n :: n in infos && n in told[k] ==>
            exists x :: x in answer && ReadUri(x) == Some((told[k][n].url, told[k][n].port)))
  {
    hide Core, Step, IsRun, Exec, Telling, ReadUri, Uri, IsUriList;
    var told, net := Telling(INIT, es, []), Exec(INIT, es).nets[k];
    ToldFrom(INIT, es, []);
    assert ShowsTold(net, told[k]);
    forall x | x in answer
      ensures exists n :: n in net.infos
                          && if n in told[k] then ReadUri(x) == Some((told[k][n].url, told[k][n].port)) else x == ""
    {
      AnswerHolds(answer, net.infos, x);
      var n :| n in net.infos && net.infos[n].uri == x;
      AddressesOverRuns(es, k, n);
    }
    forall n | n in net.infos && n in told[k]
      ensures exists x :: x in answer && ReadUri(x) == Some((told[k][n].url, told[k][n].port))
    {
      AnswerHolds(answer, net.infos, net.infos[n].uri);
      AddressesOverRuns(es, k, n);
    }
  }
}
