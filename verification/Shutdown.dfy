// Run's three goroutines: the gRPC server, the gateway and the select that
// stops what is left and drains both error channels, which are unbuffered.
module Shutdown {
  import opened Basics

  type Err = int

  datatype GrpcPc = Serving | GrpcPosting(e: Err) | GrpcReturned
  datatype GatewayPc = Dialing | RegisteringPing | RegisteringControl | Listening
                     | GatewayPosting(e: Err) | GatewayReturned

  datatype Branch = ByRoot | ByGrpc | ByGateway

  // Where Run stands; the branch says how it goes on.
  datatype MainPc = Selecting
                  | ClosingGateway(b: Branch) | AwaitingGateway(b: Branch)
                  | StoppingGrpc(b: Branch) | AwaitingGrpc(b: Branch)
                  | ClosingClosed(b: Branch) | Returned(b: Branch)

  datatype State = State(
    rootDone: bool, grpc: GrpcPc, gateway: GatewayPc, main: MainPc, result: Option<Err>,
    gatewayClosed: bool, grpcStopped: bool, closed: bool, closeOnce: bool, panicked: bool,
    grpcSends: nat, grpcReceives: nat, gatewaySends: nat, gatewayReceives: nat)

  const INIT := State(false, Serving, Dialing, Selecting, None, false, false, false, false, false, 0, 0, 0, 0)

  datatype Event =
    | RootDone
    | ServeReturns(e: Err)
    | DialFails(e: Err) | Dialed
    | RegisterFails(e: Err) | Registered
    | ListenReturns(e: Err)
    | PickRoot | PickGrpc | PickGateway
    | CloseGateway | TakeGateway | StopGrpc | TakeGrpc | CloseClosed

  predicate Enabled(s: State, ev: Event) {
    && !s.panicked
    && match ev
       case RootDone => !s.rootDone
       case ServeReturns(_) => s.grpc.Serving?
       case DialFails(_) => s.gateway.Dialing?
       case Dialed => s.gateway.Dialing?
       case RegisterFails(_) => s.gateway.RegisteringPing? || s.gateway.RegisteringControl?
       case Registered => s.gateway.RegisteringPing? || s.gateway.RegisteringControl?
       case ListenReturns(_) => s.gateway.Listening?
       case PickRoot => s.main.Selecting? && s.rootDone
       case PickGrpc => s.main.Selecting? && s.grpc.GrpcPosting?
       case PickGateway => s.main.Selecting? && s.gateway.GatewayPosting?
       case CloseGateway => s.main.ClosingGateway?
       case TakeGateway => s.main.AwaitingGateway? && s.gateway.GatewayPosting?
       case StopGrpc => s.main.StoppingGrpc?
       case TakeGrpc => s.main.AwaitingGrpc? && s.grpc.GrpcPosting?
       case CloseClosed => s.main.ClosingClosed?
  }

  // A rendezvous: the receiver goes on and the sender returns.
  function GrpcTaken(s: State): State {
    s.(grpc := GrpcReturned, grpcSends := s.grpcSends + 1, grpcReceives := s.grpcReceives + 1)
  }

  function GatewayTaken(s: State): State {
    s.(gateway := GatewayReturned, gatewaySends := s.gatewaySends + 1, gatewayReceives := s.gatewayReceives + 1)
  }

  function Step(s: State, ev: Event): State
    requires Enabled(s, ev)
  {
    match ev
    case RootDone => s.(rootDone := true)
    case ServeReturns(e) => s.(grpc := GrpcPosting(e))
    case DialFails(e) => s.(gateway := GatewayPosting(e))
    case Dialed => s.(gateway := RegisteringPing)
    case RegisterFails(e) => s.(gateway := GatewayPosting(e))
    case Registered => s.(gateway := if s.gateway.RegisteringPing? then RegisteringControl else Listening)
    case ListenReturns(e) => s.(gateway := GatewayPosting(e))
    case PickRoot => s.(main := ClosingGateway(ByRoot))
    case PickGrpc => GrpcTaken(s).(main := ClosingGateway(ByGrpc), result := Some(s.grpc.e))
    case PickGateway => GatewayTaken(s).(main := StoppingGrpc(ByGateway), result := Some(s.gateway.e))
    case CloseGateway => s.(gatewayClosed := true, main := AwaitingGateway(s.main.b))
    case TakeGateway =>
      GatewayTaken(s).(main := if s.main.b.ByRoot? then StoppingGrpc(s.main.b) else ClosingClosed(s.main.b))
    case StopGrpc => s.(grpcStopped := true, main := AwaitingGrpc(s.main.b))
    case TakeGrpc => GrpcTaken(s).(main := ClosingClosed(s.main.b))
    case CloseClosed =>
      var t := s.(main := Returned(s.main.b));
      if s.closeOnce then t else t.(closeOnce := true, closed := true, panicked := s.closed)
  }

  // ----- the invariant -----

  predicate GrpcDrained(s: State) {
    s.grpc.GrpcReturned? && s.grpcSends == 1 == s.grpcReceives
  }

  predicate GrpcPending(s: State) {
    !s.grpc.GrpcReturned? && s.grpcSends == 0 == s.grpcReceives
  }

  predicate GatewayDrained(s: State) {
    s.gateway.GatewayReturned? && s.gatewaySends == 1 == s.gatewayReceives
  }

  predicate GatewayPending(s: State) {
    !s.gateway.GatewayReturned? && s.gatewaySends == 0 == s.gatewayReceives
  }

  // Run has closed the gateway's server, or stopped the gRPC server, unless that
  // is the one whose failure it reacts to.
  predicate MustHaveClosed(m: MainPc) {
    !m.Selecting? && !m.ClosingGateway? && !m.b.ByGateway?
  }

  predicate MustHaveStopped(m: MainPc) {
    (m.AwaitingGrpc? || m.ClosingClosed? || m.Returned?) && !m.b.ByGrpc?
  }

  predicate Inv(s: State) {
    && !s.panicked
    && (s.closed <==> s.main.Returned?) && s.closeOnce == s.closed
    && (MustHaveClosed(s.main) ==> s.gatewayClosed)
    && (MustHaveStopped(s.main) ==> s.grpcStopped)
    && (match s.main
        case Selecting => GrpcPending(s) && GatewayPending(s) && s.result.None?
        case ClosingGateway(b) =>
          GatewayPending(s) && !b.ByGateway? && (if b.ByRoot? then GrpcPending(s) else GrpcDrained(s))
        case AwaitingGateway(b) =>
          GatewayPending(s) && !b.ByGateway? && (if b.ByRoot? then GrpcPending(s) else GrpcDrained(s))
        case StoppingGrpc(b) => GatewayDrained(s) && GrpcPending(s) && !b.ByGrpc?
        case AwaitingGrpc(b) => GatewayDrained(s) && GrpcPending(s) && !b.ByGrpc?
        case ClosingClosed(_) => GatewayDrained(s) && GrpcDrained(s)
        case Returned(_) => GatewayDrained(s) && GrpcDrained(s))
    && (!s.main.Selecting? ==> (s.main.b.ByRoot? <==> s.result.None?) && (s.main.b.ByRoot? ==> s.rootDone))
  }

  lemma StepKeeps(s: State, ev: Event)
    requires Inv(s) && Enabled(s, ev)
    ensures Inv(Step(s, ev))
  {
  }

  predicate IsRun(s: State, evs: seq<Event>)
    decreases |evs|
  {
    evs == [] || (Enabled(s, evs[0]) && IsRun(Step(s, evs[0]), evs[1..]))
  }

  function Exec(s: State, evs: seq<Event>): State
    requires IsRun(s, evs)
    decreases |evs|
  {
    if evs == [] then s else Exec(Step(s, evs[0]), evs[1..])
  }

  lemma {:induction false} RunKeeps(s: State, evs: seq<Event>)
    requires Inv(s) && IsRun(s, evs)
    ensures Inv(Exec(s, evs))
    decreases |evs|
  {
    if evs != [] {
      StepKeeps(s, evs[0]);
      RunKeeps(Step(s, evs[0]), evs[1..]);
    }
  }

  // Whichever branch fires: when Run has returned, each error channel has had
  // one send and one receive, both servers' goroutines have returned, closed is
  // closed, the result is nil exactly when the root branch was taken, and every
  // server but one that has failed has been told to end.
  lemma RunDrains(evs: seq<Event>)
    requires IsRun(INIT, evs)
    ensures var s := Exec(INIT, evs);
      && !s.panicked
      && (s.main.Returned? ==>
            && GrpcDrained(s) && GatewayDrained(s) && s.closed
            && (s.result.None? <==> s.main.b.ByRoot?)
            && (s.result.None? ==> s.rootDone)
            && (s.main.b.ByGateway? || s.gatewayClosed) && (s.main.b.ByGrpc? || s.grpcStopped))
  {
    RunKeeps(INIT, evs);
  }

  // ----- what comes before the gateway listens -----

  function Registrations(evs: seq<Event>): nat {
    if evs == [] then 0 else (if evs[0].Registered? then 1 else 0) + Registrations(evs[1..])
  }

  function RegistrationsAt(pc: GatewayPc): nat {
    match pc case RegisteringControl => 1 case Listening => 2 case _ => 0
  }

  predicate GatewayGoesOn(pc: GatewayPc) {
    !pc.GatewayPosting? && !pc.GatewayReturned?
  }

  lemma GatewayStep(s: State, ev: Event)
    requires Enabled(s, ev) && GatewayGoesOn(Step(s, ev).gateway)
    ensures GatewayGoesOn(s.gateway)
    ensures RegistrationsAt(Step(s, ev).gateway) == RegistrationsAt(s.gateway) + if ev.Registered? then 1 else 0
    ensures s.gateway.Dialing? && !Step(s, ev).gateway.Dialing? ==> ev == Dialed
  {
    if IsGateways(ev) {
    } else if ev.RootDone? || ev.ServeReturns? || ev.PickRoot? || ev.PickGrpc? || ev.CloseGateway? {
      FirstStepsLeaveGateway(s, ev);
    } else {
      LastStepsLeaveGateway(s, ev);
    }
  }

  predicate IsGateways(ev: Event) {
    || ev.DialFails? || ev.Dialed? || ev.RegisterFails? || ev.Registered? || ev.ListenReturns?
    || ev.PickGateway? || ev.TakeGateway?
  }

  lemma FirstStepsLeaveGateway(s: State, ev: Event)
    requires Enabled(s, ev) && (ev.RootDone? || ev.ServeReturns? || ev.PickRoot? || ev.PickGrpc? || ev.CloseGateway?)
    ensures Step(s, ev).gateway == s.gateway
  {
  }

  lemma LastStepsLeaveGateway(s: State, ev: Event)
    requires Enabled(s, ev) && (ev.StopGrpc? || ev.TakeGrpc? || ev.CloseClosed?)
    ensures Step(s, ev).gateway == s.gateway
  {
  }

  lemma {:induction false} GatewayRun(s: State, evs: seq<Event>)
    requires IsRun(s, evs) && GatewayGoesOn(Exec(s, evs).gateway)
    ensures GatewayGoesOn(s.gateway)
    ensures RegistrationsAt(Exec(s, evs).gateway) == RegistrationsAt(s.gateway) + Registrations(evs)
    ensures s.gateway.Dialing? && !Exec(s, evs).gateway.Dialing? ==> Dialed in evs
    decreases |evs|
  {
    hide Step, Enabled, GatewayGoesOn, RegistrationsAt;
    if evs != [] {
      GatewayRun(Step(s, evs[0]), evs[1..]);
      GatewayStep(s, evs[0]);
    }
  }

  // The gateway listens only once it has dialed the gRPC server and registered
  // both services.
  lemma ListensAfterRegistering(evs: seq<Event>)
    requires IsRun(INIT, evs) && Exec(INIT, evs).gateway.Listening?
    ensures Dialed in evs && Registrations(evs) == 2
  {
    hide Step, Enabled;
    GatewayRun(INIT, evs);
  }

  // ----- where the result comes from -----

  predicate GatewayGave(past: seq<Event>, e: Err) {
    DialFails(e) in past || RegisterFails(e) in past || ListenReturns(e) in past
  }

  // Every error in flight, and the result, is one its server gave.
  predicate Sourced(s: State, past: seq<Event>) {
    && (s.grpc.GrpcPosting? ==> ServeReturns(s.grpc.e) in past)
    && (s.gateway.GatewayPosting? ==> GatewayGave(past, s.gateway.e))
    && (!s.main.Selecting? && s.main.b.ByGrpc? ==> s.result.Some? && ServeReturns(s.result.value) in past)
    && (!s.main.Selecting? && s.main.b.ByGateway? ==> s.result.Some? && GatewayGave(past, s.result.value))
  }

  lemma SourcedStep(s: State, past: seq<Event>, ev: Event)
    requires Inv(s) && Sourced(s, past) && Enabled(s, ev)
    ensures Sourced(Step(s, ev), past + [ev])
  {
    assert ev in past + [ev];
  }

  lemma {:induction false} SourcedRun(s: State, past: seq<Event>, evs: seq<Event>)
    requires Inv(s) && Sourced(s, past) && IsRun(s, evs)
    ensures Sourced(Exec(s, evs), past + evs)
    decreases |evs|
  {
    if evs == [] {
      assert past + evs == past;
    } else {
      hide Step, Enabled, Sourced;
      StepKeeps(s, evs[0]);
      SourcedStep(s, past, evs[0]);
      SourcedRun(Step(s, evs[0]), past + [evs[0]], evs[1..]);
      assert past + [evs[0]] + evs[1..] == past + evs;
    }
  }

  // Run's result is nil after a root cancellation, and otherwise the error the
  // server of the branch that was taken returned with.
  lemma ResultComesFrom(evs: seq<Event>)
    requires IsRun(INIT, evs) && Exec(INIT, evs).main.Returned?
    ensures var s := Exec(INIT, evs);
      match s.main.b
      case ByRoot => s.result.None? && RootDone in evs
      case ByGrpc => s.result.Some? && ServeReturns(s.result.value) in evs
      case ByGateway => s.result.Some? && GatewayGave(evs, s.result.value)
  {
    RunKeeps(INIT, evs);
    assert [] + evs == evs;
    SourcedRun(INIT, [], evs);
    RootIsAnEvent(INIT, evs);
  }

  lemma {:induction false} RootIsAnEvent(s: State, evs: seq<Event>)
    requires IsRun(s, evs) && !s.rootDone
    ensures Exec(s, evs).rootDone ==> RootDone in evs
    decreases |evs|
  {
    if evs != [] && !evs[0].RootDone? {
      RootIsAnEvent(Step(s, evs[0]), evs[1..]);
    }
  }

  // ----- Run returns -----

  // What happens without anybody's help: the dial is bounded by its context,
  // registration returns, Serve returns after Stop, ListenAndServe after Close.
  predicate Forced(s: State, ev: Event) {
    match ev
    case RootDone => false
    case ServeReturns(_) => s.grpcStopped
    case ListenReturns(_) => s.gatewayClosed
    case _ => true
  }

  function GrpcRank(pc: GrpcPc): nat {
    match pc case Serving => 2 case GrpcPosting(_) => 1 case GrpcReturned => 0
  }

  function GatewayRank(pc: GatewayPc): nat {
    match pc
    case Dialing => 5
    case RegisteringPing => 4
    case RegisteringControl => 3
    case Listening => 2
    case GatewayPosting(_) => 1
    case GatewayReturned => 0
  }

  function MainRank(pc: MainPc): nat {
    match pc
    case Selecting => 6
    case ClosingGateway(_) => 5
    case AwaitingGateway(_) => 4
    case StoppingGrpc(_) => 3
    case AwaitingGrpc(_) => 2
    case ClosingClosed(_) => 1
    case Returned(_) => 0
  }

  function Rank(s: State): nat {
    GrpcRank(s.grpc) + GatewayRank(s.gateway) + MainRank(s.main) + if s.rootDone then 0 else 1
  }

  lemma StepCountsDown(s: State, ev: Event)
    requires Inv(s) && Enabled(s, ev)
    ensures Rank(Step(s, ev)) < Rank(s)
  {
  }

  // Every run is short.
  lemma {:induction false} RunsAreBounded(s: State, evs: seq<Event>)
    requires Inv(s) && IsRun(s, evs)
    ensures |evs| + Rank(Exec(s, evs)) <= Rank(s) <= 14
    decreases |evs|
  {
    if evs != [] {
      StepKeeps(s, evs[0]);
      StepCountsDown(s, evs[0]);
      RunsAreBounded(Step(s, evs[0]), evs[1..]);
    }
  }

  // Once a branch has fired, Run is never stuck before it returns.
  lemma NeverStuck(s: State)
    requires Inv(s) && !s.main.Selecting? && !s.main.Returned?
    ensures exists ev :: Enabled(s, ev) && Forced(s, ev)
  {
    match s.main
    case ClosingGateway(_) => assert Enabled(s, CloseGateway) && Forced(s, CloseGateway);
    case AwaitingGateway(_) =>
      var ev := match s.gateway
        case Dialing => DialFails(0)
        case RegisteringPing => Registered
        case RegisteringControl => Registered
        case Listening => ListenReturns(0)
        case _ => TakeGateway;
      assert Enabled(s, ev) && Forced(s, ev);
    case StoppingGrpc(_) => assert Enabled(s, StopGrpc) && Forced(s, StopGrpc);
    case AwaitingGrpc(_) =>
      var ev := if s.grpc.Serving? then ServeReturns(0) else TakeGrpc;
      assert Enabled(s, ev) && Forced(s, ev);
    case ClosingClosed(_) => assert Enabled(s, CloseClosed) && Forced(s, CloseClosed);
    case Returned(_) =>
  }

  // A run that can go no further by itself, once a branch has fired, has returned.
  lemma MaximalRunsReturn(evs: seq<Event>)
    requires IsRun(INIT, evs)
    requires !Exec(INIT, evs).main.Selecting?
    requires forall ev :: Enabled(Exec(INIT, evs), ev) ==> !Forced(Exec(INIT, evs), ev)
    ensures Exec(INIT, evs).main.Returned? && |evs| <= 14
  {
    RunKeeps(INIT, evs);
    RunsAreBounded(INIT, evs);
    if !Exec(INIT, evs).main.Returned? {
      NeverStuck(Exec(INIT, evs));
    }
  }

  lemma {:induction false} AppendRun(s: State, evs: seq<Event>, ev: Event)
    requires IsRun(s, evs) && Enabled(Exec(s, evs), ev)
    ensures IsRun(s, evs + [ev]) && Exec(s, evs + [ev]) == Step(Exec(s, evs), ev)
    decreases |evs|
  {
    hide Enabled, Step;
    if evs == [] {
      assert ([] + [ev])[1..] == [];
      assert IsRun(Step(s, ev), []);
    } else {
      AppendRun(Step(s, evs[0]), evs[1..], ev);
      assert (evs + [ev])[1..] == evs[1..] + [ev];
    }
  }

  // ----- Run as it is written -----

  class Runner {
    var rootDone: bool
    var grpc: GrpcPc
    var gateway: GatewayPc
    var gatewayClosed: bool
    var grpcStopped: bool
    var closed: bool
    var closeOnce: bool
    // history: where Run stands, what has happened, how often a channel was used
    ghost var main: MainPc
    ghost var run: seq<Event>
    ghost var result: Option<Err>
    ghost var grpcUses: nat
    ghost var gatewayUses: nat

    ghost function View(): State
      reads this
    {
      State(rootDone, grpc, gateway, main, result, gatewayClosed, grpcStopped, closed, closeOnce, false,
            grpcUses, grpcUses, gatewayUses, gatewayUses)
    }

    // The fields are what the steps so far have made of them.
    ghost predicate Valid()
      reads this
    {
      IsRun(INIT, run) && Exec(INIT, run) == View() && Inv(View())
    }

    constructor ()
      ensures Valid() && main.Selecting?
    {
      rootDone, grpc, gateway, gatewayClosed, grpcStopped, closed, closeOnce :=
        false, Serving, Dialing, false, false, false, false;
      main, run, result, grpcUses, gatewayUses := Selecting, [], None, 0, 0;
    }

    ghost method Note(before: State, ev: Event)
      requires IsRun(INIT, run) && Exec(INIT, run) == before && Inv(before)
      requires Enabled(before, ev) && Step(before, ev) == View()
      modifies `run
      ensures Valid()
    {
      AppendRun(INIT, run, ev);
      StepKeeps(before, ev);
      run := run + [ev];
    }

    // The gateway's goroutine takes one of its steps: it posts an error, or goes
    // on to the next of dialing, registering twice and listening.
    method GatewayMoves()
      requires Valid() && !gateway.GatewayPosting? && !gateway.GatewayReturned?
      modifies `gateway, `run
      ensures Valid() && Rank(View()) < Rank(old(View()))
    {
      hide Exec, IsRun;
      var fails: bool := *;
      if fails || gateway.Listening? {
        GatewayFails();
        return;
      }
      ghost var before := View();
      if gateway.Dialing? {
        gateway := RegisteringPing;
        Note(before, Dialed);
      } else {
        gateway := if gateway.RegisteringPing? then RegisteringControl else Listening;
        Note(before, Registered);
      }
    }

    method GatewayFails()
      requires Valid() && !gateway.GatewayPosting? && !gateway.GatewayReturned?
      modifies `gateway, `run
      ensures Valid() && Rank(View()) < Rank(old(View()))
    {
      hide Exec, IsRun;
      ghost var before := View();
      ghost var was := gateway;
      var e: Err := *;
      gateway := GatewayPosting(e);
      Note(before, if was.Dialing? then DialFails(e)
                   else if was.Listening? then ListenReturns(e)
                   else RegisterFails(e));
    }

    // Something happens while Run is blocked: a goroutine moves, or the root
    // context ends.
    method Others()
      requires Valid() && !(rootDone && !grpc.Serving? && (gateway.GatewayPosting? || gateway.GatewayReturned?))
      modifies `rootDone, `grpc, `gateway, `run
      ensures Valid() && Rank(View()) < Rank(old(View()))
    {
      hide IsRun, Exec;
      ghost var before := View();
      var e: Err := *;
      if {
        case !rootDone =>
          rootDone := true;
          Note(before, RootDone);
        case grpc.Serving? =>
          grpc := GrpcPosting(e);
          Note(before, ServeReturns(e));
        case !gateway.GatewayPosting? && !gateway.GatewayReturned? =>
          GatewayMoves();
      }
    }

    method CloseGatewayServer()
      requires Valid() && main.ClosingGateway?
      modifies this
      ensures Valid() && main == AwaitingGateway(old(main).b) && result == old(result)
    {
      hide IsRun, Exec, Rank;
      ghost var before := View();
      gatewayClosed, main := true, AwaitingGateway(main.b);
      Note(before, CloseGateway);
    }

    // A receive from an unbuffered channel blocks until the other side sends.
    method AwaitGateway()
      requires Valid() && main.AwaitingGateway?
      modifies `rootDone, `grpc, `gateway, `run
      ensures Valid() && gateway.GatewayPosting?
    {
      hide IsRun, Exec, Rank, Enabled, Step;
      while !(gateway.GatewayPosting?)
        invariant Valid()
        decreases Rank(View())
      {
        Others();
      }
    }

    method ReceiveGateway()
      requires Valid() && main.AwaitingGateway? && gateway.GatewayPosting?
      modifies this
      ensures Valid() && result == old(result)
      ensures main == if old(main).b.ByRoot? then StoppingGrpc(old(main).b) else ClosingClosed(old(main).b)
    {
      hide IsRun, Exec, Rank;
      ghost var before := View();
      gateway, gatewayUses := GatewayReturned, gatewayUses + 1;
      main := if main.b.ByRoot? then StoppingGrpc(main.b) else ClosingClosed(main.b);
      Note(before, TakeGateway);
    }

    method StopGrpcServer()
      requires Valid() && main.StoppingGrpc?
      modifies this
      ensures Valid() && main == AwaitingGrpc(old(main).b) && result == old(result)
    {
      hide IsRun, Exec, Rank;
      ghost var before := View();
      grpcStopped, main := true, AwaitingGrpc(main.b);
      Note(before, StopGrpc);
    }

    method AwaitGrpc()
      requires Valid() && main.AwaitingGrpc?
      modifies `rootDone, `grpc, `gateway, `run
      ensures Valid() && grpc.GrpcPosting?
    {
      hide IsRun, Exec, Rank, Enabled, Step;
      while !(grpc.GrpcPosting?)
        invariant Valid()
        decreases Rank(View())
      {
        Others();
      }
    }

    method ReceiveGrpc()
      requires Valid() && main.AwaitingGrpc? && grpc.GrpcPosting?
      modifies this
      ensures Valid() && main == ClosingClosed(old(main).b) && result == old(result)
    {
      hide IsRun, Exec, Rank;
      ghost var before := View();
      grpc, grpcUses, main := GrpcReturned, grpcUses + 1, ClosingClosed(main.b);
      Note(before, TakeGrpc);
    }

    method CloseClosedOnce()
      requires Valid() && main.ClosingClosed?
      modifies this
      ensures Valid() && main == Returned(old(main).b) && result == old(result)
    {
      hide IsRun, Exec, Rank;
      ghost var before := View();
      main := Returned(main.b);
      if !closeOnce {
        closeOnce := true;
        closed := true;
      }
      Note(before, CloseClosed);
    }

    method AwaitBranch()
      requires Valid() && main.Selecting?
      modifies `rootDone, `grpc, `gateway, `run
      ensures Valid() && (rootDone || grpc.GrpcPosting? || gateway.GatewayPosting?)
    {
      hide IsRun, Exec, Rank, Enabled, Step;
      while !(rootDone || grpc.GrpcPosting? || gateway.GatewayPosting?)
        invariant Valid()
        decreases Rank(View())
      {
        Others();
      }
    }

    // The three branches of the select.
    method TakeRootBranch()
      requires Valid() && main.Selecting? && rootDone
      modifies this
      ensures Valid() && main == ClosingGateway(ByRoot) && result.None?
    {
      hide IsRun, Exec, Rank;
      ghost var before := View();
      main := ClosingGateway(ByRoot);
      Note(before, PickRoot);
    }

    method TakeGrpcBranch() returns (err: Option<Err>)
      requires Valid() && main.Selecting? && grpc.GrpcPosting?
      modifies this
      ensures Valid() && main == ClosingGateway(ByGrpc) && err == result
    {
      hide IsRun, Exec, Rank;
      ghost var before := View();
      err := Some(grpc.e);
      grpc, grpcUses, main, result := GrpcReturned, grpcUses + 1, ClosingGateway(ByGrpc), err;
      Note(before, PickGrpc);
    }

    method TakeGatewayBranch() returns (err: Option<Err>)
      requires Valid() && main.Selecting? && gateway.GatewayPosting?
      modifies this
      ensures Valid() && main == StoppingGrpc(ByGateway) && err == result
    {
      hide IsRun, Exec, Rank;
      ghost var before := View();
      err := Some(gateway.e);
      gateway, gatewayUses, main, result := GatewayReturned, gatewayUses + 1, StoppingGrpc(ByGateway), err;
      Note(before, PickGateway);
    }

    // Whatever happens meanwhile, Run returns, by a run of the steps above: all
    // that is proved of those holds of it.
    method Run() returns (err: Option<Err>)
      requires Valid() && main.Selecting?
      modifies this
      ensures Valid() && main.Returned? && err == result
      ensures GrpcDrained(View()) && GatewayDrained(View()) && closed
      ensures (main.b.ByGateway? || gatewayClosed) && (main.b.ByGrpc? || grpcStopped)
    {
      hide IsRun, Exec, Rank, Enabled, Step, Inv;
      err := None;
      AwaitBranch();
      if {
        case rootDone =>
          TakeRootBranch();
          CloseGatewayServer();
          AwaitGateway();
          ReceiveGateway();
          StopGrpcServer();
          AwaitGrpc();
          ReceiveGrpc();
        case grpc.GrpcPosting? =>
          err := TakeGrpcBranch();
          CloseGatewayServer();
          AwaitGateway();
          ReceiveGateway();
        case gateway.GatewayPosting? =>
          err := TakeGatewayBranch();
          StopGrpcServer();
          AwaitGrpc();
          ReceiveGrpc();
      }
      CloseClosedOnce();
      HasDrained();
    }

    lemma HasDrained()
      requires Valid() && main.Returned?
      ensures GrpcDrained(View()) && GatewayDrained(View()) && closed
      ensures (main.b.ByGateway? || gatewayClosed) && (main.b.ByGrpc? || grpcStopped)
    {
      hide IsRun, Exec;
    }
  }
}
