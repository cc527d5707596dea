// The status stream: the server's handler with its send loop and receive loop,
// the client's receive goroutine with its channel of capacity one, and the
// consumer. Snapshots are of any type T.
module Stream {
  import opened Basics

  // ----- state -----

  // context.Canceled, context.DeadlineExceeded, the server's own errors, the rest.
  datatype Err = Canceled | Deadline | ServerClosed | StatusCanceled | Transport(code: int)

  datatype SendPc<T> = Selecting | Sending(x: T) | SendReturned
  datatype RecvPc = Receiving | Posting(e: Option<Err>) | RecvReturned
  datatype HandlerPc = Choosing | Draining(e: Option<Err>) | Returned(e: Option<Err>)
  datatype ClientPc<T> = Reading | Delivering(x: T) | ClientReturned

  // `root` and `ctx` are the errors of the root and the stream context, once done;
  // `wire` is what is in flight from server to client. `wg` is the wait group.
  datatype State<T> = State(
    root: Option<Err>, closed: bool, ctx: Option<Err>,
    send: SendPc<T>, recv: RecvPc, errc: seq<Option<Err>>, wg: nat, handler: HandlerPc,
    sent: seq<T>, wire: seq<T>,
    clientDone: bool, clientClosed: bool, clientOnce: bool,
    client: ClientPc<T>, ch: seq<T>, chClosed: bool, consumed: seq<T>,
    panicked: bool)

  function Init<T>(): State<T> {
    State(None, false, None, Selecting, Receiving, [], 1, Choosing, [], [],
          false, false, false, Reading, [], false, [], false)
  }

  datatype Event<T> =
    // the environment
    | RootDone(err: Err) | ServerClose | CtxDone(err: Err) | ClientCtxDone | ClientClose
    // sendLoop
    | Tick(x: T) | SendOk | SendFail | SendQuit
    // recvLoop and the goroutine around it
    | RecvMessage | RecvEnds(answer: Option<Err>) | RecvRoot | RecvClosed | Post
    // StreamStatus
    | TakeErr | TakeCtx | Return
    // the client's goroutine and the consumer
    | ClientQuit | ClientReceive | ClientFails | Deliver | Consume

  predicate ContextErr(e: Err) {
    e == Canceled || e == Deadline
  }

  predicate Enabled<T>(s: State<T>, e: Event<T>) {
    && !s.panicked
    && match e
       case RootDone(err) => s.root.None? && ContextErr(err)
       case ServerClose => !s.closed
       case CtxDone(err) => s.ctx.None? && ContextErr(err)
       case ClientCtxDone => !s.clientDone
       case ClientClose => true
       case Tick(_) => s.send.Selecting?
       // a send on a stream whose context is done fails
       case SendOk => s.send.Sending? && s.ctx.None?
       case SendFail => s.send.Sending?
       case SendQuit => s.send.Selecting? && (s.root.Some? || s.closed)
       case RecvMessage => s.recv.Receiving?
       case RecvEnds(_) => s.recv.Receiving?
       case RecvRoot => s.recv.Receiving? && s.root.Some?
       case RecvClosed => s.recv.Receiving? && s.closed
       case Post => s.recv.Posting? && |s.errc| < 1
       case TakeErr => s.handler.Choosing? && s.errc != []
       case TakeCtx => s.handler.Choosing? && s.ctx.Some?
       case Return => s.handler.Draining? && s.wg == 0
       case ClientQuit => s.client.Reading? && (s.clientDone || s.clientClosed)
       case ClientReceive => s.client.Reading? && s.wire != []
       case ClientFails => s.client.Reading?
       case Deliver => s.client.Delivering? && (|s.ch| < 1 || s.chClosed)
       case Consume => s.ch != []
  }

  // context.Canceled is answered as the status error.
  function Mapped(e: Option<Err>): Option<Err> {
    if e == Some(Canceled) then Some(StatusCanceled) else e
  }

  // sendLoop returns and the wait group counts down.
  function SendDone<T>(s: State<T>): State<T> {
    s.(send := SendReturned, wg := if s.wg == 0 then 0 else s.wg - 1, panicked := s.wg == 0)
  }

  // The deferred CloseSend and close(ch).
  function ClientExit<T>(s: State<T>): State<T> {
    s.(client := ClientReturned, chClosed := true, panicked := s.chClosed)
  }

  function Step<T>(s: State<T>, e: Event<T>): State<T>
    requires Enabled(s, e)
  {
    match e
    case RootDone(err) => s.(root := Some(err))
    case ServerClose => s.(closed := true)
    case CtxDone(err) => s.(ctx := Some(err))
    case ClientCtxDone => s.(clientDone := true)
    case ClientClose =>
      if s.clientOnce then s else s.(clientOnce := true, clientClosed := true, panicked := s.clientClosed)
    case Tick(x) => s.(send := Sending(x))
    case SendOk => s.(send := Selecting, sent := s.sent + [s.send.x], wire := s.wire + [s.send.x])
    case SendFail => SendDone(s)
    case SendQuit => SendDone(s)
    case RecvMessage => s
    case RecvEnds(err) => s.(recv := Posting(err))
    case RecvRoot => s.(recv := Posting(s.root))
    case RecvClosed => s.(recv := Posting(Some(ServerClosed)))
    case Post => s.(errc := s.errc + [s.recv.e], recv := RecvReturned)
    case TakeErr => s.(handler := Draining(Mapped(s.errc[0])), errc := s.errc[1..])
    case TakeCtx => s.(handler := Draining(Mapped(s.ctx)))
    case Return => s.(handler := Returned(s.handler.e))
    case ClientQuit => ClientExit(s)
    case ClientReceive => s.(client := Delivering(s.wire[0]), wire := s.wire[1..])
    case ClientFails => ClientExit(s)
    case Deliver => if s.chClosed then s.(panicked := true) else s.(client := Reading, ch := s.ch + [s.client.x])
    case Consume => s.(ch := s.ch[1..], consumed := s.consumed + [s.ch[0]])
  }

  // ----- the invariant -----

  function Held<T>(s: State<T>): seq<T> {
    if s.client.Delivering? then [s.client.x] else []
  }

  ghost predicate Inv<T>(s: State<T>) {
    && !s.panicked
    // nothing is lost, doubled or overtaken
    && s.consumed + (s.ch + (Held(s) + s.wire)) == s.sent
    && |s.ch| <= 1
    && (s.chClosed <==> s.client.ClientReturned?)
    && s.clientOnce == s.clientClosed
    // the wait group counts the send loop
    && s.wg == (if s.send.SendReturned? then 0 else 1)
    && (s.handler.Returned? ==> s.send.SendReturned?)
    // one value is ever sent to errc, and it fits
    && |s.errc| <= (if s.recv.RecvReturned? then 1 else 0)
    && (s.handler.Draining? || s.handler.Returned? ==> s.handler.e != Some(Canceled))
  }

  lemma StepConserves<T>(s: State<T>, e: Event<T>)
    requires Enabled(s, e) && s.consumed + (s.ch + (Held(s) + s.wire)) == s.sent
    ensures var t := Step(s, e); !t.panicked ==> t.consumed + (t.ch + (Held(t) + t.wire)) == t.sent
  {
    match e
    case SendOk =>
      var x := s.send.x;
      assert s.sent + [x] == s.consumed + (s.ch + (Held(s) + (s.wire + [x])));
    case ClientReceive =>
      assert s.wire == [s.wire[0]] + s.wire[1..];
      assert [] + s.wire == s.wire;
    case Deliver =>
      if !s.chClosed {
        var x := s.client.x;
        assert s.ch + ([x] + s.wire) == (s.ch + [x]) + ([] + s.wire);
      }
    case Consume =>
      assert s.ch == [s.ch[0]] + s.ch[1..];
      assert s.consumed + (s.ch + (Held(s) + s.wire)) == (s.consumed + [s.ch[0]]) + (s.ch[1..] + (Held(s) + s.wire));
    case _ =>
  }

  lemma StepKeeps<T>(s: State<T>, e: Event<T>)
    requires Inv(s) && Enabled(s, e)
    ensures Inv(Step(s, e))
  {
    hide Held;
    StepConserves(s, e);
  }

  // ----- runs -----

  ghost predicate IsRun<T>(s: State<T>, es: seq<Event<T>>)
    decreases |es|
  {
    es == [] || (Enabled(s, es[0]) && IsRun(Step(s, es[0]), es[1..]))
  }

  ghost function Exec<T>(s: State<T>, es: seq<Event<T>>): State<T>
    requires IsRun(s, es)
    decreases |es|
  {
    if es == [] then s else Exec(Step(s, es[0]), es[1..])
  }

  lemma {:induction false} RunKeeps<T>(s: State<T>, es: seq<Event<T>>)
    requires Inv(s) && IsRun(s, es)
    ensures Inv(Exec(s, es))
    decreases |es|
  {
    if es != [] {
      StepKeeps(s, es[0]);
      RunKeeps(Step(s, es[0]), es[1..]);
    }
  }

  // What the consumer has read, what its channel holds, what the receiver holds
  // and what is in flight make up, in this order, what sendLoop sent.
  lemma Conservation<T>(es: seq<Event<T>>)
    requires IsRun(Init<T>(), es)
    ensures var s := Exec(Init<T>(), es);
      && s.consumed + (s.ch + (Held(s) + s.wire)) == s.sent
      && s.consumed <= s.sent
      && |s.ch| <= 1
  {
    RunKeeps(Init<T>(), es);
  }

  // The client's channel is closed once, by its goroutine's exit, and nothing
  // is sent to it afterwards; closing the client twice is harmless.
  lemma ChannelClosedOnce<T>(es: seq<Event<T>>)
    requires IsRun(Init<T>(), es)
    ensures var s := Exec(Init<T>(), es);
      !s.panicked && (s.chClosed <==> s.client.ClientReturned?)
  {
    RunKeeps(Init<T>(), es);
  }

  // StreamStatus has returned only if sendLoop has, the error it returns is
  // never context.Canceled, and the receive goroutine's post never blocks,
  // whichever branch was taken.
  lemma HandlerResult<T>(es: seq<Event<T>>)
    requires IsRun(Init<T>(), es)
    ensures var s := Exec(Init<T>(), es);
      && (s.handler.Returned? ==> s.send.SendReturned? && s.handler.e != Some(Canceled))
      && (s.recv.Posting? ==> Enabled(s, Post))
      && (s.handler.Draining? ==> (Enabled(s, Return) <==> s.send.SendReturned?))
  {
    RunKeeps(Init<T>(), es);
  }

  // ----- the steps of the handler and its send loop -----

  predicate IsHandlers<T>(e: Event<T>) {
    e.Tick? || e.SendOk? || e.SendFail? || e.SendQuit? || e.TakeErr? || e.TakeCtx? || e.Return?
  }

  predicate IsClients<T>(e: Event<T>) {
    e.ClientQuit? || e.ClientReceive? || e.ClientFails? || e.Deliver?
  }

  // Neither the handler nor its send loop moves, nor is the context undone.
  predicate SameHandler<T(==)>(s: State<T>, t: State<T>) {
    (s.ctx.Some? ==> t.ctx == s.ctx) && t.send == s.send && t.handler == s.handler && t.sent == s.sent
  }

  lemma EnvironmentStays<T>(s: State<T>, e: Event<T>)
    requires Enabled(s, e)
    requires e.RootDone? || e.ServerClose? || e.CtxDone? || e.ClientCtxDone? || e.ClientClose?
    ensures SameHandler(s, Step(s, e))
  {
  }

  lemma ReceiversStay<T>(s: State<T>, e: Event<T>)
    requires Enabled(s, e)
    requires e.RecvMessage? || e.RecvEnds? || e.RecvRoot? || e.RecvClosed? || e.Post?
    ensures SameHandler(s, Step(s, e))
  {
  }

  lemma ClientsStay<T>(s: State<T>, e: Event<T>)
    requires Enabled(s, e) && (IsClients(e) || e.Consume?)
    ensures SameHandler(s, Step(s, e))
  {
  }

  lemma OthersStep<T>(s: State<T>, e: Event<T>)
    requires Enabled(s, e) && !IsHandlers(e)
    ensures SameHandler(s, Step(s, e))
  {
    hide Enabled, Step, SameHandler;
    if IsClients(e) || e.Consume? {
      ClientsStay(s, e);
    } else if e.RecvMessage? || e.RecvEnds? || e.RecvRoot? || e.RecvClosed? || e.Post? {
      ReceiversStay(s, e);
    } else {
      EnvironmentStays(s, e);
    }
  }

  lemma ReturnedStays<T>(s: State<T>, e: Event<T>)
    requires Inv(s) && Enabled(s, e) && s.handler.Returned?
    ensures Step(s, e).sent == s.sent && Step(s, e).handler == s.handler
  {
    hide Step, Held;
    OthersStep(s, e);
  }

  // Nothing is sent after StreamStatus has returned, however the run goes on.
  lemma {:induction false} NoSendAfterReturn<T>(s: State<T>, es: seq<Event<T>>)
    requires Inv(s) && IsRun(s, es) && s.handler.Returned?
    ensures Exec(s, es).sent == s.sent && Exec(s, es).handler == s.handler
    decreases |es|
  {
    hide Step, Enabled;
    if es != [] {
      ReturnedStays(s, es[0]);
      StepKeeps(s, es[0]);
      NoSendAfterReturn(Step(s, es[0]), es[1..]);
    }
  }

  // ----- StreamStatus returns once its context is done -----

  function SendRank<T>(pc: SendPc<T>): nat {
    match pc case Selecting => 2 case Sending(_) => 1 case SendReturned => 0
  }

  function HandlerRank(pc: HandlerPc): nat {
    match pc case Choosing => 2 case Draining(_) => 1 case Returned(_) => 0
  }

  // Steps that StreamStatus and its send loop still have to take.
  function Rank<T>(s: State<T>): nat {
    SendRank(s.send) + HandlerRank(s.handler)
  }

  // Those that come about by themselves: the ticker ticks, a send fails, the
  // select finds the context done, the wait group's wait is over.
  predicate Forced<T>(e: Event<T>) {
    e.Tick? || e.SendFail? || e.TakeCtx? || e.Return?
  }

  lemma HandlersStep<T>(s: State<T>, e: Event<T>)
    requires Enabled(s, e) && s.ctx.Some? && IsHandlers(e)
    ensures Step(s, e).ctx == s.ctx && Rank(Step(s, e)) < Rank(s)
  {
    if e.SendOk? || e.Tick? || e.SendFail? || e.SendQuit? {
      assert Step(s, e).handler == s.handler;
    } else {
      assert Step(s, e).send == s.send;
    }
  }

  ghost function HandlerSteps<T>(es: seq<Event<T>>): nat {
    if es == [] then 0 else (if IsHandlers(es[0]) then 1 else 0) + HandlerSteps(es[1..])
  }

  lemma {:induction false} EndingRun<T>(s: State<T>, es: seq<Event<T>>)
    requires Inv(s) && IsRun(s, es) && s.ctx.Some?
    ensures HandlerSteps(es) + Rank(Exec(s, es)) <= Rank(s) <= 4
    ensures Inv(Exec(s, es)) && Exec(s, es).ctx == s.ctx
    decreases |es|
  {
    hide Step, Enabled, Inv;
    if es != [] {
      StepKeeps(s, es[0]);
      if IsHandlers(es[0]) {
        HandlersStep(s, es[0]);
      } else {
        OthersStep(s, es[0]);
      }
      EndingRun(Step(s, es[0]), es[1..]);
    }
  }

  // From the moment the stream's context is done, on every run: once the
  // handler and its send loop have taken the steps that are left, four at most,
  // StreamStatus has returned; until it has, one of them is possible, whatever
  // the client, the consumer and the rest of the server do or do not do.
  lemma StreamStatusReturns<T>(s: State<T>, es: seq<Event<T>>, x: T)
    requires Inv(s) && IsRun(s, es) && s.ctx.Some?
    ensures var t := Exec(s, es);
      && HandlerSteps(es) <= Rank(s) <= 4
      && (HandlerSteps(es) == Rank(s) ==> t.handler.Returned?)
      && (!t.handler.Returned? <==> exists e :: Enabled(t, e) && IsHandlers(e) && Forced(e))
  {
    hide IsRun, Exec, HandlerSteps;
    EndingRun(s, es);
    var t := Exec(s, es);
    if !t.handler.Returned? {
      var e := if t.handler.Choosing? then TakeCtx
               else match t.send case Selecting => Tick(x) case Sending(_) => SendFail case SendReturned => Return;
      assert Enabled(t, e) && IsHandlers(e) && Forced(e);
    }
  }

  // ----- where the answer comes from -----

  // The receive goroutine can have posted this: what RecvMsg ended with, the
  // root context's error, or that the server is closed.
  predicate Gives<T(==)>(s: State<T>, past: seq<Event<T>>, a: Option<Err>) {
    RecvEnds(a) in past || (s.root.Some? && a == s.root) || (s.closed && a == Some(ServerClosed))
  }

  ghost predicate Sourced<T>(s: State<T>, past: seq<Event<T>>) {
    && (s.recv.Posting? ==> Gives(s, past, s.recv.e))
    && (s.errc != [] ==> Gives(s, past, s.errc[0]))
    && (!s.handler.Choosing? ==>
          || (s.ctx.Some? && s.handler.e == Mapped(s.ctx))
          || exists a :: Gives(s, past, a) && s.handler.e == Mapped(a))
  }

  lemma SourcedStep<T>(s: State<T>, past: seq<Event<T>>, e: Event<T>)
    requires Inv(s) && Sourced(s, past) && Enabled(s, e)
    ensures Sourced(Step(s, e), past + [e])
  {
    var t := Step(s, e);
    assert e in past + [e];
    forall a | Gives(s, past, a) ensures Gives(t, past + [e], a) {
    }
    if e.TakeErr? {
      assert Gives(t, past + [e], s.errc[0]) && t.handler.e == Mapped(s.errc[0]);
    } else if !s.handler.Choosing? && !(s.ctx.Some? && s.handler.e == Mapped(s.ctx)) {
      var a :| Gives(s, past, a) && s.handler.e == Mapped(a);
      assert Gives(t, past + [e], a);
    }
  }

  lemma {:induction false} SourcedRun<T>(s: State<T>, past: seq<Event<T>>, es: seq<Event<T>>)
    requires Inv(s) && Sourced(s, past) && IsRun(s, es)
    ensures Sourced(Exec(s, es), past + es)
    decreases |es|
  {
    hide Step, Enabled, Sourced;
    if es == [] {
      assert past + es == past;
    } else {
      StepKeeps(s, es[0]);
      SourcedStep(s, past, es[0]);
      SourcedRun(Step(s, es[0]), past + [es[0]], es[1..]);
      assert past + [es[0]] + es[1..] == past + es;
    }
  }

  // What a branch of the select can have taken.
  predicate Takes<T(==)>(s: State<T>, past: seq<Event<T>>, a: Option<Err>) {
    Gives(s, past, a) || (s.ctx.Some? && a == s.ctx)
  }

  // StreamStatus answers with the stream context's error or with what ended the
  // receive loop, whichever its select took: as the status error if that is a
  // cancellation and unchanged if it is anything else, a deadline, the closed
  // server or the transport's error; nil only when the client half-closed.
  lemma AnswerComesFrom<T>(es: seq<Event<T>>)
    requires IsRun(Init<T>(), es)
    ensures var s := Exec(Init<T>(), es);
      s.handler.Returned? ==>
        exists a :: Takes(s, es, a)
                    && (a == Some(Canceled) ==> s.handler.e == Some(StatusCanceled))
                    && (a != Some(Canceled) ==> s.handler.e == a)
    ensures var s := Exec(Init<T>(), es);
      s.handler == Returned(None) ==> RecvEnds(None) in es
  {
    assert [] + es == es;
    SourcedRun(Init<T>(), [], es);
    var s := Exec(Init<T>(), es);
    if s.handler.Returned? {
      var a := if s.ctx.Some? && s.handler.e == Mapped(s.ctx) then s.ctx else
        var b :| Gives(s, es, b) && s.handler.e == Mapped(b); b;
      assert Takes(s, es, a);
    }
  }

  // What the select has taken, in either branch, is what StreamStatus answers,
  // with this one error replaced.
  lemma BranchIsAnswered<T>(s: State<T>, e: Event<T>, es: seq<Event<T>>)
    requires Inv(s) && Enabled(s, e) && (e.TakeErr? || e.TakeCtx?) && IsRun(Step(s, e), es)
    ensures var t := Exec(Step(s, e), es); var a := if e.TakeErr? then s.errc[0] else s.ctx;
      t.handler.Returned? ==> t.handler.e == if a == Some(Canceled) then Some(StatusCanceled) else a
  {
    StepKeeps(s, e);
    DrainingStays(Step(s, e), es);
  }

  lemma {:induction false} DrainingStays<T>(s: State<T>, es: seq<Event<T>>)
    requires IsRun(s, es) && !s.handler.Choosing?
    ensures !Exec(s, es).handler.Choosing? && Exec(s, es).handler.e == s.handler.e
    decreases |es|
  {
    hide Step, Enabled;
    if es != [] {
      AnswerStays(s, es[0]);
      DrainingStays(Step(s, es[0]), es[1..]);
    }
  }

  lemma AnswerStays<T>(s: State<T>, e: Event<T>)
    requires Enabled(s, e) && !s.handler.Choosing?
    ensures !Step(s, e).handler.Choosing? && Step(s, e).handler.e == s.handler.e
  {
    if !IsHandlers(e) {
      hide Step, Enabled;
      OthersStep(s, e);
    }
  }

  // ----- when the receiver is stuck -----

  // The client's goroutine can always take a step, unless it has returned or
  // holds a snapshot that its full channel does not take.
  lemma ReceiverBlockedExactlyWhen<T>(s: State<T>)
    requires Inv(s)
    ensures (forall e :: IsClients(e) ==> !Enabled(s, e))
            <==> s.client.ClientReturned? || (s.client.Delivering? && |s.ch| == 1)
  {
    if s.client.Reading? {
      assert IsClients<T>(ClientFails) && Enabled(s, ClientFails);
    } else if s.client.Delivering? && |s.ch| == 0 {
      assert IsClients<T>(Deliver) && Enabled(s, Deliver);
    }
  }

  ghost predicate NoConsume<T>(es: seq<Event<T>>) {
    forall i :: 0 <= i < |es| ==> !es[i].Consume?
  }

  lemma BlockedStays<T>(s: State<T>, e: Event<T>)
    requires Inv(s) && Enabled(s, e) && !e.Consume? && s.client.Delivering? && |s.ch| == 1
    ensures Step(s, e).client == s.client && Step(s, e).ch == s.ch
  {
  }

  // So a consumer that stops reading leaves it blocked for good: neither the
  // caller's context nor Close ends it, and the channel is never closed.
  lemma {:induction false} AbandonedReceiverStays<T>(s: State<T>, es: seq<Event<T>>)
    requires Inv(s) && IsRun(s, es) && NoConsume(es)
    requires s.client.Delivering? && |s.ch| == 1
    ensures Exec(s, es).client == s.client && !Exec(s, es).chClosed
    decreases |es|
  {
    hide Step, Enabled;
    if es != [] {
      StepKeeps(s, es[0]);
      assert !es[0].Consume?;
      BlockedStays(s, es[0]);
      AbandonedReceiverStays(Step(s, es[0]), es[1..]);
    }
  }

  lemma ConsRun<T>(s: State<T>, e: Event<T>, es: seq<Event<T>>)
    requires Enabled(s, e) && IsRun(Step(s, e), es)
    ensures IsRun(s, [e] + es) && Exec(s, [e] + es) == Exec(Step(s, e), es)
  {
    hide Enabled, Step;
    assert ([e] + es)[1..] == es;
  }

  // A snapshot goes from sendLoop to the client's goroutine.
  function Passing<T>(x: T, rest: seq<Event<T>>): seq<Event<T>> {
    [Tick(x)] + ([SendOk] + ([ClientReceive] + rest))
  }

  lemma Receives<T>(s: State<T>, x: T, rest: seq<Event<T>>)
    requires !s.panicked && s.ctx.None? && s.send.Selecting? && s.client.Reading? && s.wire == []
    requires IsRun(s.(sent := s.sent + [x], client := Delivering(x)), rest)
    ensures IsRun(s, Passing(x, rest))
    ensures Exec(s, Passing(x, rest)) == Exec(s.(sent := s.sent + [x], client := Delivering(x)), rest)
  {
    hide IsRun, Exec;
    var s1 := s.(send := Sending(x));
    var s2 := s.(sent := s.sent + [x], wire := [x]);
    assert [] + [x] == [x] && [x][1..] == [];
    ConsRun(s2, ClientReceive, rest);
    ConsRun(s1, SendOk, [ClientReceive] + rest);
    ConsRun(s, Tick(x), [SendOk] + ([ClientReceive] + rest));
  }

  // Two snapshots are received and none is read.
  function TwoUnread<T>(x: T, y: T): seq<Event<T>> {
    Passing(x, [Deliver] + Passing(y, []))
  }

  lemma TwoUnreadRun<T>(x: T, y: T)
    ensures IsRun(Init<T>(), TwoUnread(x, y))
    ensures Exec(Init<T>(), TwoUnread(x, y)) == Init<T>().(sent := [x, y], client := Delivering(y), ch := [x])
  {
    var s := Init<T>();
    var s3, s4 := s.(sent := [x], client := Delivering(x)), s.(sent := [x], ch := [x]);
    var s7 := s.(sent := [x, y], client := Delivering(y), ch := [x]);
    assert [] + [x] == [x] && [x] + [y] == [x, y];
    assert IsRun(s7, []) && Exec(s7, []) == s7;
    assert Enabled(s3, Deliver) && Step(s3, Deliver) == s4;
    hide IsRun, Exec, Passing, Step, Enabled;
    Receives(s4, y, []);
    ConsRun(s3, Deliver, Passing(y, []));
    Receives(s, x, [Deliver] + Passing(y, []));
  }

  // This does happen, whatever the snapshots are, and from then on the receiver
  // is stuck in every run on which the consumer does not read.
  lemma ReceiverCanBeAbandoned<T>(x: T, y: T)
    ensures IsRun(Init<T>(), TwoUnread(x, y))
    ensures var s := Exec(Init<T>(), TwoUnread(x, y));
      && s.client == Delivering(y) && s.ch == [x]
      && (forall e :: IsClients(e) ==> !Enabled(s, e))
      && forall es :: IsRun(s, es) && NoConsume(es) ==> Exec(s, es).client == Delivering(y) && !Exec(s, es).chClosed
  {
    var all := TwoUnread(x, y);
    TwoUnreadRun(x, y);
    var s := Exec(Init<T>(), all);
    RunKeeps(Init<T>(), all);
    hide IsRun, Exec, Inv, Enabled;
    ReceiverBlockedExactlyWhen(s);
    forall es | IsRun(s, es) && NoConsume(es) ensures Exec(s, es).client == Delivering(y) && !Exec(s, es).chClosed {
      AbandonedReceiverStays(s, es);
    }
  }
}
