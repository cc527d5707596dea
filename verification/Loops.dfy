// The status stream's loops as they are written: the server's sendLoop,
// recvLoop and StreamStatus, the client's receive goroutine and Close. Every
// statement is a step of module Stream, so that the object is always in a state
// that a run of those steps reaches.
module Loops {
  import opened Basics
  import opened Stream

  // What a call of RecvMsg on the server gives: a message, or what ends the
  // loop, end of file being None.
  datatype Received = Message | Ended(answer: Option<Err>)

  function Snapshots<T>(ticks: seq<(T, bool)>): (r: seq<T>)
    ensures |r| == |ticks|
  {
    seq(|ticks|, i requires 0 <= i < |ticks| => ticks[i].0)
  }

  lemma SnapshotsGrow<T>(ticks: seq<(T, bool)>, k: nat)
    requires k < |ticks|
    ensures Snapshots(ticks[..k + 1]) == Snapshots(ticks[..k]) + [ticks[k].0]
  {
  }

  lemma {:induction false} AppendRun<T>(s: State<T>, es: seq<Event<T>>, e: Event<T>)
    requires IsRun(s, es) && Enabled(Exec(s, es), e)
    ensures IsRun(s, es + [e]) && Exec(s, es + [e]) == Step(Exec(s, es), e)
    decreases |es|
  {
    hide Enabled, Step;
    if es == [] {
      assert ([] + [e])[1..] == [];
      assert IsRun(Step(s, e), []);
    } else {
      AppendRun(Step(s, es[0]), es[1..], e);
      assert (es + [e])[1..] == es[1..] + [e];
    }
  }

  class StatusStream<T> {
    // the contexts and the server's closed channel
    var root: Option<Err>
    var ctx: Option<Err>
    var closed: bool
    // the server's goroutines
    var send: SendPc<T>
    var recv: RecvPc
    var errc: seq<Option<Err>>
    var wg: nat
    var handler: HandlerPc
    var wire: seq<T>
    // the client
    var clientDone: bool
    var clientClosed: bool
    var clientOnce: bool
    var client: ClientPc<T>
    var ch: seq<T>
    var chClosed: bool
    // history: what was sent, what the consumer has read, which steps were taken
    ghost var sent: seq<T>
    ghost var consumed: seq<T>
    ghost var run: seq<Event<T>>

    ghost function View(): State<T>
      reads this
    {
      State(root, closed, ctx, send, recv, errc, wg, handler, sent, wire,
            clientDone, clientClosed, clientOnce, client, ch, chClosed, consumed, false)
    }

    ghost predicate Valid()
      reads this
    {
      IsRun(Init<T>(), run) && Exec(Init<T>(), run) == View() && Inv(View())
    }

    constructor ()
      ensures Valid() && send.Selecting? && recv.Receiving? && handler.Choosing? && client.Reading?
    {
      root, ctx, closed := None, None, false;
      send, recv, errc, wg, handler, wire := Selecting, Receiving, [], 1, Choosing, [];
      clientDone, clientClosed, clientOnce, client, ch, chClosed := false, false, false, Reading, [], false;
      sent, consumed, run := [], [], [];
    }

    ghost method Note(before: State<T>, e: Event<T>)
      requires IsRun(Init<T>(), run) && Exec(Init<T>(), run) == before && Inv(before)
      requires Enabled(before, e) && Step(before, e) == View()
      modifies `run
      ensures Valid()
    {
      hide Enabled, Step, Inv;
      AppendRun(Init<T>(), run, e);
      StepKeeps(before, e);
      run := run + [e];
    }

    // ----- sendLoop -----

    // One tick: the snapshot goes out, or the loop ends. On a stream whose
    // context is done no send works.
    method Send(x: T, works: bool)
      requires Valid() && send.Selecting?
      modifies `send, `wg, `sent, `wire, `run
      ensures Valid()
      ensures if works && ctx.None? then send.Selecting? && sent == old(sent) + [x] && wire == old(wire) + [x]
              else send.SendReturned? && sent == old(sent) && wire == old(wire)
    {
      hide IsRun, Exec, Inv, Held, Step;
      Ticked(x);
      if works && ctx.None? {
        SendWorks();
      } else {
        LeaveSendLoop(SendFail);
      }
    }

    method Ticked(x: T)
      requires Valid() && send.Selecting?
      modifies `send, `run
      ensures Valid() && send == Sending(x)
    {
      hide IsRun, Exec, Inv, Held;
      ghost var before := View();
      send := Sending(x);
      Note(before, Tick(x));
    }

    method SendWorks()
      requires Valid() && send.Sending? && ctx.None?
      modifies `send, `sent, `wire, `run
      ensures Valid() && send.Selecting? && sent == old(sent) + [old(send).x] && wire == old(wire) + [old(send).x]
    {
      hide IsRun, Exec, Inv, Held;
      ghost var before := View();
      send, sent, wire := Selecting, sent + [send.x], wire + [send.x];
      Note(before, SendOk);
    }

    // sendLoop returns and its goroutine calls wg.Done.
    method LeaveSendLoop(ghost e: Event<T>)
      requires Valid() && Enabled(View(), e) && (e.SendFail? || e.SendQuit?)
      modifies `send, `wg, `run
      ensures Valid() && send.SendReturned?
    {
      hide IsRun, Exec, Held;
      ghost var before := View();
      wg := wg - 1;
      send := SendReturned;
      Note(before, e);
    }

    // `ticks` is what the ticker and Send give: the snapshots that are current
    // at each tick, and whether sending it works. The loop sends them in this
    // order, up to the first that fails or to the end of the server; none once
    // the stream's context is done.
    method SendLoop(ticks: seq<(T, bool)>) returns (k: nat)
      requires Valid() && send.Selecting?
      modifies `send, `wg, `sent, `wire, `run
      ensures Valid() && k <= |ticks|
      ensures sent == old(sent) + Snapshots(ticks[..k]) && wire == old(wire) + Snapshots(ticks[..k])
      ensures forall i :: 0 <= i < k ==> ticks[i].1
      ensures ctx.Some? ==> k == 0
      ensures send.SendReturned? || (send.Selecting? && k == |ticks|)
      ensures send.SendReturned? && root.None? && !closed ==> k < |ticks| && (!ticks[k].1 || ctx.Some?)
    {
      hide IsRun, Exec, Inv, Enabled, Step, Held;
      k := 0;
      while k < |ticks|
        invariant k <= |ticks| && Valid() && send.Selecting?
        invariant sent == old(sent) + Snapshots(ticks[..k]) && wire == old(wire) + Snapshots(ticks[..k])
        invariant forall i :: 0 <= i < k ==> ticks[i].1
        invariant ctx.Some? ==> k == 0
      {
        var quits: bool := *;
        if (root.Some? || closed) && quits {
          MayQuit();
          LeaveSendLoop(SendQuit);
          return;
        }
        Send(ticks[k].0, ticks[k].1);
        if send.SendReturned? {
          return;
        }
        SnapshotsGrow(ticks, k);
        k := k + 1;
      }
    }

    lemma MayQuit()
      requires Valid() && send.Selecting? && (root.Some? || closed)
      ensures Enabled(View(), SendQuit)
    {
    }

    // ----- recvLoop and its goroutine -----

    // `answers` is what RecvMsg gives, call by call. The loop ends with the
    // first that is not a message, or with the end of the server; when that has
    // come it receives no more.
    method RecvLoop(answers: seq<Received>) returns (k: nat)
      requires Valid() && recv.Receiving?
      modifies `recv, `run
      ensures Valid() && k <= |answers|
      ensures forall i :: 0 <= i < k ==> answers[i].Message?
      ensures recv.Receiving? ==> k == |answers|
      ensures recv.Receiving? || (recv.Posting? && (
                || (k < |answers| && answers[k] == Ended(recv.e))
                || (root.Some? && recv.e == root)
                || (closed && recv.e == Some(ServerClosed))))
      ensures root.Some? || closed ==>
                k == 0 && recv.Posting? && ((root.Some? && recv.e == root) || (closed && recv.e == Some(ServerClosed)))
    {
      hide IsRun, Exec, Inv, Held;
      k := 0;
      while true
        invariant k <= |answers| && Valid() && recv.Receiving?
        invariant forall i :: 0 <= i < k ==> answers[i].Message?
        invariant root.Some? || closed ==> k == 0
        decreases |answers| - k
      {
        if root.Some? || closed {
          ServerEnds();
          return;
        }
        if k == |answers| {
          return;
        }
        match answers[k] {
          case Ended(answer) =>
            EndRecvLoop(answer, RecvEnds(answer));
            return;
          case Message =>
            ghost var before := View();
            Note(before, RecvMessage);
        }
        k := k + 1;
      }
    }

    // The select at the head of the loop takes either branch that is ready.
    method ServerEnds()
      requires Valid() && recv.Receiving? && (root.Some? || closed)
      modifies `recv, `run
      ensures Valid() && recv.Posting?
      ensures (root.Some? && recv.e == root) || (closed && recv.e == Some(ServerClosed))
    {
      hide IsRun, Exec, Inv, Held;
      if {
        case root.Some? => EndRecvLoop(root, RecvRoot);
        case closed => EndRecvLoop(Some(ServerClosed), RecvClosed);
      }
    }

    method EndRecvLoop(answer: Option<Err>, ghost e: Event<T>)
      requires Valid() && Enabled(View(), e) && Step(View(), e) == View().(recv := Posting(answer))
      modifies `recv, `run
      ensures Valid() && recv == Posting(answer)
    {
      hide IsRun, Exec, Inv, Held, Enabled, Step;
      ghost var before := View();
      recv := Posting(answer);
      Note(before, e);
    }

    // The send to errc finds room.
    method PostErr()
      requires Valid() && recv.Posting?
      modifies `recv, `errc, `run
      ensures Valid() && recv.RecvReturned? && errc == [old(recv).e]
    {
      hide IsRun, Exec, Held;
      ghost var before := View();
      errc, recv := errc + [recv.e], RecvReturned;
      Note(before, Post);
    }

    // ----- StreamStatus -----

    // While it blocks, the other goroutines, the contexts and the client go on.
    method ServerMoves(x: T)
      requires Valid()
      modifies `send, `recv, `errc, `wg, `wire, `sent, `run
      ensures Valid()
    {
      hide IsRun, Exec, Inv, Held, Step, Enabled;
      if {
        case send.Selecting? => Ticked(x);
        case send.Sending? && ctx.None? => SendWorks();
        case send.Sending? => MaySendFail(); LeaveSendLoop(SendFail);
        case send.Selecting? && (root.Some? || closed) => MayQuit(); LeaveSendLoop(SendQuit);
        case recv.Posting? => PostErr();
        case recv.Receiving? => RecvMoves();
        case true =>
      }
    }

    method RecvMoves()
      requires Valid() && recv.Receiving?
      modifies `recv, `run
      ensures Valid()
    {
      hide IsRun, Exec, Inv, Held;
      var answer: Option<Err> := *;
      if {
        case root.Some? => EndRecvLoop(root, RecvRoot);
        case closed => EndRecvLoop(Some(ServerClosed), RecvClosed);
        case true => EndRecvLoop(answer, RecvEnds(answer));
      }
    }

    method ContextsMove()
      requires Valid()
      modifies `root, `ctx, `closed, `clientDone, `run
      ensures Valid()
    {
      hide IsRun, Exec, Held;
      ghost var before := View();
      var canceled: bool := *;
      var err := if canceled then Canceled else Deadline;
      if {
        case root.None? =>
          root := Some(err);
          Note(before, RootDone(err));
        case !closed =>
          closed := true;
          Note(before, ServerClose);
        case !clientDone =>
          clientDone := true;
          Note(before, ClientCtxDone);
        case true =>
      }
    }

    method ClientMoves()
      requires Valid()
      modifies `client, `wire, `ch, `chClosed, `consumed, `clientOnce, `clientClosed, `run
      ensures Valid()
    {
      hide IsRun, Exec, Inv, Held, Step, Enabled;
      if {
        case client.Reading? && wire != [] => var _ := Take();
        case client.Reading? => MayLeave(); Exit(ClientFails);
        case client.Delivering? && |ch| == 0 => Put();
        case ch != [] => var _ := Read();
        case true => Close();
      }
    }

    method Others(x: T)
      requires Valid()
      modifies `root, `ctx, `closed, `send, `recv, `errc, `wg, `wire, `clientDone, `clientClosed, `clientOnce,
        `client, `ch, `chClosed, `sent, `consumed, `run
      ensures Valid()
    {
      hide IsRun, Exec, Inv, Held, Step, Enabled;
      if {
        case true => ServerMoves(x);
        case true => ContextsMove();
        case true => ClientMoves();
      }
    }

    method EndContext(err: Err)
      requires Valid() && ctx.None? && ContextErr(err)
      modifies `ctx, `run
      ensures Valid() && ctx == Some(err)
    {
      hide IsRun, Exec, Held;
      ghost var before := View();
      ctx := Some(err);
      Note(before, CtxDone(err));
    }

    lemma MaySendFail()
      requires Valid() && send.Sending?
      ensures Enabled(View(), SendFail)
    {
    }

    // The select blocks until one of its branches is ready. `patience` bounds
    // the steps of the others before the stream's context is done.
    method AwaitBranch(infos: nat -> T, patience: nat, err: Err)
      requires Valid() && handler.Choosing? && ContextErr(err)
      modifies `root, `ctx, `closed, `send, `recv, `errc, `wg, `wire, `clientDone, `clientClosed, `clientOnce,
        `client, `ch, `chClosed, `sent, `consumed, `run
      ensures Valid() && (errc != [] || ctx.Some?)
    {
      hide IsRun, Exec, Inv, Held, Step, Enabled;
      var left := patience;
      while errc == [] && ctx.None?
        invariant Valid()
        decreases left, ctx.None?
      {
        if left == 0 {
          EndContext(err);
        } else {
          Others(infos(left));
          left := left - 1;
        }
      }
    }

    // wg.Wait blocks until sendLoop has returned; after `patience` steps of the
    // others a send fails.
    method AwaitSendLoop(infos: nat -> T, patience: nat)
      requires Valid() && handler.Draining?
      modifies `root, `ctx, `closed, `send, `recv, `errc, `wg, `wire, `clientDone, `clientClosed, `clientOnce,
        `client, `ch, `chClosed, `sent, `consumed, `run
      ensures Valid() && wg == 0
    {
      hide IsRun, Exec, Held, Step, Enabled, Inv;
      var left := patience;
      while wg != 0
        invariant Valid()
        decreases left, wg
      {
        if left == 0 {
          BreakSend(infos(left));
        } else {
          Others(infos(left));
          left := left - 1;
        }
      }
    }

    method BreakSend(x: T)
      requires Valid() && wg != 0
      modifies `send, `wg, `run
      ensures Valid() && wg == 0
    {
      hide IsRun, Exec, Held, Step, Enabled;
      if send.Selecting? {
        Ticked(x);
      }
      MaySendFail();
      LeaveSendLoop(SendFail);
    }

    // StreamStatus once its goroutines are started: the select, the mapping of
    // context.Canceled, and the wait for sendLoop, whatever the others do
    // meanwhile. It is a run of the steps: all that is proved of those holds of it.
    method StreamStatus(infos: nat -> T, patience: nat, end: Err) returns (err: Option<Err>)
      requires Valid() && handler.Choosing? && ContextErr(end)
      modifies this
      ensures Valid() && handler == Returned(err) && err != Some(Canceled) && send.SendReturned?
      ensures exists a :: Takes(View(), run, a)
                          && (a == Some(Canceled) ==> err == Some(StatusCanceled))
                          && (a != Some(Canceled) ==> err == a)
    {
      hide IsRun, Exec, Held, Gives, Takes;
      AwaitBranch(infos, patience, end);
      err := Choose();
      AwaitSendLoop(infos, patience);
      ghost var before := View();
      handler := Returned(err);
      Note(before, Return);
      AnswerComesFrom(run);
    }

    method Choose() returns (err: Option<Err>)
      requires Valid() && handler.Choosing? && (errc != [] || ctx.Some?)
      modifies `handler, `errc, `run
      ensures Valid() && handler == Draining(err)
      ensures || (old(ctx).Some? && err == if ctx == Some(Canceled) then Some(StatusCanceled) else ctx)
              || (old(errc) != []
                  && err == if old(errc)[0] == Some(Canceled) then Some(StatusCanceled) else old(errc)[0])
    {
      if {
        case errc != [] => err := ChooseErr();
        case ctx.Some? => err := ChooseCtx();
      }
    }

    method ChooseErr() returns (err: Option<Err>)
      requires Valid() && handler.Choosing? && errc != []
      modifies `handler, `errc, `run
      ensures Valid() && handler == Draining(err)
      ensures err == if old(errc)[0] == Some(Canceled) then Some(StatusCanceled) else old(errc)[0]
    {
      hide IsRun, Exec, Inv, Held;
      ghost var before := View();
      err := errc[0];
      if err == Some(Canceled) {
        err := Some(StatusCanceled);
      }
      errc, handler := errc[1..], Draining(err);
      Note(before, TakeErr);
    }

    method ChooseCtx() returns (err: Option<Err>)
      requires Valid() && handler.Choosing? && ctx.Some?
      modifies `handler, `run
      ensures Valid() && handler == Draining(err)
      ensures err == if ctx == Some(Canceled) then Some(StatusCanceled) else ctx
    {
      hide IsRun, Exec, Inv, Held;
      ghost var before := View();
      err := ctx;
      if err == Some(Canceled) {
        err := Some(StatusCanceled);
      }
      handler := Draining(err);
      Note(before, TakeCtx);
    }

    // ----- the client -----

    // The consumer reads one snapshot.
    method Read() returns (x: T)
      requires Valid() && ch != []
      modifies `ch, `consumed, `run
      ensures Valid() && old(ch) == [x] + ch && consumed == old(consumed) + [x]
    {
      hide IsRun, Exec, Inv, Held;
      ghost var before := View();
      x := ch[0];
      ch, consumed := ch[1..], consumed + [ch[0]];
      Note(before, Consume);
    }

    // RecvMsg and the send to the channel, which blocks until there is room.
    method Pass()
      requires Valid() && client.Reading? && wire != []
      modifies `client, `wire, `ch, `consumed, `run
      ensures Valid() && client.Reading? && wire == old(wire)[1..]
      ensures consumed + ch == old(consumed + ch) + [old(wire)[0]]
    {
      hide IsRun, Exec, Held, Step, Enabled;
      var x := Take();
      if |ch| == 1 {
        var _ := Read();
      }
      Put();
    }

    method Take() returns (x: T)
      requires Valid() && client.Reading? && wire != []
      modifies `client, `wire, `run
      ensures Valid() && client == Delivering(x) && old(wire) == [x] + wire
    {
      hide IsRun, Exec, Inv, Held;
      ghost var before := View();
      x := wire[0];
      client, wire := Delivering(x), wire[1..];
      Note(before, ClientReceive);
    }

    method Put()
      requires Valid() && client.Delivering? && |ch| == 0
      modifies `client, `ch, `run
      ensures Valid() && client.Reading? && ch == [old(client).x]
    {
      hide IsRun, Exec, Held;
      ghost var before := View();
      ch, client := ch + [client.x], Reading;
      Note(before, Deliver);
    }

    // The goroutine's deferred CloseSend and close.
    method Exit(ghost e: Event<T>)
      requires Valid() && Enabled(View(), e) && (e.ClientQuit? || e.ClientFails?)
      modifies `client, `chClosed, `run
      ensures Valid() && client.ClientReturned? && chClosed
    {
      hide IsRun, Exec, Held;
      ghost var before := View();
      client, chClosed := ClientReturned, true;
      Note(before, e);
    }

    // The goroutine's loop over what is in flight, `fails` saying whether the
    // stream then breaks: the consumer's view grows by what was received, in
    // order, and the channel is closed when the goroutine ends, which it does at
    // once when the context is done or the client closed.
    method Receive(fails: bool) returns (k: nat)
      requires Valid() && client.Reading?
      modifies `client, `wire, `ch, `chClosed, `consumed, `run
      ensures Valid() && k <= |old(wire)|
      ensures wire == old(wire)[k..] && consumed + ch == old(consumed + ch) + old(wire)[..k]
      ensures chClosed <==> client.ClientReturned?
      ensures !clientDone && !clientClosed ==> k == |old(wire)| && (chClosed <==> fails)
      ensures clientDone || clientClosed ==> k == 0 && client.ClientReturned? && wire == old(wire)
    {
      hide IsRun, Exec, Inv, Held, Step, Enabled;
      k := 0;
      while true
        invariant Valid() && client.Reading? && k <= |old(wire)|
        invariant wire == old(wire)[k..] && consumed + ch == old(consumed + ch) + old(wire)[..k]
        invariant clientDone || clientClosed ==> k == 0
        decreases |wire|
      {
        if clientDone || clientClosed {
          MayLeave();
          Exit(ClientQuit);
          return;
        }
        if wire == [] {
          break;
        }
        Pass();
        k := k + 1;
      }
      if fails {
        MayLeave();
        Exit(ClientFails);
      } else {
        StillOpen();
      }
    }

    lemma MayLeave()
      requires Valid() && client.Reading?
      ensures Enabled(View(), ClientFails)
      ensures clientDone || clientClosed ==> Enabled(View(), ClientQuit)
    {
    }

    lemma StillOpen()
      requires Valid() && client.Reading?
      ensures !chClosed
    {
    }

    // client.Close, any number of times.
    method Close()
      requires Valid()
      modifies `clientOnce, `clientClosed, `run
      ensures Valid() && clientClosed
    {
      hide IsRun, Exec, Held;
      ghost var before := View();
      if !clientOnce {
        clientOnce := true;
        clientClosed := true;
      }
      Note(before, ClientClose);
    }
  }
}
