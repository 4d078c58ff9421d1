/**
 * What the client's event steps do, stated over all states: the
 * serialization gate, the connect path, deque's resubmission, the handling
 * of completed messages, the stacking of `done` listeners and `error`
 * handlers, and the login continuation.
 */
module SessionProperties {
  import opened Wrappers
  import opened Framing
  import opened Responses
  import opened Session

  /** Every callback in the list belongs to a caller. */
  predicate AllCallers(pending: seq<Callback>) {
    forall k :: 0 <= k < |pending| ==> pending[k].Caller?
  }

  /** The log entries of answering each caller in turn with the same reply. */
  function Deliveries(pending: seq<Callback>, reply: Reply): (d: seq<Effect>)
    requires AllCallers(pending)
    ensures |d| == |pending|
    ensures forall k :: 0 <= k < |d| ==> d[k] == Delivered(pending[k].id, reply)
  {
    if pending == [] then [] else [Delivered(pending[0].id, reply)] + Deliveries(pending[1..], reply)
  }

  /** The reply a `done` listener hands its callback, when it hands one. */
  function ReplyTo(ev: DoneEvent): Option<Reply> {
    match ev
    case SocketFailed(code) => Some(Err(SocketError(code)))
    case Response(env) =>
      match Classify(env)
      case Rejected(m) => Some(Err(ServerError(m)))
      case Resolved(p) => Some(Ok(p))
      case _ => None
  }

  /** k copies of x. */
  function Repeat<T>(x: T, k: nat): (r: seq<T>)
    ensures |r| == k && forall j :: 0 <= j < k ==> r[j] == x
  {
    if k == 0 then [] else [x] + Repeat(x, k - 1)
  }

  // ----- sendRequest -----

  /** While a request is in flight, a non-login request is only appended to the queue. */
  lemma GatedRequestIsQueued(s: State, req: Request)
    requires s.waiting && !IsLoginRequest(req.body)
    ensures SendStep(s, req) == Sent(s.(queue := s.queue + [req]), None)
  {
  }

  /** Past the gate while disconnected: queue the request, set `waiting`, start a connection, write nothing. */
  lemma DisconnectedRequestStartsConnect(s: State, req: Request)
    requires !s.waiting || IsLoginRequest(req.body)
    requires !s.connected
    ensures SendStep(s, req) == Sent(SetupStep(s.(waiting := true, queue := s.queue + [req])), None)
    ensures SendStep(s, req).state.log == s.log + [Connecting]
    ensures SendStep(s, req).state.listeners == s.listeners
  {
  }

  /** Past the gate while connected: register the listener and write the length-prefixed request. */
  lemma ConnectedRequestIsFramed(s: State, req: Request)
    requires !s.waiting || IsLoginRequest(req.body)
    requires s.connected && |req.body| < FrameLimit
    ensures var o := SendStep(s, req);
      o.fault == None &&
      o.state == s.(waiting := true, listeners := s.listeners + [req.callback],
                    log := s.log + [Wrote(LengthHeader(|req.body|) + req.body)])
  {
  }

  /**
   * In a consistent client a queued request means a request is in flight, so
   * a non-login request submitted behind a non-empty queue never overtakes it.
   */
  lemma NoOvertakingQueuedRequests(s: State, req: Request)
    requires Consistent(s) && s.queue != [] && !IsLoginRequest(req.body)
    ensures SendStep(s, req) == Sent(s.(queue := s.queue + [req]), None)
  {
    GatedRequestIsQueued(s, req);
  }

  /** A request of 2^31 bytes or more throws after its listener is registered, and nothing is written. */
  lemma OversizedRequestThrows(s: State, req: Request)
    requires !s.waiting || IsLoginRequest(req.body)
    requires s.connected && |req.body| >= FrameLimit
    ensures SendStep(s, req) == Sent(s.(waiting := true, listeners := s.listeners + [req.callback]), Some(FrameTooLong))
  {
  }

  /**
   * A login request passes the gate while another request is in flight, and
   * its listener is registered beside the outstanding one.
   */
  lemma LoginBypassStacksListeners(s: State, cb: Callback)
    requires s.waiting && s.connected && IsLoginRequest(s.loginBody) && |s.loginBody| < FrameLimit
    ensures SendStep(s, Request(s.loginBody, cb)).state.listeners == s.listeners + [cb]
  {
  }

  // ----- deque -----

  /** deque on an empty queue only clears `waiting`. */
  lemma DequeOnEmptyQueue(s: State)
    requires s.queue == []
    ensures DequeStep(s) == Sent(s.(waiting := false), None)
  {
  }

  /** deque while connected takes exactly the head off the queue and sends it; the rest keep their order. */
  lemma DequeSendsHead(s: State)
    requires s.queue != [] && s.connected && |s.queue[0].body| < FrameLimit
    ensures var o := DequeStep(s);
      o.fault == None &&
      o.state == s.(waiting := true, queue := s.queue[1..],
                    listeners := s.listeners + [s.queue[0].callback],
                    log := s.log + [Wrote(LengthHeader(|s.queue[0].body|) + s.queue[0].body)])
  {
  }

  /** deque while disconnected puts the head back at the END of the queue and reconnects. */
  lemma DequeWhileDisconnectedRequeuesHeadLast(s: State)
    requires s.queue != [] && !s.connected
    ensures DequeStep(s) == Sent(SetupStep(s.(waiting := true, queue := s.queue[1..] + [s.queue[0]])), None)
  {
  }

  // ----- the data handler -----

  /** A handler still waiting for bytes emits nothing and changes nothing but its own accumulator. */
  lemma WaitingHandlerEmitsNothing(s: State, chunk: seq<byte>, parse: seq<byte> -> Option<Envelope>, i: nat)
    requires i < |s.readers|
    requires Feed(s.readers[i], chunk).Awaiting?
    ensures HandlerStep(s, chunk, parse, i) == s.(readers := s.readers[i := Feed(s.readers[i], chunk).next])
  {
  }

  /** A completed message with outer status 1010 marks the client disconnected and is not emitted. */
  lemma InactivityMarksDisconnected(s: State, chunk: seq<byte>, parse: seq<byte> -> Option<Envelope>, i: nat)
    requires i < |s.readers|
    requires Feed(s.readers[i], chunk).Filled?
    requires var m := Feed(s.readers[i], chunk).next.buffer; parse(m).Some? && parse(m).value.statusCode == Inactivity
    ensures var next := Feed(s.readers[i], chunk).next;
      HandlerStep(s, chunk, parse, i) == s.(readers := s.readers[i := next.(declared := None)], connected := false)
  {
  }

  /** Any other completed message clears the pending length and is emitted to the `done` listeners. */
  lemma CompletedMessageIsEmitted(s: State, chunk: seq<byte>, parse: seq<byte> -> Option<Envelope>, i: nat)
    requires i < |s.readers|
    requires Feed(s.readers[i], chunk).Filled?
    requires var m := Feed(s.readers[i], chunk).next.buffer; parse(m).Some? && parse(m).value.statusCode != Inactivity
    ensures var next := Feed(s.readers[i], chunk).next;
      HandlerStep(s, chunk, parse, i) ==
        EmitStep(s.(readers := s.readers[i := next.(declared := None)]), Response(parse(next.buffer).value))
  {
  }

  /** While only one set of handlers is registered, a data event is that handler fed the chunk. */
  lemma SingleHandlerData(s: State, chunk: seq<byte>, parse: seq<byte> -> Option<Envelope>)
    requires s.crashed.None? && |s.readers| == 1
    ensures DataStep(s, chunk, parse) == HandlerStep(s, chunk, parse, 0)
  {
    var r := HandlerStep(s, chunk, parse, 0);
    assert HandlersFrom(s, chunk, parse, 0, 1) == HandlersFrom(r, chunk, parse, 1, 1);
  }

  /** The i-th `data` handler fed a sequence of chunks, one event each, until the process ends. */
  function HandlerRun(s: State, chunks: seq<seq<byte>>, parse: seq<byte> -> Option<Envelope>, i: nat): (r: State)
    requires i < |s.readers|
    ensures |s.readers| <= |r.readers|
    ensures Consistent(s) ==> Consistent(r)
    decreases |chunks|
  {
    if chunks == [] || s.crashed.Some? then s
    else HandlerRun(HandlerStep(s, chunks[0], parse, i), chunks[1..], parse, i)
  }

  /**
   * What the i-th handler does once it holds the whole message p and the
   * parser accepts it: the pending length is cleared, then a 1010 response
   * disconnects and any other is emitted to the `done` listeners.
   */
  ghost function MessageHandled(s: State, i: nat, p: seq<byte>, env: Envelope): State
    requires i < |s.readers|
  {
    var cleared := s.(readers := s.readers[i := Reader(None, p)]);
    if env.statusCode == Inactivity then cleared.(connected := false) else EmitStep(cleared, Response(env))
  }

  /** A handler holding a proper prefix of p, fed the rest of p, handles p exactly once, at the last chunk. */
  lemma {:induction false} PendingHandlerCompletes(
    s: State, i: nat, p: seq<byte>, buf: seq<byte>, chunks: seq<seq<byte>>,
    parse: seq<byte> -> Option<Envelope>)
    requires s.crashed.None? && i < |s.readers| && s.readers[i] == Reader(Some(|p|), buf)
    requires |buf| < |p| && buf == p[..|buf|]
    requires Concat(chunks) == p[|buf|..]
    requires forall k :: 0 <= k < |chunks| ==> chunks[k] != []
    requires parse(p).Some?
    ensures HandlerRun(s, chunks, parse, i) == MessageHandled(s, i, p, parse(p).value)
    decreases |chunks|
  {
    ConcatOfNonEmpty(chunks);
    ConcatStart(chunks);
    var c := chunks[0];
    var rest := chunks[1..];
    assert c == p[|buf|..][..|c|];
    var grown := buf + c;
    assert grown == p[..|grown|];
    assert Feed(s.readers[i], c).next == Reader(Some(|p|), grown);
    var s1 := HandlerStep(s, c, parse, i);
    if |grown| == |p| {
      assert grown == p;
      assert Concat(rest) == [];
      ConcatOfNonEmpty(rest);
      assert s1 == MessageHandled(s, i, p, parse(p).value);
    } else {
      assert s1 == s.(readers := s.readers[i := Reader(Some(|p|), grown)]);
      assert Concat(rest) == p[|grown|..];
      PendingHandlerCompletes(s1, i, p, grown, rest, parse);
      assert s1.readers[i := Reader(None, p)] == s.readers[i := Reader(None, p)];
      assert MessageHandled(s1, i, p, parse(p).value) == MessageHandled(s, i, p, parse(p).value);
    }
  }

  /**
   * The reassembly round trip on the client's own data path: an encoded
   * frame fed to an idle handler, in non-empty chunks of which the first holds
   * the length header, changes nothing but that handler's accumulator until
   * the last chunk, where the decoded message is handled once.
   */
  lemma {:induction false} FrameReachesHandler(
    s: State, i: nat, p: seq<byte>, chunks: seq<seq<byte>>, parse: seq<byte> -> Option<Envelope>)
    requires s.crashed.None? && i < |s.readers| && s.readers[i].declared.None?
    requires EncodeFrame(p) == Some(Concat(chunks))
    requires |chunks| > 0 && |chunks[0]| >= 4
    requires forall k :: 0 <= k < |chunks| ==> chunks[k] != []
    requires parse(p).Some?
    ensures HandlerRun(s, chunks, parse, i) == MessageHandled(s, i, p, parse(p).value)
  {
    var frame := Concat(chunks);
    ConcatStart(chunks);
    var c := chunks[0];
    var rest := chunks[1..];
    assert c[..4] == frame[..4];
    assert ReadInt32BE(c) == ReadInt32BE(frame) == |p|;
    assert c[4..] == p[..|c| - 4];
    var s1 := HandlerStep(s, c, parse, i);
    if |c| - 4 == |p| {
      assert c[4..] == p;
      assert Concat(rest) == [];
      ConcatOfNonEmpty(rest);
      assert s1 == MessageHandled(s, i, p, parse(p).value);
    } else {
      assert s1 == s.(readers := s.readers[i := Reader(Some(|p|), c[4..])]);
      assert Concat(rest) == p[|c| - 4..];
      PendingHandlerCompletes(s1, i, p, c[4..], rest, parse);
      assert s1.readers[i := Reader(None, p)] == s.readers[i := Reader(None, p)];
      assert MessageHandled(s1, i, p, parse(p).value) == MessageHandled(s, i, p, parse(p).value);
    }
  }

  // ----- done listeners -----

  /** One emit answers every stacked caller listener, in registration order, with the same reply. */
  lemma {:induction false} EveryPendingCallerIsAnswered(s: State, pending: seq<Callback>, ev: DoneEvent)
    requires s.crashed.None? && AllCallers(pending) && ReplyTo(ev).Some?
    ensures FireAll(s, pending, ev) == s.(log := s.log + Deliveries(pending, ReplyTo(ev).value))
    decreases |pending|
  {
    if pending != [] {
      var reply := ReplyTo(ev).value;
      var s1 := ListenerStep(s, pending[0], ev);
      assert s1 == s.(log := s.log + [Delivered(pending[0].id, reply)]);
      EveryPendingCallerIsAnswered(s1, pending[1..], ev);
      assert s.log + Deliveries(pending, reply) == s.log + [Delivered(pending[0].id, reply)] + Deliveries(pending[1..], reply);
    }
  }

  /** emit('done') removes every listener and answers each caller among them. */
  lemma EmitAnswersEveryListener(s: State, ev: DoneEvent)
    requires s.crashed.None? && AllCallers(s.listeners) && ReplyTo(ev).Some?
    ensures EmitStep(s, ev) == s.(listeners := [], log := s.log + Deliveries(s.listeners, ReplyTo(ev).value))
  {
    EveryPendingCallerIsAnswered(s.(listeners := []), s.listeners, ev);
  }

  /**
   * Only an ExecuteQueryRs response reaches deque, and it invokes no callback;
   * every other response leaves the queue, `waiting` and the listeners alone.
   */
  lemma OnlyQueryResponsesDrain(s: State, id: nat, env: Envelope)
    ensures var r := ListenerStep(s, Caller(id), Response(env));
      (!Classify(env).QueryFallThrough? ==>
         r.queue == s.queue && r.waiting == s.waiting && r.listeners == s.listeners && r.readers == s.readers) &&
      (Classify(env).QueryFallThrough? ==>
         r == if IsTruthy(env, LoginResponse) then s else Settle(DequeStep(s)))
  {
  }

  /** A successful login response stores Ticket.Key and Ticket.UserID, then deques. */
  lemma LoginSuccessStoresTicket(s: State, env: Envelope)
    requires Accepted(env) && ResponseType(env) == LoginResponse
    ensures var r := ListenerStep(s, LoginContinuation, Response(env));
      r == Settle(DequeStep(s.(key := env.ticket.key, userId := env.ticket.userId))) &&
      r.key == env.ticket.key && r.userId == env.ticket.userId
  {
  }

  /**
   * A login sent while a caller's request is in flight stacks a second
   * listener, so the login response is delivered to that caller as well as
   * to the login continuation.
   */
  lemma LoginResponseReachesEarlierCaller(s: State, id: nat, env: Envelope)
    requires s.crashed.None? && s.connected && s.waiting && s.queue == [] && s.listeners == [Caller(id)]
    requires IsLoginRequest(s.loginBody) && |s.loginBody| < FrameLimit
    requires Accepted(env) && ResponseType(env) == LoginResponse
    ensures var r := EmitStep(SendStep(s, Request(s.loginBody, LoginContinuation)).state, Response(env));
      r.log == s.log + [Wrote(LengthHeader(|s.loginBody|) + s.loginBody), Delivered(id, Ok(Whole(env)))] &&
      r.key == env.ticket.key && r.userId == env.ticket.userId &&
      r.listeners == [] && !r.waiting && r.crashed.None?
  {
    var sent := SendStep(s, Request(s.loginBody, LoginContinuation)).state;
    assert sent.listeners == [Caller(id), LoginContinuation];
    var s0 := sent.(listeners := []);
    var s1 := ListenerStep(s0, Caller(id), Response(env));
    assert s1 == s0.(log := s0.log + [Delivered(id, Ok(Whole(env)))]);
    var s2 := ListenerStep(s1, LoginContinuation, Response(env));
    LoginSuccessStoresTicket(s1, env);
    assert s2 == s1.(key := env.ticket.key, userId := env.ticket.userId, waiting := false);
    assert [Caller(id), LoginContinuation][1..] == [LoginContinuation];
    assert FireAll(s0, [Caller(id), LoginContinuation], Response(env)) == FireAll(s1, [LoginContinuation], Response(env));
    assert FireAll(s1, [LoginContinuation], Response(env)) == FireAll(s2, [], Response(env));
  }

  // ----- error handlers -----

  /** An `error` event with no `done` listener registered throws. */
  lemma ErrorWithoutListenerThrows(s: State, code: string)
    requires s.crashed.None? && |s.readers| > 0 && s.listeners == []
    ensures ErrorStep(s, code) == s.(crashed := Some(UnhandledError(code)))
  {
  }

  /** With one set of handlers, an `error` event answers every caller listener with the error. */
  lemma ErrorReachesEveryCaller(s: State, code: string)
    requires s.crashed.None? && |s.readers| == 1 && s.listeners != [] && AllCallers(s.listeners)
    ensures ErrorStep(s, code) == s.(listeners := [], log := s.log + Deliveries(s.listeners, Err(SocketError(code))))
  {
    EmitAnswersEveryListener(s, SocketFailed(code));
  }

  /**
   * After a reconnect there are two `error` handlers: the first empties the
   * listeners, so the second finds none and throws.
   */
  lemma StackedErrorHandlersThrow(s: State, code: string)
    requires s.crashed.None? && |s.readers| >= 2 && s.listeners != [] && AllCallers(s.listeners)
    ensures ErrorStep(s, code) ==
      s.(listeners := [], log := s.log + Deliveries(s.listeners, Err(SocketError(code))),
         crashed := Some(UnhandledError(code)))
  {
    EmitAnswersEveryListener(s, SocketFailed(code));
    var s1 := EmitStep(s, SocketFailed(code));
    var k := |s.readers|;
    assert ErrorHandlers(s, code, k) == ErrorHandlers(s1, code, k - 1);
    assert ErrorHandlers(s1, code, k - 1) == s1.(crashed := Some(UnhandledError(code)));
  }

  // ----- connect -----

  /** k connect continuations send k login requests, each with its own listener. */
  lemma {:induction false} ContinuationsSendLogins(s: State, k: nat)
    requires s.crashed.None? && IsLoginRequest(s.loginBody) && |s.loginBody| < FrameLimit
    ensures var r := ConnectContinuations(s, k);
      r.crashed.None? && r.queue == s.queue && r.readers == s.readers &&
      r.listeners == s.listeners + Repeat(LoginContinuation, k) &&
      r.log == s.log + Repeat(Wrote(LengthHeader(|s.loginBody|) + s.loginBody), k) &&
      (k > 0 ==> r.connected && r.waiting)
    decreases k
  {
    if k > 0 {
      var frame := LengthHeader(|s.loginBody|) + s.loginBody;
      var s1 := Settle(SendStep(s.(connected := true), Request(s.loginBody, LoginContinuation)));
      assert s1 == s.(connected := true, waiting := true, listeners := s.listeners + [LoginContinuation],
                      log := s.log + [Wrote(frame)]);
      ContinuationsSendLogins(s1, k - 1);
      assert s.listeners + Repeat(LoginContinuation, k) == s.listeners + [LoginContinuation] + Repeat(LoginContinuation, k - 1);
      assert s.log + Repeat(Wrote(frame), k) == s.log + [Wrote(frame)] + Repeat(Wrote(frame), k - 1);
    }
  }

  /** A `connect` event runs every pending continuation: one login, and one listener, per connection setup that waited. */
  lemma ConnectSendsOneLoginPerWaiter(s: State)
    requires s.crashed.None? && IsLoginRequest(s.loginBody) && |s.loginBody| < FrameLimit
    ensures var r := ConnectStep(s);
      r.connectWaiters == 0 && r.queue == s.queue &&
      r.listeners == s.listeners + Repeat(LoginContinuation, s.connectWaiters) &&
      r.log == s.log + Repeat(Wrote(LengthHeader(|s.loginBody|) + s.loginBody), s.connectWaiters)
  {
    ContinuationsSendLogins(s.(connectWaiters := 0), s.connectWaiters);
  }
}
