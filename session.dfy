/**
 * The Fishbowl client of src/index.ts as a state machine: one function per
 * event (a call of sendRequest, the socket's connect, data, error and close
 * events) from the client's state to its next state. The class in
 * fishbowl.dfy implements these steps imperatively and is proved equal to
 * them.
 *
 * The socket is reduced to what the client observes: what it writes is
 * appended to `log`, a connect attempt is logged as Connecting, and the
 * events arrive as calls. Callbacks of callers are identified by number and
 * what they receive is logged; the client's own login continuation is
 * modelled in full.
 */
module Session {
  import opened Wrappers
  import opened Framing
  import opened Responses

  /** "LoginRq" in ASCII. */
  const LoginTag: seq<byte> := [0x4C, 0x6F, 0x67, 0x69, 0x6E, 0x52, 0x71]

  /** The login bypass of the serialization gate: req.includes('LoginRq'). */
  predicate IsLoginRequest(body: seq<byte>) {
    Contains(body, LoginTag)
  }

  /** A callback bound to a request: a caller's, or the connect continuation's login handler. */
  datatype Callback = Caller(id: nat) | LoginContinuation

  /** A request: its UTF-8 bytes and its callback (a `reqQueue` entry {req, cb}). */
  datatype Request = Request(body: seq<byte>, callback: Callback)

  /** The `err` a callback receives: a socket error, or a server statusMessage. */
  datatype ErrorValue = SocketError(code: string) | ServerError(message: string)

  /** cb(err, null) or cb(null, res). */
  datatype Reply = Err(error: ErrorValue) | Ok(payload: Payload)

  /** The arguments of a `done` event: an error, or a decoded response. */
  datatype DoneEvent = SocketFailed(code: string) | Response(envelope: Envelope)

  /** Exceptions the client raises. */
  datatype Fault =
    | FrameTooLong                 // writeIntBE on a request of 2^31 bytes or more
    | ChunkTooShort                // readInt32BE(0) on a chunk of fewer than 4 bytes
    | MalformedJson                // JSON.parse fails, or the result is not an envelope
    | MissingResponseKey           // FbiMsgsRs has no second key
    | LoginResultNotEnvelope       // the login continuation reads Ticket from something else
    | UnhandledError(code: string) // an `error` event with no `done` listener registered

  /** What the client does to the outside world. */
  datatype Effect = Wrote(bytes: seq<byte>) | Connecting | Delivered(id: nat, reply: Reply)

  /**
   * The client's state. `readers` has one entry per setupConnection call,
   * because each call registers a further `data`, `error` and `close`
   * handler on the same socket; `connectWaiters` counts the connect
   * continuations registered and not yet run; `listeners` are the once('done')
   * listeners in registration order. `crashed` records an exception that
   * escaped an event handler, which ends the process.
   */
  datatype State = State(
    loginBody: seq<byte>,
    key: string,
    userId: string,
    connected: bool,
    waiting: bool,
    queue: seq<Request>,
    listeners: seq<Callback>,
    connectWaiters: nat,
    readers: seq<Reader>,
    crashed: Option<Fault>,
    log: seq<Effect>)

  /** The state after a call, and the exception it throws to its caller, if any. */
  datatype Sent = Sent(state: State, fault: Option<Fault>)

  /**
   * The invariant every step keeps: a request is queued only while the
   * client is waiting, and there are never more pending connect
   * continuations than connection setups.
   */
  ghost predicate Consistent(s: State) {
    (s.queue != [] ==> s.waiting) && s.connectWaiters <= |s.readers|
  }

  /** setupConnection: a fresh set of handlers with an empty accumulator, and a connect attempt. */
  function SetupStep(s: State): (r: State)
    ensures s.readers <= r.readers && |r.readers| == |s.readers| + 1 && r.readers[|s.readers|].declared == None
    ensures r.connectWaiters == s.connectWaiters + 1 && r.log == s.log + [Connecting]
    ensures Consistent(s) ==> Consistent(r)
  {
    s.(readers := s.readers + [Reader(None, [])],
       connectWaiters := s.connectWaiters + 1,
       log := s.log + [Connecting])
  }

  /** The constructor: default state, then setupConnection. */
  function Initial(loginBody: seq<byte>): (s: State)
    ensures Consistent(s) && !s.connected && !s.waiting && s.queue == [] && s.listeners == []
    ensures |s.readers| == 1 && s.connectWaiters == 1 && s.crashed == None && s.log == [Connecting]
  {
    SetupStep(State(loginBody, "", "", false, false, [], [], 0, [], None, []))
  }

  /** sendRequest(req, cb). */
  function SendStep(s: State, req: Request): (o: Sent)
    ensures o.state.waiting
    ensures s.readers <= o.state.readers && o.state.crashed == s.crashed
    ensures o.fault.Some? ==> o.fault == Some(FrameTooLong)
    ensures s.connected ==> o.state.connected && o.state.readers == s.readers && o.state.connectWaiters == s.connectWaiters
    ensures Consistent(s) ==> Consistent(o.state)
  {
    if s.waiting && !IsLoginRequest(req.body) then
      Sent(s.(queue := s.queue + [req]), None)
    else if !s.connected then
      Sent(SetupStep(s.(waiting := true, queue := s.queue + [req])), None)
    else
      var armed := s.(waiting := true, listeners := s.listeners + [req.callback]);
      match EncodeFrame(req.body)
      case None => Sent(armed, Some(FrameTooLong))
      case Some(frame) => Sent(armed.(log := armed.log + [Wrote(frame)]), None)
  }

  /** deque(): clear `waiting`, then resubmit the head of the queue, if any. */
  function DequeStep(s: State): (o: Sent)
    ensures o.state.waiting <==> s.queue != []
    ensures s.readers <= o.state.readers && o.state.crashed == s.crashed
    ensures Consistent(s) ==> Consistent(o.state)
  {
    if |s.queue| > 0 then SendStep(s.(waiting := false, queue := s.queue[1..]), s.queue[0])
    else Sent(s.(waiting := false), None)
  }

  /** Inside an event handler an exception is not caught: it ends the process. */
  function Settle(o: Sent): State {
    if o.fault.Some? then o.state.(crashed := o.fault) else o.state
  }

  /**
   * Invoking a callback. A caller's callback is logged; the login
   * continuation ignores a truthy error, and otherwise stores the ticket of
   * the result and deques (an empty statusMessage is falsy, so it goes on to
   * read the ticket of `null`).
   */
  function CallbackStep(s: State, cb: Callback, reply: Reply): (r: State)
    ensures s.readers <= r.readers
    ensures cb.Caller? ==> r == s.(log := s.log + [Delivered(cb.id, reply)])
    ensures Consistent(s) ==> Consistent(r)
  {
    match cb
    case Caller(id) => s.(log := s.log + [Delivered(id, reply)])
    case LoginContinuation =>
      match reply
      case Err(SocketError(_)) => s
      case Err(ServerError(m)) => if m != "" then s else s.(crashed := Some(LoginResultNotEnvelope))
      case Ok(Whole(env)) => Settle(DequeStep(s.(key := env.ticket.key, userId := env.ticket.userId)))
      case Ok(Inner(_)) => s.(crashed := Some(LoginResultNotEnvelope))
  }

  /** The once('done') listener that sendRequest registers, run on one event. */
  function ListenerStep(s: State, cb: Callback, ev: DoneEvent): (r: State)
    ensures s.readers <= r.readers
    ensures Consistent(s) ==> Consistent(r)
  {
    match ev
    case SocketFailed(code) => CallbackStep(s, cb, Err(SocketError(code)))
    case Response(env) =>
      match Classify(env)
      case NoResponseKey => s.(crashed := Some(MissingResponseKey))
      case Rejected(m) => CallbackStep(s, cb, Err(ServerError(m)))
      case Resolved(p) => CallbackStep(s, cb, Ok(p))
      case QueryFallThrough => if IsTruthy(env, LoginResponse) then s else Settle(DequeStep(s))
  }

  /** Runs the listeners of one emit in order, stopping if one throws. */
  function FireAll(s: State, pending: seq<Callback>, ev: DoneEvent): (r: State)
    ensures s.readers <= r.readers
    ensures Consistent(s) ==> Consistent(r)
    decreases |pending|
  {
    if pending == [] || s.crashed.Some? then s
    else FireAll(ListenerStep(s, pending[0], ev), pending[1..], ev)
  }

  /** emit('done', ...): every registered once listener is removed and run. */
  function EmitStep(s: State, ev: DoneEvent): (r: State)
    ensures s.readers <= r.readers
    ensures Consistent(s) ==> Consistent(r)
  {
    FireAll(s.(listeners := []), s.listeners, ev)
  }

  /** The `data` handler of the i-th setupConnection call, fed one chunk. */
  function HandlerStep(s: State, chunk: seq<byte>, parse: seq<byte> -> Option<Envelope>, i: nat): (r: State)
    requires i < |s.readers|
    ensures |s.readers| <= |r.readers|
    ensures Consistent(s) ==> Consistent(r)
  {
    match Feed(s.readers[i], chunk)
    case HeaderTooShort => s.(crashed := Some(ChunkTooShort))
    case Awaiting(next) => s.(readers := s.readers[i := next])
    case Filled(next) =>
      match parse(next.buffer)
      case None => s.(readers := s.readers[i := next], crashed := Some(MalformedJson))
      case Some(env) =>
        var cleared := s.(readers := s.readers[i := next.(declared := None)]);
        if env.statusCode == Inactivity then cleared.(connected := false)
        else EmitStep(cleared, Response(env))
  }

  /** The handlers i..n-1 in registration order, stopping if one throws. */
  function HandlersFrom(s: State, chunk: seq<byte>, parse: seq<byte> -> Option<Envelope>, i: nat, n: nat): (r: State)
    requires n <= |s.readers|
    ensures |s.readers| <= |r.readers|
    ensures Consistent(s) ==> Consistent(r)
    decreases n - i
  {
    if i >= n || s.crashed.Some? then s
    else HandlersFrom(HandlerStep(s, chunk, parse, i), chunk, parse, i + 1, n)
  }

  /**
   * A `data` event. The handlers registered while it is being delivered do
   * not see it. `parse` stands for JSON.parse and the property accesses that
   * follow it; None is a thrown exception.
   */
  function DataStep(s: State, chunk: seq<byte>, parse: seq<byte> -> Option<Envelope>): (r: State)
    ensures Consistent(s) ==> Consistent(r)
  {
    if s.crashed.Some? then s else HandlersFrom(s, chunk, parse, 0, |s.readers|)
  }

  /** k `error` handlers in turn: each emits `done` if a listener is registered, and throws otherwise. */
  function ErrorHandlers(s: State, code: string, k: nat): (r: State)
    ensures Consistent(s) ==> Consistent(r)
    decreases k
  {
    if k == 0 || s.crashed.Some? then s
    else if |s.listeners| > 0 then ErrorHandlers(EmitStep(s, SocketFailed(code)), code, k - 1)
    else s.(crashed := Some(UnhandledError(code)))
  }

  /** An `error` event, seen by one handler per setupConnection call. */
  function ErrorStep(s: State, code: string): (r: State)
    ensures Consistent(s) ==> Consistent(r)
  {
    if s.crashed.Some? then s else ErrorHandlers(s, code, |s.readers|)
  }

  /** A `close` event. */
  function CloseStep(s: State): (r: State)
    ensures r.crashed.None? ==> !r.connected
    ensures Consistent(s) ==> Consistent(r)
  {
    if s.crashed.Some? then s else s.(connected := false)
  }

  /** k connect continuations in turn: each marks the client connected and sends a login request. */
  function ConnectContinuations(s: State, k: nat): (r: State)
    ensures r.connectWaiters == s.connectWaiters
    ensures k > 0 && r.crashed.None? ==> r.connected
    ensures Consistent(s) ==> Consistent(r)
    decreases k
  {
    if k == 0 || s.crashed.Some? then s
    else ConnectContinuations(Settle(SendStep(s.(connected := true), Request(s.loginBody, LoginContinuation))), k - 1)
  }

  /** The socket's `connect` event: every pending connect continuation runs once. */
  function ConnectStep(s: State): (r: State)
    ensures r.crashed.None? ==> r.connectWaiters == 0
    ensures Consistent(s) ==> Consistent(r)
  {
    if s.crashed.Some? then s else ConnectContinuations(s.(connectWaiters := 0), s.connectWaiters)
  }
}
