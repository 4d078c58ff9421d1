/**
 * The Fishbowl client class of src/index.ts. Its fields are the class's own
 * (`key`, `userId`, `connected`, `waiting`, `reqQueue`) plus the state the
 * socket and the closures of setupConnection hold: the `done` listeners, the
 * pending connect continuations and one reassembly accumulator per `data`
 * handler. Each method is proved to take the client exactly where the
 * corresponding step of module Session does, and so keeps Session.Consistent.
 */
module FishbowlClient {
  import opened Wrappers
  import opened Framing
  import opened Responses
  import opened Session

  class Fishbowl {
    /** The text of loginRequest(): fixed once the client is constructed. */
    const loginBody: seq<byte>

    var key: string
    var userId: string
    var connected: bool
    var waiting: bool
    var reqQueue: seq<Request>

    /** once('done') listeners registered on the socket, oldest first. */
    var doneListeners: seq<Callback>
    /** Connect continuations registered by connect() and not yet run. */
    var connectWaiters: nat
    /** resLength/resData of each `data` handler, in registration order. */
    var readers: seq<Reader>
    /** The exception that escaped an event handler, if one did. */
    var crashed: Option<Fault>

    /** Bytes written to the socket, connect attempts and replies to callers, in order. */
    ghost var log: seq<Effect>

    ghost function Snapshot(): State
      reads this
    {
      State(loginBody, key, userId, connected, waiting, reqQueue, doneListeners,
            connectWaiters, readers, crashed, log)
    }

    ghost predicate Valid()
      reads this
    {
      Consistent(Snapshot())
    }

    constructor (loginBody: seq<byte>)
      ensures Snapshot() == Initial(loginBody) && Valid()
    {
      this.loginBody := loginBody;
      key, userId := "", "";
      connected, waiting := false, false;
      reqQueue, doneListeners := [], [];
      connectWaiters, readers := 0, [];
      crashed := None;
      log := [];
      new;
      SetupConnection();
    }

    /** setupConnection(): register another set of handlers and start connecting. */
    method SetupConnection()
      modifies this
      ensures Snapshot() == SetupStep(old(Snapshot()))
    {
      readers := readers + [Reader(None, [])];
      connectWaiters := connectWaiters + 1;
      log := log + [Connecting];
    }

    /** sendRequest(req, cb); `fault` is the exception it throws to its caller. */
    method SendRequest(req: Request) returns (fault: Option<Fault>)
      modifies this
      ensures Sent(Snapshot(), fault) == SendStep(old(Snapshot()), req)
      ensures old(Valid()) ==> Valid()
    {
      if waiting && !IsLoginRequest(req.body) {
        reqQueue := reqQueue + [req];
        return None;
      }
      waiting := true;
      if !connected {
        reqQueue := reqQueue + [req];
        SetupConnection();
        return None;
      }
      doneListeners := doneListeners + [req.callback];
      var frame := EncodeFrame(req.body);
      if frame.None? {
        return Some(FrameTooLong);
      }
      log := log + [Wrote(frame.value)];
      return None;
    }

    /** deque(): clear `waiting` and resubmit the head of the queue. */
    method Deque() returns (fault: Option<Fault>)
      requires Valid()
      modifies this
      ensures Sent(Snapshot(), fault) == DequeStep(old(Snapshot()))
      ensures Valid()
    {
      waiting := false;
      fault := None;
      if |reqQueue| > 0 {
        var head := reqQueue[0];
        reqQueue := reqQueue[1..];
        fault := SendRequest(head);
      }
    }

    /** deque() called from an event handler, where an exception ends the process. */
    method DequeInHandler()
      requires Valid()
      modifies this
      ensures Snapshot() == Settle(DequeStep(old(Snapshot())))
      ensures Valid()
    {
      var fault := Deque();
      if fault.Some? {
        crashed := fault;
      }
    }

    /** cb(err, res): a caller's callback, or the login handler of the connect continuation. */
    method InvokeCallback(cb: Callback, reply: Reply)
      requires Valid()
      modifies this
      ensures Snapshot() == CallbackStep(old(Snapshot()), cb, reply)
      ensures Valid()
    {
      match cb
      case Caller(id) =>
        log := log + [Delivered(id, reply)];
      case LoginContinuation =>
        match reply
        case Err(SocketError(_)) =>
        case Err(ServerError(m)) =>
          if m == "" {
            crashed := Some(LoginResultNotEnvelope);
          }
        case Ok(Whole(env)) =>
          key := env.ticket.key;
          userId := env.ticket.userId;
          DequeInHandler();
        case Ok(Inner(_)) =>
          crashed := Some(LoginResultNotEnvelope);
    }

    /** The once('done') listener sendRequest registers for `cb`. */
    method RunListener(cb: Callback, ev: DoneEvent)
      requires Valid()
      modifies this
      ensures Snapshot() == ListenerStep(old(Snapshot()), cb, ev)
      ensures Valid()
    {
      match ev
      case SocketFailed(code) =>
        InvokeCallback(cb, Err(SocketError(code)));
      case Response(env) =>
        var verdict := Classify(env);
        match verdict
        case NoResponseKey =>
          crashed := Some(MissingResponseKey);
        case Rejected(m) =>
          InvokeCallback(cb, Err(ServerError(m)));
        case Resolved(p) =>
          InvokeCallback(cb, Ok(p));
        case QueryFallThrough =>
          if !IsTruthy(env, LoginResponse) {
            DequeInHandler();
          }
    }

    /** emit('done', ...): take every registered listener off and run them in order. */
    method EmitDone(ev: DoneEvent)
      requires Valid()
      modifies this
      ensures Snapshot() == EmitStep(old(Snapshot()), ev)
      ensures Valid()
    {
      var pending := doneListeners;
      doneListeners := [];
      ghost var target := FireAll(Snapshot(), pending, ev);
      var i := 0;
      while i < |pending| && crashed.None?
        invariant 0 <= i <= |pending|
        invariant Valid()
        invariant FireAll(Snapshot(), pending[i..], ev) == target
        decreases |pending| - i
      {
        assert pending[i..][1..] == pending[i + 1..];
        RunListener(pending[i], ev);
        i := i + 1;
      }
    }

    /** The i-th `data` handler, fed one chunk. */
    method HandleData(chunk: seq<byte>, parse: seq<byte> -> Option<Envelope>, i: nat)
      requires Valid() && i < |readers|
      modifies this
      ensures Snapshot() == HandlerStep(old(Snapshot()), chunk, parse, i)
      ensures Valid()
    {
      var signal := Feed(readers[i], chunk);
      match signal
      case HeaderTooShort =>
        crashed := Some(ChunkTooShort);
      case Awaiting(next) =>
        readers := readers[i := next];
      case Filled(next) =>
        var parsed := parse(next.buffer);
        if parsed.None? {
          readers := readers[i := next];
          crashed := Some(MalformedJson);
        } else {
          readers := readers[i := next.(declared := None)];
          if parsed.value.statusCode == Inactivity {
            connected := false;
          } else {
            EmitDone(Response(parsed.value));
          }
        }
    }

    /** A `data` event: every handler registered before it, in order. */
    method OnData(chunk: seq<byte>, parse: seq<byte> -> Option<Envelope>)
      requires Valid()
      modifies this
      ensures Snapshot() == DataStep(old(Snapshot()), chunk, parse)
      ensures Valid()
    {
      if crashed.Some? {
        return;
      }
      var n := |readers|;
      ghost var target := HandlersFrom(Snapshot(), chunk, parse, 0, n);
      var i := 0;
      while i < n && crashed.None?
        invariant 0 <= i <= n <= |readers|
        invariant Valid()
        invariant HandlersFrom(Snapshot(), chunk, parse, i, n) == target
        decreases n - i
      {
        HandleData(chunk, parse, i);
        i := i + 1;
      }
    }

    /** An `error` event: one handler per setupConnection call. */
    method OnError(code: string)
      requires Valid()
      modifies this
      ensures Snapshot() == ErrorStep(old(Snapshot()), code)
      ensures Valid()
    {
      if crashed.Some? {
        return;
      }
      var k: nat := |readers|;
      ghost var target := ErrorHandlers(Snapshot(), code, k);
      while k > 0 && crashed.None?
        invariant Valid()
        invariant ErrorHandlers(Snapshot(), code, k) == target
        decreases k
      {
        if |doneListeners| > 0 {
          EmitDone(SocketFailed(code));
        } else {
          crashed := Some(UnhandledError(code));
        }
        k := k - 1;
      }
    }

    /** A `close` event. */
    method OnClose()
      requires Valid()
      modifies this
      ensures Snapshot() == CloseStep(old(Snapshot()))
      ensures Valid()
    {
      if crashed.None? {
        connected := false;
      }
    }

    /** The `connect` event: each pending continuation marks the client connected and sends the login request. */
    method OnConnect()
      requires Valid()
      modifies this
      ensures Snapshot() == ConnectStep(old(Snapshot()))
      ensures Valid()
    {
      if crashed.Some? {
        return;
      }
      var k: nat := connectWaiters;
      connectWaiters := 0;
      ghost var target := ConnectContinuations(Snapshot(), k);
      while k > 0 && crashed.None?
        invariant Valid()
        invariant ConnectContinuations(Snapshot(), k) == target
        decreases k
      {
        connected := true;
        var fault := SendRequest(Request(loginBody, LoginContinuation));
        if fault.Some? {
          crashed := fault;
        }
        k := k - 1;
      }
    }
  }
}
