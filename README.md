# Fishbowl client: a verified model

This project models the `Fishbowl` client class of fishbowl-js (`src/index.ts`).
The client talks to a Fishbowl inventory server over one TCP connection.
Every message in either direction is a 4-byte big-endian length followed by
that many bytes of UTF-8 JSON. The client keeps one request in flight. Later
requests wait in `reqQueue` behind the `waiting` flag, and a login request
may bypass that gate. Responses are reassembled from TCP chunks by the
socket's `data` handler. A `done` listener registered by `sendRequest`
checks each response and answers the caller's callback.

The model has six modules:

- `Wrappers`: the `Option` datatype the other modules share.

- `Framing`: the length header (`writeIntBE`/`readInt32BE`), the frame
  encoder, the `includes('LoginRq')` test, and one `data` handler's
  accumulator (`resLength`/`resData`) fed one chunk at a time.
- `Responses`: the part of a response envelope the client reads, and the
  classification done by the `done` listener.
- `Session`: the client as a state machine, with one function per event.
  The events are a `sendRequest` call, `deque`, and the socket's `connect`,
  `data`, `error` and `close` events. Every step keeps the invariant
  `Consistent`: a request is queued only while `waiting` is set, and there
  are never more pending connect continuations than connection setups.
  `NoOvertakingQueuedRequests` uses it: a client that keeps it cannot let a
  new non-login request overtake the queued ones.
- `SessionProperties`: lemmas about those steps over all states.
- `FishbowlClient`: the class `Fishbowl`. Its fields are the source's fields,
  plus the state that the socket and the `setupConnection` closures hold.
  Each method is proved to reach exactly the state its `Session` step
  describes.

The model keeps several behaviours of the code that are easy to miss:

- Every `setupConnection` call registers another `data`, `error` and `close`
  handler on the same socket. Each `data` handler has its own accumulator.
  Each call also registers another connect continuation. `readers` has one
  entry per call, and `connectWaiters` counts the continuations not yet run.
- `once('done')` listeners stack. A login request passes the gate while
  another request is in flight, and one `emit('done')` runs every registered
  listener. `LoginResponseReachesEarlierCaller` shows the result: the earlier
  caller receives the login response.
- After a reconnect there are two `error` handlers. The first one consumes
  the listeners, so the second finds none and throws
  (`StackedErrorHandlersThrow`).
- If `deque` runs while the client is disconnected, the head request goes
  back to the END of the queue (`DequeWhileDisconnectedRequeuesHeadLast`).
- An empty `statusMessage` is falsy. The login continuation therefore goes
  on to read the ticket of `null`.

An exception that escapes an event handler ends the process. The model
records this in `crashed`, and once it is set no socket event (connect,
data, error, close) changes anything. `sendRequest` and `deque` do not look
at `crashed`: once the process has ended nothing calls them.
An exception thrown to a direct caller of `sendRequest` is the `fault`
result instead. The only such exception is writeIntBE's RangeError for a
request of 2^31 bytes or more.

The code lacks several things a client of this kind might be expected to
have, and the model lacks them too:

- a `loggedIn` flag, and a login that is a no-op when already logged in;
- fatal and transient socket errors with automatic reconnect;
- a fallback table from status codes to messages;
- tabular transcoding of query responses;
- at most one completion handler at a time.

## Model

| member | source | states |
|---|---|---|
| `Framing.ReadInt32BE` | src/index.ts:187 | the declared length read from a chunk is a signed 32-bit value, negative exactly when the top bit of the first byte is set |
| `Framing.LengthHeader` | src/index.ts:144-145 | the 4-byte header written for a length below 2^31 reads back, via readInt32BE, as that same length |
| `Framing.EncodeFrame` | src/index.ts:144-147 | a frame exists exactly when the request has fewer than 2^31 bytes; it is 4 bytes longer than the request, its header decodes to the request's byte count, and its remainder is the request |
| `Framing.Contains` | src/index.ts:98 | the login test is true exactly when the pattern occurs somewhere in the request |
| `Framing.Feed` | src/index.ts:186-206 | a chunk throws exactly when no length is pending and it is under 4 bytes; with no length pending the first 4 bytes become the declared length and the rest the buffer; with a length pending the chunk is appended and the length kept; a message is complete exactly when the buffered length equals the declared length |
| `Framing.Run` | src/index.ts:185-207 | a handler fed a sequence of chunks produces one signal per chunk, unless a chunk too short for a header throws, which ends the run at that chunk |
| `Framing.FrameReassembles` | src/index.ts:186-195 | an encoded frame fed in non-empty chunks, the first holding the header, yields "waiting" with the declared length kept at every chunk but the last, and the original payload exactly once, at the last chunk |
| `Framing.ShortBufferKeepsWaiting` | src/index.ts:189-205 | while the buffered length differs from the declared one, no message is emitted and the pending length stays |
| `Responses.Classify` | src/index.ts:116-137 | a rejection always carries the outer statusMessage; a result or the query fall-through happens exactly when both the outer status and the second key's status are 1000; a missing second key throws; `LoginRs` yields the whole envelope, `ExecuteQueryRs` yields the fall-through, and any other type yields the inner object |
| `Responses.InnerFailureReportsOuterMessage` | src/index.ts:124-129 | an inner failure is reported with the outer statusMessage |
| `Session.SetupStep` | src/index.ts:153-185 | setupConnection adds one handler set with no pending length and one connect continuation, logs a connect, and keeps the invariant |
| `Session.Initial` | src/index.ts:16-71 | a new client is disconnected and not waiting, with an empty queue, no listeners, one handler set and one pending connect |
| `Session.SendStep` | src/index.ts:94-148 | after sendRequest the client is always waiting; a connected client never reconnects; the only exception is the oversized frame; the invariant is kept |
| `Session.DequeStep` | src/index.ts:213-219 | after deque the client is waiting exactly when the queue was non-empty; the invariant is kept |
| `Session.CallbackStep` | src/index.ts:159-168 | a caller's callback receives exactly the reply and nothing else changes; the login continuation keeps the invariant |
| `Session.ListenerStep` | src/index.ts:111-142 | running one done listener never removes handler sets and keeps the invariant |
| `Session.FireAll` | src/index.ts:203 | running the listeners of one emit in order never removes handler sets and keeps the invariant |
| `Session.EmitStep` | src/index.ts:179 | emitting `done` never removes handler sets and keeps the invariant |
| `Session.HandlerStep` | src/index.ts:185-207 | one data handler fed one chunk never removes handler sets and keeps the invariant |
| `Session.HandlersFrom` | src/index.ts:185-207 | the data handlers run in registration order never remove handler sets and keep the invariant |
| `Session.DataStep` | src/index.ts:185-207 | a data event keeps the invariant |
| `Session.ErrorHandlers` | src/index.ts:176-183 | the error handlers run in turn keep the invariant |
| `Session.ErrorStep` | src/index.ts:176-183 | an error event keeps the invariant |
| `Session.CloseStep` | src/index.ts:171-174 | after a close event a live client is disconnected |
| `Session.ConnectContinuations` | src/index.ts:157-169 | the connect continuations leave the pending-continuation count alone and, when at least one ran, leave the client connected |
| `Session.ConnectStep` | src/index.ts:157-169 | after a connect event no continuation is pending |
| `SessionProperties.GatedRequestIsQueued` | src/index.ts:98-101 | while waiting, a non-login request is appended to the queue and nothing else changes: no write, no listener, `connected` untouched |
| `SessionProperties.DisconnectedRequestStartsConnect` | src/index.ts:103-108 | past the gate while disconnected: waiting is set, the request is queued, a connection is started, and no frame is written and no listener is added |
| `SessionProperties.ConnectedRequestIsFramed` | src/index.ts:103-147 | past the gate while connected: waiting is set, a listener is registered, and the written bytes are the length header followed by the request |
| `SessionProperties.NoOvertakingQueuedRequests` | src/index.ts:98-101 | in a client that keeps the invariant, a non-login request submitted while the queue is non-empty is appended behind it and nothing else changes |
| `SessionProperties.OversizedRequestThrows` | src/index.ts:111-145 | a request of 2^31 bytes or more throws after its listener is registered, and nothing is written |
| `SessionProperties.LoginBypassStacksListeners` | src/index.ts:98-111 | a login request sent while another is in flight adds a second done listener |
| `SessionProperties.DequeOnEmptyQueue` | src/index.ts:213-215 | deque on an empty queue only clears waiting |
| `SessionProperties.DequeSendsHead` | src/index.ts:213-219 | deque while connected removes exactly the head, sends it, and keeps the order of the rest |
| `SessionProperties.DequeWhileDisconnectedRequeuesHeadLast` | src/index.ts:213-219 | deque while disconnected moves the head to the end of the queue and starts a connection |
| `SessionProperties.WaitingHandlerEmitsNothing` | src/index.ts:193-205 | a handler still waiting for bytes changes only its own accumulator |
| `SessionProperties.InactivityMarksDisconnected` | src/index.ts:193-201 | a completed message with outer status 1010 clears the pending length, sets `connected` to false and is emitted to nobody |
| `SessionProperties.CompletedMessageIsEmitted` | src/index.ts:193-203 | any other completed message clears the pending length and is emitted to the done listeners |
| `SessionProperties.SingleHandlerData` | src/index.ts:185-207 | while one handler set is registered, a data event is that handler fed the chunk |
| `SessionProperties.HandlerRun` | src/index.ts:185-207 | one data handler fed chunk after chunk never removes handler sets and keeps the invariant |
| `SessionProperties.PendingHandlerCompletes` | src/index.ts:189-203 | a handler holding part of a message, fed the rest in non-empty chunks, changes only its accumulator until the last chunk, where the message is handled once |
| `SessionProperties.FrameReachesHandler` | src/index.ts:185-203 | an encoded frame fed to an idle handler in non-empty chunks, the first holding the header, is handled exactly once at the last chunk: the length is cleared, then a 1010 response disconnects and any other is emitted to the done listeners |
| `SessionProperties.EveryPendingCallerIsAnswered` | src/index.ts:111-137 | one emit answers every stacked caller listener, in registration order, with the same reply |
| `SessionProperties.EmitAnswersEveryListener` | src/index.ts:203 | emit removes all listeners and answers each caller among them |
| `SessionProperties.OnlyQueryResponsesDrain` | src/index.ts:131-141 | only an ExecuteQueryRs response reaches deque, and it invokes no callback; it skips deque only when FbiMsgsRs.LoginRs is truthy; every other response leaves the queue, waiting and the listeners alone |
| `SessionProperties.LoginSuccessStoresTicket` | src/index.ts:159-167 | a successful login response stores Ticket.Key and Ticket.UserID, then deques |
| `SessionProperties.LoginResponseReachesEarlierCaller` | src/index.ts:98-167 | a login sent while a caller's request is in flight makes the login response reach that caller too |
| `SessionProperties.ErrorWithoutListenerThrows` | src/index.ts:176-182 | an error with no done listener registered throws |
| `SessionProperties.ErrorReachesEveryCaller` | src/index.ts:176-180 | with one handler set, an error is delivered to every caller listener and nothing throws |
| `SessionProperties.StackedErrorHandlersThrow` | src/index.ts:176-182 | with two or more handler sets, an error is delivered to every listener and then throws |
| `SessionProperties.ContinuationsSendLogins` | src/index.ts:157-159 | k connect continuations register k login listeners and write k login frames, leaving the client connected and waiting |
| `SessionProperties.ConnectSendsOneLoginPerWaiter` | src/index.ts:157-159 | a connect event sends one login per pending continuation and leaves none pending |
| `FishbowlClient.Fishbowl.constructor` | src/index.ts:45-72 | the new client is the initial state and satisfies the invariant |
| `FishbowlClient.Fishbowl.SetupConnection` | src/index.ts:153-185 | the new state is the setup step of the old one |
| `FishbowlClient.Fishbowl.SendRequest` | src/index.ts:94-148 | the new state and the thrown exception are those of the send step |
| `FishbowlClient.Fishbowl.Deque` | src/index.ts:213-219 | the new state and the thrown exception are those of the deque step; the invariant is kept |
| `FishbowlClient.Fishbowl.DequeInHandler` | src/index.ts:140 | deque inside a handler; an exception ends the process |
| `FishbowlClient.Fishbowl.InvokeCallback` | src/index.ts:159-168 | the new state is the callback step; the invariant is kept |
| `FishbowlClient.Fishbowl.RunListener` | src/index.ts:111-142 | the new state is the listener step; the invariant is kept |
| `FishbowlClient.Fishbowl.EmitDone` | src/index.ts:203 | the listeners run in a loop reach the emit step's state; the invariant is kept |
| `FishbowlClient.Fishbowl.HandleData` | src/index.ts:185-207 | one data handler reaches the handler step's state; the invariant is kept |
| `FishbowlClient.Fishbowl.OnData` | src/index.ts:185-207 | the handlers run in a loop reach the data step's state; the invariant is kept |
| `FishbowlClient.Fishbowl.OnError` | src/index.ts:176-183 | the error handlers run in a loop reach the error step's state; the invariant is kept |
| `FishbowlClient.Fishbowl.OnClose` | src/index.ts:171-174 | the new state is the close step |
| `FishbowlClient.Fishbowl.OnConnect` | src/index.ts:157-169 | the continuations run in a loop reach the connect step's state; the invariant is kept |

## Left out

- Sockets, connecting and writing: the environment calls the event methods
  in whatever order the socket would. Writes and connect attempts are
  appended to a log. The two writes of a frame (header, then body) are
  logged as one `Wrote` of the whole frame.
- Callers' callbacks: what each one receives is logged, but what it then
  does is not modelled. In particular, a callback that calls `sendRequest`
  again is not modelled.
- `loginRequest` and `partGetRq`: the JSON they build is an opaque byte
  sequence, and the login body is fixed at construction. The MD5/base64
  password hash inside it is not modelled.
- `JSON.parse`, `JSON.stringify` and UTF-8 conversion: requests are given
  as UTF-8 bytes. The parser is a parameter of `OnData` that returns `None`
  where parsing or the first property access throws.
- Parts of the JSON envelope are not represented: an absent
  `statusMessage` (undefined rather than a string), a missing `Ticket`, and
  the TypeError of reading `statusCode` when the second FbiMsgsRs property
  is `null` or `undefined`. Truthiness of FbiMsgsRs properties is
  represented.
- The winston logger and every `logger.*` call.
- `src/requestTypes.ts`: it declares types only.
- Listeners left registered when a listener throws partway through an emit
  are not tracked, because the process has ended by then.
