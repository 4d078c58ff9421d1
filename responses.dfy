/**
 * Decoded response envelopes and the checks the `done` listener of
 * sendRequest makes on them (src/index.ts). JSON itself is not modelled: an
 * envelope keeps exactly the parts the client looks at.
 */
module Responses {
  import opened Wrappers

  /** The status code of a request that succeeded. */
  const Success: int := 1000
  /** The status code the server sends when it ends an idle session. */
  const Inactivity: int := 1010

  const LoginResponse: string := "LoginRs"
  const QueryResponse: string := "ExecuteQueryRs"

  /** FbiJson.Ticket: the session key and user id the server issues at login. */
  datatype Ticket = Ticket(key: string, userId: string)

  /**
   * One property of FbiJson.FbiMsgsRs: its name, the numeric `statusCode`
   * its value carries (None when the value has none, as for the outer
   * `statusCode` and `statusMessage` properties themselves), and whether the
   * value is truthy in JavaScript (false for 0, "", false, null and undefined).
   */
  datatype Member = Member(name: string, statusCode: Option<int>, truthy: bool)

  /**
   * A response: the ticket, the outer FbiMsgsRs.statusCode and statusMessage,
   * and every property of FbiMsgsRs in the order Object.keys lists them.
   */
  datatype Envelope = Envelope(ticket: Ticket, statusCode: int, statusMessage: string, members: seq<Member>)

  /** What a caller receives on success: the whole envelope or one inner object. */
  datatype Payload = Whole(envelope: Envelope) | Inner(member: Member)

  /** The four ways the `done` listener can treat a response. */
  datatype Verdict =
    | Rejected(message: string)   // the callback gets the outer statusMessage as its error
    | Resolved(payload: Payload)  // the callback gets this result
    | QueryFallThrough            // ExecuteQueryRs: no callback; the listener goes on to deque
    | NoResponseKey               // Object.keys(...)[1] is undefined: reading its statusCode throws

  /** `FbiMsgsRs[name]` is truthy: FbiMsgsRs has a property `name` whose value is truthy. */
  predicate IsTruthy(env: Envelope, name: string) {
    exists i :: 0 <= i < |env.members| && env.members[i].name == name && env.members[i].truthy
  }

  /** Both the outer status and the status of the second FbiMsgsRs property report success. */
  predicate Accepted(env: Envelope) {
    env.statusCode == Success && |env.members| >= 2 && env.members[1].statusCode == Some(Success)
  }

  /** The response-type name the listener dispatches on: the second key of FbiMsgsRs. */
  function ResponseType(env: Envelope): string
    requires |env.members| >= 2
  {
    env.members[1].name
  }

  /**
   * The checks of the `done` listener in order: outer status, then the status
   * of the second key, then the response type.
   */
  function Classify(env: Envelope): (v: Verdict)
    ensures v.Rejected? ==> v.message == env.statusMessage
    ensures v.Resolved? || v.QueryFallThrough? <==> Accepted(env)
    ensures v.NoResponseKey? <==> env.statusCode == Success && |env.members| < 2
    ensures v.QueryFallThrough? <==> Accepted(env) && ResponseType(env) == QueryResponse
    ensures v.Resolved? && v.payload.Whole? <==> Accepted(env) && ResponseType(env) == LoginResponse
    ensures v.Resolved? ==> v.payload == if v.payload.Whole? then Whole(env) else Inner(env.members[1])
  {
    if env.statusCode != Success then Rejected(env.statusMessage)
    else if |env.members| < 2 then NoResponseKey
    else if env.members[1].statusCode != Some(Success) then Rejected(env.statusMessage)
    else if ResponseType(env) == LoginResponse then Resolved(Whole(env))
    else if ResponseType(env) == QueryResponse then QueryFallThrough
    else Resolved(Inner(env.members[1]))
  }

  /** An inner failure is reported with the OUTER statusMessage, not the inner one. */
  lemma InnerFailureReportsOuterMessage(env: Envelope)
    requires env.statusCode == Success && |env.members| >= 2
    requires env.members[1].statusCode != Some(Success)
    ensures Classify(env) == Rejected(env.statusMessage)
  {
  }
}
