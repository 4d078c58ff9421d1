/**
 * The wire codec of the Fishbowl client (src/index.ts): every message is a
 * 4-byte big-endian length followed by that many payload bytes, and the
 * `data` handler reassembles one incoming message at a time from TCP chunks.
 */
module Framing {
  import opened Wrappers

  newtype byte = x: int | 0 <= x < 256

  /** writeIntBE(n, 0, 4) accepts only values below 2^31; readInt32BE yields values from -2^31. */
  const FrameLimit: int := 0x8000_0000

  /** Buffer.readInt32BE(0): the first four bytes as a big-endian two's-complement integer. */
  function ReadInt32BE(b: seq<byte>): (n: int)
    requires |b| >= 4
    ensures -FrameLimit <= n < FrameLimit
    ensures n >= 0 <==> b[0] < 0x80
  {
    var u := ((b[0] as int * 256 + b[1] as int) * 256 + b[2] as int) * 256 + b[3] as int;
    if u >= FrameLimit then u - 2 * FrameLimit else u
  }

  /** The base-256 digits of a length below 2^31; the top digit stays below 0x80. */
  lemma HeaderDigits(n: nat)
    requires n < FrameLimit
    ensures n / 256 / 256 / 256 < 0x80
    ensures ((n / 256 / 256 / 256 * 256 + n / 256 / 256 % 256) * 256 + n / 256 % 256) * 256 + n % 256 == n
  {
    var q1 := n / 256;
    var q2 := q1 / 256;
    var q3 := q2 / 256;
    assert n == q1 * 256 + n % 256;
    assert q1 == q2 * 256 + q1 % 256;
    assert q2 == q3 * 256 + q2 % 256;
  }

  /** The four bytes writeIntBE(n, 0, 4) writes for a payload of n bytes. */
  function LengthHeader(n: nat): (h: seq<byte>)
    requires n < FrameLimit
    ensures |h| == 4 && ReadInt32BE(h) == n
  {
    HeaderDigits(n);
    [(n / 256 / 256 / 256) as byte, (n / 256 / 256 % 256) as byte, (n / 256 % 256) as byte, (n % 256) as byte]
  }

  /**
   * The bytes sendRequest puts on the socket for a request: the length header
   * and then the request itself. A request of 2^31 bytes or more makes
   * writeIntBE throw a RangeError, which is the None case.
   */
  function EncodeFrame(payload: seq<byte>): (r: Option<seq<byte>>)
    ensures r.Some? <==> |payload| < FrameLimit
    ensures r.Some? ==> |r.value| == 4 + |payload| && ReadInt32BE(r.value) == |payload| && r.value[4..] == payload
  {
    if |payload| < FrameLimit then Some(LengthHeader(|payload|) + payload) else None
  }

  /** p occurs in s starting at index i. */
  predicate OccursAt(s: seq<byte>, p: seq<byte>, i: int) {
    0 <= i && i + |p| <= |s| && s[i..i + |p|] == p
  }

  lemma OccursShift(s: seq<byte>, p: seq<byte>)
    requires |s| > 0
    ensures forall i :: 0 <= i ==> (OccursAt(s[1..], p, i) <==> OccursAt(s, p, i + 1))
  {
    forall i | 0 <= i ensures OccursAt(s[1..], p, i) <==> OccursAt(s, p, i + 1) {
      if i + |p| <= |s| - 1 {
        assert s[1..][i..i + |p|] == s[i + 1..i + 1 + |p|];
      }
    }
  }

  /** String.prototype.includes on the UTF-8 bytes of a request. */
  function Contains(s: seq<byte>, p: seq<byte>): (r: bool)
    ensures r <==> exists i :: OccursAt(s, p, i)
    decreases |s|
  {
    if |s| < |p| then false
    else if s[..|p|] == p then assert OccursAt(s, p, 0); true
    else
      OccursShift(s, p);
      assert !OccursAt(s, p, 0);
      assert forall i :: OccursAt(s, p, i) ==> i >= 1 && OccursAt(s[1..], p, i - 1);
      Contains(s[1..], p)
  }

  /**
   * The closure state of one `data` handler: `resLength` (None while
   * undefined) and `resData`.
   */
  datatype Reader = Reader(declared: Option<int>, buffer: seq<byte>)

  /** What one chunk does to a reader. */
  datatype Signal =
    | HeaderTooShort          // readInt32BE(0) on a chunk of fewer than 4 bytes throws
    | Awaiting(next: Reader)  // "Waiting for more data from Fishbowl..."
    | Filled(next: Reader)    // buffered length equals declared length: a message is complete

  /** One call of the `data` handler up to the length comparison. */
  function Feed(r: Reader, chunk: seq<byte>): (s: Signal)
    ensures s.HeaderTooShort? <==> r.declared.None? && |chunk| < 4
    ensures !s.HeaderTooShort? ==> s.next.declared.Some?
    ensures s.Filled? ==> |s.next.buffer| == s.next.declared.value
    ensures s.Awaiting? ==> |s.next.buffer| != s.next.declared.value
    ensures r.declared.Some? ==> s.next == Reader(r.declared, r.buffer + chunk)
    ensures r.declared.None? && |chunk| >= 4 ==> s.next == Reader(Some(ReadInt32BE(chunk)), chunk[4..])
  {
    var next :=
      if r.declared.None? then
        if |chunk| < 4 then r else Reader(Some(ReadInt32BE(chunk)), chunk[4..])
      else Reader(r.declared, r.buffer + chunk);
    if r.declared.None? && |chunk| < 4 then HeaderTooShort
    else if |next.buffer| == next.declared.value then Filled(next)
    else Awaiting(next)
  }

  /** The bytes of a sequence of chunks, in order. */
  function Concat(chunks: seq<seq<byte>>): seq<byte> {
    if chunks == [] then [] else chunks[0] + Concat(chunks[1..])
  }

  /**
   * The signals of one handler fed a sequence of chunks, when each completed
   * message parses (the handler then clears the pending length). A chunk too
   * short for a header ends the run: the handler has thrown.
   */
  function Run(r: Reader, chunks: seq<seq<byte>>): (t: seq<Signal>)
    ensures |t| == |chunks| || (|t| > 0 && t[|t| - 1].HeaderTooShort?)
    ensures forall k :: 0 <= k < |t| - 1 ==> !t[k].HeaderTooShort?
    decreases |chunks|
  {
    if chunks == [] then []
    else match Feed(r, chunks[0])
      case HeaderTooShort => [HeaderTooShort]
      case Awaiting(n) => [Awaiting(n)] + Run(n, chunks[1..])
      case Filled(n) => [Filled(n)] + Run(n.(declared := None), chunks[1..])
  }

  /** The signals a correctly reassembled message of n bytes produces. */
  ghost predicate DeliversOnceAtEnd(t: seq<Signal>, p: seq<byte>, chunks: seq<seq<byte>>) {
    |t| == |chunks| > 0 &&
    t[|t| - 1] == Filled(Reader(Some(|p|), p)) &&
    forall k :: 0 <= k < |t| - 1 ==> t[k].Awaiting? && t[k].next.declared == Some(|p|)
  }

  lemma ConcatStart(chunks: seq<seq<byte>>)
    requires chunks != []
    ensures Concat(chunks) == chunks[0] + Concat(chunks[1..])
  {
  }

  lemma {:induction false} ConcatOfNonEmpty(chunks: seq<seq<byte>>)
    requires forall k :: 0 <= k < |chunks| ==> chunks[k] != []
    ensures Concat(chunks) == [] <==> chunks == []
  {
    if chunks != [] {
      ConcatStart(chunks);
    }
  }

  /** A reader holding a proper prefix of p, with the rest of p still to come. */
  lemma {:induction false} PendingMessageCompletes(p: seq<byte>, buf: seq<byte>, chunks: seq<seq<byte>>)
    requires |buf| < |p| && buf == p[..|buf|]
    requires Concat(chunks) == p[|buf|..]
    requires forall k :: 0 <= k < |chunks| ==> chunks[k] != []
    ensures DeliversOnceAtEnd(Run(Reader(Some(|p|), buf), chunks), p, chunks)
    decreases |chunks|
  {
    ConcatOfNonEmpty(chunks);
    ConcatStart(chunks);
    var c := chunks[0];
    var rest := chunks[1..];
    assert c == p[|buf|..][..|c|];
    var grown := buf + c;
    assert grown == p[..|grown|];
    assert Feed(Reader(Some(|p|), buf), c).next == Reader(Some(|p|), grown);
    if |grown| == |p| {
      assert Concat(rest) == [];
      ConcatOfNonEmpty(rest);
      assert grown == p;
    } else {
      assert Concat(rest) == p[|grown|..];
      PendingMessageCompletes(p, grown, rest);
      assert chunks[1..] == rest;
    }
  }

  /**
   * Feeding an encoded frame to an idle `data` handler, cut into non-empty
   * chunks of which the first holds the whole length header, emits the
   * payload exactly once, at the last chunk, and reports "waiting for more
   * data" with the declared length kept before that.
   */
  lemma {:induction false} FrameReassembles(p: seq<byte>, chunks: seq<seq<byte>>, stale: seq<byte>)
    requires EncodeFrame(p) == Some(Concat(chunks))
    requires |chunks| > 0 && |chunks[0]| >= 4
    requires forall k :: 0 <= k < |chunks| ==> chunks[k] != []
    ensures DeliversOnceAtEnd(Run(Reader(None, stale), chunks), p, chunks)
  {
    var frame := Concat(chunks);
    ConcatStart(chunks);
    var c := chunks[0];
    var rest := chunks[1..];
    assert c[..4] == frame[..4];
    assert ReadInt32BE(c) == ReadInt32BE(frame) == |p|;
    assert c[4..] == p[..|c| - 4];
    if |c| - 4 == |p| {
      assert Concat(rest) == [];
      ConcatOfNonEmpty(rest);
      assert c[4..] == p;
    } else {
      assert Concat(rest) == p[|c| - 4..];
      PendingMessageCompletes(p, c[4..], rest);
    }
  }

  /** While a length is pending and the buffer does not match it, the handler keeps waiting with that length. */
  lemma ShortBufferKeepsWaiting(r: Reader, chunk: seq<byte>)
    requires r.declared.Some? && |r.buffer + chunk| != r.declared.value
    ensures Feed(r, chunk) == Awaiting(Reader(r.declared, r.buffer + chunk))
  {
  }
}
