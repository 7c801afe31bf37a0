/** The length-prefixed record frames of apps/daemon/src/persistence/encryptedRecordCodec.ts.
    A frame is a 4-byte big-endian body length followed by the body
    (nonce, ciphertext, tag). */
module FrameCodec {
  import opened Common

  const LENGTH_BYTES := 4
  const NONCE_BYTES := 12
  const TAG_BYTES := 16
  const MAX_BODY := 0x1_0000_0000

  function WriteUInt32BE(n: nat): (r: Bytes)
    requires n < MAX_BODY
    ensures |r| == LENGTH_BYTES
  {
    [n / 0x100_0000, n / 0x1_0000 % 0x100, n / 0x100 % 0x100, n % 0x100]
  }

  function ReadUInt32BE(data: Bytes, offset: nat): nat
    requires offset + LENGTH_BYTES <= |data|
  {
    (data[offset] as int) * 0x100_0000 + (data[offset + 1] as int) * 0x1_0000
    + (data[offset + 2] as int) * 0x100 + data[offset + 3] as int
  }

  lemma LengthRoundTrip(n: nat)
    requires n < MAX_BODY
    ensures ReadUInt32BE(WriteUInt32BE(n), 0) == n
  {
    assert n / 0x1_0000 == n / 0x100_0000 * 0x100 + n / 0x1_0000 % 0x100;
    assert n / 0x100 == n / 0x1_0000 * 0x100 + n / 0x100 % 0x100;
    assert n == n / 0x100 * 0x100 + n % 0x100;
  }

  function Frame(body: Bytes): (r: Bytes)
    requires |body| < MAX_BODY
    ensures |r| == LENGTH_BYTES + |body|
  {
    WriteUInt32BE(|body|) + body
  }

  /** Bodies the encoder produces: at least a nonce and a tag, and a length the prefix can hold. */
  predicate IsBody(body: Bytes) {
    NONCE_BYTES + TAG_BYTES <= |body| < MAX_BODY
  }

  predicate AllBodies(bodies: seq<Bytes>) {
    forall i :: 0 <= i < |bodies| ==> IsBody(bodies[i])
  }

  /** The end of the whole frame at `offset`, or None where the reader stops. */
  function FrameEnd(data: Bytes, offset: nat): (r: Option<nat>)
    requires offset <= |data|
    ensures r.Some? ==> offset + LENGTH_BYTES + NONCE_BYTES + TAG_BYTES <= r.value <= |data|
  {
    if |data| - offset < LENGTH_BYTES then
      None
    else
      var bodyLength := ReadUInt32BE(data, offset);
      var bodyEnd := offset + LENGTH_BYTES + bodyLength;
      if bodyLength < NONCE_BYTES + TAG_BYTES || bodyEnd > |data| then None else Some(bodyEnd)
  }

  datatype Framed = Framed(raw: Bytes, body: Bytes, endOffset: nat)

  /** The whole frames found from `offset` on, each with the offset at which it ends. */
  function Frames(data: Bytes, offset: nat): seq<Framed>
    requires offset <= |data|
    decreases |data| - offset
  {
    match FrameEnd(data, offset)
    case None => []
    case Some(end) => [Framed(data[offset..end], data[offset + LENGTH_BYTES..end], end)] + Frames(data, end)
  }

  /** Where the last whole frame ends: the offset a truncating read cuts the file at. */
  function Boundary(data: Bytes, offset: nat): (r: nat)
    requires offset <= |data|
    ensures offset <= r <= |data|
    decreases |data| - offset
  {
    match FrameEnd(data, offset)
    case None => offset
    case Some(end) => Boundary(data, end)
  }

  // ---- what the parser finds in a file that the printer wrote ----

  function Concat(bodies: seq<Bytes>): Bytes
    requires AllBodies(bodies)
  {
    if bodies == [] then [] else Frame(bodies[0]) + Concat(bodies[1..])
  }

  lemma {:induction false} ConcatSnoc(bodies: seq<Bytes>, body: Bytes)
    requires IsBody(body) && AllBodies(bodies)
    ensures Concat(bodies + [body]) == Concat(bodies) + Frame(body)
  {
    if bodies == [] {
      assert Concat([body]) == Frame(body) + [];
      assert [] + [body] == [body];
    } else {
      assert (bodies + [body])[1..] == bodies[1..] + [body];
      ConcatSnoc(bodies[1..], body);
      assert Concat(bodies + [body]) == Frame(bodies[0]) + (Concat(bodies[1..]) + Frame(body));
    }
  }

  /** What a write cut short can leave behind: a strict prefix of one frame. */
  ghost predicate IsTornTail(torn: Bytes) {
    exists body :: IsBody(body) && torn < Frame(body)
  }

  lemma FrameEndAt(data: Bytes, offset: nat, body: Bytes)
    requires IsBody(body) && offset <= |data| && Frame(body) <= data[offset..]
    ensures FrameEnd(data, offset) == Some(offset + |Frame(body)|)
    ensures data[offset..offset + |Frame(body)|] == Frame(body)
    ensures data[offset + LENGTH_BYTES..offset + |Frame(body)|] == body
  {
    LengthRoundTrip(|body|);
    assert forall i :: 0 <= i < |Frame(body)| ==> data[offset + i] == data[offset..][i] == Frame(body)[i];
  }

  lemma FirstFrame(data: Bytes, offset: nat, end: nat)
    requires offset <= |data| && FrameEnd(data, offset) == Some(end)
    ensures Frames(data, offset) == [Framed(data[offset..end], data[offset + LENGTH_BYTES..end], end)] + Frames(data, end)
    ensures Boundary(data, offset) == Boundary(data, end)
  {
  }

  lemma TornTailStops(data: Bytes, offset: nat)
    requires offset <= |data| && IsTornTail(data[offset..])
    ensures FrameEnd(data, offset).None?
  {
    var torn := data[offset..];
    var body :| IsBody(body) && torn < Frame(body);
    if |torn| >= LENGTH_BYTES {
      LengthRoundTrip(|body|);
      assert forall i :: 0 <= i < LENGTH_BYTES ==> data[offset + i] == torn[i] == Frame(body)[i] == WriteUInt32BE(|body|)[i];
    }
  }

  /** The frames a reader should report for bodies printed at `start`: raw bytes and end offsets. */
  function Printed(bodies: seq<Bytes>, start: nat): seq<Framed>
    requires AllBodies(bodies)
  {
    if bodies == [] then []
    else
      var end := start + |Frame(bodies[0])|;
      [Framed(Frame(bodies[0]), bodies[0], end)] + Printed(bodies[1..], end)
  }

  lemma {:induction false} PrintedAt(bodies: seq<Bytes>, start: nat, i: nat)
    requires AllBodies(bodies) && i < |bodies|
    ensures |Printed(bodies, start)| == |bodies|
    ensures Printed(bodies, start)[i] == Framed(Frame(bodies[i]), bodies[i], start + |Concat(bodies[..i + 1])|)
  {
    var end := start + |Frame(bodies[0])|;
    if i == 0 {
      assert bodies[..1][1..] == [];
      if |bodies| > 1 { PrintedAt(bodies[1..], end, 0); }
    } else {
      PrintedAt(bodies[1..], end, i - 1);
      assert bodies[..i + 1][1..] == bodies[1..][..i];
    }
  }

  lemma PrintedLength(bodies: seq<Bytes>, start: nat)
    requires AllBodies(bodies)
    ensures |Printed(bodies, start)| == |bodies|
  {
    if bodies != [] { PrintedAt(bodies, start, 0); }
  }

  lemma SplitTail(data: Bytes, offset: nat, head: Bytes, tail: Bytes)
    requires offset <= |data| && data[offset..] == head + tail
    ensures offset + |head| <= |data| && head <= data[offset..] && data[offset + |head|..] == tail
  {
    assert data[offset + |head|..] == data[offset..][|head|..];
  }

  /** From `offset` on, the reader finds exactly these bodies, and its boundary is right after the last one. */
  ghost predicate ParsesTo(data: Bytes, offset: nat, bodies: seq<Bytes>)
    requires offset <= |data| && AllBodies(bodies)
  {
    Frames(data, offset) == Printed(bodies, offset) && Boundary(data, offset) == offset + |Concat(bodies)|
  }

  lemma ParseOne(data: Bytes, offset: nat, bodies: seq<Bytes>)
    requires offset <= |data| && AllBodies(bodies) && bodies != [] && Frame(bodies[0]) <= data[offset..]
    requires ParsesTo(data, offset + |Frame(bodies[0])|, bodies[1..])
    ensures ParsesTo(data, offset, bodies)
  {
    FrameEndAt(data, offset, bodies[0]);
    FirstFrame(data, offset, offset + |Frame(bodies[0])|);
  }

  /** Parsing what was printed, whatever torn tail follows: exactly the printed frames,
      and the boundary right after the last one. */
  lemma {:induction false} ParsePrinted(data: Bytes, offset: nat, bodies: seq<Bytes>, torn: Bytes)
    requires AllBodies(bodies) && IsTornTail(torn)
    requires offset <= |data| && data[offset..] == Concat(bodies) + torn
    ensures ParsesTo(data, offset, bodies)
    decreases |bodies|
  {
    if bodies == [] {
      assert data[offset..] == torn;
      TornTailStops(data, offset);
    } else {
      var head, tail := Frame(bodies[0]), Concat(bodies[1..]) + torn;
      Associate(head, Concat(bodies[1..]), torn);
      SplitTail(data, offset, head, tail);
      ParsePrinted(data, offset + |head|, bodies[1..], torn);
      ParseOne(data, offset, bodies);
    }
  }

  // ---- facts about arbitrary bytes ----

  function Raws(frames: seq<Framed>): Bytes {
    if frames == [] then [] else frames[0].raw + Raws(frames[1..])
  }

  /** The raw frames are, in order, exactly the bytes up to the boundary. */
  lemma {:induction false} RawsCoverPrefix(data: Bytes, offset: nat)
    requires offset <= |data|
    ensures data[offset..Boundary(data, offset)] == Raws(Frames(data, offset))
    decreases |data| - offset
  {
    match FrameEnd(data, offset)
    case None =>
    case Some(end) =>
      RawsCoverPrefix(data, end);
      var b := Boundary(data, end);
      assert data[offset..b] == data[offset..end] + data[end..b];
      var fs := Frames(data, offset);
      assert fs[0].raw == data[offset..end] && fs[1..] == Frames(data, end);
  }

  /** The reader finds the same in both files from `offset` on. */
  ghost predicate ReadsAlike(data: Bytes, data': Bytes, offset: nat)
    requires offset <= |data| && offset <= |data'|
  {
    Frames(data, offset) == Frames(data', offset) && Boundary(data, offset) == Boundary(data', offset)
  }

  lemma SliceOfPrefix(data: Bytes, n: nat, i: nat, j: nat)
    requires i <= j <= n <= |data|
    ensures data[..n][i..j] == data[i..j]
  {
  }

  lemma CutKeepsFrameEnd(data: Bytes, offset: nat, cut: nat, end: nat)
    requires offset <= end <= cut <= |data| && FrameEnd(data, offset) == Some(end)
    ensures FrameEnd(data[..cut], offset) == Some(end)
  {
  }

  /** A truncating read is idempotent: the cut file parses to the same frames and has no tail. */
  lemma {:induction false} TruncationKeepsFrames(data: Bytes, offset: nat, cut: nat)
    requires offset <= |data|
    requires cut == Boundary(data, offset)
    ensures ReadsAlike(data, data[..cut], offset)
    decreases |data| - offset
  {
    match FrameEnd(data, offset)
    case None =>
    case Some(end) =>
      FirstFrame(data, offset, end);
      TruncationKeepsFrames(data, end, cut);
      CutKeepsFrameEnd(data, offset, cut, end);
      FirstFrame(data[..cut], offset, end);
      SliceOfPrefix(data, cut, offset, end);
      SliceOfPrefix(data, cut, offset + LENGTH_BYTES, end);
  }

  /** Reading any byte prefix of a file finds a prefix of its frames. */
  lemma {:induction false} PrefixFrames(data: Bytes, offset: nat, n: nat)
    requires offset <= n <= |data|
    ensures Frames(data[..n], offset) <= Frames(data, offset)
    decreases |data| - offset
  {
    var cut := data[..n];
    match FrameEnd(cut, offset)
    case None =>
    case Some(end) =>
      assert FrameEnd(data, offset) == Some(end);
      SliceOfPrefix(data, n, offset, end);
      SliceOfPrefix(data, n, offset + LENGTH_BYTES, end);
      PrefixFrames(data, end, n);
  }
}
