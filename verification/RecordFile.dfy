/** A file of encrypted records (apps/daemon/src/persistence/encryptedRecordCodec.ts).
    AES-256-GCM with JSON inside is a pair of functions: `seal` gives the body for a value
    and a nonce, `open` gives the value back or fails authentication. */
module RecordFile {
  import opened Common
  import opened FrameCodec

  datatype Cipher<!T> = Cipher(seal: (T, Bytes) -> Bytes, open: Bytes -> Option<T>)

  /** All that is assumed of the cipher: bodies hold a nonce and a tag, and open to what was sealed.
      A body may be too long for the 4-byte prefix; the encoder then throws. */
  ghost predicate Sound<T(!new)>(cipher: Cipher<T>) {
    forall value, nonce :: 
      && NONCE_BYTES + TAG_BYTES <= |cipher.seal(value, nonce)|
      && cipher.open(cipher.seal(value, nonce)) == Some(value)
  }

  datatype Rec<+T> = Rec(raw: Bytes, plaintext: T, endOffset: nat)

  datatype ReadError = AuthenticationFailed

  type ReadResult<+T> = Result<seq<Rec<T>>, ReadError>

  function Prepend<T>(records: seq<Rec<T>>, rest: ReadResult<T>): ReadResult<T> {
    match rest
    case Ok(more) => Ok(records + more)
    case Err(e) => Err(e)
  }

  lemma PrependNothing<T>(rest: ReadResult<T>)
    ensures Prepend([], rest) == rest
  {
    if rest.Ok? { assert [] + rest.value == rest.value; }
  }

  lemma PrependTwice<T>(a: seq<Rec<T>>, b: seq<Rec<T>>, rest: ReadResult<T>)
    ensures Prepend(a, Prepend(b, rest)) == Prepend(a + b, rest)
  {
    if rest.Ok? { assert a + (b + rest.value) == (a + b) + rest.value; }
  }

  function Decode<T>(cipher: Cipher<T>, frames: seq<Framed>): (r: ReadResult<T>)
    ensures r.Ok? ==> |r.value| == |frames|
  {
    if frames == [] then Ok([])
    else
      match cipher.open(frames[0].body)
      case None => Err(AuthenticationFailed)
      case Some(value) =>
        Prepend([Rec(frames[0].raw, value, frames[0].endOffset)], Decode(cipher, frames[1..]))
  }

  /** What reading the bytes of a file reports. */
  function Read<T>(cipher: Cipher<T>, data: Bytes): ReadResult<T> {
    Decode(cipher, Frames(data, 0))
  }

  /** The file after a truncating read: a record that does not authenticate stops the read first. */
  function Truncated<T>(cipher: Cipher<T>, data: Bytes): Bytes {
    if Read(cipher, data).Ok? then data[..Boundary(data, 0)] else data
  }

  /** The loop's state: `records` have been read and `offset` is where the next frame starts. */
  ghost predicate ReadUpTo<T>(cipher: Cipher<T>, data: Bytes, records: seq<Rec<T>>, offset: nat) {
    && offset <= |data|
    && Read(cipher, data) == Prepend(records, Decode(cipher, Frames(data, offset)))
    && Boundary(data, 0) == Boundary(data, offset)
  }

  lemma ReadStarts<T>(cipher: Cipher<T>, data: Bytes)
    ensures ReadUpTo(cipher, data, [], 0)
  {
    PrependNothing(Read(cipher, data));
  }

  lemma ReadStops<T>(cipher: Cipher<T>, data: Bytes, records: seq<Rec<T>>, offset: nat)
    requires ReadUpTo(cipher, data, records, offset) && FrameEnd(data, offset).None?
    ensures Read(cipher, data) == Ok(records) && Truncated(cipher, data) == data[..offset]
  {
    assert Frames(data, offset) == [];
    assert records + [] == records;
  }

  lemma ReadAdvances<T>(cipher: Cipher<T>, data: Bytes, records: seq<Rec<T>>, offset: nat, end: nat)
    requires ReadUpTo(cipher, data, records, offset) && FrameEnd(data, offset) == Some(end)
    ensures
      match cipher.open(data[offset + LENGTH_BYTES..end])
      case None => Read(cipher, data) == Err(AuthenticationFailed) && Truncated(cipher, data) == data
      case Some(value) => ReadUpTo(cipher, data, records + [Rec(data[offset..end], value, end)], end)
  {
    FirstFrame(data, offset, end);
    var frames := Frames(data, offset);
    assert frames[1..] == Frames(data, end);
    match cipher.open(data[offset + LENGTH_BYTES..end])
    case None =>
    case Some(value) =>
      PrependTwice(records, [Rec(data[offset..end], value, end)], Decode(cipher, Frames(data, end)));
  }

  lemma {:induction false} DecodePrefix<T>(cipher: Cipher<T>, frames: seq<Framed>, n: nat)
    requires n <= |frames|
    requires Decode(cipher, frames).Ok?
    ensures Decode(cipher, frames[..n]) == Ok(Decode(cipher, frames).value[..n])
  {
    if n > 0 {
      assert frames[..n][1..] == frames[1..][..n - 1];
      DecodePrefix(cipher, frames[1..], n - 1);
      var all, rest := Decode(cipher, frames).value, Decode(cipher, frames[1..]).value;
      assert all == [all[0]] + rest;
      assert all[..n] == [all[0]] + rest[..n - 1];
    }
  }

  lemma {:induction false} DecodeAt<T>(cipher: Cipher<T>, frames: seq<Framed>, i: nat)
    requires Decode(cipher, frames).Ok? && i < |frames|
    ensures
      var rec := Decode(cipher, frames).value[i];
      rec.raw == frames[i].raw && rec.endOffset == frames[i].endOffset
      && cipher.open(frames[i].body) == Some(rec.plaintext)
  {
    if i > 0 {
      DecodeAt(cipher, frames[1..], i - 1);
    }
  }

  lemma {:induction false} FramesAreRaw(data: Bytes, offset: nat, i: nat)
    requires offset <= |data| && i < |Frames(data, offset)|
    ensures
      var f := Frames(data, offset)[i];
      |f.raw| >= LENGTH_BYTES + NONCE_BYTES + TAG_BYTES && f.body == f.raw[LENGTH_BYTES..]
    decreases |data| - offset
  {
    var end := FrameEnd(data, offset).value;
    if i > 0 {
      FramesAreRaw(data, end, i - 1);
    }
  }

  class RecordFile<T(!new)> {
    var data: Bytes

    constructor ()
      ensures data == []
    {
      data := [];
    }

    /** The reading loop; on a torn tail it cuts the file when asked to. */
    method ReadRecords(cipher: Cipher<T>, truncateTrailing: bool) returns (r: ReadResult<T>)
      modifies this
      ensures r == Read(cipher, old(data))
      ensures data == if truncateTrailing then Truncated(cipher, old(data)) else old(data)
    {
      var bytes := data;
      var records: seq<Rec<T>> := [];
      var offset := 0;
      ReadStarts(cipher, bytes);
      while offset < |bytes|
        invariant ReadUpTo(cipher, bytes, records, offset)
        invariant data == bytes == old(data)
      {
        if |bytes| - offset < LENGTH_BYTES {
          ReadStops(cipher, bytes, records, offset);
          if truncateTrailing { data := data[..offset]; }
          return Ok(records);
        }
        var bodyLength := ReadUInt32BE(bytes, offset);
        var bodyStart := offset + LENGTH_BYTES;
        var bodyEnd := bodyStart + bodyLength;
        if bodyLength < NONCE_BYTES + TAG_BYTES || bodyEnd > |bytes| {
          ReadStops(cipher, bytes, records, offset);
          if truncateTrailing { data := data[..offset]; }
          return Ok(records);
        }
        ReadAdvances(cipher, bytes, records, offset, bodyEnd);
        match cipher.open(bytes[bodyStart..bodyEnd]) {
          case None =>
            return Err(AuthenticationFailed);
          case Some(plaintext) =>
            records := records + [Rec(bytes[offset..bodyEnd], plaintext, bodyEnd)];
        }
        offset := bodyEnd;
      }
      ReadStops(cipher, bytes, records, offset);
      assert bytes[..|bytes|] == bytes;
      r := Ok(records);
    }

    /** Encodes and appends one record; `keep` bytes of it reach the disk (all of them unless
        the process dies during the write). Fails before writing if the length does not fit. */
    method Append(cipher: Cipher<T>, value: T, nonce: Bytes, keep: nat) returns (fits: bool)
      modifies this
      ensures fits == (|cipher.seal(value, nonce)| < MAX_BODY)
      ensures !fits ==> data == old(data)
      ensures fits ==>
        var frame := Frame(cipher.seal(value, nonce));
        data == old(data) + frame[..if keep < |frame| then keep else |frame|]
    {
      var body := cipher.seal(value, nonce);
      fits := |body| < MAX_BODY;
      if fits {
        var record := Frame(body);
        data := data + record[..if keep < |record| then keep else |record|];
      }
    }
  }
}
