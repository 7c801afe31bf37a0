/** The hash-chained event log of one task (apps/daemon/src/persistence/eventStore.ts). */
module EventStore {
  import opened Common
  import opened FrameCodec
  import opened RecordFile

  type EventId = string

  datatype Content = Content(
    schemaVersion: nat, eventId: EventId, taskId: string, parentEventId: Option<EventId>,
    timestamp: string, eventType: string, payload: string, prevHash: Digest)

  /** HMAC-SHA-256 over the canonical JSON of an event, as a free constructor. */
  datatype Mac = HmacSha256(key: Bytes, signed: Content)

  datatype Event = Event(content: Content, hmac: Mac)

  /** What the caller, the id generator and the clock contribute to an append. */
  datatype Draft = Draft(eventId: EventId, timestamp: string, eventType: string, payload: string)

  datatype Keys = Keys(cipher: Cipher<Event>, hmacKey: Bytes)

  datatype Failure =
    | ReadFailed
    | TooLarge
    | UnsupportedVersion(eventId: EventId)
    | HmacMismatch(eventId: EventId)
    | HashChainBreak(eventId: EventId)
    | ParentChainBreak(eventId: EventId)

  datatype Verification = Verification(eventCount: nat, lastEventId: Option<EventId>)

  datatype Recovery = Recovery(truncated: bool, eventCount: nat)

  function EventRecord(hmacKey: Bytes, taskId: string, draft: Draft, previous: Option<Rec<Event>>): Event {
    var content := Content(1, draft.eventId, taskId,
      if previous.Some? then Some(previous.value.plaintext.content.eventId) else None,
      draft.timestamp, draft.eventType, draft.payload,
      Sha256(if previous.Some? then previous.value.raw else []));
    Event(content, HmacSha256(hmacKey, content))
  }

  function Last<T>(s: seq<T>): Option<T> {
    if s == [] then None else Some(s[|s| - 1])
  }

  /** The first thing wrong with one event, given the record before it. */
  function CheckEvent(hmacKey: Bytes, event: Event, previousRaw: Bytes, previousId: Option<EventId>): Option<Failure> {
    if event.content.schemaVersion != 1 then Some(UnsupportedVersion(event.content.eventId))
    else if HmacSha256(hmacKey, event.content) != event.hmac then Some(HmacMismatch(event.content.eventId))
    else if event.content.prevHash != Sha256(previousRaw) then Some(HashChainBreak(event.content.eventId))
    else if event.content.parentEventId != previousId then Some(ParentChainBreak(event.content.eventId))
    else None
  }

  function RawBefore(records: seq<Rec<Event>>, i: nat): Bytes
    requires i <= |records|
  {
    if i == 0 then [] else records[i - 1].raw
  }

  function IdBefore(records: seq<Rec<Event>>, i: nat): Option<EventId>
    requires i <= |records|
  {
    if i == 0 then None else Some(records[i - 1].plaintext.content.eventId)
  }

  function CheckAt(hmacKey: Bytes, records: seq<Rec<Event>>, i: nat): Option<Failure>
    requires i < |records|
  {
    CheckEvent(hmacKey, records[i].plaintext, RawBefore(records, i), IdBefore(records, i))
  }

  /** The failure of the first bad event at or after `i`. */
  function FirstFailure(hmacKey: Bytes, records: seq<Rec<Event>>, i: nat): Option<Failure>
    requires i <= |records|
    decreases |records| - i
  {
    if i == |records| then None
    else
      var failure := CheckAt(hmacKey, records, i);
      if failure.Some? then failure else FirstFailure(hmacKey, records, i + 1)
  }

  /** What verification of a file answers. */
  function Verify(keys: Keys, data: Bytes): Result<Verification, Failure> {
    match Read(keys.cipher, data)
    case Err(_) => Err(ReadFailed)
    case Ok(records) =>
      var failure := FirstFailure(keys.hmacKey, records, 0);
      if failure.Some? then Err(failure.value)
      else Ok(Verification(|records|, IdBefore(records, |records|)))
  }

  /** The file after an append of which `keep` bytes reach the disk. */
  function AfterAppend(keys: Keys, taskId: string, data: Bytes, draft: Draft, nonce: Bytes, keep: nat)
    : (Result<EventId, Failure>, Bytes)
  {
    match Read(keys.cipher, data)
    case Err(_) => (Err(ReadFailed), data)
    case Ok(records) =>
      var cut := Truncated(keys.cipher, data);
      var body := keys.cipher.seal(EventRecord(keys.hmacKey, taskId, draft, Last(records)), nonce);
      if |body| >= MAX_BODY then (Err(TooLarge), cut)
      else (Ok(draft.eventId), cut + Frame(body)[..if keep < |Frame(body)| then keep else |Frame(body)|])
  }

  class EventStore {
    const keys: Keys
    const taskId: string
    const file: RecordFile<Event>

    constructor (keys: Keys, taskId: string)
      ensures this.keys == keys && this.taskId == taskId && fresh(file) && file.data == []
    {
      this.keys := keys;
      this.taskId := taskId;
      this.file := new RecordFile<Event>();
    }

    /** Appends one event; the process may die after `keep` bytes of the record are written. */
    method Append(draft: Draft, nonce: Bytes, keep: nat) returns (r: Result<EventId, Failure>)
      modifies file
      ensures (r, file.data) == AfterAppend(keys, taskId, old(file.data), draft, nonce, keep)
    {
      var existing := file.ReadRecords(keys.cipher, true);
      if existing.Err? {
        return Err(ReadFailed);
      }
      var event := EventRecord(keys.hmacKey, taskId, draft, Last(existing.value));
      var fits := file.Append(keys.cipher, event, nonce, keep);
      r := if fits then Ok(draft.eventId) else Err(TooLarge);
    }

    method VerifyLog() returns (r: Result<Verification, Failure>)
      modifies file
      ensures file.data == old(file.data)
      ensures r == Verify(keys, file.data)
    {
      var read := file.ReadRecords(keys.cipher, false);
      if read.Err? {
        return Err(ReadFailed);
      }
      var records := read.value;
      var previousRaw: Bytes := [];
      var previousEventId: Option<EventId> := None;
      var i := 0;
      while i < |records|
        invariant 0 <= i <= |records|
        invariant previousRaw == RawBefore(records, i) && previousEventId == IdBefore(records, i)
        invariant FirstFailure(keys.hmacKey, records, 0) == FirstFailure(keys.hmacKey, records, i)
        invariant file.data == old(file.data)
      {
        var failure := CheckEvent(keys.hmacKey, records[i].plaintext, previousRaw, previousEventId);
        if failure.Some? {
          return Err(failure.value);
        }
        previousRaw := records[i].raw;
        previousEventId := Some(records[i].plaintext.content.eventId);
        i := i + 1;
      }
      r := Ok(Verification(|records|, previousEventId));
    }

    /** Cuts a torn tail at start-up and reports whether there was one. */
    method RecoverTaskLog() returns (r: Result<Recovery, Failure>)
      modifies file
      ensures file.data == Truncated(keys.cipher, old(file.data))
      ensures r.Ok? == Read(keys.cipher, old(file.data)).Ok?
      ensures r.Ok? ==>
        && r.value.truncated == (|file.data| < |old(file.data)|)
        && r.value.eventCount == |Frames(file.data, 0)|
    {
      var before := |file.data|;
      var read := file.ReadRecords(keys.cipher, true);
      if read.Err? {
        return Err(ReadFailed);
      }
      var records := read.value;
      var after := if |records| == 0 then 0 else records[|records| - 1].endOffset;
      LastEndIsBoundary(keys.cipher, old(file.data));
      TruncationKeepsFrames(old(file.data), 0, Boundary(old(file.data), 0));
      r := Ok(Recovery(before != after, |records|));
    }
  }

  lemma {:induction false} LastFrameEnd(data: Bytes, offset: nat)
    requires offset <= |data|
    ensures
      var fs := Frames(data, offset);
      Boundary(data, offset) == if fs == [] then offset else fs[|fs| - 1].endOffset
    decreases |data| - offset
  {
    if FrameEnd(data, offset).Some? {
      var end := FrameEnd(data, offset).value;
      LastFrameEnd(data, end);
      FirstFrame(data, offset, end);
    }
  }

  lemma LastEndIsBoundary(cipher: Cipher<Event>, data: Bytes)
    requires Read(cipher, data).Ok?
    ensures
      var rs := Read(cipher, data).value;
      Boundary(data, 0) == if rs == [] then 0 else rs[|rs| - 1].endOffset
  {
    LastFrameEnd(data, 0);
    var fs := Frames(data, 0);
    if fs != [] {
      DecodeAt(cipher, fs, |fs| - 1);
    }
  }
}
