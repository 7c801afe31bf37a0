/** What the event log guarantees: it survives crashes in the middle of a write, its
    verification accepts every log the daemon can leave behind, and its last record
    commits to the whole history. */
module EventLogSafety {
  import opened Common
  import opened FrameCodec
  import opened RecordFile
  import opened EventStore

  // ---- crash safety over every run ----

  /** One operation on the log file. An append carries how many bytes of its record reach the
      disk before the process dies; with enough of them it completes. */
  datatype Op =
    | Append(draft: Draft, nonce: Bytes, keep: nat)
    | Recover

  function Apply(keys: Keys, taskId: string, data: Bytes, op: Op): Bytes {
    match op
    case Append(draft, nonce, keep) => AfterAppend(keys, taskId, data, draft, nonce, keep).1
    case Recover => Truncated(keys.cipher, data)
  }

  function Run(keys: Keys, taskId: string, data: Bytes, ops: seq<Op>): Bytes
    decreases |ops|
  {
    if ops == [] then data else Run(keys, taskId, Apply(keys, taskId, data, ops[0]), ops[1..])
  }

  /** An event as it was committed, with the nonce it was sealed under. */
  datatype Sealed = Sealed(event: Event, nonce: Bytes)

  function Bodies(cipher: Cipher<Event>, history: seq<Sealed>): (r: seq<Bytes>)
    ensures |r| == |history|
    ensures forall i :: 0 <= i < |r| ==> r[i] == cipher.seal(history[i].event, history[i].nonce)
  {
    seq(|history|, i requires 0 <= i < |history| => cipher.seal(history[i].event, history[i].nonce))
  }

  /** The records a reader reports for a committed history. */
  function Records(cipher: Cipher<Event>, history: seq<Sealed>): (r: seq<Rec<Event>>)
    requires AllBodies(Bodies(cipher, history))
    ensures |r| == |history|
    ensures forall i :: 0 <= i < |r| ==> r[i].plaintext == history[i].event
    ensures forall i :: 0 <= i < |r| ==> r[i].raw == Frame(Bodies(cipher, history)[i])
  {
    var bodies := Bodies(cipher, history);
    seq(|history|, i requires 0 <= i < |history| =>
      Rec(Frame(bodies[i]), history[i].event, |Concat(bodies[..i + 1])|))
  }

  /** Every event of the history is authentic and links to the one before it. */
  ghost predicate Chained(keys: Keys, history: seq<Sealed>)
    requires AllBodies(Bodies(keys.cipher, history))
  {
    var rs := Records(keys.cipher, history);
    forall i :: 0 <= i < |rs| ==>
      CheckAt(keys.hmacKey, rs, i) == None
  }

  /** The file is the committed frames followed by at most one torn frame. */
  ghost predicate Holds(keys: Keys, data: Bytes, history: seq<Sealed>, torn: Bytes) {
    var bodies := Bodies(keys.cipher, history);
    && AllBodies(bodies)
    && data == Concat(bodies) + torn
    && IsTornTail(torn)
    && Chained(keys, history)
  }

  /** The log as a plain list of committed events: an append that reaches the disk whole adds one
      event linked to the last, everything else changes nothing. */
  ghost function Commit(keys: Keys, taskId: string, history: seq<Sealed>, op: Op): (r: seq<Sealed>)
    requires Sound(keys.cipher) && AllBodies(Bodies(keys.cipher, history))
    ensures AllBodies(Bodies(keys.cipher, r))
  {
    match op
    case Append(draft, nonce, keep) =>
      var event := EventRecord(keys.hmacKey, taskId, draft, Last(Records(keys.cipher, history)));
      var size := |keys.cipher.seal(event, nonce)|;
      if size < MAX_BODY && LENGTH_BYTES + size <= keep then history + [Sealed(event, nonce)] else history
    case Recover => history
  }

  ghost function CommitAll(keys: Keys, taskId: string, history: seq<Sealed>, ops: seq<Op>): (r: seq<Sealed>)
    requires Sound(keys.cipher) && AllBodies(Bodies(keys.cipher, history))
    ensures AllBodies(Bodies(keys.cipher, r))
    decreases |ops|
  {
    if ops == [] then history else CommitAll(keys, taskId, Commit(keys, taskId, history, ops[0]), ops[1..])
  }

  lemma EmptyLogHolds(keys: Keys)
    requires Sound(keys.cipher)
    ensures Holds(keys, [], [], [])
  {
    NothingIsTorn();
  }

  lemma NothingIsTorn()
    ensures IsTornTail([])
  {
    var body: Bytes := seq(28, _ => 0);
    assert IsBody(body) && [] < Frame(body);
  }

  lemma {:induction false} DecodePrinted(cipher: Cipher<Event>, history: seq<Sealed>, start: nat)
    requires Sound(cipher) && AllBodies(Bodies(cipher, history))
    ensures
      var bodies := Bodies(cipher, history);
      && Decode(cipher, Printed(bodies, start)).Ok?
      && |Decode(cipher, Printed(bodies, start)).value| == |history|
      && forall i :: 0 <= i < |history| ==>
           Decode(cipher, Printed(bodies, start)).value[i]
           == Rec(Frame(bodies[i]), history[i].event, start + |Concat(bodies[..i + 1])|)
  {
    var bodies := Bodies(cipher, history);
    if history == [] {
    } else {
      var rest := history[1..];
      assert Bodies(cipher, rest) == bodies[1..];
      DecodePrinted(cipher, rest, start + |Frame(bodies[0])|);
      PrintedLength(bodies, start);
      forall i | 0 <= i < |history|
        ensures Decode(cipher, Printed(bodies, start)).value[i]
                == Rec(Frame(bodies[i]), history[i].event, start + |Concat(bodies[..i + 1])|)
      {
        DecodeAt(cipher, Printed(bodies, start), i);
        PrintedAt(bodies, start, i);
      }
    }
  }

  /** Reading a log left by any crash returns exactly the committed events, with exact raw bytes
      and end offsets, and a truncating read cuts exactly the torn tail. */
  lemma ReadReturnsHistory(keys: Keys, data: Bytes, history: seq<Sealed>, torn: Bytes)
    requires Sound(keys.cipher) && Holds(keys, data, history, torn)
    ensures Read(keys.cipher, data) == Ok(Records(keys.cipher, history))
    ensures Truncated(keys.cipher, data) == Concat(Bodies(keys.cipher, history))
    ensures |Frames(data, 0)| == |history|
  {
    var bodies := Bodies(keys.cipher, history);
    assert data[0..] == data;
    ParsePrinted(data, 0, bodies, torn);
    assert data[..|Concat(bodies)|] == Concat(bodies);
    PrintedLength(bodies, 0);
    PrintedRecords(keys.cipher, history);
  }

  lemma PrintedRecords(cipher: Cipher<Event>, history: seq<Sealed>)
    requires Sound(cipher) && AllBodies(Bodies(cipher, history))
    ensures Decode(cipher, Printed(Bodies(cipher, history), 0)) == Ok(Records(cipher, history))
  {
    DecodePrinted(cipher, history, 0);
    assert Decode(cipher, Printed(Bodies(cipher, history), 0)).value == Records(cipher, history);
  }

  lemma {:induction false} NoFailureFrom(hmacKey: Bytes, records: seq<Rec<Event>>, i: nat)
    requires i <= |records|
    ensures FirstFailure(hmacKey, records, i) == None <==>
            forall j :: i <= j < |records| ==>
              CheckAt(hmacKey, records, j) == None
    decreases |records| - i
  {
    if i < |records| {
      NoFailureFrom(hmacKey, records, i + 1);
    }
  }

  /** Verification accepts every log the daemon can leave behind, torn tail or not. */
  lemma VerifyAccepts(keys: Keys, data: Bytes, history: seq<Sealed>, torn: Bytes)
    requires Sound(keys.cipher) && Holds(keys, data, history, torn)
    ensures Verify(keys, data) ==
            Ok(Verification(|history|,
              if history == [] then None else Some(history[|history| - 1].event.content.eventId)))
  {
    ReadReturnsHistory(keys, data, history, torn);
    NoFailureFrom(keys.hmacKey, Records(keys.cipher, history), 0);
  }

  lemma ChainedSnoc(keys: Keys, history: seq<Sealed>, next: Sealed)
    requires AllBodies(Bodies(keys.cipher, history)) && Chained(keys, history)
    requires IsBody(keys.cipher.seal(next.event, next.nonce))
    requires
      var rs := Records(keys.cipher, history);
      CheckEvent(keys.hmacKey, next.event, RawBefore(rs, |rs|), IdBefore(rs, |rs|)) == None
    ensures AllBodies(Bodies(keys.cipher, history + [next])) && Chained(keys, history + [next])
    ensures Concat(Bodies(keys.cipher, history + [next]))
            == Concat(Bodies(keys.cipher, history)) + Frame(keys.cipher.seal(next.event, next.nonce))
  {
    var bodies := Bodies(keys.cipher, history);
    var body := keys.cipher.seal(next.event, next.nonce);
    var longer := history + [next];
    assert Bodies(keys.cipher, longer) == bodies + [body];
    ConcatSnoc(bodies, body);
    LinksSnoc(keys, history, next);
  }

  lemma LinksSnoc(keys: Keys, history: seq<Sealed>, next: Sealed)
    requires AllBodies(Bodies(keys.cipher, history)) && Chained(keys, history)
    requires IsBody(keys.cipher.seal(next.event, next.nonce))
    requires
      var rs := Records(keys.cipher, history);
      CheckEvent(keys.hmacKey, next.event, RawBefore(rs, |rs|), IdBefore(rs, |rs|)) == None
    ensures AllBodies(Bodies(keys.cipher, history + [next])) && Chained(keys, history + [next])
  {
    RecordsSnoc(keys.cipher, history, next);
    var rs, rs' := Records(keys.cipher, history), Records(keys.cipher, history + [next]);
    forall i | 0 <= i < |rs'| ensures CheckAt(keys.hmacKey, rs', i) == None {
      SameRecordsSameCheck(keys.hmacKey, rs, rs', i);
      if i < |rs| { assert CheckAt(keys.hmacKey, rs, i) == None; }
    }
  }

  lemma RecordsSnoc(cipher: Cipher<Event>, history: seq<Sealed>, next: Sealed)
    requires AllBodies(Bodies(cipher, history)) && IsBody(cipher.seal(next.event, next.nonce))
    ensures AllBodies(Bodies(cipher, history + [next]))
    ensures
      var rs, rs' := Records(cipher, history), Records(cipher, history + [next]);
      rs'[|rs|].plaintext == next.event
      && forall i :: 0 <= i < |rs| ==> rs'[i].raw == rs[i].raw && rs'[i].plaintext == rs[i].plaintext
  {
    var longer := history + [next];
    assert Bodies(cipher, longer) == Bodies(cipher, history) + [cipher.seal(next.event, next.nonce)];
  }

  /** Whether a record links depends on it and the one before. */
  lemma SameRecordsSameCheck(hmacKey: Bytes, rs: seq<Rec<Event>>, rs': seq<Rec<Event>>, i: nat)
    requires i <= |rs| < |rs'|
    requires forall k :: 0 <= k < |rs| ==> rs'[k].raw == rs[k].raw && rs'[k].plaintext == rs[k].plaintext
    ensures CheckAt(hmacKey, rs', i) == CheckEvent(hmacKey, rs'[i].plaintext, RawBefore(rs, i), IdBefore(rs, i))
    ensures i < |rs| ==> CheckAt(hmacKey, rs', i) == CheckAt(hmacKey, rs, i)
  {
  }

  /** One append, complete or cut short anywhere: the file holds what the plain list holds, at the
      boundary, and a complete append leaves no tail. The answer is the new event's id. */
  lemma AppendStep(keys: Keys, taskId: string, data: Bytes, history: seq<Sealed>, torn: Bytes,
                   draft: Draft, nonce: Bytes, keep: nat)
    returns (torn': Bytes)
    requires Sound(keys.cipher) && Holds(keys, data, history, torn)
    ensures
      var history' := Commit(keys, taskId, history, Append(draft, nonce, keep));
      && Holds(keys, AfterAppend(keys, taskId, data, draft, nonce, keep).1, history', torn')
      && (history' != history ==> torn' == [])
    ensures
      var event := EventRecord(keys.hmacKey, taskId, draft, Last(Records(keys.cipher, history)));
      AfterAppend(keys, taskId, data, draft, nonce, keep).0
      == if |keys.cipher.seal(event, nonce)| < MAX_BODY then Ok(draft.eventId) else Err(TooLarge)
  {
    ReadReturnsHistory(keys, data, history, torn);
    var event := EventRecord(keys.hmacKey, taskId, draft, Last(Records(keys.cipher, history)));
    var body := keys.cipher.seal(event, nonce);
    if |body| < MAX_BODY {
      torn' := WriteStep(keys, data, history, torn, Sealed(event, nonce), keep);
    } else {
      torn' := [];
      NothingIsTorn();
      assert Concat(Bodies(keys.cipher, history)) + [] == Concat(Bodies(keys.cipher, history));
    }
  }

  /** Writing a record that fits, cut after `keep` bytes: complete or torn. */
  lemma WriteStep(keys: Keys, data: Bytes, history: seq<Sealed>, torn: Bytes, next: Sealed, keep: nat) returns (torn': Bytes)
    requires Sound(keys.cipher) && Holds(keys, data, history, torn)
    requires |keys.cipher.seal(next.event, next.nonce)| < MAX_BODY
    requires
      var rs := Records(keys.cipher, history);
      CheckEvent(keys.hmacKey, next.event, RawBefore(rs, |rs|), IdBefore(rs, |rs|)) == None
    ensures
      var frame := Frame(keys.cipher.seal(next.event, next.nonce));
      var written := frame[..if keep < |frame| then keep else |frame|];
      && Holds(keys, Concat(Bodies(keys.cipher, history)) + written,
               if keep < |frame| then history else history + [next], torn')
      && (keep >= |frame| ==> torn' == [])
  {
    var body := keys.cipher.seal(next.event, next.nonce);
    assert IsBody(body);
    if |Frame(body)| <= keep {
      torn' := [];
      CompleteWrite(keys, data, history, torn, next);
      assert Frame(body)[..|Frame(body)|] == Frame(body);
    } else {
      torn' := Frame(body)[..keep];
      CutWrite(keys, data, history, torn, body, keep);
    }
  }

  lemma CompleteWrite(keys: Keys, data: Bytes, history: seq<Sealed>, torn: Bytes, next: Sealed)
    requires Holds(keys, data, history, torn)
    requires IsBody(keys.cipher.seal(next.event, next.nonce))
    requires
      var rs := Records(keys.cipher, history);
      CheckEvent(keys.hmacKey, next.event, RawBefore(rs, |rs|), IdBefore(rs, |rs|)) == None
    ensures Holds(keys, Concat(Bodies(keys.cipher, history)) + Frame(keys.cipher.seal(next.event, next.nonce)),
                  history + [next], [])
  {
    ChainedSnoc(keys, history, next);
    NothingIsTorn();
    var bytes := Concat(Bodies(keys.cipher, history + [next]));
    assert bytes + [] == bytes;
  }

  lemma CutWrite(keys: Keys, data: Bytes, history: seq<Sealed>, torn: Bytes, body: Bytes, keep: nat)
    requires Holds(keys, data, history, torn)
    requires IsBody(body) && keep < |Frame(body)|
    ensures Holds(keys, Concat(Bodies(keys.cipher, history)) + Frame(body)[..keep], history, Frame(body)[..keep])
  {
    assert Frame(body)[..keep] < Frame(body);
  }

  /** Recovery reports a truncation exactly when the tail was not empty, and removes it. */
  lemma RecoverStep(keys: Keys, data: Bytes, history: seq<Sealed>, torn: Bytes)
    requires Sound(keys.cipher) && Holds(keys, data, history, torn)
    ensures Holds(keys, Truncated(keys.cipher, data), history, [])
    ensures |Truncated(keys.cipher, data)| < |data| <==> torn != []
  {
    ReadReturnsHistory(keys, data, history, torn);
    NothingIsTorn();
    var bytes := Concat(Bodies(keys.cipher, history));
    assert bytes + [] == bytes;
  }

  lemma OpStep(keys: Keys, taskId: string, data: Bytes, history: seq<Sealed>, torn: Bytes, op: Op) returns (torn': Bytes)
    requires Sound(keys.cipher) && Holds(keys, data, history, torn)
    ensures
      var history' := Commit(keys, taskId, history, op);
      Holds(keys, Apply(keys, taskId, data, op), history', torn') && history <= history'
  {
    torn' := [];
    match op {
      case Append(draft, nonce, keep) =>
        torn' := AppendStep(keys, taskId, data, history, torn, draft, nonce, keep);
      case Recover =>
        RecoverStep(keys, data, history, torn);
    }
  }

  /** Over every run of appends, crashes inside a write and recoveries, the file is the frames of the
      plain list of committed events plus at most one torn tail, and verification accepts it. */
  lemma {:induction false} CrashSafety(keys: Keys, taskId: string, data: Bytes, history: seq<Sealed>, torn: Bytes, ops: seq<Op>)
    returns (torn': Bytes)
    requires Sound(keys.cipher) && Holds(keys, data, history, torn)
    ensures
      var data', history' := Run(keys, taskId, data, ops), CommitAll(keys, taskId, history, ops);
      && Holds(keys, data', history', torn')
      && history <= history'
      && Verify(keys, data').Ok?
      && Verify(keys, data').value.eventCount == |history'|
    decreases |ops|
  {
    if ops == [] {
      torn' := torn;
      VerifyAccepts(keys, data, history, torn);
    } else {
      var t := OpStep(keys, taskId, data, history, torn, ops[0]);
      torn' := CrashSafety(keys, taskId, Apply(keys, taskId, data, ops[0]),
                           Commit(keys, taskId, history, ops[0]), t, ops[1..]);
    }
  }

  /** From an empty file: every log the daemon can leave behind is whole up to a torn tail, and verifies. */
  lemma EveryLogIsSafe(keys: Keys, taskId: string, ops: seq<Op>) returns (torn: Bytes)
    requires Sound(keys.cipher)
    ensures
      var data, history := Run(keys, taskId, [], ops), CommitAll(keys, taskId, [], ops);
      Holds(keys, data, history, torn) && Verify(keys, data).Ok? && Verify(keys, data).value.eventCount == |history|
  {
    EmptyLogHolds(keys);
    torn := CrashSafety(keys, taskId, [], [], [], ops);
  }

  // ---- the last record commits to the whole history ----

  ghost predicate Accepted(keys: Keys, records: seq<Rec<Event>>) {
    FirstFailure(keys.hmacKey, records, 0) == None
  }

  /** Records come from frames: the plaintext is what the raw bytes open to. */
  ghost predicate Authentic(cipher: Cipher<Event>, records: seq<Rec<Event>>) {
    forall i :: 0 <= i < |records| ==>
      && |records[i].raw| > LENGTH_BYTES
      && cipher.open(records[i].raw[LENGTH_BYTES..]) == Some(records[i].plaintext)
  }

  lemma ReadIsAuthentic(cipher: Cipher<Event>, data: Bytes)
    requires Read(cipher, data).Ok?
    ensures Authentic(cipher, Read(cipher, data).value)
  {
    var frames, records := Frames(data, 0), Read(cipher, data).value;
    forall i | 0 <= i < |records|
      ensures |records[i].raw| > LENGTH_BYTES
      ensures cipher.open(records[i].raw[LENGTH_BYTES..]) == Some(records[i].plaintext)
    {
      DecodeAt(cipher, frames, i);
      FramesAreRaw(data, 0, i);
    }
  }

  ghost predicate LinkedAt(records: seq<Rec<Event>>, i: nat)
    requires i < |records|
  {
    records[i].plaintext.content.prevHash == Sha256(RawBefore(records, i))
  }

  ghost predicate Linked(records: seq<Rec<Event>>) {
    forall i :: 0 <= i < |records| ==> LinkedAt(records, i)
  }

  lemma AcceptedIsLinked(keys: Keys, records: seq<Rec<Event>>)
    requires Accepted(keys, records)
    ensures Linked(records)
  {
    NoFailureFrom(keys.hmacKey, records, 0);
    forall i | 0 <= i < |records| ensures LinkedAt(records, i) {
      assert CheckAt(keys.hmacKey, records, i) == None;
    }
  }

  lemma SameRawSamePast(cipher: Cipher<Event>, a: seq<Rec<Event>>, b: seq<Rec<Event>>, i: nat, j: nat)
    requires Linked(a) && Linked(b)
    requires Authentic(cipher, a) && Authentic(cipher, b)
    requires i < |a| && j < |b| && a[i].raw == b[j].raw
    ensures a[i].plaintext == b[j].plaintext && RawBefore(a, i) == RawBefore(b, j)
  {
    assert LinkedAt(a, i) && LinkedAt(b, j);
  }

  lemma RawBeforeIsEmpty(cipher: Cipher<Event>, records: seq<Rec<Event>>, i: nat)
    requires Authentic(cipher, records) && i <= |records|
    ensures |RawBefore(records, i)| == 0 <==> i == 0
  {
  }

  /** Two linked record lists that agree on the raw bytes at positions `i` and `j` agree on
      everything before, so the positions are the same. */
  lemma {:induction false} HeadsAgree(cipher: Cipher<Event>, a: seq<Rec<Event>>, b: seq<Rec<Event>>, i: nat, j: nat)
    requires Linked(a) && Linked(b)
    requires Authentic(cipher, a) && Authentic(cipher, b)
    requires i < |a| && j < |b| && a[i].raw == b[j].raw
    ensures i == j
    ensures forall k :: 0 <= k <= i ==> a[k].raw == b[k].raw
  {
    SameRawSamePast(cipher, a, b, i, j);
    RawBeforeIsEmpty(cipher, a, i);
    RawBeforeIsEmpty(cipher, b, j);
    if i == 0 {
      assert j == 0;
    } else {
      assert j > 0 && a[i - 1].raw == b[j - 1].raw;
      HeadsAgree(cipher, a, b, i - 1, j - 1);
    }
  }

  /** Verification accepts the log. */
  ghost predicate Intact(keys: Keys, data: Bytes) {
    Verify(keys, data).Ok?
  }

  ghost predicate SameLastRecord(a: Bytes, b: Bytes) {
    var fa, fb := Frames(a, 0), Frames(b, 0);
    fa != [] && fb != [] && fa[|fa| - 1].raw == fb[|fb| - 1].raw
  }

  ghost predicate SameRaw(a: seq<Framed>, b: seq<Framed>) {
    |a| == |b| && forall i :: 0 <= i < |a| ==> a[i].raw == b[i].raw
  }

  ghost predicate KeepsRaws(records: seq<Rec<Event>>, frames: seq<Framed>) {
    |records| == |frames| && forall i :: 0 <= i < |frames| ==> records[i].raw == frames[i].raw
  }

  /** Tamper evidence: two logs that verification accepts and whose last records have the same raw
      bytes hold the same bytes up to the last whole record. */
  lemma HeadCommitsToHistory(keys: Keys, a: Bytes, b: Bytes)
    requires Intact(keys, a) && Intact(keys, b) && SameLastRecord(a, b)
    ensures a[..Boundary(a, 0)] == b[..Boundary(b, 0)]
    ensures |Frames(a, 0)| == |Frames(b, 0)|
  {
    HeadCommitsToRecords(keys, a, b);
    SameRaws(Frames(a, 0), Frames(b, 0));
    RawsCoverPrefix(a, 0);
    RawsCoverPrefix(b, 0);
  }

  lemma HeadCommitsToRecords(keys: Keys, a: Bytes, b: Bytes)
    requires Intact(keys, a) && Intact(keys, b) && SameLastRecord(a, b)
    ensures SameRaw(Frames(a, 0), Frames(b, 0))
  {
    var ra := VerifiedRecords(keys, a);
    var rb := VerifiedRecords(keys, b);
    LastRawsAgree(keys.cipher, Frames(a, 0), ra, Frames(b, 0), rb);
  }

  lemma LastRawsAgree(cipher: Cipher<Event>, fa: seq<Framed>, ra: seq<Rec<Event>>, fb: seq<Framed>, rb: seq<Rec<Event>>)
    requires Linked(ra) && Authentic(cipher, ra) && Linked(rb) && Authentic(cipher, rb)
    requires |fa| > 0 && |fb| > 0
    requires KeepsRaws(ra, fa) && KeepsRaws(rb, fb)
    requires fa[|fa| - 1].raw == fb[|fb| - 1].raw
    ensures SameRaw(fa, fb)
  {
    HeadsAgree(cipher, ra, rb, |ra| - 1, |rb| - 1);
  }

  /** The records of a log that verification accepts. */
  lemma VerifiedRecords(keys: Keys, data: Bytes) returns (records: seq<Rec<Event>>)
    requires Intact(keys, data)
    ensures Linked(records) && Authentic(keys.cipher, records) && KeepsRaws(records, Frames(data, 0))
  {
    records := Read(keys.cipher, data).value;
    RecordsKeepRaws(keys.cipher, data);
    AcceptedIsLinked(keys, records);
  }

  lemma RecordsKeepRaws(cipher: Cipher<Event>, data: Bytes)
    requires Read(cipher, data).Ok?
    ensures Authentic(cipher, Read(cipher, data).value)
    ensures KeepsRaws(Read(cipher, data).value, Frames(data, 0))
  {
    ReadIsAuthentic(cipher, data);
    forall i | 0 <= i < |Frames(data, 0)|
      ensures Read(cipher, data).value[i].raw == Frames(data, 0)[i].raw
    {
      DecodeAt(cipher, Frames(data, 0), i);
    }
  }

  lemma {:induction false} SameRaws(a: seq<Framed>, b: seq<Framed>)
    requires SameRaw(a, b)
    ensures Raws(a) == Raws(b)
  {
    if a != [] {
      SameRaws(a[1..], b[1..]);
    }
  }

  /** Acceptance is closed under cutting the file anywhere, even inside a record: what is left
      verifies as a shorter history. */
  lemma VerifyPrefixClosed(keys: Keys, data: Bytes, n: nat)
    requires Intact(keys, data) && n <= |data|
    ensures Intact(keys, data[..n])
    ensures Verify(keys, data[..n]).value.eventCount == |Frames(data[..n], 0)| <= Verify(keys, data).value.eventCount
  {
    var all, some := Frames(data, 0), Frames(data[..n], 0);
    PrefixFrames(data, 0, n);
    assert some == all[..|some|];
    DecodePrefix(keys.cipher, all, |some|);
    AcceptedPrefix(keys, Read(keys.cipher, data).value, |some|);
  }

  lemma AcceptedPrefix(keys: Keys, records: seq<Rec<Event>>, n: nat)
    requires Accepted(keys, records) && n <= |records|
    ensures Accepted(keys, records[..n])
  {
    var kept := records[..n];
    NoFailureFrom(keys.hmacKey, records, 0);
    NoFailureFrom(keys.hmacKey, kept, 0);
    forall i | 0 <= i < n
      ensures CheckAt(keys.hmacKey, kept, i) == None
    {
      assert CheckAt(keys.hmacKey, records, i) == None;
      assert RawBefore(kept, i) == RawBefore(records, i) && IdBefore(kept, i) == IdBefore(records, i);
    }
  }
}
