/** What verification of an event log accepts and what it rejects, event by event, and that an append reads back. */
module LogVerification {
  import opened Common
  import opened FrameCodec
  import opened RecordFile
  import opened EventStore
  import opened EventLogSafety

  /** What the event at a position owes to the one before it: nothing to hash and no parent at the start. */
  predicate ChainsTo(content: Content, records: seq<Rec<Event>>, i: nat)
    requires i < |records|
  {
    if i == 0 then content.prevHash == Sha256([]) && content.parentEventId == None
    else
      && content.prevHash == Sha256(records[i - 1].raw)
      && content.parentEventId == Some(records[i - 1].plaintext.content.eventId)
  }

  /** An event of the known version, signed with the key, and linked to the one before it. */
  predicate IsGenuine(hmacKey: Bytes, records: seq<Rec<Event>>, i: nat)
    requires i < |records|
  {
    var event := records[i].plaintext;
    && event.content.schemaVersion == 1
    && event.hmac == HmacSha256(hmacKey, event.content)
    && ChainsTo(event.content, records, i)
  }

  ghost predicate AllGenuine(hmacKey: Bytes, records: seq<Rec<Event>>, n: nat)
    requires n <= |records|
  {
    forall i :: 0 <= i < n ==> IsGenuine(hmacKey, records, i)
  }

  /** What is wrong with a file: it does not read, or this is its first event that is not genuine and this is the first
      of the four things wrong with it. */
  ghost predicate Explains(keys: Keys, data: Bytes, failure: Failure) {
    match Read(keys.cipher, data)
    case Err(_) => failure == ReadFailed
    case Ok(records) => exists i :: FailsFirstAt(keys.hmacKey, records, i, failure)
  }

  ghost predicate FailsFirstAt(hmacKey: Bytes, records: seq<Rec<Event>>, i: int, failure: Failure) {
    && 0 <= i < |records| && AllGenuine(hmacKey, records, i)
    && var event := records[i].plaintext;
       var id := event.content.eventId;
       var previousRaw := if i == 0 then [] else records[i - 1].raw;
       match failure
       case UnsupportedVersion(x) => x == id && event.content.schemaVersion != 1
       case HmacMismatch(x) =>
         x == id && event.content.schemaVersion == 1 && event.hmac != HmacSha256(hmacKey, event.content)
       case HashChainBreak(x) =>
         && x == id && event.content.schemaVersion == 1 && event.hmac == HmacSha256(hmacKey, event.content)
         && event.content.prevHash != Sha256(previousRaw)
       case ParentChainBreak(x) =>
         && x == id && event.content.schemaVersion == 1 && event.hmac == HmacSha256(hmacKey, event.content)
         && event.content.prevHash == Sha256(previousRaw) && !ChainsTo(event.content, records, i)
       case _ => false
  }

  // ---- exactly what is accepted ----

  lemma CheckPassesExactlyWhen(hmacKey: Bytes, records: seq<Rec<Event>>, i: nat)
    requires i < |records|
    ensures CheckAt(hmacKey, records, i) == None <==> IsGenuine(hmacKey, records, i)
  {
  }

  lemma {:induction false} FirstFailureIsFirst(hmacKey: Bytes, records: seq<Rec<Event>>, i: nat)
    requires i <= |records| && AllGenuine(hmacKey, records, i)
    ensures FirstFailure(hmacKey, records, i).None? ==> AllGenuine(hmacKey, records, |records|)
    ensures FirstFailure(hmacKey, records, i).Some? ==>
              exists j :: FailsFirstAt(hmacKey, records, j, FirstFailure(hmacKey, records, i).value)
    decreases |records| - i
  {
    if i < |records| {
      CheckPassesExactlyWhen(hmacKey, records, i);
      if CheckAt(hmacKey, records, i).Some? {
        assert FailsFirstAt(hmacKey, records, i, CheckAt(hmacKey, records, i).value);
      } else {
        FirstFailureIsFirst(hmacKey, records, i + 1);
      }
    }
  }

  /** A failure that explains a list of records leaves no room for another, nor for acceptance. */
  lemma FailureIsUnique(hmacKey: Bytes, records: seq<Rec<Event>>, i: int, f: Failure, j: int, g: Failure)
    requires FailsFirstAt(hmacKey, records, i, f) && FailsFirstAt(hmacKey, records, j, g)
    ensures i == j && f == g
  {
    assert !IsGenuine(hmacKey, records, i) && !IsGenuine(hmacKey, records, j);
  }

  /** Verification accepts a file if and only if it reads and all its events are genuine, and then counts them and names
      the last. */
  lemma AcceptsExactlyWhen(keys: Keys, data: Bytes)
    ensures Verify(keys, data).Ok? <==>
            Read(keys.cipher, data).Ok?
            && var records := Read(keys.cipher, data).value; AllGenuine(keys.hmacKey, records, |records|)
    ensures Verify(keys, data).Ok? ==>
              var records := Read(keys.cipher, data).value;
              Verify(keys, data).value
              == Verification(|records|, if records == [] then None else Some(records[|records| - 1].plaintext.content.eventId))
  {
    if Read(keys.cipher, data).Ok? {
      var records := Read(keys.cipher, data).value;
      FirstFailureIsFirst(keys.hmacKey, records, 0);
      if FirstFailure(keys.hmacKey, records, 0).Some? {
        var j :| FailsFirstAt(keys.hmacKey, records, j, FirstFailure(keys.hmacKey, records, 0).value);
        assert !IsGenuine(keys.hmacKey, records, j);
      }
    }
  }

  /** It answers with a failure if and only if that failure explains the file: that it does not read, or the first event
      that is not genuine and what is wrong with it, the version before the signature, the hash and the parent. */
  lemma RejectsExactlyWhen(keys: Keys, data: Bytes, failure: Failure)
    ensures Verify(keys, data) == Err(failure) <==> Explains(keys, data, failure)
  {
    if Read(keys.cipher, data).Ok? {
      var records := Read(keys.cipher, data).value;
      FirstFailureIsFirst(keys.hmacKey, records, 0);
      var found := FirstFailure(keys.hmacKey, records, 0);
      if i :| FailsFirstAt(keys.hmacKey, records, i, failure) {
        assert !IsGenuine(keys.hmacKey, records, i);
        var j :| FailsFirstAt(keys.hmacKey, records, j, found.value);
        FailureIsUnique(keys.hmacKey, records, i, failure, j, found.value);
      }
    }
  }

  // ---- tampering ----

  /** Reading a file of printed records, whether or not they chain. */
  lemma ReadPrinted(cipher: Cipher<Event>, data: Bytes, history: seq<Sealed>, torn: Bytes)
    requires Sound(cipher) && AllBodies(Bodies(cipher, history)) && IsTornTail(torn)
    requires data == Concat(Bodies(cipher, history)) + torn
    ensures Read(cipher, data) == Ok(Records(cipher, history))
  {
    assert data[0..] == data;
    ParsePrinted(data, 0, Bodies(cipher, history), torn);
    PrintedRecords(cipher, history);
  }

  /** The records before a replaced one are as they were, and the replaced one has the raw bytes before it as its past. */
  lemma ReplacedRecords(cipher: Cipher<Event>, history: seq<Sealed>, i: nat, forged: Sealed)
    requires i < |history| && AllBodies(Bodies(cipher, history)) && AllBodies(Bodies(cipher, history[i := forged]))
    ensures
      var before, after := Records(cipher, history), Records(cipher, history[i := forged]);
      && (forall j :: 0 <= j < i ==> after[j].raw == before[j].raw && after[j].plaintext == before[j].plaintext)
      && after[i].plaintext == forged.event
  {
    var before, after := Records(cipher, history), Records(cipher, history[i := forged]);
    forall j | 0 <= j < i ensures after[j].raw == before[j].raw && after[j].plaintext == before[j].plaintext {
      assert Bodies(cipher, history[i := forged])[j] == Bodies(cipher, history)[j];
    }
  }

  /** Tampering is found: in any log the daemon leaves, one event is replaced by another that is not signed with the key,
      be it in its content or in its signature, and the file is framed anew. Verification names that event, and its
      signature, unless the forged event claims another version. */
  lemma TamperingIsFound(keys: Keys, data: Bytes, history: seq<Sealed>, torn: Bytes, i: nat, forged: Sealed, data': Bytes)
    requires Sound(keys.cipher) && Holds(keys, data, history, torn) && i < |history|
    requires forged.event.hmac != HmacSha256(keys.hmacKey, forged.event.content)
    requires AllBodies(Bodies(keys.cipher, history[i := forged]))
    requires data' == Concat(Bodies(keys.cipher, history[i := forged])) + torn
    ensures
      var content := forged.event.content;
      Verify(keys, data') ==
      Err(if content.schemaVersion == 1 then HmacMismatch(content.eventId) else UnsupportedVersion(content.eventId))
  {
    var records := Records(keys.cipher, history[i := forged]);
    var content := forged.event.content;
    var failure := if content.schemaVersion == 1 then HmacMismatch(content.eventId) else UnsupportedVersion(content.eventId);
    ReadPrinted(keys.cipher, data', history[i := forged], torn);
    ReplacedRecords(keys.cipher, history, i, forged);
    ChainedIsGenuine(keys, history);
    forall j | 0 <= j < i ensures IsGenuine(keys.hmacKey, records, j) {
      assert IsGenuine(keys.hmacKey, Records(keys.cipher, history), j);
    }
    assert FailsFirstAt(keys.hmacKey, records, i, failure);
    RejectsExactlyWhen(keys, data', failure);
  }

  lemma ChainedIsGenuine(keys: Keys, history: seq<Sealed>)
    requires AllBodies(Bodies(keys.cipher, history)) && Chained(keys, history)
    ensures AllGenuine(keys.hmacKey, Records(keys.cipher, history), |history|)
  {
    forall j | 0 <= j < |history| ensures IsGenuine(keys.hmacKey, Records(keys.cipher, history), j) {
      CheckPassesExactlyWhen(keys.hmacKey, Records(keys.cipher, history), j);
    }
  }

  /** In every run, from an empty file: an event of what was committed, replaced like this, is found. */
  lemma EveryTamperingIsFound(keys: Keys, taskId: string, ops: seq<Op>, i: nat, forged: Sealed)
    returns (torn: Bytes)
    requires Sound(keys.cipher) && i < |CommitAll(keys, taskId, [], ops)|
    requires forged.event.content.schemaVersion == 1
    requires forged.event.hmac != HmacSha256(keys.hmacKey, forged.event.content)
    requires AllBodies(Bodies(keys.cipher, CommitAll(keys, taskId, [], ops)[i := forged]))
    ensures
      var history := CommitAll(keys, taskId, [], ops);
      && Run(keys, taskId, [], ops) == Concat(Bodies(keys.cipher, history)) + torn
      && Verify(keys, Concat(Bodies(keys.cipher, history[i := forged])) + torn) == Err(HmacMismatch(forged.event.content.eventId))
  {
    var history := CommitAll(keys, taskId, [], ops);
    torn := EveryLogIsSafe(keys, taskId, ops);
    TamperingIsFound(keys, Run(keys, taskId, [], ops), history, torn, i, forged,
                     Concat(Bodies(keys.cipher, history[i := forged])) + torn);
  }

  // ---- an append reads back ----

  /** After an append that reaches the disk whole, the log reads as before with one event more, which carries what the
      caller gave it. */
  lemma AppendThenRead(keys: Keys, taskId: string, data: Bytes, history: seq<Sealed>, torn: Bytes,
                       draft: Draft, nonce: Bytes, keep: nat)
    requires Sound(keys.cipher) && Holds(keys, data, history, torn)
    requires |Commit(keys, taskId, history, Append(draft, nonce, keep))| > |history|
    ensures
      var data' := AfterAppend(keys, taskId, data, draft, nonce, keep).1;
      && Read(keys.cipher, data).Ok? && Read(keys.cipher, data').Ok?
      && var before, after := Read(keys.cipher, data).value, Read(keys.cipher, data').value;
         && |after| == |before| + 1 && after[..|before|] == before
         && var content := after[|before|].plaintext.content;
            && content.eventId == draft.eventId && content.taskId == taskId && content.timestamp == draft.timestamp
            && content.eventType == draft.eventType && content.payload == draft.payload
  {
    var op := Append(draft, nonce, keep);
    var history' := Commit(keys, taskId, history, op);
    var torn' := AppendStep(keys, taskId, data, history, torn, draft, nonce, keep);
    ReadReturnsHistory(keys, data, history, torn);
    ReadReturnsHistory(keys, AfterAppend(keys, taskId, data, draft, nonce, keep).1, history', torn');
    RecordsPrefix(keys.cipher, history, history');
  }

  lemma RecordsPrefix(cipher: Cipher<Event>, history: seq<Sealed>, longer: seq<Sealed>)
    requires history <= longer && AllBodies(Bodies(cipher, history)) && AllBodies(Bodies(cipher, longer))
    ensures Records(cipher, longer)[..|history|] == Records(cipher, history)
  {
    var a, b := Records(cipher, longer), Records(cipher, history);
    forall i | 0 <= i < |history| ensures a[i] == b[i] {
      BodiesPrefix(cipher, history, longer, i + 1);
    }
  }

  lemma BodiesPrefix(cipher: Cipher<Event>, history: seq<Sealed>, longer: seq<Sealed>, n: nat)
    requires history <= longer && n <= |history|
    ensures Bodies(cipher, longer)[..n] == Bodies(cipher, history)[..n]
  {
  }
}
