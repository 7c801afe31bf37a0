/** Checkpoints of one task (apps/daemon/src/persistence/checkpointStore.ts): one encrypted file per
    checkpoint, named after the event it covers. Never authoritative, so a bad file is skipped. */
module Checkpoints {
  import opened Common
  import opened FrameCodec
  import opened RecordFile
  import opened StringOrder
  import opened Uuid

  const SUFFIX := ".checkpoint"

  /** SHA-256 over the canonical JSON of the event id and the derived state, as a free constructor. */
  datatype IntegrityHash = IntegrityHash(eventId: string, derivedState: string)

  datatype CheckpointRecord = CheckpointRecord(
    schemaVersion: nat, eventId: string, derivedState: string, integrityHash: IntegrityHash, writtenAt: string)

  /** A file's checkpoint, if it reads, authenticates and matches its own hash. */
  function Load(cipher: Cipher<CheckpointRecord>, data: Bytes): Option<CheckpointRecord> {
    match Read(cipher, data)
    case Err(_) => None
    case Ok(records) =>
      if records == [] then None
      else
        var c := records[0].plaintext;
        if c.schemaVersion == 1 && c.integrityHash == IntegrityHash(c.eventId, c.derivedState) then Some(c) else None
  }

  function EndsWith(s: string, suffix: string): bool {
    |suffix| <= |s| && s[|s| - |suffix|..] == suffix
  }

  function Filter(names: seq<string>): (r: seq<string>)
    ensures forall n :: n in r <==> n in names && EndsWith(n, SUFFIX)
  {
    if names == [] then []
    else (if EndsWith(names[0], SUFFIX) then [names[0]] else []) + Filter(names[1..])
  }

  lemma CandidatesAre(listing: seq<string>, names: set<string>)
    requires ToSet(listing) == names
    ensures Ascending(Sort(Filter(listing)))
    ensures forall f :: f in Sort(Filter(listing)) <==> f in names && EndsWith(f, SUFFIX)
  {
    var kept := Filter(listing);
    SortSorts(kept);
    forall f ensures f in Sort(kept) <==> f in names && EndsWith(f, SUFFIX) {
      assert f in Sort(kept) <==> f in multiset(Sort(kept));
      assert f in multiset(kept) <==> f in kept;
      assert f in listing <==> f in ToSet(listing);
    }
  }

  /** `f` is the checkpoint file with the greatest name among those that load. */
  ghost predicate IsNewest(cipher: Cipher<CheckpointRecord>, files: map<string, Bytes>, f: string) {
    && f in files && EndsWith(f, SUFFIX) && Load(cipher, files[f]).Some?
    && forall g :: g in files && EndsWith(g, SUFFIX) && Load(cipher, files[g]).Some? ==> !Before(f, g)
  }

  ghost predicate NoneLoads(cipher: Cipher<CheckpointRecord>, files: map<string, Bytes>) {
    forall f :: f in files && EndsWith(f, SUFFIX) ==> Load(cipher, files[f]).None?
  }

  /** The valid checkpoint with the greatest file name, and None exactly when no file is valid. */
  ghost predicate IsLatest(cipher: Cipher<CheckpointRecord>, files: map<string, Bytes>, r: Option<CheckpointRecord>) {
    match r
    case None => NoneLoads(cipher, files)
    case Some(_) => exists f :: IsNewest(cipher, files, f) && Load(cipher, files[f]) == r
  }

  lemma LastValid(cipher: Cipher<CheckpointRecord>, files: map<string, Bytes>, candidates: seq<string>, i: nat)
    requires Ascending(candidates) && i < |candidates|
    requires forall f :: f in candidates <==> f in files && EndsWith(f, SUFFIX)
    requires forall j :: i < j < |candidates| ==> Load(cipher, files[candidates[j]]).None?
    requires Load(cipher, files[candidates[i]]).Some?
    ensures IsNewest(cipher, files, candidates[i])
  {
    forall g | g in files && EndsWith(g, SUFFIX) && Load(cipher, files[g]).Some?
      ensures !Before(candidates[i], g)
    {
      assert g in candidates;
      var j :| 0 <= j < |candidates| && candidates[j] == g;
      NotBeforeItself(g);
    }
  }

  function RecordOf(eventId: string, derivedState: string, writtenAt: string): CheckpointRecord {
    CheckpointRecord(1, eventId, derivedState, IntegrityHash(eventId, derivedState), writtenAt)
  }

  /** What a rewrite leaves when the process dies after `keep` bytes: nothing of a record that does not fit. */
  function Written(cipher: Cipher<CheckpointRecord>, c: CheckpointRecord, nonce: Bytes, keep: nat): Bytes {
    var body := cipher.seal(c, nonce);
    if |body| >= MAX_BODY then [] else Frame(body)[..if keep < |Frame(body)| then keep else |Frame(body)|]
  }

  predicate IsWhole(cipher: Cipher<CheckpointRecord>, c: CheckpointRecord, nonce: Bytes, keep: nat) {
    |cipher.seal(c, nonce)| < MAX_BODY && keep >= |Frame(cipher.seal(c, nonce))|
  }

  class CheckpointStore {
    const cipher: Cipher<CheckpointRecord>
    /** The task's checkpoint directory: file name to contents. */
    var files: map<string, Bytes>
    /** The event ids of the `checkpoint_written` events appended to the task's log. */
    var announced: seq<string>

    constructor (cipher: Cipher<CheckpointRecord>)
      ensures this.cipher == cipher && files == map[] && announced == []
    {
      this.cipher := cipher;
      files, announced := map[], [];
    }

    /** Rewrites the file for one event and announces it in the log. The process may die after `keep` bytes of the
        file are written; with `keep` beyond the file's length it does not. */
    method WriteCheckpoint(eventId: string, derivedState: string, writtenAt: string, nonce: Bytes, keep: nat)
      modifies this
      ensures
        var c := RecordOf(eventId, derivedState, writtenAt);
        && files == old(files)[eventId + SUFFIX := Written(cipher, c, nonce, keep)]
        && announced == old(announced)
                        + if IsWhole(cipher, c, nonce, keep) && keep > |Frame(cipher.seal(c, nonce))| then [eventId] else []
    {
      var c := RecordOf(eventId, derivedState, writtenAt);
      files := files[eventId + SUFFIX := []];
      var body := cipher.seal(c, nonce);
      if |body| < MAX_BODY {
        var frame := Frame(body);
        files := files[eventId + SUFFIX := frame[..if keep < |frame| then keep else |frame|]];
        if keep > |frame| {
          announced := announced + [eventId];
        }
      }
    }

    /** `listing` is the directory in whatever order the file system gives it. */
    method LatestCheckpoint(listing: seq<string>) returns (r: Option<CheckpointRecord>)
      requires ToSet(listing) == files.Keys
      ensures IsLatest(cipher, files, r)
    {
      var candidates := Sort(Filter(listing));
      CandidatesAre(listing, files.Keys);
      var i := |candidates|;
      while i > 0
        invariant 0 <= i <= |candidates|
        invariant forall j :: i <= j < |candidates| ==> Load(cipher, files[candidates[j]]).None?
      {
        i := i - 1;
        r := Load(cipher, files[candidates[i]]);
        if r.Some? {
          LastValid(cipher, files, candidates, i);
          return;
        }
      }
      r := None;
    }
  }

  /** A whole file is loaded if and only if its record has the known version and the hash of its own event and state;
      whoever changes the state without the hash, or the hash without the state, has the file skipped. */
  lemma WholeFileLoadsExactlyWhen(cipher: Cipher<CheckpointRecord>, c: CheckpointRecord, nonce: Bytes)
    requires Sound(cipher) && |cipher.seal(c, nonce)| < MAX_BODY
    ensures Load(cipher, Frame(cipher.seal(c, nonce))) ==
            if c.schemaVersion == 1 && c.integrityHash == IntegrityHash(c.eventId, c.derivedState) then Some(c) else None
  {
    var body := cipher.seal(c, nonce);
    var data := Frame(body);
    assert data[0..] == data;
    FrameEndAt(data, 0, body);
    FirstFrame(data, 0, |data|);
    assert data[0..|data|] == data;
    assert Frames(data, 0) == [Framed(data, body, |data|)];
    DecodeAt(cipher, Frames(data, 0), 0);
  }

  /** A checkpoint whose write was cut short is never used. */
  lemma TornCheckpointIsSkipped(cipher: Cipher<CheckpointRecord>, c: CheckpointRecord, nonce: Bytes, keep: nat)
    requires Sound(cipher) && |cipher.seal(c, nonce)| < MAX_BODY
    requires keep < |Frame(cipher.seal(c, nonce))|
    ensures Load(cipher, Frame(cipher.seal(c, nonce))[..keep]) == None
  {
    var body := cipher.seal(c, nonce);
    var data := Frame(body)[..keep];
    assert data < Frame(body) && IsBody(body);
    assert data[0..] == data;
    TornTailStops(data, 0);
    assert Frames(data, 0) == [];
  }

  lemma {:induction false} BeforeIsStringLess(a: string, b: string)
    requires |a| == |b|
    ensures Before(a, b) <==> StringLess(a, b)
  {
    if a != [] {
      BeforeIsStringLess(a[1..], b[1..]);
      assert a == [a[0]] + a[1..] && b == [b[0]] + b[1..];
      StringConcat([a[0]], a[1..], [b[0]], b[1..]);
      SingleOrder(a[0], b[0]);
      assert [a[0]] == [b[0]] <==> a[0] == b[0];
    }
  }

  lemma FormatLength(bytes: Bytes)
    requires |bytes| == 16
    ensures |Format(bytes)| == 36
  {
    assert |Format(bytes)| == 8 + (1 + |From4(bytes)|);
    assert |From4(bytes)| == 4 + (1 + |From6(bytes)|);
    assert |From6(bytes)| == 4 + (1 + |From8(bytes)|);
  }

  /** What a write leaves loads exactly when it is whole. */
  lemma WrittenLoads(cipher: Cipher<CheckpointRecord>, c: CheckpointRecord, nonce: Bytes, keep: nat)
    requires Sound(cipher) && c.schemaVersion == 1 && c.integrityHash == IntegrityHash(c.eventId, c.derivedState)
    ensures Load(cipher, Written(cipher, c, nonce, keep)) == if IsWhole(cipher, c, nonce, keep) then Some(c) else None
  {
    var body := cipher.seal(c, nonce);
    if |body| >= MAX_BODY {
      assert Frames([], 0) == [];
    } else if keep < |Frame(body)| {
      TornCheckpointIsSkipped(cipher, c, nonce, keep);
    } else {
      assert Frame(body)[..|Frame(body)|] == Frame(body);
      WholeFileLoadsExactlyWhen(cipher, c, nonce);
    }
  }

  /** A checkpoint written whole loads back as it was written; one cut short does not load. */
  lemma WriteThenLoad(cipher: Cipher<CheckpointRecord>, eventId: string, derivedState: string, writtenAt: string,
                      nonce: Bytes, keep: nat)
    requires Sound(cipher)
    ensures
      var c := RecordOf(eventId, derivedState, writtenAt);
      var loaded := Load(cipher, Written(cipher, c, nonce, keep));
      && (loaded.Some? <==> IsWhole(cipher, c, nonce, keep))
      && (loaded.Some? ==>
            && loaded.value.eventId == eventId && loaded.value.derivedState == derivedState
            && loaded.value.writtenAt == writtenAt)
  {
    WrittenLoads(cipher, RecordOf(eventId, derivedState, writtenAt), nonce, keep);
  }

  // ---- the newest name covers the latest event ----

  /** The file names of the listed event ids sort as the list. */
  ghost predicate InOrder(ids: seq<string>) {
    forall i, j :: 0 <= i < |ids| && 0 <= j < |ids| ==> (Before(ids[i] + SUFFIX, ids[j] + SUFFIX) <==> i < j)
  }

  lemma NamesDiffer(ids: seq<string>, i: nat, j: nat)
    requires InOrder(ids) && i < |ids| && j < |ids| && i != j
    ensures ids[i] + SUFFIX != ids[j] + SUFFIX
  {
    NotBeforeItself(ids[i] + SUFFIX);
  }

  /** Every checkpoint file is named after one of the ids. */
  ghost predicate NamedAfter(files: map<string, Bytes>, ids: seq<string>) {
    forall f :: f in files && EndsWith(f, SUFFIX) ==> exists k :: 0 <= k < |ids| && f == ids[k] + SUFFIX
  }

  /** The file of the k-th id loads to `r`. */
  ghost predicate Covers(cipher: Cipher<CheckpointRecord>, files: map<string, Bytes>, ids: seq<string>, k: int, r: Option<CheckpointRecord>) {
    && 0 <= k < |ids| && ids[k] + SUFFIX in files
    && r.Some? && Load(cipher, files[ids[k] + SUFFIX]) == r
  }

  ghost predicate IsLastCovered(
      cipher: Cipher<CheckpointRecord>, files: map<string, Bytes>, ids: seq<string>, k: int, r: Option<CheckpointRecord>) {
    Covers(cipher, files, ids, k, r) && forall j, c :: k < j ==> !Covers(cipher, files, ids, j, c)
  }

  lemma NameEnds(id: string)
    ensures EndsWith(id + SUFFIX, SUFFIX)
  {
  }

  lemma NewestIsLast(cipher: Cipher<CheckpointRecord>, files: map<string, Bytes>, ids: seq<string>, k: nat)
    requires InOrder(ids) && k < |ids| && IsNewest(cipher, files, ids[k] + SUFFIX)
    ensures IsLastCovered(cipher, files, ids, k, Load(cipher, files[ids[k] + SUFFIX]))
  {
    forall j, c | k < j ensures !Covers(cipher, files, ids, j, c) {
      if 0 <= j < |ids| {
        NameEnds(ids[j]);
        assert Before(ids[k] + SUFFIX, ids[j] + SUFFIX);
      }
    }
  }

  lemma LatestIsLastCovered(
      cipher: Cipher<CheckpointRecord>, files: map<string, Bytes>, ids: seq<string>, r: Option<CheckpointRecord>)
    requires InOrder(ids) && NamedAfter(files, ids) && IsLatest(cipher, files, r)
    ensures
      match r
      case None => forall k, c :: !Covers(cipher, files, ids, k, c)
      case Some(_) => exists k :: IsLastCovered(cipher, files, ids, k, r)
  {
    if r.None? {
      forall k, c ensures !Covers(cipher, files, ids, k, c) {
        if 0 <= k < |ids| { NameEnds(ids[k]); }
      }
    } else {
      var f :| IsNewest(cipher, files, f) && Load(cipher, files[f]) == r;
      var k :| 0 <= k < |ids| && f == ids[k] + SUFFIX;
      NewestIsLast(cipher, files, ids, k);
    }
  }

  // ---- a run of writes ----

  /** One checkpoint of the event with the given id, cut off after `keep` bytes. */
  datatype Write = Write(event: nat, derivedState: string, writtenAt: string, nonce: Bytes, keep: nat)

  ghost predicate AreWrites(writes: seq<Write>, ids: seq<string>) {
    forall i :: 0 <= i < |writes| ==> writes[i].event < |ids|
  }

  ghost function RecordOfWrite(ids: seq<string>, w: Write): CheckpointRecord
    requires w.event < |ids|
  {
    RecordOf(ids[w.event], w.derivedState, w.writtenAt)
  }

  ghost predicate WholeWrite(cipher: Cipher<CheckpointRecord>, ids: seq<string>, w: Write)
    requires w.event < |ids|
  {
    IsWhole(cipher, RecordOfWrite(ids, w), w.nonce, w.keep)
  }

  /** The directory after a run of checkpoints, each as `WriteCheckpoint` leaves it. */
  ghost function FilesAfter(cipher: Cipher<CheckpointRecord>, ids: seq<string>, writes: seq<Write>): map<string, Bytes>
    requires AreWrites(writes, ids)
  {
    if writes == [] then map[]
    else
      var w := writes[|writes| - 1];
      FilesAfter(cipher, ids, writes[..|writes| - 1])
        [ids[w.event] + SUFFIX := Written(cipher, RecordOfWrite(ids, w), w.nonce, w.keep)]
  }

  /** Write `i` is whole and the last one for its event. */
  ghost predicate Survives(cipher: Cipher<CheckpointRecord>, ids: seq<string>, writes: seq<Write>, i: int)
    requires AreWrites(writes, ids)
  {
    && 0 <= i < |writes| && WholeWrite(cipher, ids, writes[i])
    && forall j :: i < j < |writes| ==> writes[j].event != writes[i].event
  }

  /** Write `i` is the surviving one for event `k`, and `r` is what it wrote. */
  ghost predicate Leaves(
      cipher: Cipher<CheckpointRecord>, ids: seq<string>, writes: seq<Write>, i: int, k: nat, r: Option<CheckpointRecord>)
    requires AreWrites(writes, ids)
  {
    Survives(cipher, ids, writes, i) && writes[i].event == k && r == Some(RecordOfWrite(ids, writes[i]))
  }

  ghost predicate SomeLeaves(
      cipher: Cipher<CheckpointRecord>, ids: seq<string>, writes: seq<Write>, k: nat, r: Option<CheckpointRecord>)
    requires AreWrites(writes, ids)
  {
    exists i :: Leaves(cipher, ids, writes, i, k, r)
  }

  lemma {:induction false} FilesAreNamed(cipher: Cipher<CheckpointRecord>, ids: seq<string>, writes: seq<Write>)
    requires AreWrites(writes, ids)
    ensures NamedAfter(FilesAfter(cipher, ids, writes), ids)
  {
    if writes != [] {
      FilesAreNamed(cipher, ids, writes[..|writes| - 1]);
    }
  }

  /** The file of an event loads exactly when its last write is whole, and then as what that wrote. */
  lemma {:induction false} FileIsLastWrite(
      cipher: Cipher<CheckpointRecord>, ids: seq<string>, writes: seq<Write>, k: nat, r: Option<CheckpointRecord>)
    requires Sound(cipher) && AreWrites(writes, ids) && InOrder(ids) && k < |ids|
    ensures Covers(cipher, FilesAfter(cipher, ids, writes), ids, k, r) <==> SomeLeaves(cipher, ids, writes, k, r)
  {
    if writes != [] {
      var before := writes[..|writes| - 1];
      WriteCovers(cipher, ids, FilesAfter(cipher, ids, before), writes[|writes| - 1], k, r);
      if writes[|writes| - 1].event == k {
        LastWriteDecides(cipher, ids, writes, r);
      } else {
        FileIsLastWrite(cipher, ids, before, k, r);
        EarlierWritesDecide(cipher, ids, writes, k, r);
      }
    }
  }

  /** One write decides its own file and leaves the others. */
  lemma WriteCovers(
      cipher: Cipher<CheckpointRecord>, ids: seq<string>, files: map<string, Bytes>, w: Write, k: nat, r: Option<CheckpointRecord>)
    requires Sound(cipher) && InOrder(ids) && k < |ids| && w.event < |ids|
    ensures
      var files' := files[ids[w.event] + SUFFIX := Written(cipher, RecordOfWrite(ids, w), w.nonce, w.keep)];
      Covers(cipher, files', ids, k, r) <==>
      if w.event == k then WholeWrite(cipher, ids, w) && r == Some(RecordOfWrite(ids, w)) else Covers(cipher, files, ids, k, r)
  {
    WrittenLoads(cipher, RecordOfWrite(ids, w), w.nonce, w.keep);
    if k != w.event { NamesDiffer(ids, k, w.event); }
  }

  lemma LastWriteDecides(cipher: Cipher<CheckpointRecord>, ids: seq<string>, writes: seq<Write>, r: Option<CheckpointRecord>)
    requires AreWrites(writes, ids) && writes != []
    ensures
      var w := writes[|writes| - 1];
      SomeLeaves(cipher, ids, writes, w.event, r) <==> WholeWrite(cipher, ids, w) && r == Some(RecordOfWrite(ids, w))
  {
    var n := |writes| - 1;
    if WholeWrite(cipher, ids, writes[n]) && r == Some(RecordOfWrite(ids, writes[n])) {
      assert Leaves(cipher, ids, writes, n, writes[n].event, r);
    }
  }

  lemma EarlierWritesDecide(
      cipher: Cipher<CheckpointRecord>, ids: seq<string>, writes: seq<Write>, k: nat, r: Option<CheckpointRecord>)
    requires AreWrites(writes, ids) && writes != [] && writes[|writes| - 1].event != k
    ensures SomeLeaves(cipher, ids, writes, k, r) <==> SomeLeaves(cipher, ids, writes[..|writes| - 1], k, r)
  {
    var before := writes[..|writes| - 1];
    if SomeLeaves(cipher, ids, writes, k, r) {
      var i :| Leaves(cipher, ids, writes, i, k, r);
      EarlierWriteLeaves(cipher, ids, writes, i, k, r);
    }
    if SomeLeaves(cipher, ids, before, k, r) {
      var i :| Leaves(cipher, ids, before, i, k, r);
      EarlierWriteLeaves(cipher, ids, writes, i, k, r);
    }
  }

  lemma EarlierWriteLeaves(
      cipher: Cipher<CheckpointRecord>, ids: seq<string>, writes: seq<Write>, i: int, k: nat, r: Option<CheckpointRecord>)
    requires AreWrites(writes, ids) && writes != [] && writes[|writes| - 1].event != k
    ensures Leaves(cipher, ids, writes, i, k, r) <==> Leaves(cipher, ids, writes[..|writes| - 1], i, k, r)
  {
    var before := writes[..|writes| - 1];
    assert forall j :: 0 <= j < |before| ==> before[j] == writes[j];
  }

  lemma SurvivorCovers(cipher: Cipher<CheckpointRecord>, ids: seq<string>, writes: seq<Write>, i: int)
    requires Sound(cipher) && AreWrites(writes, ids) && InOrder(ids) && Survives(cipher, ids, writes, i)
    ensures Covers(cipher, FilesAfter(cipher, ids, writes), ids, writes[i].event, Some(RecordOfWrite(ids, writes[i])))
  {
    var r := Some(RecordOfWrite(ids, writes[i]));
    assert Leaves(cipher, ids, writes, i, writes[i].event, r);
    FileIsLastWrite(cipher, ids, writes, writes[i].event, r);
  }

  ghost predicate IsLatestSurvivor(cipher: Cipher<CheckpointRecord>, ids: seq<string>, writes: seq<Write>, i: int)
    requires AreWrites(writes, ids)
  {
    && Survives(cipher, ids, writes, i)
    && forall j :: Survives(cipher, ids, writes, j) ==> writes[j].event <= writes[i].event
  }

  lemma LastCoveredSurvives(
      cipher: Cipher<CheckpointRecord>, ids: seq<string>, writes: seq<Write>, k: nat, r: Option<CheckpointRecord>)
    requires Sound(cipher) && AreWrites(writes, ids) && InOrder(ids)
    requires IsLastCovered(cipher, FilesAfter(cipher, ids, writes), ids, k, r)
    ensures exists i :: IsLatestSurvivor(cipher, ids, writes, i) && r == Some(RecordOfWrite(ids, writes[i]))
  {
    FileIsLastWrite(cipher, ids, writes, k, r);
    var i :| Leaves(cipher, ids, writes, i, k, r);
    forall j | Survives(cipher, ids, writes, j) ensures writes[j].event <= k {
      SurvivorCovers(cipher, ids, writes, j);
    }
    assert IsLatestSurvivor(cipher, ids, writes, i);
  }

  // ---- with the generator's ids ----

  /** The printed identifiers of all calls of the generator. */
  ghost function EventIds(calls: seq<Call>): (ids: seq<string>)
    requires AreCalls(calls)
    ensures |ids| == |calls|
    ensures forall k :: 0 <= k < |ids| ==> ids[k] == Format(IdAt(calls, k))
  {
    seq(|calls|, k requires 0 <= k < |calls| => Format(IdAt(calls, k)))
  }

  lemma LexAsymmetric(a: seq<int>, b: seq<int>)
    requires |a| == |b| && AreBytes(a) && AreBytes(b)
    ensures !(LexLess(a, b) && LexLess(b, a))
  {
    LexIsNumeric(a, b);
    LexIsNumeric(b, a);
  }

  lemma NameBefore(calls: seq<Call>, i: nat, j: nat)
    requires AreCalls(calls) && Paced(calls) && i < |calls| && j < |calls|
    ensures Before(Format(IdAt(calls, i)) + SUFFIX, Format(IdAt(calls, j)) + SUFFIX) <==> i < j
  {
    IdBefore(calls, i, j);
    NamesCompare(IdAt(calls, i), IdAt(calls, j));
  }

  lemma IdBefore(calls: seq<Call>, i: nat, j: nat)
    requires AreCalls(calls) && Paced(calls) && i < |calls| && j < |calls|
    ensures LexLess(IdAt(calls, i), IdAt(calls, j)) <==> i < j
  {
    PacedIncreases(calls);
    if i >= j { LexAsymmetric(IdAt(calls, i), IdAt(calls, j)); }
  }

  lemma NamesCompare(a: Bytes, b: Bytes)
    requires |a| == |b| == 16
    ensures Before(Format(a) + SUFFIX, Format(b) + SUFFIX) <==> LexLess(a, b)
  {
    FormatLength(a);
    FormatLength(b);
    BeforeIsStringLess(Format(a) + SUFFIX, Format(b) + SUFFIX);
    FormatKeepsOrder(a, b, SUFFIX);
  }

  lemma PacedIdsInOrder(calls: seq<Call>)
    requires AreCalls(calls) && Paced(calls)
    ensures InOrder(EventIds(calls))
  {
    var ids := EventIds(calls);
    forall i, j | 0 <= i < |ids| && 0 <= j < |ids| ensures Before(ids[i] + SUFFIX, ids[j] + SUFFIX) <==> i < j {
      NameBefore(calls, i, j);
    }
  }

  /** With paced calls, restarts included, the latest checkpoint is that of the last generated id whose file loads, and
      there is none exactly when no file loads. */
  lemma LatestCoversLatestEvent(
      cipher: Cipher<CheckpointRecord>, files: map<string, Bytes>, calls: seq<Call>, r: Option<CheckpointRecord>)
    requires AreCalls(calls) && Paced(calls)
    requires NamedAfter(files, EventIds(calls)) && IsLatest(cipher, files, r)
    ensures
      match r
      case None => forall k, c :: !Covers(cipher, files, EventIds(calls), k, c)
      case Some(_) => exists k :: IsLastCovered(cipher, files, EventIds(calls), k, r)
  {
    PacedIdsInOrder(calls);
    LatestIsLastCovered(cipher, files, EventIds(calls), r);
  }

  /** In every run of paced checkpoints cut anywhere, the latest checkpoint is the last state written for the latest
      event whose last write is whole. */
  lemma LatestSurvives(cipher: Cipher<CheckpointRecord>, calls: seq<Call>, writes: seq<Write>, r: Option<CheckpointRecord>)
    requires Sound(cipher) && AreCalls(calls) && Paced(calls) && AreWrites(writes, EventIds(calls))
    requires IsLatest(cipher, FilesAfter(cipher, EventIds(calls), writes), r)
    ensures
      var ids := EventIds(calls);
      match r
      case None => forall i :: !Survives(cipher, ids, writes, i)
      case Some(c) => exists i :: IsLatestSurvivor(cipher, ids, writes, i) && c == RecordOfWrite(ids, writes[i])
  {
    var ids := EventIds(calls);
    PacedIdsInOrder(calls);
    FilesAreNamed(cipher, ids, writes);
    LatestIsLastCovered(cipher, FilesAfter(cipher, ids, writes), ids, r);
    if r.None? {
      forall i ensures !Survives(cipher, ids, writes, i) {
        if Survives(cipher, ids, writes, i) { SurvivorCovers(cipher, ids, writes, i); }
      }
    } else {
      var k :| IsLastCovered(cipher, FilesAfter(cipher, ids, writes), ids, k, r);
      LastCoveredSurvives(cipher, ids, writes, k, r);
    }
  }
}
