/** What idempotent appends do to the files over any run of calls, replays and crashes. */
module AppendEffects {
  import opened Common
  import opened Disk
  import opened IdempotencyStore
  import opened FsToolService

  /** A call is cut off by a crash after `keep` of its durable actions, if it performs more. */
  datatype Call =
    | AppendCall(key: Key, target: Path, content: Bytes, keep: nat)
    | QueryCall(key: Key, keep: nat)

  ghost function Actions(w: World, call: Call): seq<Action> {
    match call
    case AppendCall(key, target, content, keep) => Cut(Append(w, key, target, content).0, keep)
    case QueryCall(key, keep) => Cut(StatusQuery(w, FsAppend, key).0, keep)
  }

  ghost function Run(w: World, calls: seq<Call>): World
    decreases |calls|
  {
    if calls == [] then w else Run(DoAll(w, Actions(w, calls[0])), calls[1..])
  }

  predicate WritesFile(actions: seq<Action>) {
    exists i :: 0 <= i < |actions| && actions[i].WriteFile?
  }

  datatype Written = Written(key: Key, target: Path, content: Bytes)

  function WriterOf(call: Call, actions: seq<Action>): seq<Written> {
    if call.AppendCall? && WritesFile(actions) then [Written(call.key, call.target, call.content)] else []
  }

  /** The calls that changed a file, in order. */
  ghost function Writers(w: World, calls: seq<Call>): seq<Written>
    decreases |calls|
  {
    if calls == [] then []
    else
      var actions := Actions(w, calls[0]);
      WriterOf(calls[0], actions) + Writers(DoAll(w, actions), calls[1..])
  }

  function Contents(writers: seq<Written>, target: Path): Bytes {
    if writers == [] then []
    else
      var n := |writers| - 1;
      Contents(writers[..n], target) + (if writers[n].target == target then writers[n].content else [])
  }

  lemma ContentsSnoc(writers: seq<Written>, x: Written, target: Path)
    ensures Contents(writers + [x], target) == Contents(writers, target) + (if x.target == target then x.content else [])
  {
    assert (writers + [x])[..|writers|] == writers;
  }

  // ---- the invariant ----

  /** The file's bytes when the record was prepared. */
  function BeforeImage(r: Record): Bytes {
    if r.beforeHash.Some? then r.beforeHash.value.preimage else []
  }

  function AfterImage(r: Record): Bytes {
    r.afterHash.preimage
  }

  /** The record's after-image is a prefix of its target. */
  predicate InPlace(files: Files, r: Record) {
    r.target in files && AfterImage(r) <= files[r.target]
  }

  predicate RecordFits(files: Files, r: Record) {
    && r.tool == FsAppend && r.beforeHash.Some?
    && AfterImage(r) == BeforeImage(r) + r.contentHash.preimage
    && r.output == Output(|AfterImage(r)|, r.afterHash)
    && BeforeImage(r) <= ReadFileOrEmpty(files, r.target)
    && (r.status == Applied ==> InPlace(files, r))
  }

  ghost predicate KeyFits(w: World, key: Key) {
    var r := Lookup(w.store, FsAppend, key);
    r.Some? ==> RecordFits(w.files, r.value) && r.value.key == key
  }

  ghost predicate Landed(w: World, x: Written) {
    var r := Lookup(w.store, FsAppend, x.key);
    r.Some? && r.value.target == x.target && r.value.contentHash == Sha256(x.content) && InPlace(w.files, r.value)
  }

  ghost predicate Grown(files: Files, base: Files, writers: seq<Written>, p: Path) {
    ReadFileOrEmpty(files, p) == ReadFileOrEmpty(base, p) + Contents(writers, p)
  }

  ghost predicate DistinctKeys(writers: seq<Written>) {
    forall i, j :: 0 <= i < j < |writers| ==> writers[i].key != writers[j].key
  }

  ghost predicate Consistent(w: World, base: Files, writers: seq<Written>) {
    && Sound(w.store)
    && (forall p :: Grown(w.files, base, writers, p))
    && DistinctKeys(writers)
    && (forall key :: KeyFits(w, key))
    && (forall i :: 0 <= i < |writers| ==> Landed(w, writers[i]))
  }

  // ---- one durable step at a time ----

  /** Logging a record that fits the files as they are. */
  lemma RecordStep(w: World, base: Files, writers: seq<Written>, r: Record, keep: nat)
    requires Consistent(w, base, writers) && MayLog(w.store, r) && RecordFits(w.files, r)
    requires Lookup(w.store, FsAppend, r.key).Some? ==> r == Lookup(w.store, FsAppend, r.key).value.(status := Applied)
    ensures Consistent(DoAll(w, Cut(Write(r), keep)), base, writers)
  {
    WriteStep(w, r, keep);
    var w' := DoAll(w, Cut(Write(r), keep));
    forall key ensures KeyFits(w', key) {
      assert KeyFits(w, key);
    }
    forall i | 0 <= i < |writers| ensures Landed(w', writers[i]) {
      assert Landed(w, writers[i]);
    }
  }

  lemma MarkStep(w: World, base: Files, writers: seq<Written>, r: Record, keep: nat)
    requires Consistent(w, base, writers) && Lookup(w.store, FsAppend, r.key) == Some(r) && InPlace(w.files, r)
    requires r.tool == FsAppend
    ensures
      var w' := DoAll(w, Cut(MarkApplied(w.store, r.tool, r.key).0, keep));
      && Consistent(w', base, writers) && w'.files == w.files
      && (keep > 0 ==> Lookup(w'.store, FsAppend, r.key) == Some(r.(status := Applied)))
  {
    assert KeyFits(w, r.key);
    LookupIsLogged(w.store, FsAppend, r.key);
    RecordStep(w, base, writers, r.(status := Applied), keep);
    WriteStep(w, r.(status := Applied), keep);
  }

  /** Every file keeps its bytes as a prefix. */
  ghost predicate Extends(files: Files, files': Files) {
    forall p :: p in files ==> p in files' && files[p] <= files'[p]
  }

  lemma FitsGrows(files: Files, files': Files, r: Record)
    requires Extends(files, files')
    ensures InPlace(files, r) ==> InPlace(files', r)
    ensures RecordFits(files, r) ==> RecordFits(files', r)
  {
  }

  lemma WriteExtends(files: Files, p: Path, content: Bytes)
    ensures Extends(files, files[p := ReadFileOrEmpty(files, p) + content])
  {
  }

  /** The rename: the guards of the code say that the target holds exactly the before-image. */
  lemma AppendStep(w: World, base: Files, writers: seq<Written>, r: Record, content: Bytes)
    requires Consistent(w, base, writers) && Lookup(w.store, FsAppend, r.key) == Some(r)
    requires r.status == Prepared && r.contentHash == Sha256(content)
    requires FileHash(w.files, r.target) != Some(r.afterHash)
    requires r.beforeHash == Some(Sha256(ReadFileOrEmpty(w.files, r.target)))
    ensures
      var w' := Do(w, WriteFile(r.target, ReadFileOrEmpty(w.files, r.target) + content));
      Consistent(w', base, writers + [Written(r.key, r.target, content)]) && InPlace(w'.files, r)
  {
    var w' := Do(w, WriteFile(r.target, ReadFileOrEmpty(w.files, r.target) + content));
    var x := Written(r.key, r.target, content);
    assert KeyFits(w, r.key);
    WriteExtends(w.files, r.target, content);
    KeyIsNew(w, base, writers, r, content);
    WriteGrows(w, base, writers, x);
    forall key ensures KeyFits(w', key) {
      assert KeyFits(w, key);
      if Lookup(w.store, FsAppend, key).Some? {
        FitsGrows(w.files, w'.files, Lookup(w.store, FsAppend, key).value);
      }
    }
    WriteLands(w, writers, r, content);
  }

  lemma WriteGrows(w: World, base: Files, writers: seq<Written>, x: Written)
    requires forall p :: Grown(w.files, base, writers, p)
    ensures
      var files' := w.files[x.target := ReadFileOrEmpty(w.files, x.target) + x.content];
      forall p :: Grown(files', base, writers + [x], p)
  {
    var files' := w.files[x.target := ReadFileOrEmpty(w.files, x.target) + x.content];
    forall p ensures Grown(files', base, writers + [x], p) {
      assert Grown(w.files, base, writers, p);
      ContentsSnoc(writers, x, p);
      Associate(ReadFileOrEmpty(base, p), Contents(writers, p), if x.target == p then x.content else []);
    }
  }

  lemma WriteLands(w: World, writers: seq<Written>, r: Record, content: Bytes)
    requires forall i :: 0 <= i < |writers| ==> Landed(w, writers[i])
    requires Lookup(w.store, FsAppend, r.key) == Some(r) && r.contentHash == Sha256(content)
    requires r.beforeHash == Some(Sha256(ReadFileOrEmpty(w.files, r.target))) && RecordFits(w.files, r)
    ensures
      var w' := Do(w, WriteFile(r.target, ReadFileOrEmpty(w.files, r.target) + content));
      var writers' := writers + [Written(r.key, r.target, content)];
      InPlace(w'.files, r) && forall i :: 0 <= i < |writers'| ==> Landed(w', writers'[i])
  {
    var w' := Do(w, WriteFile(r.target, ReadFileOrEmpty(w.files, r.target) + content));
    var writers' := writers + [Written(r.key, r.target, content)];
    WriteExtends(w.files, r.target, content);
    forall i | 0 <= i < |writers'| ensures Landed(w', writers'[i]) {
      if i < |writers| {
        assert Landed(w, writers[i]);
        FitsGrows(w.files, w'.files, Lookup(w.store, FsAppend, writers[i].key).value);
      }
    }
  }

  lemma FullPrefix(a: Bytes, b: Bytes)
    ensures a + b <= a ==> a + b == a
  {
  }

  lemma KeyIsNew(w: World, base: Files, writers: seq<Written>, r: Record, content: Bytes)
    requires Consistent(w, base, writers) && Lookup(w.store, FsAppend, r.key) == Some(r)
    requires r.contentHash == Sha256(content)
    requires FileHash(w.files, r.target) != Some(r.afterHash)
    requires r.beforeHash == Some(Sha256(ReadFileOrEmpty(w.files, r.target)))
    ensures forall i :: 0 <= i < |writers| ==> writers[i].key != r.key
  {
    assert KeyFits(w, r.key);
    FullPrefix(ReadFileOrEmpty(w.files, r.target), content);
    assert !InPlace(w.files, r);
    forall i | 0 <= i < |writers| ensures writers[i].key != r.key {
      assert Landed(w, writers[i]);
    }
  }

  // ---- one call ----

  lemma NoWriteInRecords(r: Record, keep: nat)
    ensures !WritesFile(Cut(Write(r), keep))
  {
  }

  lemma WriteFirst(a: Action, rest: seq<Action>, keep: nat)
    requires a.WriteFile? && !WritesFile(Cut(rest, if keep > 0 then keep - 1 else 0))
    ensures WritesFile(Cut([a] + rest, keep)) <==> keep > 0
  {
    CutConcat([a], rest, keep);
    if keep > 0 {
      assert Cut([a] + rest, keep)[0] == a;
    } else {
      assert Cut([a] + rest, 0) == [];
    }
  }

  /** The apply phase of a record whose content is the call's. */
  lemma ApplyKeeps(w: World, base: Files, writers: seq<Written>, r: Record, content: Bytes, keep: nat)
    requires Consistent(w, base, writers) && Lookup(w.store, FsAppend, r.key) == Some(r)
    requires r.contentHash == Sha256(content)
    ensures
      var actions := Cut(ApplyAppend(w, r, content).0, keep);
      var writers' := if WritesFile(actions) then writers + [Written(r.key, r.target, content)] else writers;
      Consistent(DoAll(w, actions), base, writers')
  {
    assert KeyFits(w, r.key);
    var current := ReadFileOrEmpty(w.files, r.target);
    var marking := MarkApplied(w.store, r.tool, r.key).0;
    NoWriteInRecords(r.(status := Applied), keep);
    if r.status == Applied {
    } else if FileHash(w.files, r.target) == Some(r.afterHash) {
      MarkStep(w, base, writers, r, keep);
    } else if r.beforeHash == Some(Sha256(current)) {
      WriteKeeps(w, base, writers, r, content, keep);
    }
  }

  /** The rename and the marking that follows it. */
  lemma WriteKeeps(w: World, base: Files, writers: seq<Written>, r: Record, content: Bytes, keep: nat)
    requires Consistent(w, base, writers) && Lookup(w.store, FsAppend, r.key) == Some(r)
    requires r.tool == FsAppend && r.status == Prepared && r.contentHash == Sha256(content)
    requires FileHash(w.files, r.target) != Some(r.afterHash)
    requires r.beforeHash == Some(Sha256(ReadFileOrEmpty(w.files, r.target)))
    ensures
      var a := WriteFile(r.target, ReadFileOrEmpty(w.files, r.target) + content);
      var actions := Cut([a] + MarkApplied(w.store, r.tool, r.key).0, keep);
      && (WritesFile(actions) <==> keep > 0)
      && Consistent(DoAll(w, actions), base, if keep > 0 then writers + [Written(r.key, r.target, content)] else writers)
  {
    var a := WriteFile(r.target, ReadFileOrEmpty(w.files, r.target) + content);
    var marking := MarkApplied(w.store, r.tool, r.key).0;
    NoWriteInRecords(r.(status := Applied), if keep > 0 then keep - 1 else 0);
    WriteFirst(a, marking, keep);
    if keep == 0 {
      assert Cut([a] + marking, 0) == [];
    } else {
      CutAfterFirst(w, a, marking, keep);
      AppendStep(w, base, writers, r, content);
      MarkStep(Do(w, a), base, writers + [Written(r.key, r.target, content)], r, keep - 1);
    }
  }

  /** A call with a new key: its record first, then the apply phase on what the record left. */
  lemma PrepareKeeps(w: World, base: Files, writers: seq<Written>, key: Key, target: Path, content: Bytes, keep: nat)
    requires Consistent(w, base, writers) && Lookup(w.store, FsAppend, key).None?
    ensures
      var r := AppendDraft(w.files, key, target, content);
      var w' := DoAll(w, Cut(Write(r), keep));
      && Consistent(w', base, writers) && w'.files == w.files && MayLog(w.store, r)
      && (keep > 0 ==> Lookup(w'.store, FsAppend, key) == Some(r))
  {
    var r := AppendDraft(w.files, key, target, content);
    LookupIsLogged(w.store, FsAppend, key);
    RecordStep(w, base, writers, r, keep);
    WriteStep(w, r, keep);
  }

  /** The actions of a call with a new key: all of them, or a cut of the preparation, or more. */
  lemma NewKeyActions(w: World, call: Call)
    requires call.AppendCall? && Lookup(w.store, FsAppend, call.key).None?
    ensures
      var r := AppendDraft(w.files, call.key, call.target, call.content);
      var applying := ApplyAppend(DoAll(w, Write(r)), r, call.content).0;
      && Append(w, call.key, call.target, call.content).0 == Write(r) + applying
      && (call.keep <= 2 ==> Actions(w, call) == Cut(Write(r), call.keep))
      && (call.keep > 2 ==>
            && Actions(w, call) == Write(r) + Cut(applying, call.keep - 2)
            && DoAll(w, Actions(w, call)) == DoAll(DoAll(w, Write(r)), Cut(applying, call.keep - 2))
            && (WritesFile(Actions(w, call)) <==> WritesFile(Cut(applying, call.keep - 2))))
  {
    var r := AppendDraft(w.files, call.key, call.target, call.content);
    var applying := ApplyAppend(DoAll(w, Write(r)), r, call.content).0;
    CutConcat(Write(r), applying, call.keep);
    NoWriteInRecords(r, 2);
    assert Cut(Write(r), 2) == Write(r);
    if call.keep > 2 {
      WritesLater(Write(r), Cut(applying, call.keep - 2));
      DoConcat(w, Write(r), Cut(applying, call.keep - 2));
    }
  }

  lemma NewKeyKeeps(w: World, base: Files, writers: seq<Written>, call: Call)
    requires call.AppendCall? && Consistent(w, base, writers) && Lookup(w.store, FsAppend, call.key).None?
    ensures Consistent(DoAll(w, Actions(w, call)), base, writers + WriterOf(call, Actions(w, call)))
  {
    if call.keep <= 2 {
      NewKeyEarly(w, base, writers, call);
    } else {
      NewKeyLate(w, base, writers, call);
    }
  }

  lemma WriterAppends(writers: seq<Written>, call: Call, actions: seq<Action>)
    requires call.AppendCall?
    ensures writers + WriterOf(call, actions) ==
            if WritesFile(actions) then writers + [Written(call.key, call.target, call.content)] else writers
  {
  }

  lemma NewKeyEarly(w: World, base: Files, writers: seq<Written>, call: Call)
    requires call.AppendCall? && Consistent(w, base, writers) && Lookup(w.store, FsAppend, call.key).None?
    requires call.keep <= 2
    ensures Consistent(DoAll(w, Actions(w, call)), base, writers + WriterOf(call, Actions(w, call)))
  {
    var r := AppendDraft(w.files, call.key, call.target, call.content);
    NewKeyActions(w, call);
    NoWriteInRecords(r, call.keep);
    WriterAppends(writers, call, Actions(w, call));
    PrepareKeeps(w, base, writers, call.key, call.target, call.content, call.keep);
  }

  lemma NewKeyLate(w: World, base: Files, writers: seq<Written>, call: Call)
    requires call.AppendCall? && Consistent(w, base, writers) && Lookup(w.store, FsAppend, call.key).None?
    requires call.keep > 2
    ensures Consistent(DoAll(w, Actions(w, call)), base, writers + WriterOf(call, Actions(w, call)))
  {
    var r := AppendDraft(w.files, call.key, call.target, call.content);
    NewKeyActions(w, call);
    WriterAppends(writers, call, Actions(w, call));
    NewKeyApplies(w, base, writers, r, call.keep - 2);
  }

  lemma NewKeyApplies(w: World, base: Files, writers: seq<Written>, r: Record, keep: nat)
    requires Consistent(w, base, writers) && Lookup(w.store, FsAppend, r.key).None?
    requires r == AppendDraft(w.files, r.key, r.target, r.contentHash.preimage)
    ensures
      var content := r.contentHash.preimage;
      var w1 := DoAll(w, Write(r));
      var cut := Cut(ApplyAppend(w1, r, content).0, keep);
      Consistent(DoAll(w1, cut), base, if WritesFile(cut) then writers + [Written(r.key, r.target, content)] else writers)
  {
    PrepareKeeps(w, base, writers, r.key, r.target, r.contentHash.preimage, 2);
    assert Cut(Write(r), 2) == Write(r);
    ApplyKeeps(DoAll(w, Write(r)), base, writers, r, r.contentHash.preimage, keep);
  }

  lemma WritesLater(a: seq<Action>, b: seq<Action>)
    requires !WritesFile(a)
    ensures WritesFile(a + b) <==> WritesFile(b)
  {
    if WritesFile(b) {
      var i :| 0 <= i < |b| && b[i].WriteFile?;
      assert (a + b)[|a| + i] == b[i];
    }
  }

  lemma CallKeeps(w: World, base: Files, writers: seq<Written>, call: Call)
    requires Consistent(w, base, writers)
    ensures Consistent(DoAll(w, Actions(w, call)), base, writers + WriterOf(call, Actions(w, call)))
  {
    if call.QueryCall? {
      QueryKeeps(w, base, writers, call);
    } else if Lookup(w.store, FsAppend, call.key).None? {
      NewKeyKeeps(w, base, writers, call);
    } else {
      KnownKeyKeeps(w, base, writers, call);
    }
  }

  lemma KnownKeyKeeps(w: World, base: Files, writers: seq<Written>, call: Call)
    requires call.AppendCall? && Consistent(w, base, writers) && Lookup(w.store, FsAppend, call.key).Some?
    ensures Consistent(DoAll(w, Actions(w, call)), base, writers + WriterOf(call, Actions(w, call)))
  {
    var known := Lookup(w.store, FsAppend, call.key).value;
    assert KeyFits(w, call.key);
    KnownKeyActions(w, call, known);
    if ReplayError(known, FsAppend, call.target, Some(Sha256(call.content)), None).None? {
      ReplayKeeps(w, base, writers, call, known, Actions(w, call));
    } else {
      NothingAround(writers);
    }
  }

  lemma KnownKeyActions(w: World, call: Call, r: Record)
    requires call.AppendCall? && Lookup(w.store, FsAppend, call.key) == Some(r)
    ensures
      var replays := ReplayError(r, FsAppend, call.target, Some(Sha256(call.content)), None).None?;
      Actions(w, call) == if replays then Cut(ApplyAppend(w, r, call.content).0, call.keep) else []
  {
  }

  lemma ReplayKeeps(w: World, base: Files, writers: seq<Written>, call: Call, r: Record, actions: seq<Action>)
    requires call.AppendCall? && Consistent(w, base, writers) && Lookup(w.store, FsAppend, call.key) == Some(r)
    requires r.key == call.key && r.target == call.target && r.contentHash == Sha256(call.content)
    requires actions == Cut(ApplyAppend(w, r, call.content).0, call.keep)
    ensures Consistent(DoAll(w, actions), base, writers + WriterOf(call, actions))
  {
    ApplyKeeps(w, base, writers, r, call.content, call.keep);
    WriterAppends(writers, call, actions);
  }

  lemma QueryKeeps(w: World, base: Files, writers: seq<Written>, call: Call)
    requires call.QueryCall? && Consistent(w, base, writers)
    ensures Consistent(DoAll(w, Actions(w, call)), base, writers + WriterOf(call, Actions(w, call)))
  {
    var known := Lookup(w.store, FsAppend, call.key);
    NothingAround(writers);
    assert KeyFits(w, call.key);
    if known.Some? && MutationStatus(w, known.value, false).0 != [] {
      MarkStep(w, base, writers, known.value, call.keep);
    }
  }

  // ---- every run ----

  /** The invariant holds after any run of append calls and status queries, each cut off anywhere. */
  lemma {:induction false} RunStaysConsistent(w: World, base: Files, before: seq<Written>, calls: seq<Call>)
    requires Consistent(w, base, before)
    ensures Consistent(Run(w, calls), base, before + Writers(w, calls))
    decreases |calls|
  {
    if calls == [] {
      assert before + [] == before;
    } else {
      var actions := Actions(w, calls[0]);
      var first := WriterOf(calls[0], actions);
      var w1 := DoAll(w, actions);
      CallKeeps(w, base, before, calls[0]);
      RunStaysConsistent(w1, base, before + first, calls[1..]);
      Associate(before, first, Writers(w1, calls[1..]));
      assert Run(w, calls) == Run(w1, calls[1..]);
      assert Writers(w, calls) == first + Writers(w1, calls[1..]);
    }
  }

  /** A disk whose store knows no append yet is a consistent start. */
  lemma FreshStart(w: World)
    requires Sound(w.store) && forall key :: Lookup(w.store, FsAppend, key).None?
    ensures Consistent(w, w.files, [])
  {
    forall p ensures Grown(w.files, w.files, [], p) {
      assert ReadFileOrEmpty(w.files, p) + [] == ReadFileOrEmpty(w.files, p);
    }
  }

  /** Each file is its initial bytes followed by the contents of calls with pairwise different keys. */
  ghost predicate AtMostOnce(w: World, calls: seq<Call>) {
    var writers := Writers(w, calls);
    DistinctKeys(writers) && forall p :: Grown(Run(w, calls).files, w.files, writers, p)
  }

  /** At most once: on a disk that knows no append yet, after any run of append calls and status queries
      with any keys, targets and contents, each crashed and replayed at will. */
  lemma AppendsLandAtMostOnce(w: World, calls: seq<Call>)
    requires Sound(w.store) && forall key :: Lookup(w.store, FsAppend, key).None?
    ensures AtMostOnce(w, calls)
  {
    FreshStart(w);
    RunStaysConsistent(w, w.files, [], calls);
    assert [] + Writers(w, calls) == Writers(w, calls);
  }

  /** Whatever has been appended before, what follows can be counted from the files as they are now. */
  lemma CountFromHere(w: World, base: Files, writers: seq<Written>)
    requires Consistent(w, base, writers)
    ensures Consistent(w, w.files, [])
  {
    forall p ensures Grown(w.files, w.files, [], p) {
      assert ReadFileOrEmpty(w.files, p) + [] == ReadFileOrEmpty(w.files, p);
    }
  }

  /** An append that returns without an error leaves its record applied and its after-image in place,
      and reports the size and hash of that image; it says "idempotent" exactly when it knew the key. */
  lemma DoneMeansInPlace(w: World, base: Files, writers: seq<Written>, key: Key, target: Path, content: Bytes)
    requires Consistent(w, base, writers) && Append(w, key, target, content).1.Done?
    ensures
      var (actions, outcome) := Append(w, key, target, content);
      var w' := DoAll(w, actions);
      var r := Lookup(w'.store, FsAppend, key);
      && r.Some? && r.value.status == Applied && r.value.target == target
      && r.value.contentHash == Sha256(content) && RecordFits(w'.files, r.value)
      && outcome == Done(Output(|AfterImage(r.value)|, r.value.afterHash), Lookup(w.store, FsAppend, key).Some?)
  {
    var known := Lookup(w.store, FsAppend, key);
    assert KeyFits(w, key);
    if known.Some? {
      ApplyDone(w, base, writers, known.value, content);
    } else {
      var r := AppendDraft(w.files, key, target, content);
      PrepareKeeps(w, base, writers, key, target, content, 2);
      assert Cut(Write(r), 2) == Write(r);
      ApplyDone(DoAll(w, Write(r)), base, writers, r, content);
      DoConcat(w, Write(r), ApplyAppend(DoAll(w, Write(r)), r, content).0);
    }
  }

  lemma ApplyDone(w: World, base: Files, writers: seq<Written>, r: Record, content: Bytes)
    requires Consistent(w, base, writers) && Lookup(w.store, FsAppend, r.key) == Some(r)
    requires r.contentHash == Sha256(content) && ApplyAppend(w, r, content).1.Ok?
    ensures
      var w' := DoAll(w, ApplyAppend(w, r, content).0);
      && Lookup(w'.store, FsAppend, r.key) == Some(r.(status := Applied)) && RecordFits(w'.files, r.(status := Applied))
      && ApplyAppend(w, r, content).1 == Ok(r.output)
  {
    assert KeyFits(w, r.key);
    var marking := MarkApplied(w.store, r.tool, r.key).0;
    assert Cut(marking, 2) == marking;
    if r.status == Applied {
    } else if FileHash(w.files, r.target) == Some(r.afterHash) {
      MarkStep(w, base, writers, r, 2);
    } else {
      var a := WriteFile(r.target, ReadFileOrEmpty(w.files, r.target) + content);
      AppendStep(w, base, writers, r, content);
      MarkStep(Do(w, a), base, writers + [Written(r.key, r.target, content)], r, 2);
      ThenMark(w, a, marking);
    }
  }

  /** A status query that answers "applied" is right. */
  lemma AppliedAnswerIsRight(w: World, base: Files, writers: seq<Written>, key: Key)
    requires Consistent(w, base, writers) && StatusQuery(w, FsAppend, key).1.Some?
    ensures Lookup(w.store, FsAppend, key).Some? && InPlace(w.files, Lookup(w.store, FsAppend, key).value)
  {
    assert KeyFits(w, key);
  }

  // ---- at most once is all there is for several keys ----

  /** The after-image of the call is already in its target. */
  ghost predicate AlreadyInPlace(w: World, key: Key, target: Path, content: Bytes) {
    match Lookup(w.store, FsAppend, key)
    case Some(r) => r.status == Applied || FileHash(w.files, target) == Some(r.afterHash)
    case None => target in w.files && content == []
  }

  /** A call that returns without an error writes its own content exactly when no file with the same
      bytes was there already. */
  lemma WritesExactlyWhen(w: World, base: Files, writers: seq<Written>, key: Key, target: Path, content: Bytes)
    requires Consistent(w, base, writers) && Append(w, key, target, content).1.Done?
    ensures WritesFile(Append(w, key, target, content).0) <==> !AlreadyInPlace(w, key, target, content)
  {
    var known := Lookup(w.store, FsAppend, key);
    assert KeyFits(w, key);
    if known.Some? {
      ApplyWrites(w, known.value, content);
    } else {
      var r := AppendDraft(w.files, key, target, content);
      PrepareKeeps(w, base, writers, key, target, content, 2);
      assert Cut(Write(r), 2) == Write(r);
      var w' := DoAll(w, Write(r));
      ApplyWrites(w', r, content);
      WritesLater(Write(r), ApplyAppend(w', r, content).0);
      SameBytes(ReadFileOrEmpty(w.files, target), content);
    }
  }

  lemma ApplyWrites(w: World, r: Record, content: Bytes)
    requires ApplyAppend(w, r, content).1.Ok?
    ensures WritesFile(ApplyAppend(w, r, content).0) <==>
            !(r.status == Applied || FileHash(w.files, r.target) == Some(r.afterHash))
  {
    var actions := ApplyAppend(w, r, content).0;
    if !(r.status == Applied || FileHash(w.files, r.target) == Some(r.afterHash)) {
      assert actions[0].WriteFile?;
    }
  }

  /** How many durable actions a call performs before it writes: the record of a new key has two. */
  ghost function BeforeWrite(w: World, key: Key): nat {
    if Lookup(w.store, FsAppend, key).None? then 2 else 0
  }

  /** A call cut off anywhere writes exactly when it succeeds, its after-image was not there already, and the write
      itself survives. */
  lemma CutWritesExactlyWhen(w: World, base: Files, writers: seq<Written>, call: Call)
    requires call.AppendCall? && Consistent(w, base, writers)
    ensures WritesFile(Actions(w, call)) <==>
            && Append(w, call.key, call.target, call.content).1.Done?
            && !AlreadyInPlace(w, call.key, call.target, call.content)
            && call.keep > BeforeWrite(w, call.key)
  {
    var known := Lookup(w.store, FsAppend, call.key);
    assert KeyFits(w, call.key);
    if known.Some? {
      CutApplyWrites(w, known.value, call.content, call.keep);
    } else {
      CutNewKeyWrites(w, base, writers, call);
    }
  }

  lemma CutApplyWrites(w: World, r: Record, content: Bytes, keep: nat)
    ensures WritesFile(Cut(ApplyAppend(w, r, content).0, keep)) <==>
            && ApplyAppend(w, r, content).1.Ok?
            && !(r.status == Applied || FileHash(w.files, r.target) == Some(r.afterHash))
            && keep > 0
  {
    var known := Lookup(w.store, r.tool, r.key);
    if known.Some? {
      NoWriteInRecords(known.value.(status := Applied), keep);
      NoWriteInRecords(known.value.(status := Applied), if keep > 0 then keep - 1 else 0);
    }
    WriteFirst(WriteFile(r.target, ReadFileOrEmpty(w.files, r.target) + content), MarkApplied(w.store, r.tool, r.key).0, keep);
  }

  lemma CutNewKeyWrites(w: World, base: Files, writers: seq<Written>, call: Call)
    requires call.AppendCall? && Consistent(w, base, writers) && Lookup(w.store, FsAppend, call.key).None?
    ensures WritesFile(Actions(w, call)) <==>
            && Append(w, call.key, call.target, call.content).1.Done?
            && !AlreadyInPlace(w, call.key, call.target, call.content)
            && call.keep > 2
  {
    var r := AppendDraft(w.files, call.key, call.target, call.content);
    NewKeyActions(w, call);
    if call.keep <= 2 {
      NoWriteInRecords(r, call.keep);
    } else {
      CutApplyWrites(DoAll(w, Write(r)), r, call.content, call.keep - 2);
      PrepareKeeps(w, base, writers, call.key, call.target, call.content, 2);
      assert Cut(Write(r), 2) == Write(r);
      SameBytes(ReadFileOrEmpty(w.files, call.target), call.content);
    }
  }

  lemma SameBytes(file: Bytes, content: Bytes)
    ensures file + content == file <==> content == []
  {
  }

  /** So two keys with equal contents prepared on the same bytes can both report success over one write. */
  lemma EqualContentsShareAWrite(p: Path, k1: Key, k2: Key, c: Bytes)
    requires k1 != k2 && c != []
    ensures
      var w := World(map[p := []], Store(map[], [], [], map[]));
      var calls := [AppendCall(k1, p, c, 2), AppendCall(k2, p, c, 2), AppendCall(k1, p, c, 5)];
      var w' := Run(w, calls);
      && Append(w', k2, p, c).1.Done?
      && ReadFileOrEmpty(DoAll(w', Append(w', k2, p, c).0).files, p) == c
      && Writers(w, calls) == [Written(k1, p, c)]
  {
    var w := World(map[p := []], Store(map[], [], [], map[]));
    var w3 := OneWriteForTwoKeys(w, p, k1, k2, c);
    assert [] + c == c;
    ReplayMarks(w3, AppendDraft(w.files, k2, p, c), c);
  }

  lemma OneWriteForTwoKeys(w: World, p: Path, k1: Key, k2: Key, c: Bytes) returns (w3: World)
    requires k1 != k2 && c != [] && w == World(map[p := []], Store(map[], [], [], map[]))
    ensures
      var calls := [AppendCall(k1, p, c, 2), AppendCall(k2, p, c, 2), AppendCall(k1, p, c, 5)];
      w3 == Run(w, calls) && Writers(w, calls) == [Written(k1, p, c)]
    ensures p in w3.files && w3.files[p] == c
    ensures Lookup(w3.store, FsAppend, k2) == Some(AppendDraft(w.files, k2, p, c))
  {
    var a, b, d := AppendCall(k1, p, c, 2), AppendCall(k2, p, c, 2), AppendCall(k1, p, c, 5);
    NewStoreIsSound();
    FreshStart(w);
    var w1 := OnlyPrepares(w, w.files, k1, p, c);
    var w2 := OnlyPrepares(w1, w.files, k2, p, c);
    w3 := ReplayWrites(w2, w.files, AppendDraft(w.files, k1, p, c), c);
    RunThree(w, w1, w2, w3, a, b, d);
  }

  lemma RunThree(w: World, w1: World, w2: World, w3: World, a: Call, b: Call, d: Call)
    requires w1 == DoAll(w, Actions(w, a)) && w2 == DoAll(w1, Actions(w1, b)) && w3 == DoAll(w2, Actions(w2, d))
    ensures Run(w, [a, b, d]) == w3
    ensures WriterOf(a, Actions(w, a)) == WriterOf(b, Actions(w1, b)) == [] ==>
              Writers(w, [a, b, d]) == WriterOf(d, Actions(w2, d))
  {
    assert [a] + [b, d] == [a, b, d] && [b] + [d] == [b, d] && [d] + [] == [d];
    RunFirst(w, w1, a, [b, d]);
    RunFirst(w1, w2, b, [d]);
    RunFirst(w2, w3, d, []);
  }

  lemma RunFirst(w: World, w': World, call: Call, rest: seq<Call>)
    requires w' == DoAll(w, Actions(w, call))
    ensures Run(w, [call] + rest) == Run(w', rest)
    ensures Writers(w, [call] + rest) == WriterOf(call, Actions(w, call)) + Writers(w', rest)
  {
  }

  /** A prepared record whose after-image is in place is marked, and the call reports success. */
  lemma ReplayMarks(w: World, r: Record, c: Bytes)
    requires Lookup(w.store, FsAppend, r.key) == Some(r) && r.tool == FsAppend && r.status == Prepared
    requires r.contentHash == Sha256(c) && FileHash(w.files, r.target) == Some(r.afterHash)
    ensures Append(w, r.key, r.target, c).1 == Done(r.output, true)
    ensures DoAll(w, Append(w, r.key, r.target, c).0).files == w.files
  {
    assert ApplyAppend(w, r, c) == (MarkApplied(w.store, r.tool, r.key).0, Ok(r.output));
    ApplyFilesAfterMark(w, r);
  }

  lemma ApplyFilesAfterMark(w: World, r: Record)
    ensures DoAll(w, MarkApplied(w.store, r.tool, r.key).0).files == w.files
  {
    var known := Lookup(w.store, r.tool, r.key);
    if known.Some? {
      DoTwo(w, AppendLog(known.value.(status := Applied)), WriteCache(known.value.(status := Applied)));
    }
  }

  lemma OnlyPrepares(w: World, base: Files, k: Key, p: Path, c: Bytes) returns (w': World)
    requires Consistent(w, base, []) && Lookup(w.store, FsAppend, k).None?
    ensures w' == DoAll(w, Actions(w, AppendCall(k, p, c, 2))) && Consistent(w', base, []) && w'.files == w.files
    ensures WriterOf(AppendCall(k, p, c, 2), Actions(w, AppendCall(k, p, c, 2))) == []
    ensures forall key :: Lookup(w'.store, FsAppend, key) ==
                          if key == k then Some(AppendDraft(w.files, k, p, c)) else Lookup(w.store, FsAppend, key)
  {
    var r := AppendDraft(w.files, k, p, c);
    PrepareKeeps(w, base, [], k, p, c, 2);
    assert Cut(Write(r), 2) == Write(r);
    w' := DoAll(w, Write(r));
    CutConcat(Write(r), ApplyAppend(w', r, c).0, 2);
    NoWriteInRecords(r, 2);
    WriteStep(w, r, 2);
  }

  lemma ReplayWrites(w: World, base: Files, r: Record, c: Bytes) returns (w': World)
    requires Consistent(w, base, []) && Lookup(w.store, FsAppend, r.key) == Some(r)
    requires r.target in w.files && w.files[r.target] == [] && c != [] && r == AppendDraft(w.files, r.key, r.target, c)
    ensures
      var call := AppendCall(r.key, r.target, c, 5);
      && w' == DoAll(w, Actions(w, call)) && WriterOf(call, Actions(w, call)) == [Written(r.key, r.target, c)]
    ensures FileHash(w'.files, r.target) == Some(Sha256(c)) && r.target in w'.files && w'.files[r.target] == c
    ensures forall key :: key != r.key ==> Lookup(w'.store, FsAppend, key) == Lookup(w.store, FsAppend, key)
  {
    var a := WriteFile(r.target, [] + c);
    var marking := MarkApplied(w.store, FsAppend, r.key).0;
    assert [] + c == c;
    var call := AppendCall(r.key, r.target, c, 5);
    var actions := Append(w, r.key, r.target, c).0;
    assert actions == [a] + marking;
    assert Actions(w, call) == actions && actions[0].WriteFile?;
    w' := DoAll(w, actions);
    ThenMark(w, a, marking);
    LookupIsLogged(w.store, FsAppend, r.key);
    assert Cut(marking, 2) == marking;
    WriteStep(Do(w, a), r.(status := Applied), 2);
  }
}
