/** What appends, copies, moves and queries leave alone: the records of other keys and the files that they do not name. */
module Apart {
  import opened Common
  import opened Disk
  import opened IdempotencyStore
  import opened FsToolService

  /** One key of a tool, and the paths it works on. */
  datatype Place = Place(tool: FileTool, key: Key, paths: set<Path>)

  predicate SameAt(files: Files, files': Files, p: Path) {
    (p in files' <==> p in files) && (p in files ==> files'[p] == files[p])
  }

  predicate SameFiles(files: Files, files': Files, paths: set<Path>) {
    forall p :: p in paths ==> SameAt(files, files', p)
  }

  /** The store stays sound, and the key's record and the files at the place are as they were. */
  ghost predicate Undisturbed(w: World, w': World, x: Place) {
    && Sound(w'.store) && Lookup(w'.store, x.tool, x.key) == Lookup(w.store, x.tool, x.key)
    && SameFiles(w.files, w'.files, x.paths)
  }

  /** The actions leave the place alone wherever they are cut. */
  ghost predicate KeepOut(w: World, actions: seq<Action>, x: Place) {
    forall n :: 0 <= n <= |actions| ==> Undisturbed(w, DoAll(w, actions[..n]), x)
  }

  /** An action on files elsewhere. */
  predicate Elsewhere(a: Action, x: Place) {
    (a.WriteFile? && a.path !in x.paths) || (a.Rename? && a.from !in x.paths && a.to !in x.paths)
  }

  lemma ElsewhereKeepsFiles(w: World, a: Action, x: Place)
    requires Elsewhere(a, x)
    ensures Do(w, a).store == w.store && SameFiles(w.files, Do(w, a).files, x.paths)
  {
  }

  lemma OtherRecordStep(w: World, x: Place, r: Record, keep: nat)
    requires Sound(w.store) && MayLog(w.store, r) && r.key != x.key
    ensures Undisturbed(w, DoAll(w, Cut(Write(r), keep)), x)
  {
    WriteStep(w, r, keep);
  }

  lemma OtherMarkStep(w: World, x: Place, tool: FileTool, key: Key, keep: nat)
    requires Sound(w.store) && key != x.key
    ensures Undisturbed(w, DoAll(w, Cut(MarkApplied(w.store, tool, key).0, keep)), x)
  {
    if Lookup(w.store, tool, key).Some? {
      LookupIsLogged(w.store, tool, key);
      LoggedMatches(w.store, tool, key);
      OtherRecordStep(w, x, Lookup(w.store, tool, key).value.(status := Applied), keep);
    }
  }

  lemma OtherFileThen(w: World, w1: World, w2: World, x: Place)
    requires w1.store == w.store && SameFiles(w.files, w1.files, x.paths) && Undisturbed(w1, w2, x)
    ensures Undisturbed(w, w2, x)
  {
    forall p | p in x.paths ensures SameAt(w.files, w2.files, p) {
      assert SameAt(w.files, w1.files, p) && SameAt(w1.files, w2.files, p);
    }
  }

  lemma OtherChangedStep(w: World, x: Place, a: Action, tool: FileTool, key: Key, keep: nat)
    requires Sound(w.store) && key != x.key && Elsewhere(a, x)
    ensures Undisturbed(w, DoAll(Do(w, a), Cut(MarkApplied(w.store, tool, key).0, keep)), x)
  {
    ElsewhereKeepsFiles(w, a, x);
    OtherMarkStep(Do(w, a), x, tool, key, keep);
    OtherFileThen(w, Do(w, a), DoAll(Do(w, a), Cut(MarkApplied(w.store, tool, key).0, keep)), x);
  }

  /** A change of a file elsewhere and the marking that follows it. */
  lemma OtherChangeStep(w: World, x: Place, a: Action, tool: FileTool, key: Key, keep: nat)
    requires Sound(w.store) && key != x.key && Elsewhere(a, x)
    ensures Undisturbed(w, DoAll(w, Cut([a] + MarkApplied(w.store, tool, key).0, keep)), x)
  {
    var marking := MarkApplied(w.store, tool, key).0;
    if keep > 0 {
      OtherChangedStep(w, x, a, tool, key, keep - 1);
      CutAfterFirst(w, a, marking, keep);
    } else {
      NothingStep(w, x, 0);
      assert Cut([a] + marking, 0) == [];
    }
  }

  lemma NothingStep(w: World, x: Place, keep: nat)
    requires Sound(w.store)
    ensures Undisturbed(w, DoAll(w, Cut([], keep)), x)
  {
  }

  lemma OtherStatusStep(w: World, x: Place, r: Record, requireSourceRemoved: bool, keep: nat)
    requires Sound(w.store) && r.key != x.key
    ensures Undisturbed(w, DoAll(w, Cut(MutationStatus(w, r, requireSourceRemoved).0, keep)), x)
  {
    if MutationStatus(w, r, requireSourceRemoved).0 == [] {
      NothingStep(w, x, keep);
    } else {
      OtherMarkStep(w, x, r.tool, r.key, keep);
    }
  }

  lemma OtherApplyAppendStep(w: World, x: Place, r: Record, content: Bytes, keep: nat)
    requires Sound(w.store) && r.key != x.key && r.target !in x.paths
    ensures Undisturbed(w, DoAll(w, Cut(ApplyAppend(w, r, content).0, keep)), x)
  {
    if MutationStatus(w, r, false).1.Some? {
      OtherStatusStep(w, x, r, false, keep);
    } else if ApplyAppend(w, r, content).0 == [] {
      NothingStep(w, x, keep);
    } else {
      OtherChangeStep(w, x, WriteFile(r.target, ReadFileOrEmpty(w.files, r.target) + content), r.tool, r.key, keep);
    }
  }

  lemma OtherApplyTransferStep(w: World, x: Place, r: Record, overwrite: bool, keep: nat)
    requires Sound(w.store) && r.key != x.key && r.target !in x.paths
    requires r.tool == FsMove && r.source.Some? ==> r.source.value !in x.paths
    ensures Undisturbed(w, DoAll(w, Cut(ApplyTransfer(w, r, overwrite).0, keep)), x)
  {
    if MutationStatus(w, r, r.tool == FsMove).1.Some? {
      OtherStatusStep(w, x, r, r.tool == FsMove, keep);
    } else if ApplyTransfer(w, r, overwrite).0 == [] {
      NothingStep(w, x, keep);
    } else {
      OtherChangeStep(w, x, TransferAction(w.files, r), r.tool, r.key, keep);
    }
  }

  /** A new record and what is applied after it. */
  lemma OtherPreparedStep(w: World, x: Place, r: Record, applying: seq<Action>, keep: nat)
    requires Sound(w.store) && r.key != x.key && MayLog(w.store, r)
    requires forall n: nat :: Undisturbed(DoAll(w, Write(r)), DoAll(DoAll(w, Write(r)), Cut(applying, n)), x)
    ensures Undisturbed(w, DoAll(w, Cut(Write(r) + applying, keep)), x)
  {
    CutConcat(Write(r), applying, keep);
    if keep > 2 {
      OtherRecordStep(w, x, r, 2);
      assert Cut(Write(r), 2) == Write(r);
      DoConcat(w, Write(r), Cut(applying, keep - 2));
      UndisturbedThen(w, DoAll(w, Write(r)), DoAll(DoAll(w, Write(r)), Cut(applying, keep - 2)), x);
    } else {
      OtherRecordStep(w, x, r, keep);
    }
  }

  lemma UndisturbedThen(w: World, w1: World, w2: World, x: Place)
    requires Undisturbed(w, w1, x) && Undisturbed(w1, w2, x)
    ensures Undisturbed(w, w2, x)
  {
    forall p | p in x.paths ensures SameAt(w.files, w2.files, p) {
      assert SameAt(w.files, w1.files, p) && SameAt(w1.files, w2.files, p);
    }
  }

  /** An append under another key to another target, cut anywhere, leaves the place alone. */
  lemma OtherAppendStep(w: World, x: Place, key: Key, target: Path, content: Bytes, keep: nat)
    requires Sound(w.store) && key != x.key && target !in x.paths
    ensures Undisturbed(w, DoAll(w, Cut(Append(w, key, target, content).0, keep)), x)
  {
    LookupIsLogged(w.store, FsAppend, key);
    LoggedMatches(w.store, FsAppend, key);
    match Lookup(w.store, FsAppend, key)
    case Some(known) =>
      if ReplayError(known, FsAppend, target, Some(Sha256(content)), None).None? {
        OtherApplyAppendStep(w, x, known, content, keep);
      }
    case None => OtherNewAppendStep(w, x, AppendDraft(w.files, key, target, content), content, keep);
  }

  lemma OtherNewAppendStep(w: World, x: Place, r: Record, content: Bytes, keep: nat)
    requires Sound(w.store) && r.key != x.key && r.target !in x.paths && MayLog(w.store, r)
    ensures Undisturbed(w, DoAll(w, Cut(Write(r) + ApplyAppend(DoAll(w, Write(r)), r, content).0, keep)), x)
  {
    var w1 := DoAll(w, Write(r));
    SoundAfter(w, r);
    forall n: nat ensures Undisturbed(w1, DoAll(w1, Cut(ApplyAppend(w1, r, content).0, n)), x) {
      OtherApplyAppendStep(w1, x, r, content, n);
    }
    OtherPreparedStep(w, x, r, ApplyAppend(w1, r, content).0, keep);
  }

  lemma SoundAfter(w: World, r: Record)
    requires Sound(w.store) && MayLog(w.store, r)
    ensures Sound(DoAll(w, Write(r)).store)
  {
    WriteStep(w, r, 2);
    assert Cut(Write(r), 2) == Write(r);
  }

  /** A copy or move under another key to another target, cut anywhere, leaves the place alone; a copy may read from it. */
  lemma OtherTransferStep(w: World, x: Place, tool: FileTool, key: Key, source: Path, target: Path, overwrite: bool, keep: nat)
    requires Sound(w.store) && tool != FsAppend && key != x.key && target !in x.paths
    requires tool == FsMove ==> source !in x.paths
    ensures Undisturbed(w, DoAll(w, Cut(Transfer(w, tool, key, source, target, overwrite).0, keep)), x)
  {
    LookupIsLogged(w.store, tool, key);
    LoggedMatches(w.store, tool, key);
    match Lookup(w.store, tool, key)
    case Some(known) =>
      if ReplayError(known, tool, target, None, Some(source)).None? {
        OtherApplyTransferStep(w, x, known, overwrite, keep);
      }
    case None =>
      if source in w.files {
        OtherNewTransferStep(w, x, TransferDraft(tool, key, source, target, w.files[source]), overwrite, keep);
      }
  }

  lemma OtherNewTransferStep(w: World, x: Place, r: Record, overwrite: bool, keep: nat)
    requires Sound(w.store) && r.key != x.key && r.target !in x.paths && MayLog(w.store, r)
    requires r.tool == FsMove && r.source.Some? ==> r.source.value !in x.paths
    ensures Undisturbed(w, DoAll(w, Cut(Write(r) + ApplyTransfer(DoAll(w, Write(r)), r, overwrite).0, keep)), x)
  {
    var w1 := DoAll(w, Write(r));
    SoundAfter(w, r);
    forall n: nat ensures Undisturbed(w1, DoAll(w1, Cut(ApplyTransfer(w1, r, overwrite).0, n)), x) {
      OtherApplyTransferStep(w1, x, r, overwrite, n);
    }
    OtherPreparedStep(w, x, r, ApplyTransfer(w1, r, overwrite).0, keep);
  }

  lemma OtherQueryStep(w: World, x: Place, tool: FileTool, key: Key, keep: nat)
    requires Sound(w.store) && key != x.key
    ensures Undisturbed(w, DoAll(w, Cut(StatusQuery(w, tool, key).0, keep)), x)
  {
    LookupIsLogged(w.store, tool, key);
    LoggedMatches(w.store, tool, key);
    match Lookup(w.store, tool, key)
    case Some(known) => OtherStatusStep(w, x, known, tool == FsMove, keep);
    case None => NothingStep(w, x, keep);
  }
}
