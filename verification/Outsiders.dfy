/** Appends, copies, moves and status queries with any keys, while others edit the same files between the calls: what an
    answer still says about the files. */
module Outsiders {
  import opened Common
  import opened Disk
  import opened IdempotencyStore
  import opened FsToolService

  /** A call, of which the first `keep` durable actions survive; or an edit or removal of a file by somebody else. */
  datatype Event =
    | AppendCall(key: Key, target: Path, content: Bytes, keep: nat)
    | TransferCall(tool: FileTool, key: Key, source: Path, target: Path, overwrite: bool, keep: nat)
    | QueryCall(tool: FileTool, key: Key, keep: nat)
    | Edit(path: Path, contents: Option<Bytes>)

  ghost function Actions(w: World, e: Event): seq<Action> {
    match e
    case AppendCall(key, target, content, keep) => Cut(Append(w, key, target, content).0, keep)
    case TransferCall(tool, key, source, target, overwrite, keep) =>
      if tool == FsAppend then [] else Cut(Transfer(w, tool, key, source, target, overwrite).0, keep)
    case QueryCall(tool, key, keep) => Cut(StatusQuery(w, tool, key).0, keep)
    case Edit(_, _) => []
  }

  function Edited(files: Files, path: Path, contents: Option<Bytes>): Files {
    if contents.Some? then files[path := contents.value] else files - {path}
  }

  ghost function Next(w: World, e: Event): World {
    if e.Edit? then w.(files := Edited(w.files, e.path, e.contents)) else DoAll(w, Actions(w, e))
  }

  ghost function Run(w: World, events: seq<Event>): World
    decreases |events|
  {
    if events == [] then w else Run(Next(w, events[0]), events[1..])
  }

  // ---- honest records ----

  /** The record's output is the size and hash of its after-image: the bytes to transfer, or those before followed by
      those to append. */
  predicate HonestRecord(r: Record) {
    && r.output == Output(|r.afterHash.preimage|, r.afterHash)
    && (if r.tool == FsAppend then
          r.beforeHash.Some? && r.afterHash.preimage == r.beforeHash.value.preimage + r.contentHash.preimage
        else r.source.Some? && r.contentHash == r.afterHash)
  }

  ghost predicate HonestAt(s: Store, tool: FileTool, key: Key) {
    var r := Lookup(s, tool, key);
    r.Some? ==> Matches(r.value, tool, key) && HonestRecord(r.value)
  }

  ghost predicate Honest(s: Store) {
    Sound(s) && forall tool, key :: HonestAt(s, tool, key)
  }

  lemma RecordKeepsHonest(w: World, r: Record, keep: nat)
    requires Honest(w.store) && MayLog(w.store, r) && HonestRecord(r)
    ensures Honest(DoAll(w, Cut(Write(r), keep)).store) && DoAll(w, Cut(Write(r), keep)).files == w.files
  {
    var s' := DoAll(w, Cut(Write(r), keep)).store;
    WriteStep(w, r, keep);
    forall tool, key ensures HonestAt(s', tool, key) {
      assert HonestAt(w.store, tool, key);
    }
  }

  lemma MarkKeepsHonest(w: World, tool: FileTool, key: Key, keep: nat)
    requires Honest(w.store)
    ensures
      var w' := DoAll(w, Cut(MarkApplied(w.store, tool, key).0, keep));
      Honest(w'.store) && w'.files == w.files
  {
    var known := Lookup(w.store, tool, key);
    if known.Some? {
      assert HonestAt(w.store, tool, key);
      LookupIsLogged(w.store, tool, key);
      RecordKeepsHonest(w, known.value.(status := Applied), keep);
    }
  }

  lemma StatusKeepsHonest(w: World, r: Record, requireSourceRemoved: bool, keep: nat)
    requires Honest(w.store)
    ensures
      var w' := DoAll(w, Cut(MutationStatus(w, r, requireSourceRemoved).0, keep));
      Honest(w'.store) && w'.files == w.files
  {
    if MutationStatus(w, r, requireSourceRemoved).0 != [] { MarkKeepsHonest(w, r.tool, r.key, keep); }
  }

  /** A change of a file and the marking that follows it. */
  lemma ChangeKeepsHonest(w: World, a: Action, tool: FileTool, key: Key, keep: nat)
    requires Honest(w.store) && (a.WriteFile? || a.Rename?)
    ensures Honest(DoAll(w, Cut([a] + MarkApplied(w.store, tool, key).0, keep)).store)
  {
    if keep > 0 {
      assert Do(w, a).store == w.store;
      CutAfterFirst(w, a, MarkApplied(w.store, tool, key).0, keep);
      MarkKeepsHonest(Do(w, a), tool, key, keep - 1);
    } else {
      assert Cut([a] + MarkApplied(w.store, tool, key).0, 0) == [];
    }
  }

  lemma ApplyAppendKeepsHonest(w: World, r: Record, content: Bytes, keep: nat)
    requires Honest(w.store)
    ensures Honest(DoAll(w, Cut(ApplyAppend(w, r, content).0, keep)).store)
  {
    if MutationStatus(w, r, false).1.Some? {
      StatusKeepsHonest(w, r, false, keep);
    } else if ApplyAppend(w, r, content).0 != [] {
      ChangeKeepsHonest(w, WriteFile(r.target, ReadFileOrEmpty(w.files, r.target) + content), r.tool, r.key, keep);
    }
  }

  lemma ApplyTransferKeepsHonest(w: World, r: Record, overwrite: bool, keep: nat)
    requires Honest(w.store)
    ensures Honest(DoAll(w, Cut(ApplyTransfer(w, r, overwrite).0, keep)).store)
  {
    if MutationStatus(w, r, r.tool == FsMove).1.Some? {
      StatusKeepsHonest(w, r, r.tool == FsMove, keep);
    } else if ApplyTransfer(w, r, overwrite).0 != [] {
      ChangeKeepsHonest(w, TransferAction(w.files, r), r.tool, r.key, keep);
    }
  }

  /** A new honest record, and what is applied after it. */
  lemma PreparedKeepsHonest(w: World, r: Record, applying: seq<Action>, keep: nat)
    requires Honest(w.store) && MayLog(w.store, r) && HonestRecord(r)
    requires forall n: nat :: Honest(DoAll(DoAll(w, Write(r)), Cut(applying, n)).store)
    ensures Honest(DoAll(w, Cut(Write(r) + applying, keep)).store)
  {
    CutConcat(Write(r), applying, keep);
    if keep > 2 {
      DoConcat(w, Write(r), Cut(applying, keep - 2));
    } else {
      RecordKeepsHonest(w, r, keep);
    }
  }

  lemma NewRecord(w: World, r: Record)
    requires Honest(w.store) && Lookup(w.store, r.tool, r.key).None? && r.status == Prepared && HonestRecord(r)
    ensures MayLog(w.store, r)
    ensures
      var w' := DoAll(w, Write(r));
      Honest(w'.store) && w'.files == w.files && Lookup(w'.store, r.tool, r.key) == Some(r)
  {
    LookupIsLogged(w.store, r.tool, r.key);
    RecordKeepsHonest(w, r, 2);
    WriteStep(w, r, 2);
    assert Cut(Write(r), 2) == Write(r);
  }

  lemma AppendKeepsHonest(w: World, key: Key, target: Path, content: Bytes, keep: nat)
    requires Honest(w.store)
    ensures Honest(DoAll(w, Cut(Append(w, key, target, content).0, keep)).store)
  {
    match Lookup(w.store, FsAppend, key)
    case Some(r) => ApplyAppendKeepsHonest(w, r, content, keep);
    case None =>
      var r := AppendDraft(w.files, key, target, content);
      NewRecord(w, r);
      var w1 := DoAll(w, Write(r));
      forall n: nat ensures Honest(DoAll(w1, Cut(ApplyAppend(w1, r, content).0, n)).store) {
        ApplyAppendKeepsHonest(w1, r, content, n);
      }
      PreparedKeepsHonest(w, r, ApplyAppend(w1, r, content).0, keep);
  }

  lemma TransferKeepsHonest(w: World, tool: FileTool, key: Key, source: Path, target: Path, overwrite: bool, keep: nat)
    requires Honest(w.store) && tool != FsAppend
    ensures Honest(DoAll(w, Cut(Transfer(w, tool, key, source, target, overwrite).0, keep)).store)
  {
    match Lookup(w.store, tool, key)
    case Some(r) => ApplyTransferKeepsHonest(w, r, overwrite, keep);
    case None =>
      if source in w.files {
        var r := TransferDraft(tool, key, source, target, w.files[source]);
        NewRecord(w, r);
        var w1 := DoAll(w, Write(r));
        forall n: nat ensures Honest(DoAll(w1, Cut(ApplyTransfer(w1, r, overwrite).0, n)).store) {
          ApplyTransferKeepsHonest(w1, r, overwrite, n);
        }
        PreparedKeepsHonest(w, r, ApplyTransfer(w1, r, overwrite).0, keep);
      }
  }

  lemma NextKeepsHonest(w: World, e: Event)
    requires Honest(w.store)
    ensures Honest(Next(w, e).store)
  {
    match e
    case AppendCall(key, target, content, keep) => AppendKeepsHonest(w, key, target, content, keep);
    case TransferCall(tool, key, source, target, overwrite, keep) =>
      if tool != FsAppend { TransferKeepsHonest(w, tool, key, source, target, overwrite, keep); }
    case QueryCall(tool, key, keep) =>
      var known := Lookup(w.store, tool, key);
      if known.Some? { StatusKeepsHonest(w, known.value, tool == FsMove, keep); }
    case Edit(_, _) =>
  }

  lemma {:induction false} RunKeepsHonest(w: World, events: seq<Event>)
    requires Honest(w.store)
    ensures Honest(Run(w, events).store)
    decreases |events|
  {
    if events != [] {
      NextKeepsHonest(w, events[0]);
      RunKeepsHonest(Next(w, events[0]), events[1..]);
    }
  }

  // ---- what an answer says ----

  /** The target holds the bytes that the output describes. */
  predicate Holds(files: Files, target: Path, output: Output) {
    target in files && Sha256(files[target]) == output.hash && |files[target]| == output.size
  }

  ghost predicate WasApplied(w: World, tool: FileTool, key: Key) {
    Lookup(w.store, tool, key).Some? && Lookup(w.store, tool, key).value.status == Applied
  }

  /** What an answer to a call means: a failure changed no file; a success of a mutation that was recorded as applied
      did nothing more; and any other success leaves the target with the bytes that its output describes. */
  ghost predicate AnswerIsRight(w: World, tool: FileTool, key: Key, target: Path, answer: (seq<Action>, Outcome)) {
    var files' := DoAll(w, answer.0).files;
    match answer.1
    case Failed(_) => files' == w.files
    case Done(output, idempotent) =>
      && (idempotent <==> Lookup(w.store, tool, key).Some?)
      && (if WasApplied(w, tool, key) then answer.0 == [] else Holds(files', target, output))
  }

  lemma ChangeThenMark(w: World, a: Action, tool: FileTool, key: Key)
    requires Honest(w.store) && (a.WriteFile? || a.Rename?)
    ensures DoAll(w, [a] + MarkApplied(w.store, tool, key).0).files == Do(w, a).files
  {
    var marking := MarkApplied(w.store, tool, key).0;
    assert Do(w, a).store == w.store;
    ThenMark(w, a, marking);
    MarkKeepsHonest(Do(w, a), tool, key, |marking|);
    assert Cut(marking, |marking|) == marking;
  }

  lemma StatusFiles(w: World, r: Record, requireSourceRemoved: bool)
    requires Honest(w.store)
    ensures DoAll(w, MutationStatus(w, r, requireSourceRemoved).0).files == w.files
  {
    var marking := MutationStatus(w, r, requireSourceRemoved).0;
    StatusKeepsHonest(w, r, requireSourceRemoved, |marking|);
    assert Cut(marking, |marking|) == marking;
  }

  lemma ApplyAppendIsRight(w: World, r: Record, content: Bytes)
    requires Honest(w.store) && HonestRecord(r) && r.tool == FsAppend && r.contentHash == Sha256(content)
    ensures
      var (actions, result) := ApplyAppend(w, r, content);
      var files' := DoAll(w, actions).files;
      && (result.Err? ==> files' == w.files)
      && (result.Ok? ==> if r.status == Applied then actions == [] else Holds(files', r.target, result.value))
  {
    if MutationStatus(w, r, false).1.Some? {
      StatusFiles(w, r, false);
    } else if ApplyAppend(w, r, content).1.Ok? {
      ChangeThenMark(w, WriteFile(r.target, ReadFileOrEmpty(w.files, r.target) + content), r.tool, r.key);
    }
  }

  lemma ApplyTransferIsRight(w: World, r: Record, overwrite: bool)
    requires Honest(w.store) && HonestRecord(r) && r.tool != FsAppend
    ensures
      var (actions, result) := ApplyTransfer(w, r, overwrite);
      var files' := DoAll(w, actions).files;
      && (result.Err? ==> files' == w.files)
      && (result.Ok? ==> if r.status == Applied then actions == [] else Holds(files', r.target, result.value))
      && (result.Ok? && r.status == Prepared && r.tool == FsMove && r.source.value != r.target ==> r.source.value !in files')
  {
    if MutationStatus(w, r, r.tool == FsMove).1.Some? {
      StatusFiles(w, r, r.tool == FsMove);
    } else if ApplyTransfer(w, r, overwrite).1.Ok? {
      ChangeThenMark(w, TransferAction(w.files, r), r.tool, r.key);
    }
  }

  lemma AppendIsRight(w: World, key: Key, target: Path, content: Bytes)
    requires Honest(w.store)
    ensures AnswerIsRight(w, FsAppend, key, target, Append(w, key, target, content))
  {
    assert HonestAt(w.store, FsAppend, key);
    match Lookup(w.store, FsAppend, key)
    case Some(r) =>
      if ReplayError(r, FsAppend, target, Some(Sha256(content)), None).None? { ApplyAppendIsRight(w, r, content); }
    case None =>
      var r := AppendDraft(w.files, key, target, content);
      NewRecord(w, r);
      ApplyAppendIsRight(DoAll(w, Write(r)), r, content);
      DoConcat(w, Write(r), ApplyAppend(DoAll(w, Write(r)), r, content).0);
  }

  lemma TransferIsRight(w: World, tool: FileTool, key: Key, source: Path, target: Path, overwrite: bool)
    requires Honest(w.store) && tool != FsAppend
    ensures
      var answer := Transfer(w, tool, key, source, target, overwrite);
      && AnswerIsRight(w, tool, key, target, answer)
      && (answer.1.Done? && !WasApplied(w, tool, key) && tool == FsMove && source != target ==>
            source !in DoAll(w, answer.0).files)
  {
    assert HonestAt(w.store, tool, key);
    match Lookup(w.store, tool, key)
    case Some(r) =>
      if ReplayError(r, tool, target, None, Some(source)).None? { ApplyTransferIsRight(w, r, overwrite); }
    case None =>
      if source in w.files && (overwrite || target !in w.files) {
        var r := TransferDraft(tool, key, source, target, w.files[source]);
        NewRecord(w, r);
        ApplyTransferIsRight(DoAll(w, Write(r)), r, overwrite);
        DoConcat(w, Write(r), ApplyTransfer(DoAll(w, Write(r)), r, overwrite).0);
      }
  }

  /** From a store without records, over every run of calls and queries with any keys and targets, crashed anywhere, among
      edits of any files by others: a failed append, copy or move changes no file, and a successful one leaves its target
      with bytes of the size and hash it reports, unless it was recorded as applied before, when it does nothing. A
      successful move onto another path leaves no source. */
  lemma AnswersAreRight(
      w: World, events: seq<Event>, tool: FileTool, key: Key, source: Path, target: Path, overwrite: bool, content: Bytes)
    requires Sound(w.store) && forall t, k :: Lookup(w.store, t, k).None?
    ensures
      var w' := Run(w, events);
      && AnswerIsRight(w', FsAppend, key, target, Append(w', key, target, content))
      && (tool != FsAppend ==>
            var answer := Transfer(w', tool, key, source, target, overwrite);
            && AnswerIsRight(w', tool, key, target, answer)
            && (answer.1.Done? && !WasApplied(w', tool, key) && tool == FsMove && source != target ==>
                  source !in DoAll(w', answer.0).files))
  {
    RunKeepsHonest(w, events);
    AppendIsRight(Run(w, events), key, target, content);
    if tool != FsAppend { TransferIsRight(Run(w, events), tool, key, source, target, overwrite); }
  }

  // ---- exactly when a replay succeeds ----

  /** The after-image is in the target, and for a move the source is gone. */
  predicate InPlace(files: Files, r: Record) {
    && r.target in files && Sha256(files[r.target]) == r.afterHash
    && (r.tool == FsMove && r.source.Some? ==> r.source.value !in files)
  }

  /** A copy or move under a known key succeeds if and only if it names the recorded paths and is applied, is in place, or
      still finds the recorded bytes at its source and may write its target; an edited source is never transferred. */
  lemma KnownTransferSucceedsExactlyWhen(w: World, r: Record, source: Path, target: Path, overwrite: bool)
    requires Lookup(w.store, r.tool, r.key) == Some(r) && r.tool != FsAppend && HonestRecord(r)
    ensures Transfer(w, r.tool, r.key, source, target, overwrite).1.Done? <==>
            && r.target == target && r.source == Some(source)
            && (|| r.status == Applied || InPlace(w.files, r)
                || (&& source in w.files && Sha256(w.files[source]) == r.contentHash
                    && (overwrite || target !in w.files)))
  {
  }

  /** An append under a known key succeeds if and only if it names the recorded target and content and is applied, is in
      place, or finds the target as it was recorded. */
  lemma KnownAppendSucceedsExactlyWhen(w: World, r: Record, target: Path, content: Bytes)
    requires Lookup(w.store, FsAppend, r.key) == Some(r) && r.tool == FsAppend && HonestRecord(r)
    ensures Append(w, r.key, target, content).1.Done? <==>
            && r.target == target && r.contentHash == Sha256(content)
            && (|| r.status == Applied || InPlace(w.files, r)
                || r.beforeHash == Some(Sha256(ReadFileOrEmpty(w.files, target))))
  {
  }

  /** And how an edited source is answered. */
  lemma EditedSourceFails(w: World, r: Record, overwrite: bool)
    requires Lookup(w.store, r.tool, r.key) == Some(r) && r.tool != FsAppend && HonestRecord(r) && r.status == Prepared
    requires r.source.value in w.files && Sha256(w.files[r.source.value]) != r.contentHash && !InPlace(w.files, r)
    ensures
      Transfer(w, r.tool, r.key, r.source.value, r.target, overwrite) ==
      ([], Failed(if !overwrite && r.target in w.files then DestinationExists else SourceChanged))
  {
  }

  /** A replay of what was recorded as applied succeeds whatever others have written to the target since, and its output
      is right about the target if and only if they wrote the same bytes. */
  lemma AppliedReplayIgnoresEdits(w: World, r: Record, edited: Bytes, overwrite: bool)
    requires Lookup(w.store, r.tool, r.key) == Some(r) && r.tool != FsAppend && HonestRecord(r) && r.status == Applied
    ensures
      var w' := Next(w, Edit(r.target, Some(edited)));
      && Transfer(w', r.tool, r.key, r.source.value, r.target, overwrite) == ([], Done(r.output, true))
      && (Holds(w'.files, r.target, r.output) <==> edited == r.afterHash.preimage)
  {
  }

  /** An answer "applied" is right about the record or the files. */
  lemma AppliedMeansInPlace(w: World, tool: FileTool, key: Key)
    requires Honest(w.store) && StatusQuery(w, tool, key).1.Some?
    ensures
      var r := Lookup(w.store, tool, key);
      && r.Some? && (r.value.status == Applied || InPlace(w.files, r.value))
      && StatusQuery(w, tool, key).1.value == r.value.output
      && DoAll(w, StatusQuery(w, tool, key).0).files == w.files
  {
    var r := Lookup(w.store, tool, key).value;
    assert HonestAt(w.store, tool, key);
    StatusFiles(w, r, tool == FsMove);
  }
}
