/** Append, copy and move with an idempotency key (apps/daemon/src/tools/fs/fsToolService.ts): prepare
    a record, change the file by one atomic rename, mark the record applied. */
module FsToolService {
  import opened Common
  import opened Disk
  import opened IdempotencyStore

  datatype FsError =
    | KeyUsedForOtherTarget
    | KeyUsedForOtherSource
    | KeyUsedWithOtherContent
    | TargetChanged
    | DestinationExists
    | SourceUnknown
    | SourceMissing
    | SourceChanged

  /** The output carries `idempotent` when the call found its key already known. */
  datatype Outcome = Done(output: Output, idempotent: bool) | Failed(error: FsError)

  function ReadFileOrEmpty(files: Files, path: Path): Bytes {
    if path in files then files[path] else []
  }

  function FileHash(files: Files, path: Path): Option<Digest> {
    if path in files then Some(Sha256(files[path])) else None
  }

  function OutcomeOf(r: Result<Output, FsError>, idempotent: bool): Outcome {
    match r
    case Ok(output) => Done(output, idempotent)
    case Err(error) => Failed(error)
  }

  function ReplayError(r: Record, tool: FileTool, target: Path, contentHash: Option<Digest>, source: Option<Path>): Option<FsError> {
    if r.tool != tool || r.target != target then Some(KeyUsedForOtherTarget)
    else if source.Some? && r.source != source then Some(KeyUsedForOtherSource)
    else if contentHash.Some? && Some(r.contentHash) != contentHash then Some(KeyUsedWithOtherContent)
    else None
  }

  // ---- what each operation does: its durable actions in order, and its answer ----

  /** A mutation is applied when its record says so, or when its after-image is in place; in the
      second case the record is marked. */
  ghost function MutationStatus(w: World, r: Record, requireSourceRemoved: bool): (seq<Action>, Option<Output>) {
    if r.status == Applied then ([], Some(r.output))
    else if FileHash(w.files, r.target) != Some(r.afterHash) then ([], None)
    else if requireSourceRemoved && r.source.Some? && r.source.value in w.files then ([], None)
    else (MarkApplied(w.store, r.tool, r.key).0, Some(r.output))
  }

  ghost function StatusQuery(w: World, tool: FileTool, key: Key): (seq<Action>, Option<Output>) {
    match Lookup(w.store, tool, key)
    case None => ([], None)
    case Some(r) => MutationStatus(w, r, tool == FsMove)
  }

  ghost function ApplyAppend(w: World, r: Record, content: Bytes): (seq<Action>, Result<Output, FsError>) {
    var (marking, applied) := MutationStatus(w, r, false);
    var current := ReadFileOrEmpty(w.files, r.target);
    if applied.Some? then (marking, Ok(applied.value))
    else if r.beforeHash != Some(Sha256(current)) then ([], Err(TargetChanged))
    else ([WriteFile(r.target, current + content)] + MarkApplied(w.store, r.tool, r.key).0, Ok(r.output))
  }

  ghost function ApplyTransfer(w: World, r: Record, overwrite: bool): (seq<Action>, Result<Output, FsError>) {
    var (marking, applied) := MutationStatus(w, r, r.tool == FsMove);
    if applied.Some? then (marking, Ok(applied.value))
    else if r.source.None? then ([], Err(SourceUnknown))
    else if !overwrite && FileHash(w.files, r.target).Some? then ([], Err(DestinationExists))
    else if r.source.value !in w.files then ([], Err(SourceMissing))
    else if Sha256(w.files[r.source.value]) != r.contentHash then ([], Err(SourceChanged))
    else ([TransferAction(w.files, r)] + MarkApplied(w.store, r.tool, r.key).0, Ok(r.output))
  }

  function TransferAction(files: Files, r: Record): Action
    requires r.source.Some? && r.source.value in files
  {
    if r.tool == FsMove then Rename(r.source.value, r.target) else WriteFile(r.target, files[r.source.value])
  }

  function AppendDraft(files: Files, key: Key, target: Path, content: Bytes): Record {
    var before := ReadFileOrEmpty(files, target);
    var after := before + content;
    Record(FsAppend, key, Prepared, None, target, Sha256(content), Some(Sha256(before)), Sha256(after),
           Output(|after|, Sha256(after)))
  }

  function TransferDraft(tool: FileTool, key: Key, source: Path, target: Path, contents: Bytes): Record {
    Record(tool, key, Prepared, Some(source), target, Sha256(contents), None, Sha256(contents),
           Output(|contents|, Sha256(contents)))
  }

  ghost function Append(w: World, key: Key, target: Path, content: Bytes): (seq<Action>, Outcome) {
    match Lookup(w.store, FsAppend, key)
    case Some(previous) =>
      var fault := ReplayError(previous, FsAppend, target, Some(Sha256(content)), None);
      if fault.Some? then ([], Failed(fault.value))
      else
        var (actions, r) := ApplyAppend(w, previous, content);
        (actions, OutcomeOf(r, true))
    case None =>
      var (preparing, record) := Prepare(w.store, AppendDraft(w.files, key, target, content));
      var (actions, r) := ApplyAppend(DoAll(w, preparing), record, content);
      (preparing + actions, OutcomeOf(r, false))
  }

  /** Copy or move: what differs is the durable step in the middle. */
  ghost function Transfer(w: World, tool: FileTool, key: Key, source: Path, target: Path, overwrite: bool): (seq<Action>, Outcome) {
    match Lookup(w.store, tool, key)
    case Some(previous) =>
      var fault := ReplayError(previous, tool, target, None, Some(source));
      if fault.Some? then ([], Failed(fault.value))
      else
        var (actions, r) := ApplyTransfer(w, previous, overwrite);
        (actions, OutcomeOf(r, true))
    case None =>
      if !overwrite && target in w.files then ([], Failed(DestinationExists))
      else if source !in w.files then ([], Failed(SourceMissing))
      else PrepareTransfer(w, TransferDraft(tool, key, source, target, w.files[source]), overwrite)
  }

  ghost function PrepareTransfer(w: World, draft: Record, overwrite: bool): (seq<Action>, Outcome) {
    var (preparing, record) := Prepare(w.store, draft);
    var (actions, r) := ApplyTransfer(DoAll(w, preparing), record, overwrite);
    (preparing + actions, OutcomeOf(r, false))
  }

  lemma PrepareIsSound(w: World, draft: Record)
    requires Sound(w.store)
    ensures
      var (preparing, record) := Prepare(w.store, draft);
      var w' := DoAll(w, preparing);
      && Sound(w'.store) && w'.files == w.files
      && Lookup(w'.store, draft.tool, draft.key) == Some(record)
  {
    if Lookup(w.store, draft.tool, draft.key).None? {
      var r := draft.(status := Prepared);
      LookupIsLogged(w.store, r.tool, r.key);
      WriteStep(w, r, 2);
    }
  }

  // ---- the service ----

  class FsToolService {
    const drive: Drive
    const idempotency: IdempotencyStore

    constructor (drive: Drive)
      ensures this.drive == drive && (Sound(drive.store) ==> Valid())
    {
      this.drive := drive;
      idempotency := new IdempotencyStore(drive);
    }

    ghost predicate Valid()
      reads drive
    {
      idempotency.drive == drive && Sound(drive.store)
    }

    method Mark(r: Record) returns (output: Output)
      requires Valid() && Lookup(drive.store, r.tool, r.key) == Some(r)
      modifies drive
      ensures Valid()
      ensures drive.Now() == DoAll(old(drive.Now()), MarkApplied(old(drive.store), r.tool, r.key).0)
      ensures drive.history == old(drive.history) + MarkApplied(old(drive.store), r.tool, r.key).0
      ensures output == r.output
    {
      var applied := idempotency.MarkFileMutationApplied(r.tool, r.key);
      output := if applied.Some? then applied.value.output else r.output;
    }

    method FileMutationStatus(r: Record, requireSourceRemoved: bool) returns (applied: Option<Output>)
      requires Valid() && Lookup(drive.store, r.tool, r.key) == Some(r)
      modifies drive
      ensures Valid()
      ensures drive.Now() == DoAll(old(drive.Now()), MutationStatus(old(drive.Now()), r, requireSourceRemoved).0)
      ensures drive.history == old(drive.history) + MutationStatus(old(drive.Now()), r, requireSourceRemoved).0
      ensures applied == MutationStatus(old(drive.Now()), r, requireSourceRemoved).1
    {
      if r.status == Applied {
        return Some(r.output);
      }
      if FileHash(drive.files, r.target) != Some(r.afterHash) {
        return None;
      }
      if requireSourceRemoved && r.source.Some? && r.source.value in drive.files {
        return None;
      }
      var output := Mark(r);
      applied := Some(output);
    }

    /** Serves the status queries of append, copy and move. */
    method Status(tool: FileTool, key: Key) returns (applied: Option<Output>)
      requires Valid()
      modifies drive
      ensures Valid()
      ensures drive.Now() == DoAll(old(drive.Now()), StatusQuery(old(drive.Now()), tool, key).0)
      ensures drive.history == old(drive.history) + StatusQuery(old(drive.Now()), tool, key).0
      ensures applied == StatusQuery(old(drive.Now()), tool, key).1
    {
      var r := idempotency.LookupFileMutation(tool, key);
      if r.None? {
        return None;
      }
      LookupIsLogged(drive.store, tool, key);
      LoggedMatches(drive.store, tool, key);
      applied := FileMutationStatus(r.value, tool == FsMove);
    }

    method ApplyPreparedAppend(r: Record, content: Bytes) returns (result: Result<Output, FsError>)
      requires Valid() && Lookup(drive.store, r.tool, r.key) == Some(r)
      modifies drive
      ensures Valid()
      ensures drive.Now() == DoAll(old(drive.Now()), ApplyAppend(old(drive.Now()), r, content).0)
      ensures drive.history == old(drive.history) + ApplyAppend(old(drive.Now()), r, content).0
      ensures result == ApplyAppend(old(drive.Now()), r, content).1
    {
      ghost var start := drive.Now();
      var status := FileMutationStatus(r, false);
      if status.Some? {
        return Ok(status.value);
      }
      var current := ReadFileOrEmpty(drive.files, r.target);
      if Some(Sha256(current)) != r.beforeHash {
        return Err(TargetChanged);
      }
      ghost var writing := WriteFile(r.target, current + content);
      drive.Perform(WriteFile(r.target, current + content));
      ThenMark(start, writing, MarkApplied(start.store, r.tool, r.key).0);
      var output := Mark(r);
      result := Ok(output);
    }

    method ApplyPreparedTransfer(r: Record, overwrite: bool) returns (result: Result<Output, FsError>)
      requires Valid() && Lookup(drive.store, r.tool, r.key) == Some(r)
      modifies drive
      ensures Valid()
      ensures drive.Now() == DoAll(old(drive.Now()), ApplyTransfer(old(drive.Now()), r, overwrite).0)
      ensures drive.history == old(drive.history) + ApplyTransfer(old(drive.Now()), r, overwrite).0
      ensures result == ApplyTransfer(old(drive.Now()), r, overwrite).1
    {
      ghost var start := drive.Now();
      var status := FileMutationStatus(r, r.tool == FsMove);
      if status.Some? {
        return Ok(status.value);
      }
      if r.source.None? {
        return Err(SourceUnknown);
      }
      if !overwrite && FileHash(drive.files, r.target).Some? {
        return Err(DestinationExists);
      }
      if r.source.value !in drive.files {
        return Err(SourceMissing);
      }
      if Sha256(drive.files[r.source.value]) != r.contentHash {
        return Err(SourceChanged);
      }
      var transferring := TransferAction(drive.files, r);
      drive.Perform(transferring);
      ThenMark(start, transferring, MarkApplied(start.store, r.tool, r.key).0);
      var output := Mark(r);
      result := Ok(output);
    }

    method AppendOutput(key: Key, target: Path, content: Bytes) returns (outcome: Outcome)
      requires Valid()
      modifies drive
      ensures Valid()
      ensures drive.Now() == DoAll(old(drive.Now()), Append(old(drive.Now()), key, target, content).0)
      ensures drive.history == old(drive.history) + Append(old(drive.Now()), key, target, content).0
      ensures outcome == Append(old(drive.Now()), key, target, content).1
    {
      var previous := idempotency.LookupFileMutation(FsAppend, key);
      if previous.Some? {
        LookupIsLogged(drive.store, FsAppend, key);
        LoggedMatches(drive.store, FsAppend, key);
        var fault := ReplayError(previous.value, FsAppend, target, Some(Sha256(content)), None);
        if fault.Some? {
          return Failed(fault.value);
        }
        var r := ApplyPreparedAppend(previous.value, content);
        return OutcomeOf(r, true);
      }
      outcome := FirstAppend(key, target, content);
    }

    /** An append under a key that is not known yet. */
    method FirstAppend(key: Key, target: Path, content: Bytes) returns (outcome: Outcome)
      requires Valid() && Lookup(drive.store, FsAppend, key).None?
      modifies drive
      ensures Valid()
      ensures drive.Now() == DoAll(old(drive.Now()), Append(old(drive.Now()), key, target, content).0)
      ensures drive.history == old(drive.history) + Append(old(drive.Now()), key, target, content).0
      ensures outcome == Append(old(drive.Now()), key, target, content).1
    {
      ghost var start, history := drive.Now(), drive.history;
      var draft := AppendDraft(drive.files, key, target, content);
      var record := PrepareFirst(draft);
      ghost var preparing, applying := Prepare(start.store, draft).0, ApplyAppend(drive.Now(), record, content).0;
      var r := ApplyPreparedAppend(record, content);
      DoConcat(start, preparing, applying);
      Associate(history, preparing, applying);
      outcome := OutcomeOf(r, false);
    }

    method TransferOutput(tool: FileTool, key: Key, source: Path, target: Path, overwrite: bool) returns (outcome: Outcome)
      requires Valid() && tool != FsAppend
      modifies drive
      ensures Valid()
      ensures drive.Now() == DoAll(old(drive.Now()), Transfer(old(drive.Now()), tool, key, source, target, overwrite).0)
      ensures drive.history == old(drive.history) + Transfer(old(drive.Now()), tool, key, source, target, overwrite).0
      ensures outcome == Transfer(old(drive.Now()), tool, key, source, target, overwrite).1
    {
      var previous := idempotency.LookupFileMutation(tool, key);
      if previous.Some? {
        LookupIsLogged(drive.store, tool, key);
        LoggedMatches(drive.store, tool, key);
        var fault := ReplayError(previous.value, tool, target, None, Some(source));
        if fault.Some? {
          return Failed(fault.value);
        }
        var r := ApplyPreparedTransfer(previous.value, overwrite);
        return OutcomeOf(r, true);
      }
      if !overwrite && target in drive.files {
        return Failed(DestinationExists);
      }
      if source !in drive.files {
        return Failed(SourceMissing);
      }
      outcome := FirstTransfer(TransferDraft(tool, key, source, target, drive.files[source]), overwrite);
    }

    /** A copy or move under a key that is not known yet. */
    method FirstTransfer(draft: Record, overwrite: bool) returns (outcome: Outcome)
      requires Valid() && Lookup(drive.store, draft.tool, draft.key).None?
      modifies drive
      ensures Valid()
      ensures drive.Now() == DoAll(old(drive.Now()), PrepareTransfer(old(drive.Now()), draft, overwrite).0)
      ensures drive.history == old(drive.history) + PrepareTransfer(old(drive.Now()), draft, overwrite).0
      ensures outcome == PrepareTransfer(old(drive.Now()), draft, overwrite).1
    {
      ghost var start, history := drive.Now(), drive.history;
      var record := PrepareFirst(draft);
      ghost var preparing, applying := Prepare(start.store, draft).0, ApplyTransfer(drive.Now(), record, overwrite).0;
      var r := ApplyPreparedTransfer(record, overwrite);
      DoConcat(start, preparing, applying);
      Associate(history, preparing, applying);
      outcome := OutcomeOf(r, false);
    }

    /** The record of a draft whose key may be known. */
    method PrepareFirst(draft: Record) returns (record: Record)
      requires Valid()
      modifies drive
      ensures Valid() && Lookup(drive.store, record.tool, record.key) == Some(record)
      ensures drive.Now() == DoAll(old(drive.Now()), Prepare(old(drive.store), draft).0)
      ensures drive.history == old(drive.history) + Prepare(old(drive.store), draft).0
      ensures record == Prepare(old(drive.store), draft).1
    {
      PrepareIsSound(drive.Now(), draft);
      record := idempotency.PrepareFileMutation(draft);
    }
  }

  /** A cut after the first action: it is done, and what follows is cut. */
  lemma CutAfterFirst(w: World, first: Action, rest: seq<Action>, keep: nat)
    requires keep > 0
    ensures Cut([first] + rest, keep) == [first] + Cut(rest, keep - 1)
    ensures DoAll(w, Cut([first] + rest, keep)) == DoAll(Do(w, first), Cut(rest, keep - 1))
  {
    CutConcat([first], rest, keep);
    ThenMark(w, first, Cut(rest, keep - 1));
  }

  lemma ThenMark(w: World, first: Action, marking: seq<Action>)
    ensures DoAll(w, [first] + marking) == DoAll(Do(w, first), marking)
  {
    DoConcat(w, [first], marking);
    DoOne(w, first);
  }
}
