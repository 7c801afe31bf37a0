/** Copies and moves over any schedule of crashes and replays. */
module TransferEffects {
  import opened Common
  import opened Disk
  import opened IdempotencyStore
  import opened FsToolService

  /** One mutation: its tool (copy or move), key, source and target. */
  datatype Mutation = Mutation(tool: FileTool, key: Key, source: Path, target: Path)

  /** A replay or status query of the mutation, cut off after `keep` durable actions. */
  datatype Call = TransferCall(overwrite: bool, keep: nat) | QueryCall(keep: nat)

  ghost function Actions(w: World, m: Mutation, call: Call): seq<Action> {
    match call
    case TransferCall(overwrite, keep) => Cut(Transfer(w, m.tool, m.key, m.source, m.target, overwrite).0, keep)
    case QueryCall(keep) => Cut(StatusQuery(w, m.tool, m.key).0, keep)
  }

  ghost function Run(w: World, m: Mutation, calls: seq<Call>): World
    decreases |calls|
  {
    if calls == [] then w else Run(DoAll(w, Actions(w, m, calls[0])), m, calls[1..])
  }

  function Draft(base: Files, m: Mutation): Record
    requires m.source in base
  {
    TransferDraft(m.tool, m.key, m.source, m.target, base[m.source])
  }

  /** The files after one copy or move that nothing interrupts. */
  function After(base: Files, m: Mutation): Files
    requires m.source in base
  {
    if m.tool == FsMove then Renaming(base, m.source, m.target) else base[m.target := base[m.source]]
  }

  /** The mutation is unknown, or prepared with the files before or after it, or applied with the files after it. */
  ghost predicate Between(w: World, base: Files, m: Mutation) {
    && Sound(w.store)
    && (match Lookup(w.store, m.tool, m.key)
        case None => w.files == base
        case Some(r) =>
          && m.source in base
          && Evolves(Draft(base, m), r)
          && (w.files == base || w.files == After(base, m))
          && (r.status == Applied ==> w.files == After(base, m)))
  }

  ghost predicate RecordedApplied(w: World, m: Mutation) {
    Lookup(w.store, m.tool, m.key).Some? && Lookup(w.store, m.tool, m.key).value.status == Applied
  }

  /** Size and hash of what was copied or moved. */
  function OutputOf(base: Files, m: Mutation): Output
    requires m.source in base
  {
    Output(|base[m.source]|, Sha256(base[m.source]))
  }

  // ---- one durable step at a time ----

  lemma RecordStep(w: World, base: Files, m: Mutation, r: Record, keep: nat)
    requires Between(w, base, m) && m.source in base && Evolves(Draft(base, m), r) && MayLog(w.store, r)
    requires r.status == Applied ==> w.files == After(base, m)
    ensures
      var w' := DoAll(w, Cut(Write(r), keep));
      && Between(w', base, m) && w'.files == w.files
      && (keep > 0 ==> Lookup(w'.store, m.tool, m.key) == Some(r))
  {
    WriteStep(w, r, keep);
  }

  lemma MarkStep(w: World, base: Files, m: Mutation, r: Record, keep: nat)
    requires Between(w, base, m) && Lookup(w.store, m.tool, m.key) == Some(r) && w.files == After(base, m)
    ensures
      var w' := DoAll(w, Cut(MarkApplied(w.store, m.tool, m.key).0, keep));
      && Between(w', base, m) && w'.files == w.files
      && (keep >= 2 ==> Lookup(w'.store, m.tool, m.key) == Some(r.(status := Applied)))
  {
    LookupIsLogged(w.store, m.tool, m.key);
    RecordStep(w, base, m, r.(status := Applied), keep);
  }

  /** The guard of the marking branch: the target's hash, and for a move the missing source. */
  lemma StatusIsRight(w: World, base: Files, m: Mutation, r: Record)
    requires Between(w, base, m) && Lookup(w.store, m.tool, m.key) == Some(r) && m.tool != FsAppend
    requires r.status == Prepared && FileHash(w.files, r.target) == Some(r.afterHash)
    requires m.tool == FsMove ==> m.source !in w.files
    ensures w.files == After(base, m)
  {
    if w.files == base {
      assert m.tool == FsCopy;
      assert base[m.target := base[m.source]] == base;
    }
  }

  /** The guards of the transfer branch: the transfer has not happened yet, or moves a file onto itself. */
  lemma TransferStep(w: World, base: Files, m: Mutation, r: Record)
    requires Between(w, base, m) && Lookup(w.store, m.tool, m.key) == Some(r) && m.tool != FsAppend
    requires r.status == Prepared && m.source in w.files
    ensures Do(w, TransferAction(w.files, r)).files == After(base, m)
    ensures Between(Do(w, TransferAction(w.files, r)), base, m)
  {
    var w' := Do(w, TransferAction(w.files, r));
    if w.files != base {
      AgainIsTheSame(base, m);
    }
    assert w'.store == w.store;
  }

  lemma AgainIsTheSame(base: Files, m: Mutation)
    requires m.source in base && m.source in After(base, m) && m.tool != FsAppend
    ensures After(After(base, m), m) == After(base, m) && After(base, m)[m.source] == base[m.source]
  {
    if m.tool == FsMove {
      assert m.source == m.target;
    }
  }

  // ---- one call ----

  lemma ApplyKeeps(w: World, base: Files, m: Mutation, r: Record, overwrite: bool, keep: nat)
    requires Between(w, base, m) && Lookup(w.store, m.tool, m.key) == Some(r) && m.tool != FsAppend
    ensures
      var (actions, result) := ApplyTransfer(w, r, overwrite);
      var w' := DoAll(w, Cut(actions, keep));
      && Between(w', base, m)
      && (keep >= |actions| && result.Ok? ==> w'.files == After(base, m) && RecordedApplied(w', m))
      && (result.Ok? ==> result.value == OutputOf(base, m))
      && (result.Err? ==> w'.files == w.files)
  {
    if r.status == Applied {
    } else if FileHash(w.files, r.target) == Some(r.afterHash) && !(m.tool == FsMove && m.source in w.files) {
      StatusIsRight(w, base, m, r);
      MarkStep(w, base, m, r, keep);
    } else if ApplyTransfer(w, r, overwrite).1.Ok? {
      TransferKeeps(w, base, m, r, keep);
    }
  }

  lemma TransferKeeps(w: World, base: Files, m: Mutation, r: Record, keep: nat)
    requires Between(w, base, m) && Lookup(w.store, m.tool, m.key) == Some(r) && m.tool != FsAppend
    requires r.status == Prepared && m.source in w.files
    ensures
      var actions := [TransferAction(w.files, r)] + MarkApplied(w.store, m.tool, m.key).0;
      var w' := DoAll(w, Cut(actions, keep));
      && Between(w', base, m) && (keep > 0 ==> w'.files == After(base, m))
      && (keep >= |actions| ==> RecordedApplied(w', m))
  {
    var a := TransferAction(w.files, r);
    var marking := MarkApplied(w.store, m.tool, m.key).0;
    if keep == 0 {
      assert Cut([a] + marking, 0) == [];
    } else {
      CutAfterFirst(w, a, marking, keep);
      TransferredKeeps(w, base, m, r, keep - 1);
    }
  }

  lemma TransferredKeeps(w: World, base: Files, m: Mutation, r: Record, keep: nat)
    requires Between(w, base, m) && Lookup(w.store, m.tool, m.key) == Some(r) && m.tool != FsAppend
    requires r.status == Prepared && m.source in w.files
    ensures
      var marking := MarkApplied(w.store, m.tool, m.key).0;
      var w' := DoAll(Do(w, TransferAction(w.files, r)), Cut(marking, keep));
      Between(w', base, m) && w'.files == After(base, m) && (keep >= |marking| ==> RecordedApplied(w', m))
  {
    TransferStep(w, base, m, r);
    MarkStep(Do(w, TransferAction(w.files, r)), base, m, r, keep);
  }

  lemma NewKeyKeeps(w: World, base: Files, m: Mutation, overwrite: bool, keep: nat)
    requires Between(w, base, m) && Lookup(w.store, m.tool, m.key).None? && m.tool != FsAppend
    ensures
      var (actions, outcome) := Transfer(w, m.tool, m.key, m.source, m.target, overwrite);
      var w' := DoAll(w, Cut(actions, keep));
      && Between(w', base, m)
      && (keep >= |actions| && outcome.Done? ==> m.source in base && w'.files == After(base, m) && RecordedApplied(w', m))
      && (outcome.Done? ==> m.source in base && outcome == Done(OutputOf(base, m), false))
      && (outcome.Failed? ==> w'.files == w.files)
  {
    if m.source in base && (overwrite || m.target !in base) {
      PreparedKeeps(w, base, m, overwrite, keep);
      NewKeyIsPrepared(w, base, m, overwrite);
    }
  }

  lemma NewKeyIsPrepared(w: World, base: Files, m: Mutation, overwrite: bool)
    requires Between(w, base, m) && Lookup(w.store, m.tool, m.key).None? && m.tool != FsAppend
    requires m.source in base && (overwrite || m.target !in base)
    ensures
      var r := Draft(base, m);
      var (applying, result) := ApplyTransfer(DoAll(w, Write(r)), r, overwrite);
      Transfer(w, m.tool, m.key, m.source, m.target, overwrite) == (Write(r) + applying, OutcomeOf(result, false))
  {
  }

  /** The new record's two writes, then the transfer. */
  lemma PreparedKeeps(w: World, base: Files, m: Mutation, overwrite: bool, keep: nat)
    requires Between(w, base, m) && Lookup(w.store, m.tool, m.key).None? && m.tool != FsAppend && m.source in base
    ensures
      var r := Draft(base, m);
      var (applying, result) := ApplyTransfer(DoAll(w, Write(r)), r, overwrite);
      var w' := DoAll(w, Cut(Write(r) + applying, keep));
      && Between(w', base, m)
      && (keep >= |Write(r) + applying| && result.Ok? ==> w'.files == After(base, m) && RecordedApplied(w', m))
      && (result.Ok? ==> result.value == OutputOf(base, m))
      && (result.Err? ==> w'.files == w.files)
  {
    var r := Draft(base, m);
    var w1 := DoAll(w, Write(r));
    var applying := ApplyTransfer(w1, r, overwrite).0;
    NewKeyPrepares(w, base, m, keep);
    CutConcat(Write(r), applying, keep);
    if keep > 2 {
      ApplyKeeps(w1, base, m, r, overwrite, keep - 2);
      DoConcat(w, Write(r), Cut(applying, keep - 2));
    } else {
      ApplyKeeps(w1, base, m, r, overwrite, 0);
      ApplyAlwaysActs(w1, r, overwrite);
    }
  }

  lemma NewKeyPrepares(w: World, base: Files, m: Mutation, keep: nat)
    requires Between(w, base, m) && Lookup(w.store, m.tool, m.key).None? && m.source in base
    ensures
      var r := Draft(base, m);
      var w1 := DoAll(w, Write(r));
      && Between(DoAll(w, Cut(Write(r), keep)), base, m) && DoAll(w, Cut(Write(r), keep)).files == w.files
      && Between(w1, base, m) && w1.files == w.files && Lookup(w1.store, m.tool, m.key) == Some(r)
  {
    var r := Draft(base, m);
    LookupIsLogged(w.store, m.tool, m.key);
    RecordStep(w, base, m, r, keep);
    RecordStep(w, base, m, r, 2);
    assert Cut(Write(r), 2) == Write(r);
  }

  /** A prepared transfer that succeeds performs at least the marking. */
  lemma ApplyAlwaysActs(w: World, r: Record, overwrite: bool)
    requires Lookup(w.store, r.tool, r.key) == Some(r) && r.status == Prepared
    ensures ApplyTransfer(w, r, overwrite).1.Ok? ==> |ApplyTransfer(w, r, overwrite).0| > 0
  {
  }

  lemma CallKeeps(w: World, base: Files, m: Mutation, call: Call)
    requires Between(w, base, m) && m.tool != FsAppend
    ensures Between(DoAll(w, Actions(w, m, call)), base, m)
  {
    match Lookup(w.store, m.tool, m.key)
    case None =>
      if call.TransferCall? { NewKeyKeeps(w, base, m, call.overwrite, call.keep); }
    case Some(r) =>
      if call.TransferCall? {
        ApplyKeeps(w, base, m, r, call.overwrite, call.keep);
      } else if MutationStatus(w, r, m.tool == FsMove).0 != [] {
        StatusIsRight(w, base, m, r);
        MarkStep(w, base, m, r, call.keep);
      }
  }

  // ---- every run ----

  /** Over every schedule of crashes, replays and status queries, the files are those before the
      transfer or those after it. */
  lemma {:induction false} TransfersAreAtomic(w: World, base: Files, m: Mutation, calls: seq<Call>)
    requires Between(w, base, m) && m.tool != FsAppend
    ensures Between(Run(w, m, calls), base, m)
    decreases |calls|
  {
    if calls != [] {
      CallKeeps(w, base, m, calls[0]);
      TransfersAreAtomic(DoAll(w, Actions(w, m, calls[0])), base, m, calls[1..]);
    }
  }

  /** A call that returns without an error leaves the files of one run without crashes, whatever came
      before it, with its record applied and the source's size and hash as its output; a call that fails
      changes no file. */
  lemma ReplayEndsLikeOneRun(w: World, m: Mutation, calls: seq<Call>, overwrite: bool)
    requires Sound(w.store) && Lookup(w.store, m.tool, m.key).None? && m.tool != FsAppend
    ensures
      var w' := Run(w, m, calls);
      var (actions, outcome) := Transfer(w', m.tool, m.key, m.source, m.target, overwrite);
      match outcome
      case Done(output, _) =>
        && m.source in w.files && DoAll(w', actions).files == After(w.files, m)
        && RecordedApplied(DoAll(w', actions), m) && output == OutputOf(w.files, m)
      case Failed(_) => DoAll(w', actions).files == w'.files
  {
    TransfersAreAtomic(w, w.files, m, calls);
    var w' := Run(w, m, calls);
    var actions := Transfer(w', m.tool, m.key, m.source, m.target, overwrite).0;
    assert Cut(actions, |actions|) == actions;
    match Lookup(w'.store, m.tool, m.key)
    case None => NewKeyKeeps(w', w.files, m, overwrite, |actions|);
    case Some(r) => ApplyKeeps(w', w.files, m, r, overwrite, |actions|);
  }

  // ---- when a call succeeds ----

  predicate Permitted(base: Files, m: Mutation, overwrite: bool) {
    m.source in base && (overwrite || m.target !in base)
  }

  ghost predicate OnlyIfPermitted(w: World, base: Files, m: Mutation, overwrite: bool) {
    Lookup(w.store, m.tool, m.key).Some? ==> Permitted(base, m, overwrite)
  }

  lemma CallKeepsPermission(w: World, base: Files, m: Mutation, call: Call, overwrite: bool)
    requires Between(w, base, m) && m.tool != FsAppend && OnlyIfPermitted(w, base, m, overwrite)
    requires call.TransferCall? ==> call.overwrite == overwrite
    ensures OnlyIfPermitted(DoAll(w, Actions(w, m, call)), base, m, overwrite)
  {
    if Lookup(w.store, m.tool, m.key).None? && !Permitted(base, m, overwrite) {
      assert Actions(w, m, call) == [];
    }
  }

  lemma SucceedsExactlyWhen(w: World, base: Files, m: Mutation, overwrite: bool)
    requires Between(w, base, m) && m.tool != FsAppend && OnlyIfPermitted(w, base, m, overwrite)
    ensures Transfer(w, m.tool, m.key, m.source, m.target, overwrite).1.Done? <==> Permitted(base, m, overwrite)
  {
    match Lookup(w.store, m.tool, m.key)
    case Some(r) => AppliesAfterAll(w, base, m, r, overwrite);
    case None =>
      if Permitted(base, m, overwrite) {
        NewKeyPrepares(w, base, m, 0);
        AppliesAfterAll(DoAll(w, Write(Draft(base, m))), base, m, Draft(base, m), overwrite);
      }
  }

  lemma AppliesAfterAll(w: World, base: Files, m: Mutation, r: Record, overwrite: bool)
    requires Between(w, base, m) && Lookup(w.store, m.tool, m.key) == Some(r) && m.tool != FsAppend
    requires Permitted(base, m, overwrite)
    ensures ApplyTransfer(w, r, overwrite).1.Ok?
  {
    if w.files != base && m.tool == FsMove {
      assert m.source != m.target;
    }
  }

  lemma {:induction false} RunKeepsPermission(w: World, base: Files, m: Mutation, calls: seq<Call>, overwrite: bool)
    requires Between(w, base, m) && m.tool != FsAppend && OnlyIfPermitted(w, base, m, overwrite)
    requires forall i :: 0 <= i < |calls| && calls[i].TransferCall? ==> calls[i].overwrite == overwrite
    ensures OnlyIfPermitted(Run(w, m, calls), base, m, overwrite)
    decreases |calls|
  {
    if calls != [] {
      CallKeeps(w, base, m, calls[0]);
      CallKeepsPermission(w, base, m, calls[0], overwrite);
      RunKeepsPermission(DoAll(w, Actions(w, m, calls[0])), base, m, calls[1..], overwrite);
    }
  }

  /** No crash leaves a transfer stuck: after any schedule of calls with one overwrite flag, another call
      succeeds if and only if the very first one could: the source was there, and the target was not or
      may be overwritten. */
  lemma ReplaySucceedsExactlyWhen(w: World, m: Mutation, calls: seq<Call>, overwrite: bool)
    requires Sound(w.store) && Lookup(w.store, m.tool, m.key).None? && m.tool != FsAppend
    requires forall i :: 0 <= i < |calls| && calls[i].TransferCall? ==> calls[i].overwrite == overwrite
    ensures Transfer(Run(w, m, calls), m.tool, m.key, m.source, m.target, overwrite).1.Done?
            <==> Permitted(w.files, m, overwrite)
  {
    TransfersAreAtomic(w, w.files, m, calls);
    RunKeepsPermission(w, w.files, m, calls, overwrite);
    SucceedsExactlyWhen(Run(w, m, calls), w.files, m, overwrite);
  }

  /** A move onto another path never loses or doubles the data: at every moment of every schedule the
      source still holds it and the target is as it was, or the source is gone and the target holds it. */
  lemma MoveConservesData(w: World, m: Mutation, calls: seq<Call>)
    requires Sound(w.store) && Lookup(w.store, m.tool, m.key).None? && m.tool == FsMove
    requires m.source in w.files && m.source != m.target
    ensures
      var files := Run(w, m, calls).files;
      && (files == w.files
          || (m.source !in files && m.target in files && files[m.target] == w.files[m.source]))
      && forall p :: p != m.source && p != m.target ==> FileHash(files, p) == FileHash(w.files, p)
  {
    TransfersAreAtomic(w, w.files, m, calls);
  }

  /** A copy keeps its source, and its target is as it was or holds the source's bytes. */
  lemma CopyKeepsSource(w: World, m: Mutation, calls: seq<Call>)
    requires Sound(w.store) && Lookup(w.store, m.tool, m.key).None? && m.tool == FsCopy && m.source in w.files
    ensures
      var files := Run(w, m, calls).files;
      && m.source in files && files[m.source] == w.files[m.source]
      && (files == w.files || files == w.files[m.target := w.files[m.source]])
  {
    TransfersAreAtomic(w, w.files, m, calls);
  }

  /** After a successful move the source is gone exactly when it was not moved onto itself. */
  lemma SourceIsGoneUnlessSelfMove(w: World, m: Mutation, calls: seq<Call>, overwrite: bool)
    requires Sound(w.store) && Lookup(w.store, m.tool, m.key).None? && m.tool == FsMove
    requires Transfer(Run(w, m, calls), m.tool, m.key, m.source, m.target, overwrite).1.Done?
    ensures
      var w' := Run(w, m, calls);
      var files := DoAll(w', Transfer(w', m.tool, m.key, m.source, m.target, overwrite).0).files;
      m.source !in files <==> m.source != m.target
  {
    ReplayEndsLikeOneRun(w, m, calls, overwrite);
  }
}
