/** One copy or move under one key, among operations that leave its key and its two paths alone: at these paths it happens
    exactly once or not at all, however often it is cut off, replayed and queried. */
module TransferOnce {
  import opened Common
  import opened Disk
  import opened IdempotencyStore
  import opened FsToolService
  import opened Apart
  import T = TransferEffects

  /** The transfer, its overwrite flag, and the files before it. */
  datatype TheTransfer = TheTransfer(m: T.Mutation, overwrite: bool, initial: Files) {
    function Where(): Place {
      Place(m.tool, m.key, {m.source, m.target})
    }

    predicate IsBefore(files: Files) {
      SameFiles(initial, files, {m.source, m.target})
    }

    /** The two paths are as after one copy or move that nothing interrupts. */
    predicate IsAfter(files: Files) {
      m.source in initial && SameFiles(T.After(initial, m), files, {m.source, m.target})
    }

    /** The source was there, and the target was not or may be overwritten. */
    predicate IsPermitted() {
      T.Permitted(initial, m, overwrite)
    }
  }

  // ---- the two paths by themselves ----

  function Near(files: Files, m: T.Mutation): Files {
    map p | p in files && (p == m.source || p == m.target) :: files[p]
  }

  function Local(w: World, m: T.Mutation): World {
    w.(files := Near(w.files, m))
  }

  predicate Inside(a: Action, m: T.Mutation) {
    match a
    case WriteFile(path, _) => path == m.source || path == m.target
    case Rename(from, to) => (from == m.source || from == m.target) && (to == m.source || to == m.target)
    case _ => true
  }

  predicate AllInside(actions: seq<Action>, m: T.Mutation) {
    forall k :: 0 <= k < |actions| ==> Inside(actions[k], m)
  }

  lemma LocalStep(w: World, m: T.Mutation, a: Action)
    requires Inside(a, m)
    ensures Local(Do(w, a), m) == Do(Local(w, m), a)
  {
    assert Near(Do(w, a).files, m) == Do(Local(w, m), a).files;
  }

  lemma {:induction false} LocalSteps(w: World, m: T.Mutation, actions: seq<Action>)
    requires AllInside(actions, m)
    ensures Local(DoAll(w, actions), m) == DoAll(Local(w, m), actions)
    decreases |actions|
  {
    if actions != [] {
      LocalStep(w, m, actions[0]);
      LocalSteps(Do(w, actions[0]), m, actions[1..]);
    }
  }

  lemma CutInside(actions: seq<Action>, m: T.Mutation, keep: nat)
    requires AllInside(actions, m)
    ensures AllInside(Cut(actions, keep), m)
  {
  }

  lemma NearAfter(files: Files, m: T.Mutation)
    requires m.source in files
    ensures m.source in Near(files, m) && Near(T.After(files, m), m) == T.After(Near(files, m), m)
  {
  }

  lemma NearIsSame(a: Files, b: Files, m: T.Mutation)
    ensures Near(a, m) == Near(b, m) <==> SameFiles(a, b, {m.source, m.target})
  {
    if Near(a, m) == Near(b, m) {
      forall p | p in {m.source, m.target} ensures SameAt(a, b, p) {
        assert p in a <==> p in Near(a, m);
        assert p in b <==> p in Near(b, m);
      }
    }
    if SameFiles(a, b, {m.source, m.target}) { SameIsNear(a, b, m); }
  }

  lemma SameIsNear(a: Files, b: Files, m: T.Mutation)
    requires SameFiles(a, b, {m.source, m.target})
    ensures Near(a, m) == Near(b, m)
  {
    assert SameAt(a, b, m.source) && SameAt(a, b, m.target);
  }

  // ---- between the two states ----

  /** At its two paths the transfer is where one that has the disk to itself could be. */
  ghost predicate Between(w: World, x: TheTransfer) {
    && x.m.tool != FsAppend
    && T.Between(Local(w, x.m), Near(x.initial, x.m), x.m)
    && T.OnlyIfPermitted(Local(w, x.m), Near(x.initial, x.m), x.m, x.overwrite)
  }

  ghost predicate Settled(w: World, x: TheTransfer) {
    T.RecordedApplied(w, x.m)
  }

  lemma BetweenMeans(w: World, x: TheTransfer)
    requires Between(w, x)
    ensures x.IsBefore(w.files) || x.IsAfter(w.files)
    ensures Settled(w, x) ==> x.IsAfter(w.files)
  {
    NearIsSame(x.initial, w.files, x.m);
    if x.m.source in x.initial {
      NearAfter(x.initial, x.m);
      NearIsSame(T.After(x.initial, x.m), w.files, x.m);
    }
  }

  lemma NewIsBetween(w: World, x: TheTransfer)
    requires Sound(w.store) && Lookup(w.store, x.m.tool, x.m.key).None? && x.m.tool != FsAppend && x.IsBefore(w.files)
    ensures Between(w, x)
  {
    NearIsSame(x.initial, w.files, x.m);
  }

  lemma UndisturbedKeeps(w: World, w': World, x: TheTransfer)
    requires Between(w, x) && Undisturbed(w, w', x.Where())
    ensures Between(w', x) && (Settled(w, x) ==> Settled(w', x))
  {
    NearIsSame(w.files, w'.files, x.m);
  }

  // ---- its own calls ----

  ghost function Transferring(w: World, x: TheTransfer): (seq<Action>, Outcome) {
    Transfer(w, x.m.tool, x.m.key, x.m.source, x.m.target, x.overwrite)
  }

  lemma LocalApply(w: World, m: T.Mutation, r: Record, overwrite: bool)
    requires r.target == m.target && r.source == Some(m.source)
    ensures ApplyTransfer(w, r, overwrite) == ApplyTransfer(Local(w, m), r, overwrite)
    ensures AllInside(ApplyTransfer(w, r, overwrite).0, m)
  {
  }

  /** What the transfer does depends on its two paths, and changes no others. */
  lemma LocalTransfer(w: World, x: TheTransfer)
    requires Between(w, x)
    ensures Transferring(w, x) == Transferring(Local(w, x.m), x) && AllInside(Transferring(w, x).0, x.m)
  {
    match Lookup(w.store, x.m.tool, x.m.key)
    case Some(r) => LocalApply(w, x.m, r, x.overwrite);
    case None =>
      if x.m.source in w.files {
        LocalPrepare(w, x, TransferDraft(x.m.tool, x.m.key, x.m.source, x.m.target, w.files[x.m.source]));
      }
  }

  lemma LocalPrepare(w: World, x: TheTransfer, draft: Record)
    requires draft.target == x.m.target && draft.source == Some(x.m.source)
    requires Lookup(w.store, draft.tool, draft.key).None?
    ensures PrepareTransfer(w, draft, x.overwrite) == PrepareTransfer(Local(w, x.m), draft, x.overwrite)
    ensures AllInside(PrepareTransfer(w, draft, x.overwrite).0, x.m)
  {
    var (preparing, record) := Prepare(w.store, draft);
    LocalSteps(w, x.m, preparing);
    LocalApply(DoAll(w, preparing), x.m, record, x.overwrite);
  }

  /** One call, cut anywhere, keeps the invariant; uncut and without an error it settles the transfer. */
  lemma CallKeeps(w: World, x: TheTransfer, keep: nat)
    requires Between(w, x)
    ensures
      var (actions, outcome) := Transferring(w, x);
      var w' := DoAll(w, Cut(actions, keep));
      Between(w', x) && (Settled(w, x) || (outcome.Done? && keep >= |actions|) ==> Settled(w', x))
  {
    var actions := Transferring(w, x).0;
    LocalTransfer(w, x);
    CutInside(actions, x.m, keep);
    LocalSteps(w, x.m, Cut(actions, keep));
    LocalCallKeeps(Local(w, x.m), Near(x.initial, x.m), x, keep);
  }

  /** The same on the two paths. */
  lemma LocalCallKeeps(w: World, base: Files, x: TheTransfer, keep: nat)
    requires x.m.tool != FsAppend && T.Between(w, base, x.m) && T.OnlyIfPermitted(w, base, x.m, x.overwrite)
    ensures
      var (actions, outcome) := Transferring(w, x);
      var w' := DoAll(w, Cut(actions, keep));
      && T.Between(w', base, x.m) && T.OnlyIfPermitted(w', base, x.m, x.overwrite)
      && (Settled(w, x) || (outcome.Done? && keep >= |actions|) ==> Settled(w', x))
  {
    T.CallKeeps(w, base, x.m, T.TransferCall(x.overwrite, keep));
    T.CallKeepsPermission(w, base, x.m, T.TransferCall(x.overwrite, keep), x.overwrite);
    match Lookup(w.store, x.m.tool, x.m.key)
    case None => T.NewKeyKeeps(w, base, x.m, x.overwrite, keep);
    case Some(r) => T.ApplyKeeps(w, base, x.m, r, x.overwrite, keep);
  }

  lemma LocalQuery(w: World, x: TheTransfer)
    requires Between(w, x)
    ensures
      var (actions, applied) := StatusQuery(w, x.m.tool, x.m.key);
      StatusQuery(Local(w, x.m), x.m.tool, x.m.key) == (actions, applied) && AllInside(actions, x.m)
  {
    match Lookup(w.store, x.m.tool, x.m.key)
    case Some(r) => LocalStatus(w, x.m, r, x.m.tool == FsMove);
    case None =>
  }

  lemma LocalStatus(w: World, m: T.Mutation, r: Record, requireSourceRemoved: bool)
    requires r.target == m.target && r.source == Some(m.source)
    ensures MutationStatus(w, r, requireSourceRemoved) == MutationStatus(Local(w, m), r, requireSourceRemoved)
    ensures AllInside(MutationStatus(w, r, requireSourceRemoved).0, m)
  {
  }

  lemma QueryKeeps(w: World, x: TheTransfer, keep: nat)
    requires Between(w, x)
    ensures
      var (actions, applied) := StatusQuery(w, x.m.tool, x.m.key);
      var w' := DoAll(w, Cut(actions, keep));
      Between(w', x) && (Settled(w, x) || (applied.Some? && keep >= |actions|) ==> Settled(w', x))
  {
    var actions := StatusQuery(w, x.m.tool, x.m.key).0;
    LocalQuery(w, x);
    CutInside(actions, x.m, keep);
    LocalSteps(w, x.m, Cut(actions, keep));
    LocalQueryKeeps(Local(w, x.m), Near(x.initial, x.m), x, keep);
  }

  lemma LocalQueryKeeps(w: World, base: Files, x: TheTransfer, keep: nat)
    requires x.m.tool != FsAppend && T.Between(w, base, x.m) && T.OnlyIfPermitted(w, base, x.m, x.overwrite)
    ensures
      var (actions, applied) := StatusQuery(w, x.m.tool, x.m.key);
      var w' := DoAll(w, Cut(actions, keep));
      && T.Between(w', base, x.m) && T.OnlyIfPermitted(w', base, x.m, x.overwrite)
      && (Settled(w, x) || (applied.Some? && keep >= |actions|) ==> Settled(w', x))
  {
    T.CallKeeps(w, base, x.m, T.QueryCall(keep));
    T.CallKeepsPermission(w, base, x.m, T.QueryCall(keep), x.overwrite);
    var known := Lookup(w.store, x.m.tool, x.m.key);
    if known.Some? && StatusQuery(w, x.m.tool, x.m.key).0 != [] {
      T.StatusIsRight(w, base, x.m, known.value);
      T.MarkStep(w, base, x.m, known.value, keep);
    }
  }

  lemma SettledMeans(w: World, x: TheTransfer)
    requires Between(w, x) && Settled(w, x)
    ensures x.IsPermitted() && x.IsAfter(w.files)
  {
    BetweenMeans(w, x);
  }

  /** From any state in between, one more call succeeds if and only if the very first one could. */
  lemma SucceedsExactlyWhen(w: World, x: TheTransfer)
    requires Between(w, x)
    ensures Transferring(w, x).1.Done? <==> x.IsPermitted()
  {
    LocalTransfer(w, x);
    T.SucceedsExactlyWhen(Local(w, x.m), Near(x.initial, x.m), x.m, x.overwrite);
  }
}
