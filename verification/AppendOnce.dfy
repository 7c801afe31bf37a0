/** One append under one key, among operations that leave its key and its target alone: its content lands exactly
    once, however often it is cut off, replayed and queried. */
module AppendOnce {
  import opened Common
  import opened Disk
  import opened IdempotencyStore
  import opened FsToolService
  import opened Apart
  import AppendEffects

  /** The append, and the bytes of its target before it. */
  datatype TheAppend = TheAppend(key: Key, path: Path, content: Bytes, initial: Bytes) {
    function Draft(): Record {
      Record(FsAppend, key, Prepared, None, path, Sha256(content), Some(Sha256(initial)), Sha256(initial + content),
             Output(|initial + content|, Sha256(initial + content)))
    }

    function Where(): Place {
      Place(FsAppend, key, {path})
    }

    predicate IsBefore(files: Files) {
      ReadFileOrEmpty(files, path) == initial
    }

    predicate IsAfter(files: Files) {
      path in files && files[path] == initial + content
    }
  }

  /** The append is unknown and has not happened, or prepared with the target before or after it, or applied with
      the target after it. */
  ghost predicate Between(w: World, a: TheAppend) {
    && Sound(w.store)
    && match Lookup(w.store, FsAppend, a.key)
       case None => a.IsBefore(w.files)
       case Some(r) =>
         && Evolves(a.Draft(), r) && (a.IsBefore(w.files) || a.IsAfter(w.files))
         && (r.status == Applied ==> a.IsAfter(w.files))
  }

  /** The record says that the append was applied. */
  ghost predicate Settled(w: World, a: TheAppend) {
    Lookup(w.store, FsAppend, a.key).Some? && Lookup(w.store, FsAppend, a.key).value.status == Applied
  }

  lemma BetweenMeans(w: World, a: TheAppend)
    requires Between(w, a)
    ensures
      var file := ReadFileOrEmpty(w.files, a.path);
      (file == a.initial || file == a.initial + a.content) && (Settled(w, a) ==> file == a.initial + a.content)
  {
  }

  // ---- its own steps ----

  lemma RecordStep(w: World, a: TheAppend, r: Record, keep: nat)
    requires Between(w, a) && MayLog(w.store, r) && Evolves(a.Draft(), r)
    requires r.status == Applied ==> a.IsAfter(w.files)
    ensures
      var w' := DoAll(w, Cut(Write(r), keep));
      && Between(w', a) && w'.files == w.files
      && (keep > 0 ==> Lookup(w'.store, FsAppend, a.key) == Some(r))
      && (keep == 0 ==> w' == w)
  {
    WriteStep(w, r, keep);
    if keep == 0 { assert Cut(Write(r), 0) == []; }
  }

  lemma MarkStep(w: World, a: TheAppend, keep: nat)
    requires Between(w, a) && Lookup(w.store, FsAppend, a.key).Some? && a.IsAfter(w.files)
    ensures
      var w' := DoAll(w, Cut(MarkApplied(w.store, FsAppend, a.key).0, keep));
      && Between(w', a) && w'.files == w.files && (Settled(w, a) || keep > 0 ==> Settled(w', a))
  {
    var r := Lookup(w.store, FsAppend, a.key).value;
    LookupIsLogged(w.store, FsAppend, a.key);
    RecordStep(w, a, r.(status := Applied), keep);
  }

  /** The guards of the code: the target holds the before-image and not the after-image. */
  lemma AppendStep(w: World, a: TheAppend)
    requires Between(w, a) && Lookup(w.store, FsAppend, a.key).Some? && a.IsBefore(w.files)
    ensures
      var w' := Do(w, WriteFile(a.path, a.initial + a.content));
      Between(w', a) && a.IsAfter(w'.files) && w'.store == w.store
  {
  }

  /** The apply phase of the append, cut anywhere. */
  lemma ApplyKeeps(w: World, a: TheAppend, keep: nat)
    requires Between(w, a) && Lookup(w.store, FsAppend, a.key).Some?
    ensures
      var (actions, result) := ApplyAppend(w, Lookup(w.store, FsAppend, a.key).value, a.content);
      var w' := DoAll(w, Cut(actions, keep));
      && Between(w', a) && (Settled(w, a) || keep >= |actions| ==> Settled(w', a)) && result.Ok?
  {
    var r := Lookup(w.store, FsAppend, a.key).value;
    if r.status == Applied {
    } else if FileHash(w.files, a.path) == Some(r.afterHash) {
      MarkStep(w, a, keep);
    } else {
      WriteKeeps(w, a, keep);
    }
  }

  lemma WriteKeeps(w: World, a: TheAppend, keep: nat)
    requires Between(w, a) && Lookup(w.store, FsAppend, a.key).Some? && a.IsBefore(w.files) && !Settled(w, a)
    ensures
      var actions := [WriteFile(a.path, a.initial + a.content)] + MarkApplied(w.store, FsAppend, a.key).0;
      var w' := DoAll(w, Cut(actions, keep));
      Between(w', a) && (keep >= |actions| ==> Settled(w', a))
  {
    var writing := WriteFile(a.path, a.initial + a.content);
    var marking := MarkApplied(w.store, FsAppend, a.key).0;
    if keep == 0 {
      assert Cut([writing] + marking, 0) == [];
    } else {
      CutAfterFirst(w, writing, marking, keep);
      AppendStep(w, a);
      MarkStep(Do(w, writing), a, keep - 1);
    }
  }

  lemma PrepareKeeps(w: World, a: TheAppend, keep: nat)
    requires Between(w, a) && Lookup(w.store, FsAppend, a.key).None?
    ensures AppendDraft(w.files, a.key, a.path, a.content) == a.Draft()
    ensures
      var w' := DoAll(w, Cut(Write(a.Draft()), keep));
      Between(w', a) && w'.files == w.files && (keep > 0 ==> Lookup(w'.store, FsAppend, a.key) == Some(a.Draft()))
  {
    LookupIsLogged(w.store, FsAppend, a.key);
    RecordStep(w, a, a.Draft(), keep);
  }

  /** One call, cut anywhere, keeps the invariant; uncut it succeeds and settles the append. */
  lemma CallKeeps(w: World, a: TheAppend, keep: nat)
    requires Between(w, a)
    ensures
      var (actions, outcome) := Append(w, a.key, a.path, a.content);
      var w' := DoAll(w, Cut(actions, keep));
      && Between(w', a) && (Settled(w, a) || keep >= |actions| ==> Settled(w', a)) && outcome.Done?
  {
    if Lookup(w.store, FsAppend, a.key).Some? {
      ApplyKeeps(w, a, keep);
    } else {
      NewKeyKeeps(w, a, keep);
    }
  }

  lemma NewKeyKeeps(w: World, a: TheAppend, keep: nat)
    requires Between(w, a) && Lookup(w.store, FsAppend, a.key).None?
    ensures
      var (actions, outcome) := Append(w, a.key, a.path, a.content);
      var w' := DoAll(w, Cut(actions, keep));
      Between(w', a) && (keep >= |actions| ==> Settled(w', a)) && outcome.Done?
  {
    var r := a.Draft();
    var w1 := DoAll(w, Write(r));
    var applying := ApplyAppend(w1, r, a.content).0;
    PrepareKeeps(w, a, keep);
    PrepareKeeps(w, a, 2);
    assert Cut(Write(r), 2) == Write(r);
    CutConcat(Write(r), applying, keep);
    if keep > 2 {
      ApplyKeeps(w1, a, keep - 2);
      DoConcat(w, Write(r), Cut(applying, keep - 2));
    } else {
      ApplyKeeps(w1, a, 0);
      assert |applying| > 0;
    }
  }

  lemma QueryKeeps(w: World, a: TheAppend, keep: nat)
    requires Between(w, a)
    ensures
      var (actions, applied) := StatusQuery(w, FsAppend, a.key);
      var w' := DoAll(w, Cut(actions, keep));
      && Between(w', a) && (Settled(w, a) || (applied.Some? && keep >= |actions|) ==> Settled(w', a))
      && (applied.Some? ==> a.IsAfter(w.files))
  {
    if StatusQuery(w, FsAppend, a.key).0 != [] {
      MarkStep(w, a, keep);
    }
  }

  // ---- what others may do ----

  lemma UndisturbedKeeps(w: World, w': World, a: TheAppend)
    requires Between(w, a) && Undisturbed(w, w', a.Where())
    ensures Between(w', a) && (Settled(w, a) ==> Settled(w', a))
  {
    assert SameAt(w.files, w'.files, a.path);
  }

  // ---- over every run of appends ----

  /** The call is this append, or has another key and another target. */
  predicate LeavesAlone(call: AppendEffects.Call, a: TheAppend) {
    call.AppendCall? ==>
      (call.key == a.key && call.target == a.path && call.content == a.content) || (call.key != a.key && call.target != a.path)
  }

  lemma {:induction false} RunKeeps(w: World, a: TheAppend, calls: seq<AppendEffects.Call>)
    requires Between(w, a) && forall i :: 0 <= i < |calls| ==> LeavesAlone(calls[i], a)
    ensures Between(AppendEffects.Run(w, calls), a)
    decreases |calls|
  {
    if calls != [] {
      RoundKeeps(w, a, calls[0]);
      RunKeeps(DoAll(w, AppendEffects.Actions(w, calls[0])), a, calls[1..]);
    }
  }

  lemma RoundKeeps(w: World, a: TheAppend, call: AppendEffects.Call)
    requires Between(w, a) && LeavesAlone(call, a)
    ensures Between(DoAll(w, AppendEffects.Actions(w, call)), a)
  {
    match call
    case AppendCall(key, target, content, keep) =>
      if key == a.key {
        CallKeeps(w, a, keep);
      } else {
        OtherAppendStep(w, a.Where(), key, target, content, keep);
        UndisturbedKeeps(w, DoAll(w, AppendEffects.Actions(w, call)), a);
      }
    case QueryCall(key, keep) =>
      if key == a.key {
        QueryKeeps(w, a, keep);
      } else {
        OtherQueryStep(w, a.Where(), FsAppend, key, keep);
        UndisturbedKeeps(w, DoAll(w, AppendEffects.Actions(w, call)), a);
      }
  }

  /** Exactly once: with one key on one target, whatever else happens on other targets and wherever
      calls crash and are replayed, the target is the initial bytes, or those followed by the content;
      it is the second as soon as a query has answered "applied"; and one more call always returns
      without an error and leaves the second. */
  lemma AppendLandsExactlyOnce(w: World, a: TheAppend, calls: seq<AppendEffects.Call>)
    requires Sound(w.store) && Lookup(w.store, FsAppend, a.key).None? && a.IsBefore(w.files)
    requires forall i :: 0 <= i < |calls| ==> LeavesAlone(calls[i], a)
    ensures
      var w' := AppendEffects.Run(w, calls);
      var file := ReadFileOrEmpty(w'.files, a.path);
      && (file == a.initial || file == a.initial + a.content)
      && (StatusQuery(w', FsAppend, a.key).1.Some? ==> file == a.initial + a.content)
      && Append(w', a.key, a.path, a.content).1.Done?
      && ReadFileOrEmpty(DoAll(w', Append(w', a.key, a.path, a.content).0).files, a.path) == a.initial + a.content
  {
    RunKeeps(w, a, calls);
    OneMoreCallLands(AppendEffects.Run(w, calls), a);
  }

  lemma OneMoreCallLands(w: World, a: TheAppend)
    requires Between(w, a)
    ensures
      var file := ReadFileOrEmpty(w.files, a.path);
      && (file == a.initial || file == a.initial + a.content)
      && (StatusQuery(w, FsAppend, a.key).1.Some? ==> file == a.initial + a.content)
      && Append(w, a.key, a.path, a.content).1.Done?
      && ReadFileOrEmpty(DoAll(w, Append(w, a.key, a.path, a.content).0).files, a.path) == a.initial + a.content
  {
    var actions := Append(w, a.key, a.path, a.content).0;
    BetweenMeans(w, a);
    QueryKeeps(w, a, 0);
    CallKeeps(w, a, |actions|);
    assert Cut(actions, |actions|) == actions;
    BetweenMeans(DoAll(w, actions), a);
  }
}
