/** Lookups in the mutation logs and their cache, and why the cache, the order of a directory scan
    and a crash between the two writes never matter. */
module IdempotencyStore {
  import opened Common
  import opened Disk

  predicate Matches(r: Record, tool: FileTool, key: Key) {
    r.tool == tool && r.key == key
  }

  function Latest(log: seq<Record>, tool: FileTool, key: Key): (r: Option<Record>)
    ensures r.Some? ==> r.value in log && Matches(r.value, tool, key)
  {
    if log == [] then None
    else
      var n := |log| - 1;
      if Matches(log[n], tool, key) then Some(log[n]) else Latest(log[..n], tool, key)
  }

  predicate HasKey(s: Store, target: Path, key: Key) {
    Latest(AppendLogAt(s, target), FsAppend, key).Some?
  }

  ghost function Logged(s: Store, tool: FileTool, key: Key): Option<Record> {
    match tool
    case FsCopy => Latest(s.copyLog, FsCopy, key)
    case FsMove => Latest(s.moveLog, FsMove, key)
    case FsAppend =>
      if exists t :: HasKey(s, t, key) then
        var t :| HasKey(s, t, key);
        Latest(AppendLogAt(s, t), FsAppend, key)
      else None
  }

  /** The logs first, then the cache. */
  ghost function Lookup(s: Store, tool: FileTool, key: Key): Option<Record> {
    var logged := Logged(s, tool, key);
    if logged.Some? then logged
    else if (tool, key) in s.cache then Some(s.cache[(tool, key)]) else None
  }

  // ---- the invariant of the store ----

  ghost predicate AllFor(log: seq<Record>, tool: FileTool) {
    forall r :: r in log ==> r.tool == tool
  }

  /** A later record of a mutation is the same record, at most turned from prepared to applied. */
  predicate Evolves(earlier: Record, later: Record) {
    later == earlier || later == earlier.(status := Applied)
  }

  ghost predicate Growing(log: seq<Record>) {
    forall i, j :: 0 <= i < j < |log| && log[i].key == log[j].key ==> Evolves(log[i], log[j])
  }

  ghost predicate LogOk(log: seq<Record>, tool: FileTool) {
    AllFor(log, tool) && Growing(log)
  }

  ghost predicate TargetLogOk(s: Store, target: Path) {
    LogOk(AppendLogAt(s, target), FsAppend)
    && forall r :: r in AppendLogAt(s, target) ==> r.target == target
  }

  ghost predicate OneLogPerKey(s: Store) {
    forall t, t', key :: HasKey(s, t, key) && HasKey(s, t', key) ==> t == t'
  }

  ghost predicate CacheBacked(s: Store) {
    forall tool, key :: (tool, key) in s.cache ==> Logged(s, tool, key).Some?
  }

  ghost predicate Sound(s: Store) {
    && LogOk(s.copyLog, FsCopy) && LogOk(s.moveLog, FsMove)
    && (forall t :: TargetLogOk(s, t))
    && OneLogPerKey(s) && CacheBacked(s)
  }

  // ---- what one log append does to lookups ----

  lemma LatestSnoc(log: seq<Record>, r: Record, tool: FileTool, key: Key)
    ensures Latest(log + [r], tool, key) == if Matches(r, tool, key) then Some(r) else Latest(log, tool, key)
  {
    assert (log + [r])[..|log|] == log;
  }

  lemma LoggedIn(s: Store, target: Path, key: Key)
    requires OneLogPerKey(s) && HasKey(s, target, key)
    ensures Logged(s, FsAppend, key) == Latest(AppendLogAt(s, target), FsAppend, key)
  {
    assert exists t :: HasKey(s, t, key);
  }

  lemma LookupIsLogged(s: Store, tool: FileTool, key: Key)
    requires CacheBacked(s)
    ensures Lookup(s, tool, key) == Logged(s, tool, key)
  {
  }

  lemma LoggedMatches(s: Store, tool: FileTool, key: Key)
    ensures Logged(s, tool, key).Some? ==> Matches(Logged(s, tool, key).value, tool, key)
  {
  }

  /** A record may be logged when it is the first of its mutation, or the last one turned to applied. */
  ghost predicate MayLog(s: Store, r: Record) {
    match Logged(s, r.tool, r.key)
    case None => r.status == Prepared
    case Some(before) => r == before.(status := Applied)
  }

  /** Every record of a mutation in a log is an earlier stage of the last one. */
  lemma {:induction false} EarlierStages(log: seq<Record>, tool: FileTool, key: Key, i: nat)
    requires LogOk(log, tool) && i < |log| && log[i].key == key
    ensures Latest(log, tool, key).Some? && Evolves(log[i], Latest(log, tool, key).value)
    decreases |log|
  {
    var n := |log| - 1;
    if log[n].key != key {
      EarlierStages(log[..n], tool, key, i);
    }
  }

  lemma SnocStaysOk(log: seq<Record>, r: Record)
    requires LogOk(log, r.tool)
    requires Latest(log, r.tool, r.key).Some? ==> r == Latest(log, r.tool, r.key).value.(status := Applied)
    ensures LogOk(log + [r], r.tool)
  {
    var longer := log + [r];
    forall i, j | 0 <= i < j < |longer| && longer[i].key == longer[j].key ensures Evolves(longer[i], longer[j]) {
      if j == |log| {
        EarlierStages(log, r.tool, r.key, i);
      }
    }
  }

  lemma LoggingAppend(s: Store, r: Record, target: Path)
    requires r.tool == FsAppend
    ensures AppendLogAt(Logging(s, r), target) ==
            if target == r.target then AppendLogAt(s, target) + [r] else AppendLogAt(s, target)
  {
  }

  lemma HasKeyAfter(s: Store, r: Record, target: Path, key: Key)
    requires r.tool == FsAppend
    ensures HasKey(Logging(s, r), target, key) <==> HasKey(s, target, key) || (target == r.target && key == r.key)
  {
    LoggingAppend(s, r, target);
    LatestSnoc(AppendLogAt(s, target), r, FsAppend, key);
  }

  /** The mutation's own log is the one of its target. */
  lemma LoggedAtTarget(s: Store, key: Key)
    requires Sound(s) && Logged(s, FsAppend, key).Some?
    ensures HasKey(s, Logged(s, FsAppend, key).value.target, key)
  {
    var t :| HasKey(s, t, key);
    LoggedIn(s, t, key);
    assert TargetLogOk(s, t);
  }

  lemma AppendKeepsOneLog(s: Store, r: Record)
    requires Sound(s) && MayLog(s, r) && r.tool == FsAppend
    ensures OneLogPerKey(Logging(s, r))
  {
    var s' := Logging(s, r);
    forall t, t', key | HasKey(s', t, key) && HasKey(s', t', key) ensures t == t' {
      HasKeyAfter(s, r, t, key);
      HasKeyAfter(s, r, t', key);
      if key == r.key && Logged(s, FsAppend, key).Some? {
        LoggedAtTarget(s, key);
      }
    }
  }

  lemma LoggingChangesOneKey(s: Store, r: Record, tool: FileTool, key: Key)
    requires Sound(s) && MayLog(s, r)
    ensures Logged(Logging(s, r), tool, key) == if Matches(r, tool, key) then Some(r) else Logged(s, tool, key)
  {
    var s' := Logging(s, r);
    LatestSnoc(s.copyLog, r, tool, key);
    LatestSnoc(s.moveLog, r, tool, key);
    if tool == FsAppend && r.tool == FsAppend {
      AppendKeepsOneLog(s, r);
      if key == r.key {
        HasKeyAfter(s, r, r.target, key);
        LoggingAppend(s, r, r.target);
        LatestSnoc(AppendLogAt(s, r.target), r, tool, key);
        LoggedIn(s', r.target, key);
      } else {
        OtherKeyUnchanged(s, r, key);
      }
    } else if tool == FsAppend {
      SameAppendLogs(s, s', key);
    }
  }

  lemma OtherKeyUnchanged(s: Store, r: Record, key: Key)
    requires Sound(s) && r.tool == FsAppend && key != r.key && OneLogPerKey(Logging(s, r))
    ensures Logged(Logging(s, r), FsAppend, key) == Logged(s, FsAppend, key)
  {
    var s' := Logging(s, r);
    forall t ensures HasKey(s', t, key) <==> HasKey(s, t, key) {
      HasKeyAfter(s, r, t, key);
    }
    if t :| HasKey(s, t, key) {
      LoggedIn(s, t, key);
      LoggedIn(s', t, key);
      LoggingAppend(s, r, t);
      LatestSnoc(AppendLogAt(s, t), r, FsAppend, key);
    }
  }

  lemma OneLogCarriesOver(s: Store, s': Store)
    requires s'.appendLogs == s.appendLogs && OneLogPerKey(s)
    ensures OneLogPerKey(s')
  {
    forall t, t', key | HasKey(s', t, key) && HasKey(s', t', key) ensures t == t' {
      assert HasKey(s, t, key) && HasKey(s, t', key);
    }
  }

  lemma SameAppendLogs(s: Store, s': Store, key: Key)
    requires s'.appendLogs == s.appendLogs && OneLogPerKey(s)
    ensures Logged(s', FsAppend, key) == Logged(s, FsAppend, key)
  {
    forall t ensures HasKey(s', t, key) <==> HasKey(s, t, key) {
    }
    if t :| HasKey(s, t, key) {
      OneLogCarriesOver(s, s');
      LoggedIn(s, t, key);
      LoggedIn(s', t, key);
    }
  }

  /** One legal log append: the invariant stays, and exactly one lookup changes. */
  lemma LogStep(s: Store, r: Record)
    requires Sound(s) && MayLog(s, r)
    ensures Sound(Logging(s, r))
    ensures forall tool, key :: Lookup(Logging(s, r), tool, key) ==
                                if Matches(r, tool, key) then Some(r) else Lookup(s, tool, key)
  {
    var s' := Logging(s, r);
    forall tool, key
      ensures Logged(s', tool, key) == if Matches(r, tool, key) then Some(r) else Logged(s, tool, key)
    {
      LoggingChangesOneKey(s, r, tool, key);
    }
    LogsStayOk(s, r);
    assert CacheBacked(s');
  }

  lemma LogsStayOk(s: Store, r: Record)
    requires Sound(s) && MayLog(s, r)
    ensures
      var s' := Logging(s, r);
      && LogOk(s'.copyLog, FsCopy) && LogOk(s'.moveLog, FsMove) && OneLogPerKey(s')
      && forall t :: TargetLogOk(s', t)
  {
    var s' := Logging(s, r);
    match r.tool
    case FsCopy => SnocStaysOk(s.copyLog, r); UnchangedAppendLogs(s, s');
    case FsMove => SnocStaysOk(s.moveLog, r); UnchangedAppendLogs(s, s');
    case FsAppend =>
      AppendKeepsOneLog(s, r);
      forall t ensures TargetLogOk(s', t) {
        assert TargetLogOk(s, t);
        LoggingAppend(s, r, t);
        if t == r.target {
          if HasKey(s, t, r.key) { LoggedIn(s, t, r.key); }
          SnocStaysOk(AppendLogAt(s, t), r);
        }
      }
  }

  lemma UnchangedAppendLogs(s: Store, s': Store)
    requires s'.appendLogs == s.appendLogs && OneLogPerKey(s) && forall t :: TargetLogOk(s, t)
    ensures OneLogPerKey(s') && forall t :: TargetLogOk(s', t)
  {
    OneLogCarriesOver(s, s');
    forall t ensures TargetLogOk(s', t) {
      assert TargetLogOk(s, t);
    }
  }

  /** Whatever the cache holds for logged keys, and also when it is deleted, no lookup changes. */
  lemma CacheIsIrrelevant(s: Store, cache: map<(FileTool, Key), Record>)
    requires Sound(s) && forall tool, key :: (tool, key) in cache ==> Logged(s, tool, key).Some?
    ensures Sound(s.(cache := cache))
    ensures forall tool, key :: Lookup(s.(cache := cache), tool, key) == Lookup(s, tool, key)
  {
    var s' := s.(cache := cache);
    UnchangedAppendLogs(s, s');
    forall tool, key ensures Logged(s', tool, key) == Logged(s, tool, key) {
      if tool == FsAppend { SameAppendLogs(s, s', key); }
    }
    assert CacheBacked(s');
  }

  lemma CacheStep(s: Store, r: Record)
    requires Sound(s) && Logged(s, r.tool, r.key).Some?
    ensures Sound(Caching(s, r))
    ensures forall tool, key :: Lookup(Caching(s, r), tool, key) == Lookup(s, tool, key)
  {
    CacheIsIrrelevant(s, s.cache[(r.tool, r.key) := r]);
  }

  // ---- the operations ----

  function Write(r: Record): seq<Action> {
    [AppendLog(r), WriteCache(r)]
  }

  /** Preparing a mutation that is already known writes nothing and returns the known record. */
  ghost function Prepare(s: Store, draft: Record): (seq<Action>, Record) {
    match Lookup(s, draft.tool, draft.key)
    case Some(existing) => ([], existing)
    case None => (Write(draft.(status := Prepared)), draft.(status := Prepared))
  }

  ghost function MarkApplied(s: Store, tool: FileTool, key: Key): (seq<Action>, Option<Record>) {
    match Lookup(s, tool, key)
    case None => ([], None)
    case Some(existing) =>
      var r := existing.(status := Applied);
      (Write(r), Some(r))
  }

  class IdempotencyStore {
    const drive: Drive

    constructor (drive: Drive)
      ensures this.drive == drive
    {
      this.drive := drive;
    }

    method LatestRecordInLog(log: seq<Record>, tool: FileTool, key: Key) returns (latest: Option<Record>)
      ensures latest == Latest(log, tool, key)
    {
      latest := None;
      for i := 0 to |log|
        invariant latest == Latest(log[..i], tool, key)
      {
        assert log[..i + 1] == log[..i] + [log[i]];
        LatestSnoc(log[..i], log[i], tool, key);
        if Matches(log[i], tool, key) {
          latest := Some(log[i]);
        }
      }
      assert log[..|log|] == log;
    }

    /** The append logs in the order the directory lists them, which is any order. */
    method ReadDirectory() returns (entries: seq<Path>)
      ensures forall t :: t in entries <==> t in drive.store.appendLogs
    {
      entries := [];
      var rest := drive.store.appendLogs.Keys;
      while rest != {}
        invariant forall t :: t in drive.store.appendLogs <==> t in entries || t in rest
        decreases rest
      {
        var t :| t in rest;
        entries := entries + [t];
        rest := rest - {t};
      }
    }

    method LookupFileMutationLog(tool: FileTool, key: Key) returns (r: Option<Record>)
      requires OneLogPerKey(drive.store)
      ensures r == Logged(drive.store, tool, key)
    {
      if tool == FsCopy {
        r := LatestRecordInLog(drive.store.copyLog, tool, key);
        return;
      }
      if tool == FsMove {
        r := LatestRecordInLog(drive.store.moveLog, tool, key);
        return;
      }
      var entries := ReadDirectory();
      for i := 0 to |entries|
        invariant forall j :: 0 <= j < i ==> !HasKey(drive.store, entries[j], key)
      {
        assert entries[i] in drive.store.appendLogs;
        r := LatestRecordInLog(drive.store.appendLogs[entries[i]], tool, key);
        if r.Some? {
          LoggedIn(drive.store, entries[i], key);
          return;
        }
      }
      r := None;
      assert forall t :: HasKey(drive.store, t, key) ==> t in entries;
    }

    method LookupFileMutation(tool: FileTool, key: Key) returns (r: Option<Record>)
      requires OneLogPerKey(drive.store)
      ensures r == Lookup(drive.store, tool, key)
    {
      r := LookupFileMutationLog(tool, key);
      if r.None? && (tool, key) in drive.store.cache {
        r := Some(drive.store.cache[(tool, key)]);
      }
    }

    method WriteFileMutation(r: Record)
      requires Sound(drive.store) && MayLog(drive.store, r)
      modifies drive
      ensures Sound(drive.store)
      ensures drive.Now() == DoAll(old(drive.Now()), Write(r))
      ensures drive.history == old(drive.history) + Write(r)
    {
      WriteStep(drive.Now(), r, 2);
      DoTwo(drive.Now(), AppendLog(r), WriteCache(r));
      drive.Perform(AppendLog(r));
      drive.Perform(WriteCache(r));
    }

    method PrepareFileMutation(draft: Record) returns (r: Record)
      requires Sound(drive.store)
      modifies drive
      ensures Sound(drive.store)
      ensures r == Prepare(old(drive.store), draft).1
      ensures drive.Now() == DoAll(old(drive.Now()), Prepare(old(drive.store), draft).0)
      ensures drive.history == old(drive.history) + Prepare(old(drive.store), draft).0
    {
      var existing := LookupFileMutation(draft.tool, draft.key);
      if existing.Some? {
        return existing.value;
      }
      r := draft.(status := Prepared);
      LookupIsLogged(drive.store, r.tool, r.key);
      WriteFileMutation(r);
    }

    method MarkFileMutationApplied(tool: FileTool, key: Key) returns (r: Option<Record>)
      requires Sound(drive.store)
      modifies drive
      ensures Sound(drive.store)
      ensures r == MarkApplied(old(drive.store), tool, key).1
      ensures drive.Now() == DoAll(old(drive.Now()), MarkApplied(old(drive.store), tool, key).0)
      ensures drive.history == old(drive.history) + MarkApplied(old(drive.store), tool, key).0
    {
      var existing := LookupFileMutation(tool, key);
      if existing.None? {
        return None;
      }
      LookupIsLogged(drive.store, tool, key);
      LoggedMatches(drive.store, tool, key);
      r := Some(existing.value.(status := Applied));
      WriteFileMutation(r.value);
    }
  }

  // ---- runs of the store with crashes ----

  /** Writing a record, cut off after `keep` of its two actions. */
  lemma WriteStep(w: World, r: Record, keep: nat)
    requires Sound(w.store) && MayLog(w.store, r)
    ensures
      var w' := DoAll(w, Cut(Write(r), keep));
      && Sound(w'.store) && w'.files == w.files
      && forall tool, key :: Lookup(w'.store, tool, key) ==
                             if keep > 0 && Matches(r, tool, key) then Some(r) else Lookup(w.store, tool, key)
  {
    LogStep(w.store, r);
    LookupIsLogged(Logging(w.store, r), r.tool, r.key);
    CacheStep(Logging(w.store, r), r);
    if keep == 0 {
      assert Cut(Write(r), 0) == [];
    } else if keep == 1 {
      assert Cut(Write(r), 1) == [AppendLog(r)];
      DoOne(w, AppendLog(r));
    } else {
      assert Cut(Write(r), keep) == Write(r);
      DoTwo(w, AppendLog(r), WriteCache(r));
    }
  }

  datatype StoreCall = PrepareCall(draft: Record, keep: nat) | MarkCall(tool: FileTool, key: Key, keep: nat)

  ghost function CallActions(s: Store, call: StoreCall): seq<Action> {
    match call
    case PrepareCall(draft, keep) => Cut(Prepare(s, draft).0, keep)
    case MarkCall(tool, key, keep) => Cut(MarkApplied(s, tool, key).0, keep)
  }

  /** Every durable action of a run of calls, each of which may be cut off by a crash. */
  ghost function History(w: World, calls: seq<StoreCall>): seq<Action>
    decreases |calls|
  {
    if calls == [] then []
    else
      var first := CallActions(w.store, calls[0]);
      first + History(DoAll(w, first), calls[1..])
  }

  function LastLogged(history: seq<Action>, tool: FileTool, key: Key): Option<Record> {
    if history == [] then None
    else
      var n := |history| - 1;
      if history[n].AppendLog? && Matches(history[n].record, tool, key) then Some(history[n].record)
      else LastLogged(history[..n], tool, key)
  }

  lemma {:induction false} LastLoggedConcat(a: seq<Action>, b: seq<Action>, tool: FileTool, key: Key)
    ensures LastLogged(a + b, tool, key) ==
            if LastLogged(b, tool, key).Some? then LastLogged(b, tool, key) else LastLogged(a, tool, key)
  {
    if b == [] {
      assert a + b == a;
    } else {
      var n := |b| - 1;
      assert (a + b)[..|a + b| - 1] == a + b[..n];
      LastLoggedConcat(a, b[..n], tool, key);
    }
  }

  ghost predicate NeverBack(before: Option<Record>, after: Option<Record>) {
    before.Some? ==> after.Some? && Evolves(before.value, after.value)
  }

  lemma WrittenIsLastLogged(r: Record, keep: nat, tool: FileTool, key: Key)
    ensures LastLogged(Cut(Write(r), keep), tool, key) == if keep > 0 && Matches(r, tool, key) then Some(r) else None
  {
    var cut := Cut(Write(r), keep);
    if keep == 0 {
      assert cut == [];
    } else if keep == 1 {
      assert cut == [AppendLog(r)];
      assert cut[..0] == [];
    } else {
      assert cut == [AppendLog(r)] + [WriteCache(r)];
      LastLoggedConcat([AppendLog(r)], [WriteCache(r)], tool, key);
      assert [WriteCache(r)][..0] == [] && [AppendLog(r)][..0] == [];
    }
  }

  lemma CallStep(w: World, call: StoreCall)
    requires Sound(w.store)
    ensures
      var first := CallActions(w.store, call);
      var w' := DoAll(w, first);
      && Sound(w'.store)
      && forall tool, key ::
           && Lookup(w'.store, tool, key) ==
              (if LastLogged(first, tool, key).Some? then LastLogged(first, tool, key) else Lookup(w.store, tool, key))
           && NeverBack(Lookup(w.store, tool, key), Lookup(w'.store, tool, key))
  {
    var known := match call case PrepareCall(d, _) => Lookup(w.store, d.tool, d.key) case MarkCall(t, k, _) => Lookup(w.store, t, k);
    if call.PrepareCall? <==> known.None? {
      var r := if call.PrepareCall? then call.draft.(status := Prepared) else known.value.(status := Applied);
      LookupIsLogged(w.store, r.tool, r.key);
      if call.MarkCall? { LookupIsLogged(w.store, call.tool, call.key); LoggedMatches(w.store, call.tool, call.key); }
      assert CallActions(w.store, call) == Cut(Write(r), call.keep);
      WriteStep(w, r, call.keep);
      forall tool, key
        ensures LastLogged(Cut(Write(r), call.keep), tool, key) == if call.keep > 0 && Matches(r, tool, key) then Some(r) else None
      {
        WrittenIsLastLogged(r, call.keep, tool, key);
      }
    } else {
      assert CallActions(w.store, call) == [];
    }
  }

  predicate IsCached(s: Store, r: Record) {
    (r.tool, r.key) in s.cache && s.cache[(r.tool, r.key)] == r
  }

  lemma WrittenIsRemembered(w: World, r: Record)
    requires Sound(w.store) && MayLog(w.store, r)
    ensures
      var s' := DoAll(w, Write(r)).store;
      Lookup(s', r.tool, r.key) == Some(r) && IsCached(s', r)
  {
    WriteStep(w, r, 2);
    assert Cut(Write(r), 2) == Write(r);
    DoTwo(w, AppendLog(r), WriteCache(r));
  }

  /** A prepare that is not cut off makes an unknown mutation known as prepared, in the log and in the cache, and leaves a
      known one alone. */
  lemma PreparedIsRemembered(w: World, draft: Record)
    requires Sound(w.store)
    ensures
      var known, s' := Lookup(w.store, draft.tool, draft.key), DoAll(w, Prepare(w.store, draft).0).store;
      var r := draft.(status := Prepared);
      if known.Some? then s' == w.store && Prepare(w.store, draft).1 == known.value
      else Lookup(s', r.tool, r.key) == Some(r) && IsCached(s', r) && Prepare(w.store, draft).1 == r
  {
    if Lookup(w.store, draft.tool, draft.key).None? {
      LookupIsLogged(w.store, draft.tool, draft.key);
      WrittenIsRemembered(w, draft.(status := Prepared));
    }
  }

  /** A mark that is not cut off turns a known mutation to applied, in the log and in the cache. */
  lemma MarkedIsRemembered(w: World, tool: FileTool, key: Key)
    requires Sound(w.store)
    ensures
      var known, s' := Lookup(w.store, tool, key), DoAll(w, MarkApplied(w.store, tool, key).0).store;
      if known.None? then s' == w.store && MarkApplied(w.store, tool, key).1 == None
      else
        var r := known.value.(status := Applied);
        Lookup(s', tool, key) == Some(r) && IsCached(s', r) && MarkApplied(w.store, tool, key).1 == Some(r)
  {
    var known := Lookup(w.store, tool, key);
    if known.Some? {
      LookupIsLogged(w.store, tool, key);
      LoggedMatches(w.store, tool, key);
      WrittenIsRemembered(w, known.value.(status := Applied));
    }
  }

  /** In every run of prepares and marks, whatever the crashes: a lookup returns the last record that
      was durably logged for the key, an applied mutation never becomes prepared again, every key
      lives in one log, and no lookup needs the cache. */
  lemma {:induction false} LookupIsLastLogged(w: World, calls: seq<StoreCall>)
    requires Sound(w.store)
    ensures
      var history := History(w, calls);
      var s' := DoAll(w, history).store;
      && Sound(s')
      && forall tool, key ::
           && Lookup(s', tool, key) ==
              (if LastLogged(history, tool, key).Some? then LastLogged(history, tool, key) else Lookup(w.store, tool, key))
           && NeverBack(Lookup(w.store, tool, key), Lookup(s', tool, key))
    decreases |calls|
  {
    if calls != [] {
      var first := CallActions(w.store, calls[0]);
      var w1 := DoAll(w, first);
      var rest := History(w1, calls[1..]);
      CallStep(w, calls[0]);
      LookupIsLastLogged(w1, calls[1..]);
      DoConcat(w, first, rest);
      forall tool, key ensures
        && LastLogged(first + rest, tool, key) ==
           (if LastLogged(rest, tool, key).Some? then LastLogged(rest, tool, key) else LastLogged(first, tool, key))
        && NeverBack(Lookup(w.store, tool, key), Lookup(DoAll(w1, rest).store, tool, key))
      {
        LastLoggedConcat(first, rest, tool, key);
      }
    }
  }

  lemma NewStoreIsSound()
    ensures Sound(Store(map[], [], [], map[]))
  {
  }
}
