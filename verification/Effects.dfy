/** fs.append, fs.copy and fs.move as the runtime sees them, and one call of one of them among other operations. */
module Effects {
  import opened Common
  import opened Disk
  import opened ToolRuntime
  import opened Apart
  import FsToolService
  import IdempotencyStore
  import A = AppendOnce
  import T = TransferOnce

  // ---- the tools ----

  /** The path check of each of the three may ask for an approval or refuse. */
  ghost function FsAppendTool(): Tool {
    Tool(WriteNonIdempotent, true,
         (w: World, key: Option<Key>, input: Input, oracle: nat) => FsAppendRun(w, key, input, oracle),
         Some((w: World, key: Key) => FsQuery(FsAppend, w, key)))
  }

  ghost function FsAppendRun(w: World, key: Option<Key>, input: Input, oracle: nat): (seq<Action>, ToolOutcome) {
    if oracle == 1 then ([], Raised(ApprovalRequired))
    else if oracle == 2 then ([], Raised(ToolDenied))
    else if key.None? then
      ([WriteFile(input.path, FsToolService.ReadFileOrEmpty(w.files, input.path) + input.content)], Returned)
    else
      var (actions, outcome) := FsToolService.Append(w, key.value, input.path, input.content);
      (actions, if outcome.Done? then Returned else Raised(ExecutionFailed))
  }

  ghost function FsTransferTool(tool: FileTool): Tool {
    Tool(WriteNonIdempotent, true,
         (w: World, key: Option<Key>, input: Input, oracle: nat) => FsTransferRun(tool, w, key, input, oracle),
         Some((w: World, key: Key) => FsQuery(tool, w, key)))
  }

  ghost function FsTransferRun(tool: FileTool, w: World, key: Option<Key>, input: Input, oracle: nat)
    : (seq<Action>, ToolOutcome)
  {
    if oracle == 1 then ([], Raised(ApprovalRequired))
    else if oracle == 2 then ([], Raised(ToolDenied))
    else if key.None? then Unkeyed(tool, w, input)
    else
      var (actions, outcome) := FsToolService.Transfer(w, tool, key.value, input.source, input.path, input.overwrite);
      (actions, if outcome.Done? then Returned else Raised(ExecutionFailed))
  }

  /** Without a key nothing is recorded. */
  function Unkeyed(tool: FileTool, w: World, input: Input): (seq<Action>, ToolOutcome) {
    if !input.overwrite && input.path in w.files then ([], Raised(ExecutionFailed))
    else if input.source !in w.files then ([], Raised(ExecutionFailed))
    else if tool == FsMove then ([Rename(input.source, input.path)], Returned)
    else ([WriteFile(input.path, w.files[input.source])], Returned)
  }

  ghost function FsQuery(tool: FileTool, w: World, key: Key): (seq<Action>, bool) {
    var (actions, applied) := FsToolService.StatusQuery(w, tool, key);
    (actions, applied.Some?)
  }

  function ToolName(tool: FileTool): string {
    match tool
    case FsAppend => "fs.append"
    case FsCopy => "fs.copy"
    case FsMove => "fs.move"
  }

  ghost function ToolFor(tool: FileTool): Tool {
    if tool == FsAppend then FsAppendTool() else FsTransferTool(tool)
  }

  ghost predicate Registered(tools: Tools, tool: FileTool) {
    ToolName(tool) in tools && tools[ToolName(tool)] == ToolFor(tool)
  }

  // ---- one call ----

  datatype Effect = Appending(append: A.TheAppend) | Transferring(transfer: T.TheTransfer) {
    function Where(): Place {
      match this
      case Appending(a) => a.Where()
      case Transferring(t) => t.Where()
    }

    predicate IsBefore(files: Files) {
      match this
      case Appending(a) => a.IsBefore(files)
      case Transferring(t) => t.m.tool != FsAppend && t.IsBefore(files)
    }
  }

  function CallOf(x: Effect): Call {
    match x
    case Appending(a) => Call("fs.append", Some(a.key), Input(a.path, a.content))
    case Transferring(t) => Call(ToolName(t.m.tool), Some(t.m.key), Input(t.m.target, [], t.m.source, t.overwrite))
  }

  ghost predicate Between(w: World, x: Effect) {
    match x
    case Appending(a) => A.Between(w, a)
    case Transferring(t) => T.Between(w, t)
  }

  /** The record says that it was applied. */
  ghost predicate Settled(w: World, x: Effect) {
    match x
    case Appending(a) => A.Settled(w, a)
    case Transferring(t) => T.Settled(w, t)
  }

  lemma UndisturbedKeeps(w: World, w': World, x: Effect)
    requires Between(w, x) && Undisturbed(w, w', x.Where())
    ensures Between(w', x) && (Settled(w, x) ==> Settled(w', x))
  {
    match x
    case Appending(a) => A.UndisturbedKeeps(w, w', a);
    case Transferring(t) => T.UndisturbedKeeps(w, w', t);
  }

  lemma NewIsBetween(w: World, x: Effect)
    requires IdempotencyStore.Sound(w.store) && x.IsBefore(w.files)
    requires IdempotencyStore.Lookup(w.store, x.Where().tool, x.Where().key).None?
    ensures Between(w, x) && !Settled(w, x)
  {
    if x.Transferring? { T.NewIsBetween(w, x.transfer); }
  }

  lemma CutIsPrefix(actions: seq<Action>, n: nat)
    requires n <= |actions|
    ensures Cut(actions, n) == actions[..n]
  {
  }

  // ---- its own executions and queries ----

  ghost function Running(w: World, x: Effect, oracle: nat): (seq<Action>, ToolOutcome) {
    match x
    case Appending(_) => FsAppendRun(w, CallOf(x).key, CallOf(x).input, oracle)
    case Transferring(t) => FsTransferRun(t.m.tool, w, CallOf(x).key, CallOf(x).input, oracle)
  }

  lemma ToolRuns(w: World, x: Effect, oracle: nat)
    requires x.Transferring? ==> x.transfer.m.tool != FsAppend
    ensures ToolFor(x.Where().tool).execute(w, CallOf(x).key, CallOf(x).input, oracle) == Running(w, x, oracle)
  {
  }

  lemma ToolQueries(w: World, tool: FileTool, key: Key)
    ensures ToolFor(tool).statusQuery.value(w, key) == FsQuery(tool, w, key)
  {
  }

  /** Cut anywhere, an execution keeps what holds between the two states; one that returns settles the effect. */
  lemma OwnRunKeeps(w: World, x: Effect, oracle: nat, n: nat)
    requires Between(w, x) && n <= |Running(w, x, oracle).0|
    ensures
      var (actions, outcome) := Running(w, x, oracle);
      var w' := DoAll(w, actions[..n]);
      Between(w', x) && (Settled(w, x) || (outcome == Returned && n == |actions|) ==> Settled(w', x))
  {
    var actions := Running(w, x, oracle).0;
    CutIsPrefix(actions, n);
    if oracle == 1 || oracle == 2 {
      assert actions[..n] == [];
    } else {
      match x
      case Appending(a) => A.CallKeeps(w, a, n);
      case Transferring(t) => T.CallKeeps(w, t, n);
    }
  }

  lemma OwnQueryKeeps(w: World, x: Effect, n: nat)
    requires Between(w, x) && n <= |FsQuery(x.Where().tool, w, x.Where().key).0|
    ensures
      var (actions, applied) := FsQuery(x.Where().tool, w, x.Where().key);
      var w' := DoAll(w, actions[..n]);
      Between(w', x) && (Settled(w, x) || (applied && n == |actions|) ==> Settled(w', x))
  {
    CutIsPrefix(FsQuery(x.Where().tool, w, x.Where().key).0, n);
    match x
    case Appending(a) => A.QueryKeeps(w, a, n);
    case Transferring(t) => T.QueryKeeps(w, t, n);
  }

  // ---- the three tools under another key and on other paths ----

  lemma OtherAppendKeepsOut(w: World, key: Option<Key>, input: Input, oracle: nat, x: Place)
    requires IdempotencyStore.Sound(w.store) && key != Some(x.key) && input.path !in x.paths
    ensures KeepOut(w, FsAppendRun(w, key, input, oracle).0, x)
  {
    var actions := FsAppendRun(w, key, input, oracle).0;
    forall n | 0 <= n <= |actions| ensures Undisturbed(w, DoAll(w, actions[..n]), x) {
      if oracle == 1 || oracle == 2 || n == 0 {
        assert actions[..n] == [];
      } else if key.None? {
        OneElsewhere(w, actions, x);
        assert actions[..n] == actions;
      } else {
        OtherAppendStep(w, x, key.value, input.path, input.content, n);
        CutIsPrefix(actions, n);
      }
    }
  }

  lemma OneElsewhere(w: World, actions: seq<Action>, x: Place)
    requires IdempotencyStore.Sound(w.store) && |actions| == 1 && Elsewhere(actions[0], x)
    ensures Undisturbed(w, DoAll(w, actions), x)
  {
    assert actions == [actions[0]];
    DoOne(w, actions[0]);
    ElsewhereKeepsFiles(w, actions[0], x);
  }

  lemma OtherTransferKeepsOut(tool: FileTool, w: World, key: Option<Key>, input: Input, oracle: nat, x: Place)
    requires IdempotencyStore.Sound(w.store) && key != Some(x.key) && tool != FsAppend && input.path !in x.paths
    requires tool == FsMove ==> input.source !in x.paths
    ensures KeepOut(w, FsTransferRun(tool, w, key, input, oracle).0, x)
  {
    var actions := FsTransferRun(tool, w, key, input, oracle).0;
    forall n | 0 <= n <= |actions| ensures Undisturbed(w, DoAll(w, actions[..n]), x) {
      if oracle == 1 || oracle == 2 || n == 0 {
        assert actions[..n] == [];
      } else if key.None? {
        OneElsewhere(w, actions, x);
        assert actions[..n] == actions;
      } else {
        OtherTransferStep(w, x, tool, key.value, input.source, input.path, input.overwrite, n);
        CutIsPrefix(actions, n);
      }
    }
  }

  lemma OtherQueryKeepsOut(tool: FileTool, w: World, key: Key, x: Place)
    requires IdempotencyStore.Sound(w.store) && key != x.key
    ensures KeepOut(w, FsQuery(tool, w, key).0, x)
  {
    var actions := FsQuery(tool, w, key).0;
    forall n | 0 <= n <= |actions| ensures Undisturbed(w, DoAll(w, actions[..n]), x) {
      OtherQueryStep(w, x, tool, key, n);
      CutIsPrefix(actions, n);
    }
  }
}
