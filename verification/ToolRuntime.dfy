/** Executing tools, resuming approvals and reconciling orphans
    (apps/daemon/src/tools/runtime/toolRuntime.ts, toolEventStore.ts). One task's operations follow
    each other. Every durable action is one `Step`; a crash keeps a prefix of an operation's steps. */
module ToolRuntime {
  import opened Common
  import opened Disk

  datatype SideEffect = Pure | Read | WriteIdempotent | WriteNonIdempotent | External

  datatype ExecutionStatus = Completed | Failed | Cancelled | TimedOut | WaitingForApproval | Blocked

  datatype ErrorCode = ExecutionFailed | OutputInvalid | ToolDenied | ApprovalRequired | Timeout | WasCancelled

  datatype ToolOutcome = Returned | Raised(code: ErrorCode)

  /** A path, and the content to append there; or the source to copy or move there. */
  datatype Input = Input(path: Path, content: Bytes, source: Path := "", overwrite: bool := false)

  datatype Call = Call(tool: string, key: Option<Key>, input: Input)

  /** What a tool does to the disk and answers; the number stands for everything else it depends on. */
  datatype Tool = Tool(
    sideEffect: SideEffect,
    supportsStatusQuery: bool,
    execute: (World, Option<Key>, Input, nat) -> (seq<Action>, ToolOutcome),
    statusQuery: Option<(World, Key) -> (seq<Action>, bool)>)

  type Tools = map<string, Tool>

  /** The id of an event is its position in the task's log. */
  datatype Event =
    | SafetyDecided
    | BudgetExceeded
    | LockAcquired
    | LockReleased
    | Intended(call: Call)
    | ToolResult(intended: nat, status: ExecutionStatus, synthesized: bool)
    | ApprovalGranted(approval: nat)
    | ApprovalDenied(approval: nat)
    | ReconciliationStarted(intended: nat)
    | ReconciliationSynthesized(intended: nat)
    | ReconciliationReexecute(intended: nat)
    | ReconciliationBlocked(intended: nat)
    | ReapprovalRequired(intended: nat)

  type Log = seq<Event>

  /** An approval is asked for before an execution starts, so it never belongs to an intent. */
  datatype Approval = Approval(call: Call, pending: bool)

  datatype Machine = Machine(log: Log, world: World, approvals: seq<Approval>)

  datatype Step = AppendEvent(event: Event) | OnDisk(action: Action) | AskApproval(call: Call) | ResolveApproval(id: nat)

  function Take(m: Machine, step: Step): Machine {
    match step
    case AppendEvent(e) => m.(log := m.log + [e])
    case OnDisk(a) => m.(world := Do(m.world, a))
    case AskApproval(call) => m.(approvals := m.approvals + [Approval(call, true)])
    case ResolveApproval(id) =>
      if id < |m.approvals| then m.(approvals := m.approvals[id := m.approvals[id].(pending := false)]) else m
  }

  function TakeAll(m: Machine, steps: seq<Step>): Machine
    decreases |steps|
  {
    if steps == [] then m else TakeAll(Take(m, steps[0]), steps[1..])
  }

  lemma {:induction false} TakeConcat(m: Machine, a: seq<Step>, b: seq<Step>)
    ensures TakeAll(m, a + b) == TakeAll(TakeAll(m, a), b)
    decreases |a|
  {
    if a == [] {
      assert a + b == b;
    } else {
      assert (a + b)[1..] == a[1..] + b;
      TakeConcat(Take(m, a[0]), a[1..], b);
    }
  }

  lemma TakeOne(m: Machine, step: Step)
    ensures TakeAll(m, [step]) == Take(m, step)
  {
    assert TakeAll(Take(m, step), []) == Take(m, step);
  }

  function OnDiskAll(actions: seq<Action>): (r: seq<Step>)
    ensures |r| == |actions|
  {
    if actions == [] then [] else [OnDisk(actions[0])] + OnDiskAll(actions[1..])
  }

  lemma {:induction false} TakeActions(m: Machine, actions: seq<Action>)
    ensures TakeAll(m, OnDiskAll(actions)) == m.(world := DoAll(m.world, actions))
    decreases |actions|
  {
    if actions != [] {
      TakeConcat(m, [OnDisk(actions[0])], OnDiskAll(actions[1..]));
      TakeOne(m, OnDisk(actions[0]));
      TakeActions(Take(m, OnDisk(actions[0])), actions[1..]);
    }
  }

  lemma {:induction false} JoinActions(a: seq<Action>, b: seq<Action>)
    ensures OnDiskAll(a + b) == OnDiskAll(a) + OnDiskAll(b)
    decreases |a|
  {
    if a == [] {
      assert a + b == b;
    } else {
      assert (a + b)[1..] == a[1..] + b;
      JoinActions(a[1..], b);
    }
  }

  // ---- reading the log ----

  predicate ResultOf(e: Event, intended: nat) {
    e.ToolResult? && e.intended == intended
  }

  function LastIntended(log: Log): (r: Option<nat>)
    ensures r.Some? ==> r.value < |log| && log[r.value].Intended?
    ensures forall j :: (if r.Some? then r.value + 1 else 0) <= j < |log| ==> !log[j].Intended?
  {
    if log == [] then None
    else if log[|log| - 1].Intended? then Some(|log| - 1)
    else LastIntended(log[..|log| - 1])
  }

  predicate HasResultAfter(log: Log, i: nat) {
    exists j :: i < j < |log| && ResultOf(log[j], i)
  }

  /** The last intent, when no result after it names it. */
  function LatestOrphan(log: Log): (r: Option<nat>)
    ensures r.Some? ==> r.value < |log| && log[r.value].Intended?
  {
    var last := LastIntended(log);
    if last.Some? && HasResultAfter(log, last.value) then None else last
  }

  predicate ClearsReapproval(e: Event, intended: nat) {
    e.ApprovalGranted? || e.ApprovalDenied? || ResultOf(e, intended)
  }

  predicate StandsFrom(log: Log, intended: nat, r: nat) {
    r < |log| && log[r] == ReapprovalRequired(intended)
    && forall j :: r < j < |log| ==> !ClearsReapproval(log[j], intended)
  }

  /** A reapproval was asked for and nothing since has cleared it: any approval decision does. */
  predicate PendingReapproval(log: Log, intended: nat) {
    exists r :: 0 <= r < |log| && StandsFrom(log, intended, r)
  }

  // ---- executing one call ----

  datatype Decision = Allow | Deny | NeedApproval

  /** The answers of the input schema, the safety governor, the timeout and budget checks and the lock. */
  datatype Gate = Gate(inputValid: bool, decision: Decision, timeoutFits: bool, withinBudget: bool, lockFree: bool)

  /** What an operation meets outside the task's log and disk. */
  datatype Env = Env(gate: Gate, oracle: nat -> nat, freshKey: Key)

  datatype Request = Request(call: Call, retry: nat)

  datatype Outcome = Threw | Finished(status: ExecutionStatus)

  function KeyFor(sideEffect: SideEffect, key: Option<Key>, newKey: Key): Option<Key> {
    if sideEffect == Pure || sideEffect == Read then None
    else if key.Some? then key else Some(newKey)
  }

  function StatusFor(code: ErrorCode): ExecutionStatus {
    match code
    case Timeout => TimedOut
    case WasCancelled => Cancelled
    case ApprovalRequired => WaitingForApproval
    case _ => Failed
  }

  predicate ShouldRetry(code: ErrorCode) {
    code == ExecutionFailed || code == OutputInvalid
  }

  predicate Terminal(status: ExecutionStatus) {
    status == Completed || status == Failed || status == Cancelled || status == TimedOut
  }

  /** What happens before the execution starts, and its outcome if it does not start. A resumed
      approval is not judged again. */
  function Admit(call: Call, resumed: bool, gate: Gate): (seq<Step>, Option<Outcome>) {
    var decided := if resumed then [] else [AppendEvent(SafetyDecided)];
    if !gate.inputValid then ([], Some(Finished(Failed)))
    else if !resumed && gate.decision == Deny then (decided, Some(Finished(Failed)))
    else if !resumed && gate.decision == NeedApproval then (decided + [AskApproval(call)], Some(Finished(WaitingForApproval)))
    else if !gate.timeoutFits then (decided, Some(Finished(Failed)))
    else if !gate.withinBudget then (decided + [AppendEvent(BudgetExceeded)], Some(Finished(Blocked)))
    else if !gate.lockFree then (decided, Some(Threw))
    else (decided + [AppendEvent(LockAcquired)], None)
  }

  /** The attempts of one execution: the disk actions of all of them, and the last status. */
  function Attempts(tool: Tool, w: World, call: Call, attempt: nat, maxAttempts: nat, oracle: nat -> nat)
    : (seq<Action>, ExecutionStatus)
    decreases maxAttempts - attempt
  {
    var (actions, outcome) := tool.execute(w, call.key, call.input, oracle(attempt));
    match outcome
    case Returned => (actions, Completed)
    case Raised(code) =>
      if !ShouldRetry(code) || attempt >= maxAttempts then (actions, StatusFor(code))
      else
        var (more, status) := Attempts(tool, DoAll(w, actions), call, attempt + 1, maxAttempts, oracle);
        (actions + more, status)
  }

  /** An intent before the tool touches the disk, a result after it if the status is terminal. */
  function RunTool(tool: Tool, m: Machine, call: Call, maxAttempts: nat, oracle: nat -> nat): (seq<Step>, ExecutionStatus) {
    var (actions, status) := Attempts(tool, m.world, call, 1, maxAttempts, oracle);
    ([AppendEvent(Intended(call))] + OnDiskAll(actions) + Ending(|m.log|, status), status)
  }

  function Ending(intended: nat, status: ExecutionStatus): seq<Step> {
    if Terminal(status) then [AppendEvent(ToolResult(intended, status, false)), AppendEvent(LockReleased)]
    else [AppendEvent(LockReleased)]
  }

  function Execute(tools: Tools, m: Machine, request: Request, resumed: bool, env: Env): (seq<Step>, Outcome) {
    if request.call.tool !in tools then ([], Threw)
    else
      var tool := tools[request.call.tool];
      var call := request.call.(key := KeyFor(tool.sideEffect, request.call.key, env.freshKey));
      var (admitting, early) := Admit(call, resumed, env.gate);
      if early.Some? then (admitting, early.value)
      else
        var (running, status) := RunTool(tool, TakeAll(m, admitting), call, request.retry + 1, env.oracle);
        (admitting + running, Finished(status))
  }

  /** An approval is resolved once; a granted one executes its call with the key it was asked for. */
  function Resume(tools: Tools, m: Machine, id: nat, approved: bool, env: Env): (seq<Step>, Outcome) {
    if id >= |m.approvals| || !m.approvals[id].pending then ([], Threw)
    else if !approved then ([ResolveApproval(id), AppendEvent(ApprovalDenied(id))], Finished(Failed))
    else
      var granting := [ResolveApproval(id), AppendEvent(ApprovalGranted(id))];
      var (executing, outcome) := Execute(tools, TakeAll(m, granting), Request(m.approvals[id].call, 0), true, env);
      (granting + executing, outcome)
  }

  // ---- reconciliation ----

  datatype Reconciled =
    | NoOrphan
    | AwaitingReapproval
    | NotRegistered
    | Synthesized
    | CannotTell
    | Reexecuted(outcome: Outcome)

  predicate Risky(tool: Tool) {
    tool.sideEffect == WriteNonIdempotent || tool.sideEffect == External
  }

  function Query(tool: Tool, w: World, key: Option<Key>): (seq<Action>, bool) {
    if Risky(tool) && tool.supportsStatusQuery && key.Some? && tool.statusQuery.Some? then
      tool.statusQuery.value(w, key.value)
    else ([], false)
  }

  function Reconcile(tools: Tools, m: Machine, env: Env): (seq<Step>, Reconciled) {
    match LatestOrphan(m.log)
    case None => ([], NoOrphan)
    case Some(i) =>
      var call := m.log[i].call;
      if PendingReapproval(m.log, i) then ([], AwaitingReapproval)
      else if call.tool !in tools then ([AppendEvent(ReconciliationBlocked(i))], NotRegistered)
      else
        var tool := tools[call.tool];
        var (steps, r) := ReconcileOrphan(tools, TakeAll(m, [AppendEvent(ReconciliationStarted(i))]), tool, i, call, env);
        ([AppendEvent(ReconciliationStarted(i))] + steps, r)
  }

  function ReconcileOrphan(tools: Tools, m: Machine, tool: Tool, i: nat, call: Call, env: Env): (seq<Step>, Reconciled) {
    var (querying, applied) := Query(tool, m.world, call.key);
    var asking := OnDiskAll(querying);
    if applied then
      (asking + [AppendEvent(ToolResult(i, Completed, true)), AppendEvent(ReconciliationSynthesized(i))], Synthesized)
    else if Risky(tool) && !tool.supportsStatusQuery then
      (asking + [AppendEvent(ReconciliationBlocked(i))], CannotTell)
    else
      var (again, outcome) := Reexecute(tools, TakeAll(m, asking), tool, i, call, env);
      (asking + again, Reexecuted(outcome))
  }

  function Reexecute(tools: Tools, m: Machine, tool: Tool, i: nat, call: Call, env: Env): (seq<Step>, Outcome) {
    var marking := [AppendEvent(ReconciliationReexecute(i))];
    var (executing, outcome) := Execute(tools, TakeAll(m, marking), Request(call, 0), false, env);
    (marking + executing + Reapproval(tool, i, outcome), outcome)
  }

  function Reapproval(tool: Tool, i: nat, outcome: Outcome): seq<Step> {
    if tool.sideEffect == External && outcome == Finished(WaitingForApproval) then [AppendEvent(ReapprovalRequired(i))] else []
  }

  method FindLatestOrphan(log: Log) returns (orphan: Option<nat>)
    ensures orphan == LatestOrphan(log)
  {
    var index := |log| - 1;
    while index >= 0
      invariant -1 <= index < |log|
      invariant forall j :: index < j < |log| ==> !log[j].Intended?
    {
      if log[index].Intended? {
        orphan := if exists j :: index < j < |log| && ResultOf(log[j], index) then None else Some(index);
        return;
      }
      index := index - 1;
    }
    orphan := None;
  }

  method HasPendingReapproval(log: Log, intended: nat) returns (pending: bool)
    ensures pending <==> PendingReapproval(log, intended)
  {
    var reapprovalIndex := |log| - 1;
    while reapprovalIndex >= 0 && log[reapprovalIndex] != ReapprovalRequired(intended)
      invariant -1 <= reapprovalIndex < |log|
      invariant forall j :: reapprovalIndex < j < |log| ==> log[j] != ReapprovalRequired(intended)
    {
      reapprovalIndex := reapprovalIndex - 1;
    }
    if reapprovalIndex == -1 {
      return false;
    }
    pending := !exists j :: reapprovalIndex < j < |log| && ClearsReapproval(log[j], intended);
    assert pending ==> StandsFrom(log, intended, reapprovalIndex);
  }

  class ToolRuntime {
    const tools: Tools
    var log: Log
    var world: World
    var approvals: seq<Approval>
    ghost var history: seq<Step>

    constructor (tools: Tools, log: Log, world: World, approvals: seq<Approval>)
      ensures this.tools == tools && Now() == Machine(log, world, approvals) && history == []
    {
      this.tools := tools;
      this.log, this.world, this.approvals := log, world, approvals;
      history := [];
    }

    function Now(): Machine
      reads this
    {
      Machine(log, world, approvals)
    }

    method Perform(step: Step)
      modifies this
      ensures Now() == Take(old(Now()), step) && history == old(history) + [step]
    {
      match step {
        case AppendEvent(e) => log := log + [e];
        case OnDisk(a) => world := Do(world, a);
        case AskApproval(call) => approvals := approvals + [Approval(call, true)];
        case ResolveApproval(id) =>
          if id < |approvals| {
            approvals := approvals[id := approvals[id].(pending := false)];
          }
      }
      history := history + [step];
    }

    method PerformAll(steps: seq<Step>)
      modifies this
      ensures Now() == TakeAll(old(Now()), steps)
      ensures history == old(history) + steps
    {
      for i := 0 to |steps|
        invariant Now() == TakeAll(old(Now()), steps[..i])
        invariant history == old(history) + steps[..i]
      {
        assert steps[..i + 1] == steps[..i] + [steps[i]];
        TakeConcat(old(Now()), steps[..i], [steps[i]]);
        TakeOne(Now(), steps[i]);
        Perform(steps[i]);
      }
      assert steps[..|steps|] == steps;
    }

    method TryOnce(tool: Tool, call: Call, oracle: nat) returns (outcome: ToolOutcome)
      modifies this
      ensures Now() == TakeAll(old(Now()), OnDiskAll(tool.execute(old(world), call.key, call.input, oracle).0))
      ensures world == DoAll(old(world), tool.execute(old(world), call.key, call.input, oracle).0)
      ensures history == old(history) + OnDiskAll(tool.execute(old(world), call.key, call.input, oracle).0)
      ensures outcome == tool.execute(old(world), call.key, call.input, oracle).1
    {
      var (actions, answer) := tool.execute(world, call.key, call.input, oracle);
      TakeActions(Now(), actions);
      PerformAll(OnDiskAll(actions));
      outcome := answer;
    }

    method RunWithRetries(tool: Tool, call: Call, maxAttempts: nat, oracle: nat -> nat) returns (status: ExecutionStatus)
      requires maxAttempts >= 1
      modifies this
      ensures Now() == TakeAll(old(Now()), OnDiskAll(Attempts(tool, old(world), call, 1, maxAttempts, oracle).0))
      ensures history == old(history) + OnDiskAll(Attempts(tool, old(world), call, 1, maxAttempts, oracle).0)
      ensures status == Attempts(tool, old(world), call, 1, maxAttempts, oracle).1
    {
      ghost var (goal, last) := Attempts(tool, world, call, 1, maxAttempts, oracle);
      var attempt := 1;
      while true
        invariant 1 <= attempt <= maxAttempts
        invariant
          var (rest, s) := Attempts(tool, world, call, attempt, maxAttempts, oracle);
          && TakeAll(Now(), OnDiskAll(rest)) == TakeAll(old(Now()), OnDiskAll(goal))
          && history + OnDiskAll(rest) == old(history) + OnDiskAll(goal)
          && s == last
        decreases maxAttempts - attempt
      {
        RetryInParts(Now(), history, tool, call, attempt, maxAttempts, oracle);
        var outcome := TryOnce(tool, call, oracle(attempt));
        match outcome {
          case Returned =>
            return Completed;
          case Raised(code) =>
            if !ShouldRetry(code) || attempt >= maxAttempts {
              return StatusFor(code);
            }
        }
        attempt := attempt + 1;
      }
    }

    method ExecuteParsed(request: Request, resumed: bool, env: Env) returns (outcome: Outcome)
      modifies this
      ensures Now() == TakeAll(old(Now()), Execute(tools, old(Now()), request, resumed, env).0)
      ensures history == old(history) + Execute(tools, old(Now()), request, resumed, env).0
      ensures outcome == Execute(tools, old(Now()), request, resumed, env).1
    {
      if request.call.tool !in tools {
        return Threw;
      }
      var tool := tools[request.call.tool];
      var call := request.call.(key := KeyFor(tool.sideEffect, request.call.key, env.freshKey));
      var (admitting, early) := Admit(call, resumed, env.gate);
      PerformAll(admitting);
      if early.Some? {
        return early.value;
      }
      InOrder(old(Now()), old(history), admitting, RunTool(tool, Now(), call, request.retry + 1, env.oracle).0);
      var status := RunStarted(tool, call, request.retry + 1, env.oracle);
      outcome := Finished(status);
    }

    method RunStarted(tool: Tool, call: Call, maxAttempts: nat, oracle: nat -> nat) returns (status: ExecutionStatus)
      requires maxAttempts >= 1
      modifies this
      ensures Now() == TakeAll(old(Now()), RunTool(tool, old(Now()), call, maxAttempts, oracle).0)
      ensures history == old(history) + RunTool(tool, old(Now()), call, maxAttempts, oracle).0
      ensures status == RunTool(tool, old(Now()), call, maxAttempts, oracle).1
    {
      RunInParts(Now(), history, tool, call, maxAttempts, oracle);
      var intended := |log|;
      Perform(AppendEvent(Intended(call)));
      status := RunWithRetries(tool, call, maxAttempts, oracle);
      PerformAll(Ending(intended, status));
    }

    method ResumeApproval(id: nat, approved: bool, env: Env) returns (outcome: Outcome)
      modifies this
      ensures Now() == TakeAll(old(Now()), Resume(tools, old(Now()), id, approved, env).0)
      ensures history == old(history) + Resume(tools, old(Now()), id, approved, env).0
      ensures outcome == Resume(tools, old(Now()), id, approved, env).1
    {
      if id >= |approvals| || !approvals[id].pending {
        return Threw;
      }
      var call := approvals[id].call;
      if !approved {
        PerformAll([ResolveApproval(id), AppendEvent(ApprovalDenied(id))]);
        return Finished(Failed);
      }
      PerformAll([ResolveApproval(id), AppendEvent(ApprovalGranted(id))]);
      ResumeInParts(tools, old(Now()), old(history), id, env);
      outcome := ExecuteParsed(Request(call, 0), true, env);
    }

    method ReconcileTask(env: Env) returns (r: Reconciled)
      modifies this
      ensures Now() == TakeAll(old(Now()), Reconcile(tools, old(Now()), env).0)
      ensures history == old(history) + Reconcile(tools, old(Now()), env).0
      ensures r == Reconcile(tools, old(Now()), env).1
    {
      var orphan := FindLatestOrphan(log);
      if orphan.None? {
        return NoOrphan;
      }
      var i := orphan.value;
      var pending := HasPendingReapproval(log, i);
      if pending {
        return AwaitingReapproval;
      }
      var call := log[i].call;
      if call.tool !in tools {
        PerformAll([AppendEvent(ReconciliationBlocked(i))]);
        return NotRegistered;
      }
      var tool := tools[call.tool];
      ghost var starting := [AppendEvent(ReconciliationStarted(i))];
      PerformAll([AppendEvent(ReconciliationStarted(i))]);
      InOrder(old(Now()), old(history), starting, ReconcileOrphan(tools, Now(), tool, i, call, env).0);
      r := SettleOrphan(tool, i, call, env);
    }

    method SettleOrphan(tool: Tool, i: nat, call: Call, env: Env) returns (r: Reconciled)
      modifies this
      ensures Now() == TakeAll(old(Now()), ReconcileOrphan(tools, old(Now()), tool, i, call, env).0)
      ensures history == old(history) + ReconcileOrphan(tools, old(Now()), tool, i, call, env).0
      ensures r == ReconcileOrphan(tools, old(Now()), tool, i, call, env).1
    {
      var (querying, applied) := Query(tool, world, call.key);
      ghost var asking := OnDiskAll(querying);
      PerformAll(OnDiskAll(querying));
      if applied {
        InOrder(old(Now()), old(history), asking, [AppendEvent(ToolResult(i, Completed, true)), AppendEvent(ReconciliationSynthesized(i))]);
        PerformAll([AppendEvent(ToolResult(i, Completed, true)), AppendEvent(ReconciliationSynthesized(i))]);
        return Synthesized;
      }
      if Risky(tool) && !tool.supportsStatusQuery {
        InOrder(old(Now()), old(history), asking, [AppendEvent(ReconciliationBlocked(i))]);
        PerformAll([AppendEvent(ReconciliationBlocked(i))]);
        return CannotTell;
      }
      InOrder(old(Now()), old(history), asking, Reexecute(tools, Now(), tool, i, call, env).0);
      var outcome := ReexecuteOrphan(tool, i, call, env);
      r := Reexecuted(outcome);
    }

    method ReexecuteOrphan(tool: Tool, i: nat, call: Call, env: Env) returns (outcome: Outcome)
      modifies this
      ensures Now() == TakeAll(old(Now()), Reexecute(tools, old(Now()), tool, i, call, env).0)
      ensures history == old(history) + Reexecute(tools, old(Now()), tool, i, call, env).0
      ensures outcome == Reexecute(tools, old(Now()), tool, i, call, env).1
    {
      PerformAll([AppendEvent(ReconciliationReexecute(i))]);
      ReexecuteInParts(tools, old(Now()), old(history), tool, i, call, env);
      outcome := ExecuteParsed(Request(call, 0), false, env);
      PerformAll(Reapproval(tool, i, outcome));
    }
  }

  /** Two groups of steps performed one after the other. */
  lemma InOrder(m: Machine, history: seq<Step>, a: seq<Step>, b: seq<Step>)
    ensures TakeAll(m, a + b) == TakeAll(TakeAll(m, a), b)
    ensures history + (a + b) == (history + a) + b
  {
    TakeConcat(m, a, b);
  }

  lemma ThreeInOrder(m: Machine, history: seq<Step>, a: seq<Step>, b: seq<Step>, c: seq<Step>)
    ensures TakeAll(m, a + b + c) == TakeAll(TakeAll(TakeAll(m, a), b), c)
    ensures history + (a + b + c) == history + a + b + c
  {
    InOrder(m, history, a, b);
    InOrder(m, history, a + b, c);
  }

  lemma RunInParts(m: Machine, history: seq<Step>, tool: Tool, call: Call, maxAttempts: nat, oracle: nat -> nat)
    ensures
      var m1 := Take(m, AppendEvent(Intended(call)));
      var (actions, status) := Attempts(tool, m.world, call, 1, maxAttempts, oracle);
      var steps := RunTool(tool, m, call, maxAttempts, oracle).0;
      && TakeAll(m, steps) == TakeAll(TakeAll(m1, OnDiskAll(actions)), Ending(|m.log|, status))
      && history + steps == history + [AppendEvent(Intended(call))] + OnDiskAll(actions) + Ending(|m.log|, status)
  {
    var (actions, status) := Attempts(tool, m.world, call, 1, maxAttempts, oracle);
    TakeOne(m, AppendEvent(Intended(call)));
    ThreeInOrder(m, history, [AppendEvent(Intended(call))], OnDiskAll(actions), Ending(|m.log|, status));
  }

  /** The attempts from here on are this one and, if it is retried, those that follow. */
  lemma RetryInParts(m: Machine, history: seq<Step>, tool: Tool, call: Call, attempt: nat, maxAttempts: nat, oracle: nat -> nat)
    ensures
      var (actions, outcome) := tool.execute(m.world, call.key, call.input, oracle(attempt));
      var (all, status) := Attempts(tool, m.world, call, attempt, maxAttempts, oracle);
      if outcome.Returned? then all == actions && status == Completed
      else if !ShouldRetry(outcome.code) || attempt >= maxAttempts then all == actions && status == StatusFor(outcome.code)
      else
        var w := DoAll(m.world, actions);
        var (rest, s) := Attempts(tool, w, call, attempt + 1, maxAttempts, oracle);
        && status == s
        && TakeAll(m, OnDiskAll(all)) == TakeAll(TakeAll(m, OnDiskAll(actions)), OnDiskAll(rest))
        && history + OnDiskAll(all) == (history + OnDiskAll(actions)) + OnDiskAll(rest)
  {
    var (actions, outcome) := tool.execute(m.world, call.key, call.input, oracle(attempt));
    var rest := Attempts(tool, DoAll(m.world, actions), call, attempt + 1, maxAttempts, oracle).0;
    JoinActions(actions, rest);
    TakeConcat(m, OnDiskAll(actions), OnDiskAll(rest));
    Associate(history, OnDiskAll(actions), OnDiskAll(rest));
  }

  lemma ReexecuteInParts(tools: Tools, m: Machine, history: seq<Step>, tool: Tool, i: nat, call: Call, env: Env)
    ensures
      var marking := [AppendEvent(ReconciliationReexecute(i))];
      var m1 := TakeAll(m, marking);
      var (executing, outcome) := Execute(tools, m1, Request(call, 0), false, env);
      var (steps, o) := Reexecute(tools, m, tool, i, call, env);
      && o == outcome
      && history + steps == history + marking + executing + Reapproval(tool, i, outcome)
      && TakeAll(m, steps) == TakeAll(TakeAll(m1, executing), Reapproval(tool, i, outcome))
  {
    var marking := [AppendEvent(ReconciliationReexecute(i))];
    var (executing, outcome) := Execute(tools, TakeAll(m, marking), Request(call, 0), false, env);
    ThreeInOrder(m, history, marking, executing, Reapproval(tool, i, outcome));
  }

  lemma ResumeInParts(tools: Tools, m: Machine, history: seq<Step>, id: nat, env: Env)
    requires id < |m.approvals| && m.approvals[id].pending
    ensures
      var granting := [ResolveApproval(id), AppendEvent(ApprovalGranted(id))];
      var (executing, outcome) := Execute(tools, TakeAll(m, granting), Request(m.approvals[id].call, 0), true, env);
      var (steps, o) := Resume(tools, m, id, true, env);
      && o == outcome
      && TakeAll(m, steps) == TakeAll(TakeAll(m, granting), executing)
      && history + steps == (history + granting) + executing
  {
    var granting := [ResolveApproval(id), AppendEvent(ApprovalGranted(id))];
    InOrder(m, history, granting, Execute(tools, TakeAll(m, granting), Request(m.approvals[id].call, 0), true, env).0);
  }
}
