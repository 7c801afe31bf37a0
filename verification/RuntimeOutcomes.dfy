/** When a call starts, what it leaves in the log, and what holds for approvals, keys and locks in every run. */
module RuntimeOutcomes {
  import opened Common
  import opened Disk
  import opened ToolRuntime
  import opened ToolRuntimeSafety
  import Reconciliation

  // ---- when a call starts ----

  /** The policy lets the call through, or an approval does; and all other checks pass. */
  predicate LetThrough(resumed: bool, gate: Gate) {
    && gate.inputValid && (resumed || gate.decision == Allow)
    && gate.timeoutFits && gate.withinBudget && gate.lockFree
  }

  predicate HasIntent(steps: seq<Step>) {
    exists k :: 0 <= k < |steps| && steps[k].AppendEvent? && steps[k].event.Intended?
  }

  predicate TouchesDisk(steps: seq<Step>) {
    exists k :: 0 <= k < |steps| && steps[k].OnDisk?
  }

  lemma AdmitsExactlyWhen(call: Call, resumed: bool, gate: Gate)
    ensures Admit(call, resumed, gate).1.None? <==> LetThrough(resumed, gate)
    ensures !HasIntent(Admit(call, resumed, gate).0) && !TouchesDisk(Admit(call, resumed, gate).0)
  {
  }

  /** An execution records an intent if and only if its tool is registered and the call is let through, and without an
      intent it does not touch the disk. */
  lemma StartsExactlyWhen(tools: Tools, m: Machine, request: Request, resumed: bool, env: Env)
    ensures
      var steps := Execute(tools, m, request, resumed, env).0;
      && (HasIntent(steps) <==> request.call.tool in tools && LetThrough(resumed, env.gate))
      && (TouchesDisk(steps) ==> HasIntent(steps))
  {
    if request.call.tool in tools {
      var call := Keyed(tools, request.call, env);
      AdmitsExactlyWhen(call, resumed, env.gate);
      if LetThrough(resumed, env.gate) {
        var admitting := Admit(call, resumed, env.gate).0;
        var running := RunTool(tools[call.tool], TakeAll(m, admitting), call, request.retry + 1, env.oracle).0;
        AdmittedExecutes(tools, m, request.call, resumed, request.retry, env);
        assert running[0] == AppendEvent(Intended(call));
        assert (admitting + running)[|admitting|] == AppendEvent(Intended(call));
      }
    }
  }

  /** The events before a call that an approval has not let through yet. */
  function Deciding(resumed: bool): Log {
    if resumed then [] else [SafetyDecided]
  }

  /** What a call that is not let through leaves, by the first check that fails. */
  lemma RefusedLeaves(tools: Tools, m: Machine, request: Request, resumed: bool, env: Env)
    requires request.call.tool in tools && !LetThrough(resumed, env.gate)
    ensures
      var (steps, outcome) := Execute(tools, m, request, resumed, env);
      var m', g := TakeAll(m, steps), env.gate;
      var decided := m.(log := m.log + Deciding(resumed));
      if !g.inputValid then m' == m && outcome == Finished(Failed)
      else if !resumed && g.decision == Deny then m' == decided && outcome == Finished(Failed)
      else if !resumed && g.decision == NeedApproval then
        && m' == decided.(approvals := m.approvals + [Approval(Keyed(tools, request.call, env), true)])
        && outcome == Finished(WaitingForApproval)
      else if !g.timeoutFits then m' == decided && outcome == Finished(Failed)
      else if !g.withinBudget then
        m' == m.(log := m.log + (Deciding(resumed) + [BudgetExceeded])) && outcome == Finished(Blocked)
      else m' == decided && outcome == Threw
  {
    var call := Keyed(tools, request.call, env);
    AdmitsExactlyWhen(call, resumed, env.gate);
    AdmitLeaves(m, call, resumed, env.gate);
  }

  lemma AdmitLeaves(m: Machine, call: Call, resumed: bool, gate: Gate)
    ensures
      var (steps, early) := Admit(call, resumed, gate);
      var m' := TakeAll(m, steps);
      var decided := m.(log := m.log + Deciding(resumed));
      if !gate.inputValid then m' == m && early == Some(Finished(Failed))
      else if !resumed && gate.decision == Deny then m' == decided && early == Some(Finished(Failed))
      else if !resumed && gate.decision == NeedApproval then
        m' == decided.(approvals := m.approvals + [Approval(call, true)]) && early == Some(Finished(WaitingForApproval))
      else if !gate.timeoutFits then m' == decided && early == Some(Finished(Failed))
      else if !gate.withinBudget then
        m' == m.(log := m.log + (Deciding(resumed) + [BudgetExceeded])) && early == Some(Finished(Blocked))
      else if !gate.lockFree then m' == decided && early == Some(Threw)
      else m' == m.(log := m.log + (Deciding(resumed) + [LockAcquired])) && early.None?
  {
    var steps := Admit(call, resumed, gate).0;
    NothingAround(m.log);
    if steps != [] {
      TakeOne(m, steps[0]);
      if |steps| == 1 {
        assert steps == [steps[0]];
      } else {
        var m1 := Take(m, steps[0]);
        assert steps == [steps[0]] + [steps[1]];
        TakeConcat(m, [steps[0]], [steps[1]]);
        TakeOne(m1, steps[1]);
        if steps[1].AppendEvent? {
          Associate(m.log, [SafetyDecided], [steps[1].event]);
          NothingAround([steps[1].event]);
        }
      }
    }
  }

  // ---- the attempts of one execution ----

  predicate IsRetryable(code: ErrorCode) {
    code == ExecutionFailed || code == OutputInvalid
  }

  /** The status of an execution whose last attempt ended like this. */
  function StatusAfter(outcome: ToolOutcome): ExecutionStatus {
    match outcome
    case Returned => Completed
    case Raised(Timeout) => TimedOut
    case Raised(WasCancelled) => Cancelled
    case Raised(ApprovalRequired) => WaitingForApproval
    case Raised(_) => Failed
  }

  /** The k-th attempt acts on the disk that the one before it left. */
  ghost predicate AttemptGoes(tool: Tool, call: Call, oracle: nat -> nat, first: nat, worlds: seq<World>, k: nat)
    requires k + 1 < |worlds|
  {
    worlds[k + 1] == DoAll(worlds[k], tool.execute(worlds[k], call.key, call.input, oracle(first + k)).0)
  }

  function OutcomeOf(tool: Tool, call: Call, oracle: nat -> nat, first: nat, w: World, k: nat): ToolOutcome {
    tool.execute(w, call.key, call.input, oracle(first + k)).1
  }

  predicate FailsRetryably(tool: Tool, call: Call, oracle: nat -> nat, first: nat, worlds: seq<World>, k: nat)
    requires k < |worlds|
  {
    var outcome := OutcomeOf(tool, call, oracle, first, worlds[k], k);
    outcome.Raised? && IsRetryable(outcome.code)
  }

  /** Attempts made one after the other, each but the last failing in a way that is retried; the last succeeds, fails in
      another way, or is the last that is allowed; it leaves the final disk and gives its own status. */
  ghost predicate AttemptTrail(
      tool: Tool, call: Call, oracle: nat -> nat, first: nat, max: nat, worlds: seq<World>, status: ExecutionStatus)
    requires first <= max
  {
    var n := |worlds| - 1;
    && 1 <= n <= max - first + 1
    && (forall k :: 0 <= k < n ==> AttemptGoes(tool, call, oracle, first, worlds, k))
    && (forall k :: 0 <= k < n - 1 ==> FailsRetryably(tool, call, oracle, first, worlds, k))
    && (FailsRetryably(tool, call, oracle, first, worlds, n - 1) ==> n == max - first + 1)
    && status == StatusAfter(OutcomeOf(tool, call, oracle, first, worlds[n - 1], n - 1))
  }

  lemma AttemptShifts(tool: Tool, call: Call, oracle: nat -> nat, first: nat, w: World, rest: seq<World>, k: nat)
    requires k < |rest|
    ensures FailsRetryably(tool, call, oracle, first, [w] + rest, k + 1)
            == FailsRetryably(tool, call, oracle, first + 1, rest, k)
    ensures OutcomeOf(tool, call, oracle, first, rest[k], k + 1) == OutcomeOf(tool, call, oracle, first + 1, rest[k], k)
    ensures k + 1 < |rest| ==>
              AttemptGoes(tool, call, oracle, first, [w] + rest, k + 1) == AttemptGoes(tool, call, oracle, first + 1, rest, k)
  {
    assert first + (k + 1) == (first + 1) + k;
  }

  lemma TrailExtends(tool: Tool, w: World, call: Call, first: nat, max: nat, oracle: nat -> nat,
                     rest: seq<World>, status: ExecutionStatus)
    requires first < max && AttemptTrail(tool, call, oracle, first + 1, max, rest, status)
    requires AttemptGoes(tool, call, oracle, first, [w] + rest, 0)
    requires FailsRetryably(tool, call, oracle, first, [w] + rest, 0)
    ensures AttemptTrail(tool, call, oracle, first, max, [w] + rest, status)
  {
    var worlds := [w] + rest;
    var n := |rest| - 1;
    forall k | 0 <= k < n + 1 ensures AttemptGoes(tool, call, oracle, first, worlds, k) {
      if k > 0 { AttemptShifts(tool, call, oracle, first, w, rest, k - 1); }
    }
    forall k | 0 <= k < n ensures FailsRetryably(tool, call, oracle, first, worlds, k) {
      if k > 0 { AttemptShifts(tool, call, oracle, first, w, rest, k - 1); }
    }
    AttemptShifts(tool, call, oracle, first, w, rest, n - 1);
  }

  /** The attempts of an execution are such a trail, from the disk as it was to the one that all their actions leave. */
  lemma {:induction false} AttemptsAre(tool: Tool, w: World, call: Call, first: nat, max: nat, oracle: nat -> nat)
    returns (worlds: seq<World>)
    requires first <= max
    ensures
      var (actions, status) := Attempts(tool, w, call, first, max, oracle);
      && AttemptTrail(tool, call, oracle, first, max, worlds, status)
      && worlds[0] == w && worlds[|worlds| - 1] == DoAll(w, actions)
    decreases max - first
  {
    var (actions, outcome) := tool.execute(w, call.key, call.input, oracle(first));
    var w1 := DoAll(w, actions);
    if outcome.Raised? && IsRetryable(outcome.code) && first < max {
      var rest := AttemptsAre(tool, w1, call, first + 1, max, oracle);
      var (actions', status) := Attempts(tool, w1, call, first + 1, max, oracle);
      worlds := [w] + rest;
      DoConcat(w, actions, actions');
      TrailExtends(tool, w, call, first, max, oracle, rest, status);
    } else {
      worlds := [w, w1];
    }
  }

  // ---- what a started call leaves ----

  /** A status that ends the call. One that waits for an approval, or is blocked, leaves it open. */
  predicate Ends(status: ExecutionStatus) {
    status == Completed || status == Failed || status == Cancelled || status == TimedOut
  }

  /** What a call leaves whose actions and status are these: it holds its lock from before its intent to after its
      result, which it has exactly when its status ends it. */
  ghost predicate LeftBy(m: Machine, m': Machine, call: Call, resumed: bool, actions: seq<Action>, status: ExecutionStatus) {
    var intended := |m.log| + |Deciding(resumed)| + 1;
    var answering := if Ends(status) then [ToolResult(intended, status, false)] else [];
    && m'.log == m.log + Deciding(resumed) + [LockAcquired] + ([Intended(call)] + (answering + [LockReleased]))
    && m'.world == DoAll(m.world, actions) && m'.approvals == m.approvals
  }

  /** Every call that is let through leaves that. */
  lemma StartedLeaves(tools: Tools, m: Machine, request: Request, resumed: bool, env: Env)
    requires request.call.tool in tools && LetThrough(resumed, env.gate)
    ensures
      var call := Keyed(tools, request.call, env);
      var (steps, outcome) := Execute(tools, m, request, resumed, env);
      var (actions, status) := Attempts(tools[call.tool], m.world, call, 1, request.retry + 1, env.oracle);
      outcome == Finished(status) && LeftBy(m, TakeAll(m, steps), call, resumed, actions, status)
  {
    var call, m1 := Keyed(tools, request.call, env), m.(log := m.log + Deciding(resumed) + [LockAcquired]);
    StartedRuns(tools, m, m1, request, resumed, env);
    LockedRunLeaves(tools[call.tool], m, m1, call, resumed, request.retry + 1, env.oracle);
  }

  lemma StartedRuns(tools: Tools, m: Machine, m1: Machine, request: Request, resumed: bool, env: Env)
    requires request.call.tool in tools && LetThrough(resumed, env.gate)
    requires m1 == m.(log := m.log + Deciding(resumed) + [LockAcquired])
    ensures
      var call := Keyed(tools, request.call, env);
      var (running, status) := RunTool(tools[call.tool], m1, call, request.retry + 1, env.oracle);
      var (steps, outcome) := Execute(tools, m, request, resumed, env);
      outcome == Finished(status) && TakeAll(m, steps) == TakeAll(m1, running)
  {
    var call := Keyed(tools, request.call, env);
    AdmittedLeaves(m, call, resumed, env.gate);
    AdmittedExecutes(tools, m, request.call, resumed, request.retry, env);
    TakeConcat(m, Admit(call, resumed, env.gate).0, RunTool(tools[call.tool], m1, call, request.retry + 1, env.oracle).0);
  }

  lemma AdmittedLeaves(m: Machine, call: Call, resumed: bool, gate: Gate)
    requires LetThrough(resumed, gate)
    ensures Admit(call, resumed, gate).1.None?
    ensures TakeAll(m, Admit(call, resumed, gate).0) == m.(log := m.log + Deciding(resumed) + [LockAcquired])
  {
    AdmitsExactlyWhen(call, resumed, gate);
    AdmitLeaves(m, call, resumed, gate);
    Associate(m.log, Deciding(resumed), [LockAcquired]);
  }

  lemma LockedRunLeaves(
      tool: Tool, m: Machine, m1: Machine, call: Call, resumed: bool, max: nat, oracle: nat -> nat)
    requires m1 == m.(log := m.log + Deciding(resumed) + [LockAcquired])
    ensures
      var (steps, status) := RunTool(tool, m1, call, max, oracle);
      var (actions, s) := Attempts(tool, m.world, call, 1, max, oracle);
      status == s && LeftBy(m, TakeAll(m1, steps), call, resumed, actions, s)
  {
    RunToolLeaves(tool, m1, call, max, oracle);
  }

  lemma RunToolLeaves(tool: Tool, m: Machine, call: Call, max: nat, oracle: nat -> nat)
    ensures
      var (steps, status) := RunTool(tool, m, call, max, oracle);
      var (actions, s) := Attempts(tool, m.world, call, 1, max, oracle);
      var answering := if Ends(status) then [ToolResult(|m.log|, status, false)] else [];
      && status == s && TakeAll(m, steps).log == m.log + ([Intended(call)] + (answering + [LockReleased]))
      && TakeAll(m, steps).world == DoAll(m.world, actions) && TakeAll(m, steps).approvals == m.approvals
  {
    var (actions, status) := Attempts(tool, m.world, call, 1, max, oracle);
    Reconciliation.RunToolEvents(tool, m, call, max, oracle);
    Reconciliation.EndingEvents(|m.log|, status);
    RunInParts(m, [], tool, call, max, oracle);
    TakeActions(Take(m, AppendEvent(Intended(call))), actions);
    EndingOnlyLogs(TakeAll(Take(m, AppendEvent(Intended(call))), OnDiskAll(actions)), |m.log|, status);
    assert [ToolResult(|m.log|, status, false)] + [LockReleased] == [ToolResult(|m.log|, status, false), LockReleased];
  }

  lemma EndingOnlyLogs(m: Machine, i: nat, status: ExecutionStatus)
    ensures TakeAll(m, Ending(i, status)).world == m.world && TakeAll(m, Ending(i, status)).approvals == m.approvals
  {
    SideStepsKeepWorld(m, Ending(i, status));
    EventsKeepApprovals(m, Ending(i, status));
  }

  lemma {:induction false} EventsKeepApprovals(m: Machine, steps: seq<Step>)
    requires forall k :: 0 <= k < |steps| ==> steps[k].AppendEvent?
    ensures TakeAll(m, steps).approvals == m.approvals
    decreases |steps|
  {
    if steps != [] { EventsKeepApprovals(Take(m, steps[0]), steps[1..]); }
  }

  // ---- keys ----

  /** What the key of a call that starts is: none for a tool that changes nothing, and otherwise the one that was asked
      for, or a new one. So what is executed again is executed under its old key. */
  lemma KeyOfStartedCall(tools: Tools, m: Machine, request: Request, resumed: bool, env: Env)
    requires request.call.tool in tools && LetThrough(resumed, env.gate)
    ensures
      var effect, asked := tools[request.call.tool].sideEffect, request.call.key;
      var key := if effect == Pure || effect == Read then None else if asked.Some? then asked else Some(env.freshKey);
      var intended := |m.log| + |Deciding(resumed)| + 1;
      var log := TakeAll(m, Execute(tools, m, request, resumed, env).0).log;
      intended < |log| && log[intended] == Intended(request.call.(key := key))
  {
    StartedLeaves(tools, m, request, resumed, env);
  }

  // ---- every decision once ----

  predicate Decides(e: Event, id: nat) {
    e == ApprovalGranted(id) || e == ApprovalDenied(id)
  }

  function Decisions(log: Log, id: nat): nat {
    if log == [] then 0
    else Decisions(log[..|log| - 1], id) + if Decides(log[|log| - 1], id) then 1 else 0
  }

  lemma DecisionsSnoc(log: Log, e: Event, id: nat)
    ensures Decisions(log + [e], id) == Decisions(log, id) + if Decides(e, id) then 1 else 0
  {
    assert (log + [e])[..|log|] == log;
  }

  /** Whether the approval can still be decided: it is pending, or has not been asked for yet. */
  predicate Undecided(m: Machine, id: nat) {
    id < |m.approvals| ==> m.approvals[id].pending
  }

  /** At most one decision, counting the one that is still possible. */
  predicate DecidedOnce(m: Machine, id: nat) {
    Decisions(m.log, id) + (if Undecided(m, id) then 1 else 0) <= 1
  }

  predicate Indecisive(step: Step, id: nat) {
    !(step.AppendEvent? && Decides(step.event, id))
  }

  lemma {:induction false} IndecisiveKeepsOnce(m: Machine, steps: seq<Step>, id: nat)
    requires DecidedOnce(m, id) && forall k :: 0 <= k < |steps| ==> Indecisive(steps[k], id)
    ensures DecidedOnce(TakeAll(m, steps), id)
    decreases |steps|
  {
    if steps != [] {
      if steps[0].AppendEvent? { DecisionsSnoc(m.log, steps[0].event, id); }
      IndecisiveKeepsOnce(Take(m, steps[0]), steps[1..], id);
    }
  }

  predicate AllIndecisive(steps: seq<Step>, id: nat) {
    forall k :: 0 <= k < |steps| ==> Indecisive(steps[k], id)
  }

  lemma IndecisiveConcat(a: seq<Step>, b: seq<Step>, id: nat)
    requires AllIndecisive(a, id) && AllIndecisive(b, id)
    ensures AllIndecisive(a + b, id)
  {
  }

  lemma RunToolDecidesNothing(tool: Tool, m: Machine, call: Call, max: nat, oracle: nat -> nat, id: nat)
    ensures AllIndecisive(RunTool(tool, m, call, max, oracle).0, id)
  {
    var (actions, status) := Attempts(tool, m.world, call, 1, max, oracle);
    DiskStepsOnly(actions);
    IndecisiveConcat([AppendEvent(Intended(call))], OnDiskAll(actions), id);
    IndecisiveConcat([AppendEvent(Intended(call))] + OnDiskAll(actions), Ending(|m.log|, status), id);
  }

  lemma ExecuteDecidesNothing(tools: Tools, m: Machine, request: Request, resumed: bool, env: Env, id: nat)
    ensures AllIndecisive(Execute(tools, m, request, resumed, env).0, id)
  {
    if request.call.tool in tools {
      var call := Keyed(tools, request.call, env);
      var admitting := Admit(call, resumed, env.gate).0;
      assert AllIndecisive(admitting, id);
      RunToolDecidesNothing(tools[call.tool], TakeAll(m, admitting), call, request.retry + 1, env.oracle, id);
      IndecisiveConcat(admitting, RunTool(tools[call.tool], TakeAll(m, admitting), call, request.retry + 1, env.oracle).0, id);
    }
  }

  lemma ReconcileDecidesNothing(tools: Tools, m: Machine, env: Env, id: nat)
    ensures AllIndecisive(Reconcile(tools, m, env).0, id)
  {
    var orphan := LatestOrphan(m.log);
    if orphan.Some? && !PendingReapproval(m.log, orphan.value) && m.log[orphan.value].call.tool in tools {
      var i := orphan.value;
      var call := m.log[i].call;
      var m1 := TakeAll(m, [AppendEvent(ReconciliationStarted(i))]);
      SettlingDecidesNothing(tools, m1, tools[call.tool], i, call, env, id);
      IndecisiveConcat([AppendEvent(ReconciliationStarted(i))], ReconcileOrphan(tools, m1, tools[call.tool], i, call, env).0, id);
    }
  }

  lemma SettlingDecidesNothing(tools: Tools, m: Machine, tool: Tool, i: nat, call: Call, env: Env, id: nat)
    ensures AllIndecisive(ReconcileOrphan(tools, m, tool, i, call, env).0, id)
  {
    var querying := Query(tool, m.world, call.key).0;
    var marking := [AppendEvent(ReconciliationReexecute(i))];
    var m1 := TakeAll(m, OnDiskAll(querying));
    var (executing, outcome) := Execute(tools, TakeAll(m1, marking), Request(call, 0), false, env);
    DiskStepsOnly(querying);
    ExecuteDecidesNothing(tools, TakeAll(m1, marking), Request(call, 0), false, env, id);
    IndecisiveConcat(marking, executing, id);
    IndecisiveConcat(marking + executing, Reapproval(tool, i, outcome), id);
    forall rest: seq<Step> | AllIndecisive(rest, id) ensures AllIndecisive(OnDiskAll(querying) + rest, id) {
      IndecisiveConcat(OnDiskAll(querying), rest, id);
    }
  }

  lemma PrefixIndecisive(steps: seq<Step>, keep: nat, id: nat)
    requires AllIndecisive(steps, id)
    ensures AllIndecisive(Kept(steps, keep), id)
  {
  }

  lemma ResumeDecidesOnce(tools: Tools, m: Machine, n: nat, approved: bool, env: Env, keep: nat, id: nat)
    requires DecidedOnce(m, id)
    ensures DecidedOnce(TakeAll(m, Kept(Resume(tools, m, n, approved, env).0, keep)), id)
  {
    var steps := Resume(tools, m, n, approved, env).0;
    if n < |m.approvals| && m.approvals[n].pending {
      var e := if approved then ApprovalGranted(n) else ApprovalDenied(n);
      RestOfResume(tools, m, n, approved, env, id);
      PrefixBegins(n, e, steps, Kept(steps, keep), id);
      DecidedPrefix(m, n, e, Kept(steps, keep), id);
    } else {
      assert Kept(steps, keep) == [];
    }
  }

  /** A part of a decision closes the approval, then records it, and decides nothing else. */
  ghost predicate BeginsDecision(n: nat, e: Event, kept: seq<Step>, id: nat) {
    && (|kept| >= 1 ==> kept[0] == ResolveApproval(n))
    && (|kept| >= 2 ==> kept[1] == AppendEvent(e) && AllIndecisive(kept[2..], id))
  }

  lemma PrefixBegins(n: nat, e: Event, steps: seq<Step>, kept: seq<Step>, id: nat)
    requires |steps| >= 2 && BeginsDecision(n, e, steps, id) && kept <= steps
    ensures BeginsDecision(n, e, kept, id)
  {
    if |kept| >= 2 { PrefixOfIndecisive(steps, kept, id); }
  }

  lemma DecidedPrefix(m: Machine, n: nat, e: Event, kept: seq<Step>, id: nat)
    requires n < |m.approvals| && m.approvals[n].pending && DecidedOnce(m, id) && (Decides(e, id) ==> id == n)
    requires BeginsDecision(n, e, kept, id)
    ensures DecidedOnce(TakeAll(m, kept), id)
  {
    ClosingKeepsOnce(m, n, e, id);
    if |kept| >= 2 {
      DecidedThenRest(m, n, e, kept, id);
    } else if |kept| == 1 {
      OnlyClosed(m, n, kept, id);
    }
  }

  lemma OnlyClosed(m: Machine, n: nat, kept: seq<Step>, id: nat)
    requires |kept| == 1 && kept[0] == ResolveApproval(n) && DecidedOnce(Take(m, ResolveApproval(n)), id)
    ensures DecidedOnce(TakeAll(m, kept), id)
  {
    assert kept == [ResolveApproval(n)];
    TakeOne(m, ResolveApproval(n));
  }

  lemma DecidedThenRest(m: Machine, n: nat, e: Event, steps: seq<Step>, id: nat)
    requires |steps| >= 2 && steps[0] == ResolveApproval(n) && steps[1] == AppendEvent(e)
    requires DecidedOnce(Take(Take(m, ResolveApproval(n)), AppendEvent(e)), id) && AllIndecisive(steps[2..], id)
    ensures DecidedOnce(TakeAll(m, steps), id)
  {
    var m1 := Take(m, steps[0]);
    assert steps == [steps[0]] + ([steps[1]] + steps[2..]);
    TakeConcat(m, [steps[0]], [steps[1]] + steps[2..]);
    TakeOne(m, steps[0]);
    TakeConcat(m1, [steps[1]], steps[2..]);
    TakeOne(m1, steps[1]);
    IndecisiveKeepsOnce(Take(m1, steps[1]), steps[2..], id);
  }

  lemma ClosingKeepsOnce(m: Machine, n: nat, e: Event, id: nat)
    requires n < |m.approvals| && m.approvals[n].pending && DecidedOnce(m, id) && (Decides(e, id) ==> id == n)
    ensures DecidedOnce(Take(m, ResolveApproval(n)), id)
    ensures DecidedOnce(Take(Take(m, ResolveApproval(n)), AppendEvent(e)), id)
  {
    var closed := Take(m, ResolveApproval(n));
    assert closed.log == m.log && |closed.approvals| == |m.approvals| && !closed.approvals[n].pending;
    assert id != n ==> (Undecided(closed, id) <==> Undecided(m, id));
    DecisionsSnoc(m.log, e, id);
  }

  lemma PrefixOfIndecisive(steps: seq<Step>, kept: seq<Step>, id: nat)
    requires |kept| >= 2 && kept <= steps && AllIndecisive(steps[2..], id)
    ensures AllIndecisive(kept[2..], id)
  {
    forall k | 0 <= k < |kept[2..]| ensures Indecisive(kept[2..][k], id) {
      assert kept[2..][k] == steps[2..][k];
    }
  }

  lemma RestOfResume(tools: Tools, m: Machine, n: nat, approved: bool, env: Env, id: nat)
    requires n < |m.approvals| && m.approvals[n].pending
    ensures
      var steps := Resume(tools, m, n, approved, env).0;
      && |steps| >= 2 && steps[0] == ResolveApproval(n)
      && steps[1] == AppendEvent(if approved then ApprovalGranted(n) else ApprovalDenied(n))
      && AllIndecisive(steps[2..], id)
  {
    if approved {
      var granting := [ResolveApproval(n), AppendEvent(ApprovalGranted(n))];
      var executing := Execute(tools, TakeAll(m, granting), Request(m.approvals[n].call, 0), true, env).0;
      ExecuteDecidesNothing(tools, TakeAll(m, granting), Request(m.approvals[n].call, 0), true, env, id);
      assert (granting + executing)[2..] == executing;
    }
  }

  /** Over every run of executions, decisions and reconciliations, each cut anywhere, an approval is granted or denied at
      most once, and not both. */
  lemma {:induction false} EveryApprovalIsDecidedOnce(tools: Tools, m: Machine, rounds: seq<Round>, id: nat)
    requires DecidedOnce(m, id)
    ensures DecidedOnce(Run(tools, m, rounds), id) && Decisions(Run(tools, m, rounds).log, id) <= 1
    decreases |rounds|
  {
    if rounds != [] {
      var steps := Steps(tools, m, rounds[0]);
      match rounds[0] {
        case ResumeRound(n, approved, env, keep) => ResumeDecidesOnce(tools, m, n, approved, env, keep, id);
        case ExecuteRound(request, env, keep) =>
          ExecuteDecidesNothing(tools, m, request, false, env, id);
          PrefixIndecisive(steps, keep, id);
          IndecisiveKeepsOnce(m, Kept(steps, keep), id);
        case ReconcileRound(env, keep) =>
          ReconcileDecidesNothing(tools, m, env, id);
          PrefixIndecisive(steps, keep, id);
          IndecisiveKeepsOnce(m, Kept(steps, keep), id);
      }
      EveryApprovalIsDecidedOnce(tools, TakeAll(m, Kept(steps, rounds[0].keep)), rounds[1..], id);
    }
  }

  /** What a decision does: nothing on an approval that is not pending; a denial closes it and starts nothing; a grant
      closes it and executes its call, past the policy but not past the other checks. */
  lemma DecisionLeaves(tools: Tools, m: Machine, id: nat, approved: bool, env: Env)
    ensures
      var (steps, outcome) := Resume(tools, m, id, approved, env);
      var m' := TakeAll(m, steps);
      if id >= |m.approvals| || !m.approvals[id].pending then m' == m && outcome == Threw
      else
        var closed := m.(approvals := m.approvals[id := m.approvals[id].(pending := false)]);
        if !approved then m' == closed.(log := m.log + [ApprovalDenied(id)]) && outcome == Finished(Failed)
        else
          var granted := closed.(log := m.log + [ApprovalGranted(id)]);
          var (executing, o) := Execute(tools, granted, Request(m.approvals[id].call, 0), true, env);
          m' == TakeAll(granted, executing) && outcome == o
  {
    if id < |m.approvals| && m.approvals[id].pending {
      var e := if approved then ApprovalGranted(id) else ApprovalDenied(id);
      var two := [ResolveApproval(id), AppendEvent(e)];
      assert two == [ResolveApproval(id)] + [AppendEvent(e)];
      TakeConcat(m, [ResolveApproval(id)], [AppendEvent(e)]);
      TakeOne(m, ResolveApproval(id));
      TakeOne(Take(m, ResolveApproval(id)), AppendEvent(e));
      if approved { ResumeInParts(tools, m, [], id, env); }
    }
  }
}
