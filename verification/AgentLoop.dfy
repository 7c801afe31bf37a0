/** The agent loop (apps/daemon/src/agent/agentLoop.ts). Its only memory is the event log: every
    iteration rebuilds its state from the log and appends to it. */
module AgentLoop {
  import opened Common
  import opened Graph
  import opened Planner
  import opened StepSelection

  /** Evidence references are event or execution ids, which the verification schema requires non-blank. */
  type EventRef = s: string | s != "" witness "e"

  datatype Event =
    | IterationStarted
    | PlanRecorded(revised: bool, plan: Plan)
    | StepSelected(stepId: Id)
    | AwaitingApproval(stepId: Id)
    | StepToolResult(stepId: Id, ok: bool)
    | LoopHalted(stepId: Id)
    | StepVerification(stepId: Id, passed: bool, evidenceRefs: seq<EventRef>)
    | PlanInvalidated(stepId: Id)
    | GoalVerification(passed: bool)
    | LoopCompleted
    | Noted(kind: string)  // an event of another type, which the loop never reads back

  type Log = seq<Event>

  datatype State = State(
    plan: Option<Plan>, planInvalidated: bool, completed: set<Id>, failed: set<Id>, evidence: map<Id, seq<EventRef>>)

  // ---- state as a fold over the log ----

  const START := State(None, false, {}, {}, map[])

  function Advance(s: State, e: Event): State {
    match e
    case PlanRecorded(_, plan) => State(Some(plan), false, {}, {}, map[])
    case StepVerification(id, passed, refs) =>
      if passed then s.(completed := s.completed + {id}, failed := s.failed - {id}, evidence := s.evidence[id := refs])
      else s.(failed := s.failed + {id})
    case PlanInvalidated(_) => s.(planInvalidated := s.plan.Some?)
    case _ => s
  }

  function Fold(log: Log): State {
    if log == [] then START else Advance(Fold(log[..|log| - 1]), log[|log| - 1])
  }

  lemma FoldSnoc(log: Log, e: Event)
    ensures Fold(log + [e]) == Advance(Fold(log), e)
  {
    assert (log + [e])[..|log|] == log;
  }

  /** The scan backwards for the last plan, then forwards over what follows it, gives the fold: so
      rebuilding after an append is one step of `Advance`. */
  method Reconstruct(log: Log) returns (s: State)
    ensures s == Fold(log)
  {
    var planIndex := -1;
    var plan: Option<Plan> := None;
    var index := |log| - 1;
    while index >= 0
      invariant -1 <= index < |log|
      invariant planIndex == -1 && plan == None
      invariant forall j :: index < j < |log| ==> !log[j].PlanRecorded?
    {
      if log[index].PlanRecorded? {
        plan := Some(log[index].plan);
        planIndex := index;
        break;
      }
      index := index - 1;
    }
    var completed: set<Id>, failed: set<Id>, evidence: map<Id, seq<EventRef>> := {}, {}, map[];
    AtPlan(log, planIndex);
    ghost var invalidated := false;
    var k := planIndex + 1;
    while k < |log|
      invariant planIndex < k <= |log|
      invariant invalidated <==> planIndex != -1 && exists j :: planIndex < j < k && log[j].PlanInvalidated?
      invariant Fold(log[..k]) == State(plan, invalidated, completed, failed, evidence)
    {
      FoldTake(log, k);
      invalidated := invalidated || (planIndex != -1 && log[k].PlanInvalidated?);
      if log[k].StepVerification? {
        if log[k].passed {
          completed := completed + {log[k].stepId};
          failed := failed - {log[k].stepId};
          evidence := evidence[log[k].stepId := log[k].evidenceRefs];
        } else {
          failed := failed + {log[k].stepId};
        }
      }
      k := k + 1;
    }
    assert log[..|log|] == log;
    var planInvalidated := planIndex != -1 && exists j :: planIndex < j < |log| && log[j].PlanInvalidated?;
    s := State(plan, planInvalidated, completed, failed, evidence);
  }

  lemma FoldTake(log: Log, k: nat)
    requires k < |log|
    ensures Fold(log[..k + 1]) == Advance(Fold(log[..k]), log[k])
  {
    assert log[..k + 1][..k] == log[..k];
  }

  lemma AtPlan(log: Log, planIndex: int)
    requires -1 <= planIndex < |log|
    requires planIndex >= 0 ==> log[planIndex].PlanRecorded?
    ensures Fold(log[..planIndex + 1]) ==
            State(if planIndex >= 0 then Some(log[planIndex].plan) else None, false, {}, {}, map[])
  {
    if planIndex >= 0 { FoldTake(log, planIndex); }
  }

  predicate IsTerminal(log: Log) {
    exists i :: 0 <= i < |log| && log[i] == LoopCompleted
  }

  lemma TerminalSnoc(log: Log, e: Event)
    ensures IsTerminal(log + [e]) <==> IsTerminal(log) || e == LoopCompleted
  {
    var longer := log + [e];
    assert longer[|log|] == e;
    assert forall i :: 0 <= i < |log| ==> longer[i] == log[i];
  }

  /** Events that change neither the reconstructed state nor whether the loop is complete. */
  predicate Neutral(e: Event) {
    !e.PlanRecorded? && !e.StepVerification? && !e.PlanInvalidated? && e != LoopCompleted
  }

  lemma {:induction false} NeutralChangesNothing(log: Log, events: Log)
    requires forall k :: 0 <= k < |events| ==> Neutral(events[k])
    ensures Fold(log + events) == Fold(log) && IsTerminal(log + events) == IsTerminal(log)
    decreases |events|
  {
    if events == [] {
      assert log + events == log;
    } else {
      var n := |events| - 1;
      NeutralChangesNothing(log, events[..n]);
      assert log + events == (log + events[..n]) + [events[n]];
      FoldSnoc(log + events[..n], events[n]);
      TerminalSnoc(log + events[..n], events[n]);
    }
  }

  // ---- one iteration ----

  datatype ToolOutcome =
    | ToolThrows
    | NeedsApproval
    | Finished(ok: bool, ref: EventRef, checkHolds: bool, injection: bool)

  /** The types of the events that others append during one iteration: reconciliation, memory and context, the
      planner's model call, the tool runtime, and packing and scanning the tool's output. */
  datatype Notes = Notes(
    reconciling: seq<string>, preparing: seq<string>, planning: seq<string>, runtime: seq<string>, packing: seq<string>)

  /** What the model router and the tool runtime answer during one iteration, and what is appended meanwhile. */
  datatype Input = Input(reply: Option<Plan>, tool: ToolOutcome, notes: Notes)

  datatype Config = Config(registry: Registry, needsSecondOpinion: Step -> bool, before: IdOrder)

  datatype Status = Continued | BlockedOnApproval | StepFailed | Halted | Completed | Terminal | Threw

  const INTENDED := "tool_call_intended"

  const RESULT := "tool_call_result"

  const CHECKPOINT := Noted("checkpoint_written")

  function AllNoted(kinds: seq<string>): (events: Log)
    ensures |events| == |kinds|
    ensures forall k :: 0 <= k < |events| ==> events[k] == Noted(kinds[k])
  {
    seq(|kinds|, k requires 0 <= k < |kinds| => Noted(kinds[k]))
  }

  lemma NotedConcat(a: seq<string>, b: seq<string>)
    ensures AllNoted(a + b) == AllNoted(a) + AllNoted(b)
  {
  }

  /** What a tool call leaves in the log: the loop adds an intent and a result if the runtime recorded no intent. */
  function CallNotes(runtime: seq<string>): seq<string> {
    if INTENDED in runtime then runtime else runtime + [INTENDED, RESULT]
  }

  ghost predicate Accepts(config: Config, plan: Plan) {
    WellFormed(plan.steps)
    && forall i :: 0 <= i < |plan.steps| ==> config.registry.judge(plan.forbiddenActions, plan.steps[i]).None?
  }

  /** A step passes when its success check holds and the tool left evidence, which only an ok result does. */
  predicate StepPasses(outcome: ToolOutcome)
    requires outcome.Finished?
  {
    outcome.checkHolds && outcome.ok
  }

  predicate HasEvidence(evidence: map<Id, seq<EventRef>>) {
    exists id :: id in evidence && evidence[id] != []
  }

  /** Every criterion is given all the evidence collected, and passes when there is some. */
  predicate GoalPasses(plan: Plan, evidence: map<Id, seq<EventRef>>) {
    (plan.successCriteria == [] && plan.doneConditions == []) || HasEvidence(evidence)
  }

  function GoalEvents(plan: Plan, evidence: map<Id, seq<EventRef>>): Log {
    [GoalVerification(GoalPasses(plan, evidence)), CHECKPOINT] + if GoalPasses(plan, evidence) then [LoopCompleted] else []
  }

  function GoalStatus(plan: Plan, evidence: map<Id, seq<EventRef>>): Status {
    if GoalPasses(plan, evidence) then Completed else StepFailed
  }

  function Opening(notes: Notes): Log {
    [IterationStarted] + AllNoted(notes.reconciling)
  }

  function Preparing(notes: Notes): Log {
    Opening(notes) + AllNoted(notes.preparing)
  }

  /** The events one iteration appends to a log with the given state, in order, and the status it returns. */
  ghost function Iterate(config: Config, s: State, terminal: bool, input: Input): (Log, Status) {
    if terminal then (Opening(input.notes), Terminal)
    else
      var (events, status) :=
        if s.plan.None? || s.planInvalidated then PlanAndWork(config, s, input) else Work(config, s, s.plan.value, input);
      (Preparing(input.notes) + events, status)
  }

  /** The state right after a plan is recorded. */
  function Planned(plan: Plan): State {
    State(Some(plan), false, {}, {}, map[])
  }

  ghost function PlanAndWork(config: Config, s: State, input: Input): (Log, Status) {
    if input.reply.None? || !Accepts(config, input.reply.value) then (AllNoted(input.notes.planning), Threw)
    else
      var plan := input.reply.value;
      var (events, status) := Work(config, Planned(plan), plan, input);
      (AllNoted(input.notes.planning) + [PlanRecorded(s.plan.Some?, plan)] + events, status)
  }

  /** Select, execute, verify: the part of an iteration that has a plan. */
  function Work(config: Config, s: State, plan: Plan, input: Input): (Log, Status) {
    match SelectNextStep(config.before, plan.steps, s.completed, s.failed)
    case Deadlock => ([], Threw)
    case Goal => (GoalEvents(plan, s.evidence), GoalStatus(plan, s.evidence))
    case Selected(step) => Attempt(config, s, plan, step, input)
  }

  function Called(step: Step, runtime: seq<string>): Log {
    [StepSelected(step.stepId)] + AllNoted(runtime)
  }

  function Executed(step: Step, ok: bool, notes: Notes): Log {
    Called(step, CallNotes(notes.runtime)) + ([StepToolResult(step.stepId, ok)] + AllNoted(notes.packing))
  }

  function Attempt(config: Config, s: State, plan: Plan, step: Step, input: Input): (Log, Status) {
    match input.tool
    case ToolThrows => (Called(step, input.notes.runtime), Threw)
    case NeedsApproval =>
      (Called(step, CallNotes(input.notes.runtime)) + [AwaitingApproval(step.stepId)], BlockedOnApproval)
    case Finished(ok, _, _, _) =>
      var (events, status) := Judge(config, s, plan, step, input.tool);
      (Executed(step, ok, input.notes) + events, status)
  }

  /** The verdict on a finished call, and what the loop concludes from it. */
  function Judge(config: Config, s: State, plan: Plan, step: Step, tool: ToolOutcome): (Log, Status)
    requires tool.Finished?
  {
    if tool.injection then ([LoopHalted(step.stepId)], Halted)
    else if StepPasses(tool) then
      var passed := StepVerification(step.stepId, true, [tool.ref]);
      var (events, status) := Conclude(config, Advance(s, passed), plan);
      ([passed] + events, status)
    else if config.needsSecondOpinion(step) then ([], Threw)
    else (FailureEvents(step, tool.ok, tool.ref), StepFailed)
  }

  /** After a passing verification: another step remains, or the goal is checked at once. */
  function Conclude(config: Config, s: State, plan: Plan): (Log, Status) {
    match SelectNextStep(config.before, plan.steps, s.completed, s.failed)
    case Goal => (GoalEvents(plan, s.evidence), GoalStatus(plan, s.evidence))
    case Deadlock => ([], Threw)
    case Selected(_) => ([CHECKPOINT], Continued)
  }

  function FailureEvents(step: Step, ok: bool, ref: EventRef): Log {
    [StepVerification(step.stepId, false, if ok then [ref] else []), PlanInvalidated(step.stepId)]
  }

  class AgentLoop {
    const config: Config
    var log: Log

    constructor (config: Config)
      ensures this.config == config && log == []
    {
      this.config := config;
      log := [];
    }

    method Append(e: Event)
      modifies this
      ensures log == old(log) + [e]
      ensures Fold(log) == Advance(Fold(old(log)), e)
      ensures IsTerminal(log) == (IsTerminal(old(log)) || e == LoopCompleted)
    {
      FoldSnoc(log, e);
      TerminalSnoc(log, e);
      log := log + [e];
    }

    /** Others append events of these types. */
    method Note(kinds: seq<string>)
      modifies this
      ensures log == old(log) + AllNoted(kinds)
      ensures Fold(log) == Fold(old(log)) && IsTerminal(log) == IsTerminal(old(log))
    {
      NeutralChangesNothing(log, AllNoted(kinds));
      log := log + AllNoted(kinds);
    }

    method RunIteration(input: Input) returns (status: Status)
      modifies this
      ensures log == old(log) + Iterate(config, Fold(old(log)), IsTerminal(old(log)), input).0
      ensures status == Iterate(config, Fold(old(log)), IsTerminal(old(log)), input).1
    {
      ghost var log0 := log;
      Append(IterationStarted);
      Note(input.notes.reconciling);
      Associate(log0, [IterationStarted], AllNoted(input.notes.reconciling));
      var s := Reconstruct(log);
      if IsTerminal(log) {
        return Terminal;
      }
      Note(input.notes.preparing);
      Associate(log0, Opening(input.notes), AllNoted(input.notes.preparing));
      if s.plan.None? || s.planInvalidated {
        status := PlanAndWorkOn(s, input);
        Associate(log0, Preparing(input.notes), PlanAndWork(config, s, input).0);
      } else {
        status := WorkOn(s.plan.value, input);
        Associate(log0, Preparing(input.notes), Work(config, s, s.plan.value, input).0);
      }
    }

    method PlanAndWorkOn(s: State, input: Input) returns (status: Status)
      modifies this
      ensures log == old(log) + PlanAndWork(config, s, input).0
      ensures status == PlanAndWork(config, s, input).1
    {
      ghost var log0 := log;
      Note(input.notes.planning);
      if input.reply.None? {
        return Threw;
      }
      var validated := ValidatePlan(input.reply.value, config.registry);
      if validated.Err? {
        return Threw;
      }
      ghost var planning := AllNoted(input.notes.planning);
      var recorded := PlanRecorded(s.plan.Some?, validated.value);
      Append(recorded);
      Associate(log0, planning, [recorded]);
      status := WorkOn(validated.value, input);
      Associate(log0, planning + [recorded], Work(config, Planned(validated.value), validated.value, input).0);
    }

    method WorkOn(plan: Plan, input: Input) returns (status: Status)
      modifies this
      ensures log == old(log) + Work(config, Fold(old(log)), plan, input).0
      ensures status == Work(config, Fold(old(log)), plan, input).1
    {
      var s := Reconstruct(log);
      match SelectNextStep(config.before, plan.steps, s.completed, s.failed)
      case Deadlock =>
        assert log + [] == log;
        status := Threw;
      case Goal =>
        status := VerifyGoalAndComplete(plan, s);
      case Selected(step) =>
        status := AttemptStep(plan, step, input);
    }

    /** The tool call, with the intent and result that are added when the runtime recorded no intent. */
    method ExecuteStep(step: Step, input: Input)
      modifies this
      ensures Fold(log) == Fold(old(log))
      ensures log == old(log) + AllNoted(if input.tool.ToolThrows? then input.notes.runtime else CallNotes(input.notes.runtime))
    {
      ghost var log0 := log;
      Note(input.notes.runtime);
      if !input.tool.ToolThrows? && INTENDED !in input.notes.runtime {
        Note([INTENDED, RESULT]);
        Associate(log0, AllNoted(input.notes.runtime), AllNoted([INTENDED, RESULT]));
        NotedConcat(input.notes.runtime, [INTENDED, RESULT]);
      }
    }

    /** The event that names the step, and its call. */
    method SelectAndCall(step: Step, input: Input)
      modifies this
      ensures Fold(log) == Fold(old(log))
      ensures log == old(log) + Called(step, if input.tool.ToolThrows? then input.notes.runtime else CallNotes(input.notes.runtime))
    {
      ghost var log0 := log;
      Append(StepSelected(step.stepId));
      ExecuteStep(step, input);
      Associate(log0, [StepSelected(step.stepId)],
                AllNoted(if input.tool.ToolThrows? then input.notes.runtime else CallNotes(input.notes.runtime)));
    }

    /** A finished call's result, and the packing and scanning of its output. */
    method RecordResult(step: Step, ok: bool, packing: seq<string>)
      modifies this
      ensures Fold(log) == Fold(old(log))
      ensures log == old(log) + ([StepToolResult(step.stepId, ok)] + AllNoted(packing))
    {
      ghost var log0 := log;
      Append(StepToolResult(step.stepId, ok));
      Note(packing);
      Associate(log0, [StepToolResult(step.stepId, ok)], AllNoted(packing));
    }

    method AttemptStep(plan: Plan, step: Step, input: Input) returns (status: Status)
      modifies this
      ensures log == old(log) + Attempt(config, Fold(old(log)), plan, step, input).0
      ensures status == Attempt(config, Fold(old(log)), plan, step, input).1
    {
      ghost var log0 := log;
      SelectAndCall(step, input);
      match input.tool
      case ToolThrows =>
        status := Threw;
      case NeedsApproval =>
        Append(AwaitingApproval(step.stepId));
        Associate(log0, Called(step, CallNotes(input.notes.runtime)), [AwaitingApproval(step.stepId)]);
        status := BlockedOnApproval;
      case Finished(ok, _, _, _) =>
        RecordResult(step, ok, input.notes.packing);
        Associate(log0, Called(step, CallNotes(input.notes.runtime)),
                  [StepToolResult(step.stepId, ok)] + AllNoted(input.notes.packing));
        status := JudgeStep(plan, step, input.tool);
        Associate(log0, Executed(step, ok, input.notes), Judge(config, Fold(log0), plan, step, input.tool).0);
    }

    method JudgeStep(plan: Plan, step: Step, tool: ToolOutcome) returns (status: Status)
      requires tool.Finished?
      modifies this
      ensures log == old(log) + Judge(config, Fold(old(log)), plan, step, tool).0
      ensures status == Judge(config, Fold(old(log)), plan, step, tool).1
    {
      ghost var log0 := log;
      if tool.injection {
        Append(LoopHalted(step.stepId));
        return Halted;
      }
      var passed := StepPasses(tool);
      if config.needsSecondOpinion(step) && !passed {
        assert log + [] == log;
        return Threw;
      }
      var verification := StepVerification(step.stepId, passed, if tool.ok then [tool.ref] else []);
      Append(verification);
      if !passed {
        Append(PlanInvalidated(step.stepId));
        assert log == log0 + FailureEvents(step, tool.ok, tool.ref);
        return StepFailed;
      }
      status := ConcludeStep(plan);
      Associate(log0, [verification], Conclude(config, Advance(Fold(log0), verification), plan).0);
    }

    method ConcludeStep(plan: Plan) returns (status: Status)
      modifies this
      ensures log == old(log) + Conclude(config, Fold(old(log)), plan).0
      ensures status == Conclude(config, Fold(old(log)), plan).1
    {
      var after := Reconstruct(log);
      var next := SelectNextStep(config.before, plan.steps, after.completed, after.failed);
      if next.Goal? {
        status := VerifyGoalAndComplete(plan, after);
        return;
      }
      if next.Deadlock? {
        assert log + [] == log;
        return Threw;
      }
      Append(CHECKPOINT);
      status := Continued;
    }

    method VerifyGoalAndComplete(plan: Plan, s: State) returns (status: Status)
      modifies this
      ensures log == old(log) + GoalEvents(plan, s.evidence)
      ensures status == GoalStatus(plan, s.evidence)
    {
      ghost var log0 := log;
      var passed := GoalPasses(plan, s.evidence);
      Append(GoalVerification(passed));
      Append(CHECKPOINT);
      if passed {
        Append(LoopCompleted);
        assert log == log0 + GoalEvents(plan, s.evidence);
        return Completed;
      }
      assert log == log0 + GoalEvents(plan, s.evidence);
      return StepFailed;
    }

    /** Iterates until an iteration neither continues nor fails a step, at most `|inputs|` times. */
    method RunUntilBlockedOrComplete(inputs: seq<Input>) returns (status: Status, iterations: nat)
      modifies this
      ensures (log, status, iterations) == RunLoop(config, old(log), inputs, 0, Continued)
    {
      status, iterations := Continued, 0;
      while iterations < |inputs|
        invariant iterations <= |inputs|
        invariant RunLoop(config, old(log), inputs, 0, Continued) == RunLoop(config, log, inputs, iterations, status)
      {
        status := RunIteration(inputs[iterations]);
        iterations := iterations + 1;
        if status != Continued && status != StepFailed {
          return;
        }
      }
    }
  }

  ghost function RunLoop(config: Config, log: Log, inputs: seq<Input>, i: nat, last: Status): (Log, Status, nat)
    requires i <= |inputs|
    decreases |inputs| - i
  {
    if i == |inputs| then (log, last, i)
    else
      var (events, status) := Iterate(config, Fold(log), IsTerminal(log), inputs[i]);
      if status != Continued && status != StepFailed then (log + events, status, i + 1)
      else RunLoop(config, log + events, inputs, i + 1, status)
  }
}
