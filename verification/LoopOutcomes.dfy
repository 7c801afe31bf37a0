/** What one iteration of the agent loop records, event by event, and that in every run a step counts as passed or failed
    only when a call of it was judged so. */
module LoopOutcomes {
  import opened Common
  import opened Graph
  import opened Planner
  import opened StepSelection
  import opened AgentLoop
  import opened AgentLoopSafety

  /** The plan an iteration works on and the state it starts from: the standing plan, or a new one that is accepted. */
  ghost function InForce(config: Config, s: State, terminal: bool, reply: Option<Plan>): Option<(State, Plan)> {
    if terminal then None
    else if s.plan.Some? && !s.planInvalidated then Some((s, s.plan.value))
    else if reply.Some? && Accepts(config, reply.value) then Some((Planned(reply.value), reply.value))
    else None
  }

  function NextOf(config: Config, s: State, plan: Plan): Selection {
    SelectNextStep(config.before, plan.steps, s.completed, s.failed)
  }

  /** The step that an iteration calls, if it calls one. */
  ghost function CalledStep(config: Config, s: State, terminal: bool, reply: Option<Plan>): Option<Step> {
    match InForce(config, s, terminal, reply)
    case None => None
    case Some((s1, plan)) => if NextOf(config, s1, plan).Selected? then Some(NextOf(config, s1, plan).step) else None
  }

  /** The call is over and nothing in its output tries to give orders. */
  predicate IsJudged(tool: ToolOutcome) {
    tool.Finished? && !tool.injection
  }

  predicate IsPassing(tool: ToolOutcome) {
    IsJudged(tool) && tool.ok && tool.checkHolds
  }

  /** A step that needs two verdicts is not failed by them: the loop stops instead. */
  predicate IsFailing(config: Config, step: Step, tool: ToolOutcome) {
    IsJudged(tool) && !(tool.ok && tool.checkHolds) && !config.needsSecondOpinion(step)
  }

  /** The state after a passing verdict. */
  function Passed(s: State, id: Id, ref: EventRef): State {
    s.(completed := s.completed + {id}, failed := s.failed - {id}, evidence := s.evidence[id := [ref]])
  }

  predicate ShowsEnough(plan: Plan, evidence: map<Id, seq<EventRef>>) {
    (plan.successCriteria == [] && plan.doneConditions == []) || exists id :: id in evidence && evidence[id] != []
  }

  /** The evidence with which an iteration checks the goal, if it does: nothing was left to do, or nothing is after its
      step has passed. */
  function GoalChecked(config: Config, s: State, plan: Plan, tool: ToolOutcome): Option<map<Id, seq<EventRef>>> {
    match NextOf(config, s, plan)
    case Goal => Some(s.evidence)
    case Deadlock => None
    case Selected(step) =>
      if IsPassing(tool) && NextOf(config, Passed(s, step.stepId, tool.ref), plan) == Goal
      then Some(Passed(s, step.stepId, tool.ref).evidence) else None
  }

  /** The goal's verdict on this evidence, and completion when it is enough. */
  ghost predicate ChecksGoal(plan: Plan, evidence: map<Id, seq<EventRef>>, e: Event) {
    e == GoalVerification(ShowsEnough(plan, evidence)) || (e == LoopCompleted && ShowsEnough(plan, evidence))
  }

  /** When the work on a plan records an event. */
  ghost predicate Due(config: Config, s: State, plan: Plan, input: Input, e: Event) {
    var selection, tool := NextOf(config, s, plan), input.tool;
    match e
    case StepSelected(id) => selection.Selected? && selection.step.stepId == id
    case AwaitingApproval(id) => selection.Selected? && selection.step.stepId == id && tool.NeedsApproval?
    case StepToolResult(id, ok) => selection.Selected? && selection.step.stepId == id && tool.Finished? && tool.ok == ok
    case LoopHalted(id) => selection.Selected? && selection.step.stepId == id && tool.Finished? && tool.injection
    case StepVerification(id, passed, refs) =>
      && selection.Selected? && selection.step.stepId == id
      && (if passed then IsPassing(tool) && refs == [tool.ref]
          else IsFailing(config, selection.step, tool) && refs == if tool.ok then [tool.ref] else [])
    case PlanInvalidated(id) => selection.Selected? && selection.step.stepId == id && IsFailing(config, selection.step, tool)
    case GoalVerification(_) =>
      GoalChecked(config, s, plan, tool).Some? && ChecksGoal(plan, GoalChecked(config, s, plan, tool).value, e)
    case LoopCompleted =>
      GoalChecked(config, s, plan, tool).Some? && ChecksGoal(plan, GoalChecked(config, s, plan, tool).value, e)
    case _ => false
  }

  /** When an iteration records an event of its own: a new plan when one is due and the reply is accepted, and what is due
      on the plan in force. */
  ghost predicate Warranted(config: Config, s: State, terminal: bool, input: Input, e: Event) {
    match e
    case PlanRecorded(revised, plan) =>
      && !terminal && (s.plan.None? || s.planInvalidated)
      && input.reply == Some(plan) && Accepts(config, plan) && revised == s.plan.Some?
    case _ =>
      var work := InForce(config, s, terminal, input.reply);
      work.Some? && Due(config, work.value.0, work.value.1, input, e)
  }

  predicate Own(e: Event) {
    !e.Noted? && !e.IterationStarted?
  }

  /** The own events of a list are these. */
  ghost predicate Records(events: Log, e: Event, warranted: bool) {
    Own(e) ==> (e in events <==> warranted)
  }

  lemma InConcat(a: Log, b: Log, e: Event)
    ensures e in a + b <==> e in a || e in b
  {
  }

  lemma NotedOwnsNothing(kinds: seq<string>, e: Event)
    requires Own(e)
    ensures e !in AllNoted(kinds)
  {
  }

  lemma PreparingOwnsNothing(notes: Notes, e: Event)
    requires Own(e)
    ensures e !in Preparing(notes) && e !in Opening(notes)
  {
    NotedOwnsNothing(notes.reconciling, e);
    NotedOwnsNothing(notes.preparing, e);
    InConcat([IterationStarted], AllNoted(notes.reconciling), e);
    InConcat(Opening(notes), AllNoted(notes.preparing), e);
  }

  lemma GoalRecords(plan: Plan, evidence: map<Id, seq<EventRef>>, e: Event)
    requires Own(e)
    ensures e in GoalEvents(plan, evidence) <==> ChecksGoal(plan, evidence, e)
  {
    assert ShowsEnough(plan, evidence) <==> GoalPasses(plan, evidence);
    InConcat([GoalVerification(GoalPasses(plan, evidence)), CHECKPOINT],
             if GoalPasses(plan, evidence) then [LoopCompleted] else [], e);
  }

  lemma ConcludeRecords(config: Config, s: State, plan: Plan, e: Event)
    requires Own(e)
    ensures e in Conclude(config, s, plan).0 <==> NextOf(config, s, plan) == Goal && ChecksGoal(plan, s.evidence, e)
  {
    GoalRecords(plan, s.evidence, e);
  }

  /** What a verdict records, of what is due. */
  ghost predicate JudgeRecordsDue(config: Config, s: State, plan: Plan, step: Step, input: Input, e: Event)
    requires input.tool.Finished?
  {
    e in Judge(config, s, plan, step, input.tool).0 <==>
    Due(config, s, plan, input, e) && !e.StepSelected? && !e.StepToolResult?
  }

  lemma JudgeRecords(config: Config, s: State, plan: Plan, step: Step, input: Input, e: Event)
    requires Own(e) && input.tool.Finished? && NextOf(config, s, plan) == Selected(step)
    ensures JudgeRecordsDue(config, s, plan, step, input, e)
  {
    if IsPassing(input.tool) {
      PassRecordsDue(config, s, plan, step, input, e);
    } else if IsFailing(config, step, input.tool) {
      FailureRecordsDue(config, s, plan, step, input, e);
    } else {
      HaltRecordsDue(config, s, plan, step, input, e);
    }
  }

  lemma HaltRecordsDue(config: Config, s: State, plan: Plan, step: Step, input: Input, e: Event)
    requires Own(e) && input.tool.Finished? && NextOf(config, s, plan) == Selected(step)
    requires !IsPassing(input.tool) && !IsFailing(config, step, input.tool)
    ensures JudgeRecordsDue(config, s, plan, step, input, e)
  {
    var halting := if input.tool.injection then [LoopHalted(step.stepId)] else [];
    assert Judge(config, s, plan, step, input.tool).0 == halting;
  }

  lemma FailureRecordsDue(config: Config, s: State, plan: Plan, step: Step, input: Input, e: Event)
    requires Own(e) && NextOf(config, s, plan) == Selected(step) && IsFailing(config, step, input.tool)
    ensures JudgeRecordsDue(config, s, plan, step, input, e)
  {
    var refs := if input.tool.ok then [input.tool.ref] else [];
    assert Judge(config, s, plan, step, input.tool).0
           == [StepVerification(step.stepId, false, refs), PlanInvalidated(step.stepId)];
  }

  lemma PassRecordsDue(config: Config, s: State, plan: Plan, step: Step, input: Input, e: Event)
    requires Own(e) && NextOf(config, s, plan) == Selected(step) && IsPassing(input.tool)
    ensures JudgeRecordsDue(config, s, plan, step, input, e)
  {
    PassRecords(config, s, plan, step, input.tool, e);
    PassIsDue(config, s, plan, step, input, e);
  }

  /** What a passing verdict records: itself, and the goal's verdict and completion when nothing is left to do. */
  ghost predicate AfterPass(config: Config, s: State, plan: Plan, step: Step, tool: ToolOutcome, e: Event)
    requires tool.Finished?
  {
    var s' := Passed(s, step.stepId, tool.ref);
    || e == StepVerification(step.stepId, true, [tool.ref])
    || (NextOf(config, s', plan) == Goal && ChecksGoal(plan, s'.evidence, e))
  }

  lemma PassIsDue(config: Config, s: State, plan: Plan, step: Step, input: Input, e: Event)
    requires Own(e) && NextOf(config, s, plan) == Selected(step) && IsPassing(input.tool)
    ensures AfterPass(config, s, plan, step, input.tool, e)
            <==> Due(config, s, plan, input, e) && !e.StepSelected? && !e.StepToolResult?
  {
    GoalCheckedAfterPass(config, s, plan, step, input.tool);
    match e
    case StepVerification(_, _, _) =>
    case GoalVerification(_) =>
    case LoopCompleted =>
    case _ =>
  }

  lemma GoalCheckedAfterPass(config: Config, s: State, plan: Plan, step: Step, tool: ToolOutcome)
    requires NextOf(config, s, plan) == Selected(step) && IsPassing(tool)
    ensures
      var s' := Passed(s, step.stepId, tool.ref);
      GoalChecked(config, s, plan, tool) == if NextOf(config, s', plan) == Goal then Some(s'.evidence) else None
  {
  }

  lemma PassRecords(config: Config, s: State, plan: Plan, step: Step, tool: ToolOutcome, e: Event)
    requires Own(e) && IsPassing(tool)
    ensures e in Judge(config, s, plan, step, tool).0 <==> AfterPass(config, s, plan, step, tool, e)
  {
    var passed, s' := StepVerification(step.stepId, true, [tool.ref]), Passed(s, step.stepId, tool.ref);
    assert Advance(s, passed) == s';
    ConcludeRecords(config, s', plan, e);
    InConcat([passed], Conclude(config, s', plan).0, e);
  }

  lemma ExecutedRecords(step: Step, ok: bool, notes: Notes, e: Event)
    requires Own(e)
    ensures e in Executed(step, ok, notes) <==> e == StepSelected(step.stepId) || e == StepToolResult(step.stepId, ok)
    ensures e in Called(step, notes.runtime) <==> e == StepSelected(step.stepId)
    ensures e in Called(step, CallNotes(notes.runtime)) <==> e == StepSelected(step.stepId)
  {
    NotedOwnsNothing(notes.runtime, e);
    NotedOwnsNothing(CallNotes(notes.runtime), e);
    NotedOwnsNothing(notes.packing, e);
    InConcat([StepSelected(step.stepId)], AllNoted(notes.runtime), e);
    InConcat([StepSelected(step.stepId)], AllNoted(CallNotes(notes.runtime)), e);
    InConcat([StepToolResult(step.stepId, ok)], AllNoted(notes.packing), e);
    InConcat(Called(step, CallNotes(notes.runtime)), [StepToolResult(step.stepId, ok)] + AllNoted(notes.packing), e);
  }

  lemma AttemptRecords(config: Config, s: State, plan: Plan, step: Step, input: Input, e: Event)
    requires Own(e) && NextOf(config, s, plan) == Selected(step)
    ensures e in Attempt(config, s, plan, step, input).0 <==> Due(config, s, plan, input, e)
  {
    match input.tool
    case ToolThrows => ExecutedRecords(step, true, input.notes, e);
    case NeedsApproval =>
      ExecutedRecords(step, true, input.notes, e);
      InConcat(Called(step, CallNotes(input.notes.runtime)), [AwaitingApproval(step.stepId)], e);
    case Finished(ok, _, _, _) =>
      ExecutedRecords(step, ok, input.notes, e);
      JudgeRecords(config, s, plan, step, input, e);
      InConcat(Executed(step, ok, input.notes), Judge(config, s, plan, step, input.tool).0, e);
  }

  lemma WorkIsRecorded(config: Config, s: State, plan: Plan, input: Input, e: Event)
    requires Own(e)
    ensures e in Work(config, s, plan, input).0 <==> Due(config, s, plan, input, e)
  {
    match NextOf(config, s, plan)
    case Deadlock =>
    case Goal => GoalRecords(plan, s.evidence, e);
    case Selected(step) => AttemptRecords(config, s, plan, step, input, e);
  }

  lemma PlanningRecords(config: Config, s: State, input: Input, e: Event)
    requires Own(e)
    ensures e in PlanAndWork(config, s, input).0 <==>
            && input.reply.Some? && Accepts(config, input.reply.value)
            && (|| e == PlanRecorded(s.plan.Some?, input.reply.value)
                || Due(config, Planned(input.reply.value), input.reply.value, input, e))
  {
    NotedOwnsNothing(input.notes.planning, e);
    if input.reply.Some? && Accepts(config, input.reply.value) {
      var plan := input.reply.value;
      var recorded, work := [PlanRecorded(s.plan.Some?, plan)], Work(config, Planned(plan), plan, input).0;
      WorkIsRecorded(config, Planned(plan), plan, input, e);
      InConcat(AllNoted(input.notes.planning), recorded, e);
      InConcat(AllNoted(input.notes.planning) + recorded, work, e);
    }
  }

  lemma StandingRecords(config: Config, s: State, input: Input, e: Event)
    requires Own(e) && s.plan.Some? && !s.planInvalidated
    ensures e in Iterate(config, s, false, input).0 <==> Due(config, s, s.plan.value, input, e)
  {
    PreparingOwnsNothing(input.notes, e);
    WorkIsRecorded(config, s, s.plan.value, input, e);
    InConcat(Preparing(input.notes), Work(config, s, s.plan.value, input).0, e);
  }

  lemma ReplanningRecords(config: Config, s: State, input: Input, e: Event)
    requires Own(e) && (s.plan.None? || s.planInvalidated)
    ensures e in Iterate(config, s, false, input).0 <==> e in PlanAndWork(config, s, input).0
  {
    PreparingOwnsNothing(input.notes, e);
    InConcat(Preparing(input.notes), PlanAndWork(config, s, input).0, e);
  }

  /** An iteration records an event of its own if and only if it is warranted: a new plan when one was due and the reply
      is accepted; the selected step; its call's end; a halt when its output gives orders; a verdict otherwise; an
      invalidation with a failure; and the goal's verdict, with completion, when nothing is left to do. */
  lemma RecordsExactlyWhen(config: Config, s: State, terminal: bool, input: Input, e: Event)
    requires Own(e)
    ensures e in Iterate(config, s, terminal, input).0 <==> Warranted(config, s, terminal, input, e)
  {
    if terminal {
      PreparingOwnsNothing(input.notes, e);
    } else if s.plan.None? || s.planInvalidated {
      ReplanningRecords(config, s, input, e);
      PlanningRecords(config, s, input, e);
    } else {
      StandingRecords(config, s, input, e);
    }
  }

  /** What the iteration answers. */
  lemma AnswersExactlyWhen(config: Config, s: State, terminal: bool, input: Input)
    ensures
      var status := Iterate(config, s, terminal, input).1;
      var step, work := CalledStep(config, s, terminal, input.reply), InForce(config, s, terminal, input.reply);
      var tool := input.tool;
      var goal := if work.Some? then GoalChecked(config, work.value.0, work.value.1, tool) else None;
      && (status == Terminal <==> terminal)
      && (status == Halted <==> step.Some? && tool.Finished? && tool.injection)
      && (status == BlockedOnApproval <==> step.Some? && tool.NeedsApproval?)
      && (status == Completed <==> goal.Some? && ShowsEnough(work.value.1, goal.value))
      && (status == StepFailed <==>
            (goal.Some? && !ShowsEnough(work.value.1, goal.value)) || (step.Some? && IsFailing(config, step.value, tool)))
      && (status == Continued <==>
            && step.Some? && IsPassing(tool)
            && NextOf(config, Passed(work.value.0, step.value.stepId, tool.ref), work.value.1).Selected?)
  {
    if terminal {
    } else if s.plan.None? || s.planInvalidated {
      if input.reply.Some? && Accepts(config, input.reply.value) {
        WorkAnswers(config, Planned(input.reply.value), input.reply.value, input);
      }
    } else {
      WorkAnswers(config, s, s.plan.value, input);
    }
  }

  /** What the work on a plan answers. */
  ghost predicate AnswersWork(config: Config, s: State, plan: Plan, tool: ToolOutcome, status: Status) {
    var selection, goal := NextOf(config, s, plan), GoalChecked(config, s, plan, tool);
    && status != Terminal
    && (status == Halted <==> selection.Selected? && tool.Finished? && tool.injection)
    && (status == BlockedOnApproval <==> selection.Selected? && tool.NeedsApproval?)
    && (status == Completed <==> goal.Some? && ShowsEnough(plan, goal.value))
    && (status == StepFailed <==>
          (goal.Some? && !ShowsEnough(plan, goal.value)) || (selection.Selected? && IsFailing(config, selection.step, tool)))
    && (status == Continued <==>
          && selection.Selected? && IsPassing(tool)
          && NextOf(config, Passed(s, selection.step.stepId, tool.ref), plan).Selected?)
  }

  lemma WorkAnswers(config: Config, s: State, plan: Plan, input: Input)
    ensures AnswersWork(config, s, plan, input.tool, Work(config, s, plan, input).1)
  {
    match NextOf(config, s, plan)
    case Deadlock =>
    case Goal => assert ShowsEnough(plan, s.evidence) <==> GoalPasses(plan, s.evidence);
    case Selected(step) => if input.tool.Finished? { JudgeAnswers(config, s, plan, step, input.tool); }
  }

  lemma JudgeAnswers(config: Config, s: State, plan: Plan, step: Step, tool: ToolOutcome)
    requires tool.Finished? && NextOf(config, s, plan) == Selected(step)
    ensures AnswersWork(config, s, plan, tool, Judge(config, s, plan, step, tool).1)
  {
    if IsPassing(tool) {
      var s' := Passed(s, step.stepId, tool.ref);
      assert Advance(s, StepVerification(step.stepId, true, [tool.ref])) == s';
      ConcludeAnswers(config, s', plan);
    }
  }

  lemma ConcludeAnswers(config: Config, s: State, plan: Plan)
    ensures
      Conclude(config, s, plan).1 ==
      match NextOf(config, s, plan)
      case Goal => (if ShowsEnough(plan, s.evidence) then Completed else StepFailed)
      case Deadlock => Threw
      case Selected(_) => Continued
  {
    assert ShowsEnough(plan, s.evidence) <==> GoalPasses(plan, s.evidence);
  }

  // ---- what surrounds a call and a verdict ----

  /** A call that does not throw leaves an intent in the log, between its selection and its end: those that the runtime
      recorded, or one of the loop's own with a result. */
  ghost predicate CallLogged(step: Step, runtime: seq<string>, events: Log, before: Log, kinds: seq<string>, after: Log) {
    && events == before + ([StepSelected(step.stepId)] + (AllNoted(kinds) + after))
    && after != [] && (after[0] == AwaitingApproval(step.stepId) || (after[0].StepToolResult? && after[0].stepId == step.stepId))
    && (if INTENDED in runtime then kinds == runtime
        else runtime < kinds && multiset(kinds)[INTENDED] == 1 && kinds[|kinds| - 1] == RESULT)
  }

  lemma AttemptIsLogged(config: Config, s: State, plan: Plan, step: Step, input: Input) returns (after: Log)
    requires !input.tool.ToolThrows?
    ensures CallLogged(step, input.notes.runtime, Attempt(config, s, plan, step, input).0,
                       [], CallNotes(input.notes.runtime), after)
  {
    var noted := AllNoted(CallNotes(input.notes.runtime));
    match input.tool
    case NeedsApproval =>
      after := [AwaitingApproval(step.stepId)];
      Regrouped(step, noted, after, []);
    case Finished(ok, _, _, _) =>
      var ended := [StepToolResult(step.stepId, ok)] + AllNoted(input.notes.packing);
      var judged := Judge(config, s, plan, step, input.tool).0;
      after := ended + judged;
      Regrouped(step, noted, ended, judged);
  }

  lemma Regrouped(step: Step, noted: Log, a: Log, b: Log)
    ensures [StepSelected(step.stepId)] + noted + a + b == [] + ([StepSelected(step.stepId)] + (noted + (a + b)))
    ensures [StepSelected(step.stepId)] + noted + a == [] + ([StepSelected(step.stepId)] + (noted + a))
  {
  }

  lemma LoggedAfter(step: Step, runtime: seq<string>, before: Log, events: Log, kinds: seq<string>, after: Log)
    requires CallLogged(step, runtime, events, [], kinds, after)
    ensures CallLogged(step, runtime, before + events, before, kinds, after)
  {
    NothingAround([StepSelected(step.stepId)] + (AllNoted(kinds) + after));
  }

  lemma StandingCall(config: Config, s: State, input: Input, step: Step)
    requires s.plan.Some? && !s.planInvalidated && NextOf(config, s, s.plan.value) == Selected(step)
    ensures Iterate(config, s, false, input).0
            == Preparing(input.notes) + Attempt(config, s, s.plan.value, step, input).0
  {
  }

  lemma FirstCall(config: Config, s: State, input: Input, plan: Plan, step: Step)
    requires (s.plan.None? || s.planInvalidated) && input.reply == Some(plan) && Accepts(config, plan)
    requires NextOf(config, Planned(plan), plan) == Selected(step)
    ensures Iterate(config, s, false, input).0
            == Preparing(input.notes) + (AllNoted(input.notes.planning) + [PlanRecorded(s.plan.Some?, plan)])
               + Attempt(config, Planned(plan), plan, step, input).0
  {
    var noted, recorded := AllNoted(input.notes.planning), [PlanRecorded(s.plan.Some?, plan)];
    Associate(Preparing(input.notes), noted + recorded, Attempt(config, Planned(plan), plan, step, input).0);
  }

  /** Every call that does not throw is logged so. */
  lemma EveryCallHasAnIntent(config: Config, s: State, terminal: bool, input: Input)
    returns (before: Log, kinds: seq<string>, after: Log)
    requires CalledStep(config, s, terminal, input.reply).Some? && !input.tool.ToolThrows?
    ensures CallLogged(CalledStep(config, s, terminal, input.reply).value, input.notes.runtime,
                       Iterate(config, s, terminal, input).0, before, kinds, after)
  {
    var step := CalledStep(config, s, terminal, input.reply).value;
    var (s1, plan) := InForce(config, s, terminal, input.reply).value;
    kinds := CallNotes(input.notes.runtime);
    after := AttemptIsLogged(config, s1, plan, step, input);
    if s.plan.Some? && !s.planInvalidated {
      before := Preparing(input.notes);
      StandingCall(config, s, input, step);
    } else {
      before := Preparing(input.notes) + (AllNoted(input.notes.planning) + [PlanRecorded(s.plan.Some?, plan)]);
      FirstCall(config, s, input, plan, step);
    }
    LoggedAfter(step, input.notes.runtime, before, Attempt(config, s1, plan, step, input).0, kinds, after);
  }

  predicate EndsWith(events: Log, tail: Log) {
    |tail| <= |events| && events[|events| - |tail|..] == tail
  }

  /** A checkpoint ends an iteration after which the loop continues, and follows every verdict on the goal. */
  function Tail(status: Status, goalFails: bool): Log {
    if status == Continued then [CHECKPOINT]
    else if status == Completed then [GoalVerification(true), CHECKPOINT, LoopCompleted]
    else if goalFails then [GoalVerification(false), CHECKPOINT]
    else []
  }

  ghost predicate GoalFails(config: Config, s: State, plan: Plan, tool: ToolOutcome) {
    GoalChecked(config, s, plan, tool).Some? && !ShowsEnough(plan, GoalChecked(config, s, plan, tool).value)
  }

  lemma EndsAlike(a: Log, b: Log, tail: Log)
    requires EndsWith(b, tail)
    ensures EndsWith(a + b, tail)
  {
  }

  lemma GoalEnds(plan: Plan, evidence: map<Id, seq<EventRef>>)
    ensures EndsWith(GoalEvents(plan, evidence), Tail(GoalStatus(plan, evidence), !ShowsEnough(plan, evidence)))
    ensures GoalStatus(plan, evidence) == if ShowsEnough(plan, evidence) then Completed else StepFailed
  {
    assert ShowsEnough(plan, evidence) <==> GoalPasses(plan, evidence);
    NothingAround([GoalVerification(GoalPasses(plan, evidence)), CHECKPOINT]);
  }

  lemma ConcludeEnds(config: Config, s: State, plan: Plan)
    ensures
      var (events, status) := Conclude(config, s, plan);
      EndsWith(events, Tail(status, NextOf(config, s, plan) == Goal && !ShowsEnough(plan, s.evidence)))
  {
    if NextOf(config, s, plan) == Goal { GoalEnds(plan, s.evidence); }
  }

  lemma PassEnds(config: Config, s: State, plan: Plan, step: Step, tool: ToolOutcome)
    requires NextOf(config, s, plan) == Selected(step) && IsPassing(tool)
    ensures JudgedEnds(config, s, plan, step, tool)
  {
    var s' := Passed(s, step.stepId, tool.ref);
    var passed := StepVerification(step.stepId, true, [tool.ref]);
    assert Advance(s, passed) == s';
    var (events, status) := Conclude(config, s', plan);
    assert Judge(config, s, plan, step, tool) == ([passed] + events, status);
    ConcludeEnds(config, s', plan);
    GoalCheckedAfterPass(config, s, plan, step, tool);
    EndsAlike([passed], events, Tail(status, GoalFails(config, s, plan, tool)));
  }

  ghost predicate JudgedEnds(config: Config, s: State, plan: Plan, step: Step, tool: ToolOutcome)
    requires tool.Finished?
  {
    var (events, status) := Judge(config, s, plan, step, tool);
    EndsWith(events, Tail(status, GoalFails(config, s, plan, tool)))
  }

  lemma NoPassNoGoal(config: Config, s: State, plan: Plan, step: Step, tool: ToolOutcome)
    requires NextOf(config, s, plan) == Selected(step) && !IsPassing(tool)
    ensures !GoalFails(config, s, plan, tool)
  {
  }

  lemma NothingEnds(events: Log, status: Status)
    requires status != Continued && status != Completed
    ensures EndsWith(events, Tail(status, false))
  {
  }

  lemma JudgeEnds(config: Config, s: State, plan: Plan, step: Step, tool: ToolOutcome)
    requires tool.Finished? && NextOf(config, s, plan) == Selected(step)
    ensures JudgedEnds(config, s, plan, step, tool)
  {
    if IsPassing(tool) {
      PassEnds(config, s, plan, step, tool);
    } else {
      var (events, status) := Judge(config, s, plan, step, tool);
      NoPassNoGoal(config, s, plan, step, tool);
      NothingEnds(events, status);
    }
  }

  lemma AttemptEnds(config: Config, s: State, plan: Plan, step: Step, input: Input)
    requires NextOf(config, s, plan) == Selected(step)
    ensures
      var (events, status) := Attempt(config, s, plan, step, input);
      EndsWith(events, Tail(status, GoalFails(config, s, plan, input.tool)))
  {
    if input.tool.Finished? {
      var (events, status) := Judge(config, s, plan, step, input.tool);
      JudgeEnds(config, s, plan, step, input.tool);
      EndsAlike(Executed(step, input.tool.ok, input.notes), events, Tail(status, GoalFails(config, s, plan, input.tool)));
    } else {
      NoPassNoGoal(config, s, plan, step, input.tool);
      NothingEnds(Attempt(config, s, plan, step, input).0, Attempt(config, s, plan, step, input).1);
    }
  }

  lemma WorkEnds(config: Config, s: State, plan: Plan, input: Input)
    ensures
      var (events, status) := Work(config, s, plan, input);
      EndsWith(events, Tail(status, GoalFails(config, s, plan, input.tool)))
  {
    match NextOf(config, s, plan)
    case Deadlock => NothingEnds([], Threw);
    case Goal => GoalEnds(plan, s.evidence);
    case Selected(step) => AttemptEnds(config, s, plan, step, input);
  }

  lemma ReplannedEnds(config: Config, s: State, input: Input, plan: Plan, tail: Log)
    requires (s.plan.None? || s.planInvalidated) && input.reply == Some(plan) && Accepts(config, plan)
    requires EndsWith(Work(config, Planned(plan), plan, input).0, tail)
    ensures EndsWith(Iterate(config, s, false, input).0, tail)
    ensures Iterate(config, s, false, input).1 == Work(config, Planned(plan), plan, input).1
  {
    var recorded := AllNoted(input.notes.planning) + [PlanRecorded(s.plan.Some?, plan)];
    EndsAlike(recorded, Work(config, Planned(plan), plan, input).0, tail);
    EndsAlike(Preparing(input.notes), recorded + Work(config, Planned(plan), plan, input).0, tail);
  }

  lemma StandingEnds(config: Config, s: State, input: Input, tail: Log)
    requires s.plan.Some? && !s.planInvalidated && EndsWith(Work(config, s, s.plan.value, input).0, tail)
    ensures EndsWith(Iterate(config, s, false, input).0, tail)
    ensures Iterate(config, s, false, input).1 == Work(config, s, s.plan.value, input).1
  {
    EndsAlike(Preparing(input.notes), Work(config, s, s.plan.value, input).0, tail);
  }

  /** An iteration that works on a plan ends so. */
  lemma EveryVerdictIsCheckpointed(config: Config, s: State, terminal: bool, input: Input)
    requires InForce(config, s, terminal, input.reply).Some?
    ensures
      var (s1, plan) := InForce(config, s, terminal, input.reply).value;
      var (events, status) := Iterate(config, s, terminal, input);
      EndsWith(events, Tail(status, GoalFails(config, s1, plan, input.tool)))
  {
    var (s1, plan) := InForce(config, s, terminal, input.reply).value;
    var tail := Tail(Work(config, s1, plan, input).1, GoalFails(config, s1, plan, input.tool));
    WorkEnds(config, s1, plan, input);
    if s.plan.Some? && !s.planInvalidated {
      StandingEnds(config, s, input, tail);
    } else {
      ReplannedEnds(config, s, input, plan, tail);
    }
  }

  // ---- an output that gives orders ----

  /** Whatever the check of the step would have said, an output that gives orders halts the loop: nothing is verified,
      invalidated or completed, and the state is that before the call. */
  lemma InjectionHalts(config: Config, log: Log, input: Input)
    requires input.tool.Finished? && input.tool.injection
    requires CalledStep(config, Fold(log), IsTerminal(log), input.reply).Some?
    ensures
      var s := Fold(log);
      var (events, status) := Iterate(config, s, false, input);
      && status == Halted
      && (forall e :: e in events ==> !e.StepVerification? && !e.PlanInvalidated? && e != LoopCompleted)
      && Fold(log + events) == InForce(config, s, false, input.reply).value.0 && !IsTerminal(log + events)
  {
    var events := Iterate(config, Fold(log), false, input).0;
    AnswersExactlyWhen(config, Fold(log), false, input);
    forall e | e in events && Own(e) ensures Warranted(config, Fold(log), false, input, e) {
      RecordsExactlyWhen(config, Fold(log), false, input, e);
    }
    InjectionWarrantsNothing(config, Fold(log), input, events);
    InjectionKeepsState(config, log, input);
  }

  lemma InjectionWarrantsNothing(config: Config, s: State, input: Input, events: Log)
    requires input.tool.Finished? && input.tool.injection && CalledStep(config, s, false, input.reply).Some?
    requires forall e :: e in events && Own(e) ==> Warranted(config, s, false, input, e)
    ensures forall e :: e in events ==> !e.StepVerification? && !e.PlanInvalidated? && e != LoopCompleted
  {
    forall e | e in events ensures !e.StepVerification? && !e.PlanInvalidated? && e != LoopCompleted {
      if Own(e) { assert Warranted(config, s, false, input, e); }
    }
  }

  lemma InjectionKeepsState(config: Config, log: Log, input: Input)
    requires input.tool.Finished? && input.tool.injection && !IsTerminal(log)
    requires CalledStep(config, Fold(log), false, input.reply).Some?
    ensures
      var log' := log + Iterate(config, Fold(log), false, input).0;
      Fold(log') == InForce(config, Fold(log), false, input.reply).value.0 && !IsTerminal(log')
  {
    var s := Fold(log);
    if s.plan.Some? && !s.planInvalidated {
      InjectedWorkIsNeutral(config, s, s.plan.value, input);
      NeutralAround(log, Preparing(input.notes), Work(config, s, s.plan.value, input).0);
    } else {
      InjectionKeepsPlan(config, log, input.reply.value, input);
    }
  }

  lemma InjectionKeepsPlan(config: Config, log: Log, plan: Plan, input: Input)
    requires input.tool.Finished? && input.tool.injection && !IsTerminal(log)
    requires input.reply == Some(plan) && Accepts(config, plan) && NextOf(config, Planned(plan), plan).Selected?
    ensures
      var log' := log + (Preparing(input.notes) + PlanAndWork(config, Fold(log), input).0);
      Fold(log') == Planned(plan) && !IsTerminal(log')
  {
    InjectedWorkIsNeutral(config, Planned(plan), plan, input);
    NewPlanOnly(log, Preparing(input.notes), AllNoted(input.notes.planning), Fold(log).plan.Some?, plan,
                Work(config, Planned(plan), plan, input).0);
  }

  ghost predicate AllNeutral(events: Log) {
    forall k :: 0 <= k < |events| ==> Neutral(events[k])
  }

  lemma InjectedWorkIsNeutral(config: Config, s: State, plan: Plan, input: Input)
    requires input.tool.Finished? && input.tool.injection && NextOf(config, s, plan).Selected?
    ensures AllNeutral(Work(config, s, plan, input).0)
  {
    var events := Work(config, s, plan, input).0;
    forall k | 0 <= k < |events| ensures Neutral(events[k]) {
      if Own(events[k]) { WorkIsRecorded(config, s, plan, input, events[k]); }
    }
  }

  lemma NeutralAround(log: Log, before: Log, work: Log)
    requires AllNeutral(before) && AllNeutral(work)
    ensures Fold(log + (before + work)) == Fold(log) && IsTerminal(log + (before + work)) == IsTerminal(log)
  {
    NeutralChangesNothing(log, before + work);
  }

  /** With a new plan the state is that plan's. */
  lemma NewPlanOnly(log: Log, preparing: Log, planning: Log, revised: bool, plan: Plan, work: Log)
    requires AllNeutral(preparing) && AllNeutral(planning) && AllNeutral(work) && !IsTerminal(log)
    ensures
      var log' := log + (preparing + (planning + [PlanRecorded(revised, plan)] + work));
      Fold(log') == Planned(plan) && !IsTerminal(log')
  {
    var e := PlanRecorded(revised, plan);
    PlanRegrouped(log, preparing, planning, [e], work);
    NeutralChangesNothing(log, preparing + planning);
    FoldSnoc(log + (preparing + planning), e);
    TerminalSnoc(log + (preparing + planning), e);
    NeutralChangesNothing(log + (preparing + planning) + [e], work);
  }

  lemma PlanRegrouped(log: Log, a: Log, b: Log, c: Log, d: Log)
    ensures log + (a + (b + c + d)) == log + (a + b) + c + d
  {
  }

  // ---- in every run ----

  /** The iteration calls the step and its call is judged, to have passed or failed. */
  ghost predicate JudgedFrom(config: Config, s: State, terminal: bool, input: Input, id: Id, passed: bool) {
    var step := CalledStep(config, s, terminal, input.reply);
    && step.Some? && step.value.stepId == id
    && (if passed then IsPassing(input.tool) else IsFailing(config, step.value, input.tool))
  }

  ghost predicate Judges(config: Config, log: Log, round: Round, id: Id, passed: bool) {
    JudgedFrom(config, Fold(log), IsTerminal(log), round.input, id, passed)
  }

  ghost predicate JudgedAt(config: Config, log: Log, rounds: seq<Round>, k: nat, id: Id, passed: bool)
    requires k < |rounds|
  {
    Judges(config, Run(config, log, rounds[..k]), rounds[k], id, passed)
  }

  ghost predicate JudgedInRun(config: Config, log: Log, rounds: seq<Round>, id: Id, passed: bool) {
    exists k :: 0 <= k < |rounds| && JudgedAt(config, log, rounds, k, id, passed)
  }

  function Verdicts(s: State, passed: bool): set<Id> {
    if passed then s.completed else s.failed
  }

  /** A verdict in the state is that of an event or was there before. */
  lemma {:induction false} VerdictsComeFromEvents(log: Log, events: Log, id: Id, passed: bool)
    requires id in Verdicts(Fold(log + events), passed)
    ensures id in Verdicts(Fold(log), passed) || exists refs :: StepVerification(id, passed, refs) in events
    decreases |events|
  {
    if events == [] {
      NothingAround(log);
    } else {
      var n := |events| - 1;
      var e := events[n];
      assert log + events == log + events[..n] + [e];
      FoldSnoc(log + events[..n], e);
      if e.StepVerification? && e.stepId == id && e.passed == passed {
        assert StepVerification(id, passed, e.evidenceRefs) in events;
      } else {
        VerdictsComeFromEvents(log, events[..n], id, passed);
      }
    }
  }

  lemma VerdictIsJudged(
      config: Config, s: State, terminal: bool, input: Input, id: Id, passed: bool, refs: seq<EventRef>)
    requires StepVerification(id, passed, refs) in Iterate(config, s, terminal, input).0
    ensures JudgedFrom(config, s, terminal, input, id, passed)
  {
    RecordsExactlyWhen(config, s, terminal, input, StepVerification(id, passed, refs));
  }

  lemma RoundJudges(config: Config, log: Log, round: Round, id: Id, passed: bool)
    requires id in Verdicts(Fold(log + Kept(config, log, round)), passed)
    ensures id in Verdicts(Fold(log), passed) || Judges(config, log, round, id, passed)
  {
    var kept := Kept(config, log, round);
    VerdictsComeFromEvents(log, kept, id, passed);
    if refs :| StepVerification(id, passed, refs) in kept {
      assert kept <= Iterate(config, Fold(log), IsTerminal(log), round.input).0;
      VerdictIsJudged(config, Fold(log), IsTerminal(log), round.input, id, passed, refs);
    }
  }

  lemma JudgedLater(config: Config, log: Log, rounds: seq<Round>, id: Id, passed: bool)
    requires rounds != [] && JudgedInRun(config, log + Kept(config, log, rounds[0]), rounds[1..], id, passed)
    ensures JudgedInRun(config, log, rounds, id, passed)
  {
    var next := log + Kept(config, log, rounds[0]);
    var k :| 0 <= k < |rounds[1..]| && JudgedAt(config, next, rounds[1..], k, id, passed);
    FirstThenRest(config, log, rounds, k);
    assert JudgedAt(config, log, rounds, k + 1, id, passed);
  }

  lemma FirstThenRest(config: Config, log: Log, rounds: seq<Round>, k: nat)
    requires k + 1 < |rounds|
    ensures
      var next := log + Kept(config, log, rounds[0]);
      Run(config, log, rounds[..k + 1]) == Run(config, next, rounds[1..][..k]) && rounds[1..][k] == rounds[k + 1]
  {
    assert rounds[..k + 1][1..] == rounds[1..][..k];
  }

  /** In every run with crashes between any two appends, a step has passed, or failed, only if it had before, or one of
      the iterations called it, its call ended without giving orders, and it was judged so. */
  lemma {:induction false} EveryVerdictWasEarned(config: Config, log: Log, rounds: seq<Round>, id: Id, passed: bool)
    requires id in Verdicts(Fold(Run(config, log, rounds)), passed)
    ensures id in Verdicts(Fold(log), passed) || JudgedInRun(config, log, rounds, id, passed)
    decreases |rounds|
  {
    if rounds != [] {
      var next := log + Kept(config, log, rounds[0]);
      EveryVerdictWasEarned(config, next, rounds[1..], id, passed);
      if id in Verdicts(Fold(next), passed) {
        RoundJudges(config, log, rounds[0], id, passed);
        if Judges(config, log, rounds[0], id, passed) {
          assert rounds[..0] == [] && JudgedAt(config, log, rounds, 0, id, passed);
        }
      } else {
        JudgedLater(config, log, rounds, id, passed);
      }
    }
  }

  /** Every call of the step that ends in the run gives orders. */
  ghost predicate OnlyInjected(config: Config, log: Log, rounds: seq<Round>, id: Id) {
    forall k :: 0 <= k < |rounds| ==> InjectedAt(config, log, rounds, k, id)
  }

  ghost predicate InjectedAt(config: Config, log: Log, rounds: seq<Round>, k: nat, id: Id)
    requires k < |rounds|
  {
    var before := Run(config, log, rounds[..k]);
    var step := CalledStep(config, Fold(before), IsTerminal(before), rounds[k].input.reply);
    step.Some? && step.value.stepId == id && rounds[k].input.tool.Finished? ==> rounds[k].input.tool.injection
  }

  /** A step all of whose calls give orders is never completed and never failed, and the loop does not complete over it,
      in any run with crashes. */
  lemma InjectedNeverCompletes(config: Config, log: Log, rounds: seq<Round>, id: Id)
    requires Sane(See(log)) && id !in Fold(log).completed && id !in Fold(log).failed
    requires OnlyInjected(config, log, rounds, id)
    ensures
      var log' := Run(config, log, rounds);
      var s := Fold(log');
      && id !in s.completed && id !in s.failed
      && (s.plan.Some? && id in IdSet(s.plan.value.steps) ==> !IsTerminal(log'))
  {
    InjectedIsNotJudged(config, log, rounds, id, true);
    InjectedIsNotJudged(config, log, rounds, id, false);
    LoopSafety(config, log, rounds);
  }

  lemma InjectedIsNotJudged(config: Config, log: Log, rounds: seq<Round>, id: Id, passed: bool)
    requires id !in Verdicts(Fold(log), passed) && OnlyInjected(config, log, rounds, id)
    ensures id !in Verdicts(Fold(Run(config, log, rounds)), passed)
  {
    forall k | 0 <= k < |rounds| ensures !JudgedAt(config, log, rounds, k, id, passed) {
      assert InjectedAt(config, log, rounds, k, id);
    }
    if id in Verdicts(Fold(Run(config, log, rounds)), passed) {
      EveryVerdictWasEarned(config, log, rounds, id, passed);
    }
  }

  // ---- until it is blocked or complete ----

  predicate GoesOn(status: Status) {
    status == Continued || status == StepFailed
  }

  /** The log that an iteration leaves, and its answer. */
  ghost function Iteration(config: Config): (Input, Log) -> (Log, Status) {
    (input, log) =>
      (log + Iterate(config, Fold(log), IsTerminal(log), input).0, Iterate(config, Fold(log), IsTerminal(log), input).1)
  }

  ghost predicate GoesAt(
      step: (Input, Log) -> (Log, Status), inputs: seq<Input>, logs: seq<Log>, statuses: seq<Status>, k: nat)
    requires k < |statuses| <= |inputs| && |logs| == |statuses| + 1
  {
    step(inputs[k], logs[k]) == (logs[k + 1], statuses[k])
  }

  /** Iterations one after the other, each but the last answering that the loop goes on. */
  ghost predicate Iterations(
      step: (Input, Log) -> (Log, Status), inputs: seq<Input>, logs: seq<Log>, statuses: seq<Status>)
  {
    && |logs| == |statuses| + 1 && |statuses| <= |inputs|
    && (forall k :: 0 <= k < |statuses| ==> GoesAt(step, inputs, logs, statuses, k))
    && (forall k :: 0 <= k < |statuses| - 1 ==> GoesOn(statuses[k]))
  }

  lemma OneMoreIteration(step: (Input, Log) -> (Log, Status), inputs: seq<Input>, logs: seq<Log>, statuses: seq<Status>)
    requires Iterations(step, inputs, logs, statuses) && |statuses| < |inputs|
    requires statuses != [] ==> GoesOn(statuses[|statuses| - 1])
    ensures
      var (log, status) := step(inputs[|statuses|], logs[|statuses|]);
      Iterations(step, inputs, logs + [log], statuses + [status])
  {
    var (log, status) := step(inputs[|statuses|], logs[|statuses|]);
    forall k | 0 <= k < |statuses| + 1 ensures GoesAt(step, inputs, logs + [log], statuses + [status], k) {
      if k < |statuses| { assert GoesAt(step, inputs, logs, statuses, k); }
    }
  }

  /** From here the loop takes one step, and stops unless that says to go on. */
  ghost predicate LoopsFrom(step: (Input, Log) -> (Log, Status), loop: (Log, nat, Status) -> (Log, Status, nat),
                            inputs: seq<Input>, log: Log, i: nat, last: Status) {
    if i >= |inputs| then loop(log, i, last) == (log, last, i)
    else
      var (log', status) := step(inputs[i], log);
      loop(log, i, last) == if GoesOn(status) then loop(log', i + 1, status) else (log', status, i + 1)
  }

  lemma {:induction false} LoopGoesOn(
      step: (Input, Log) -> (Log, Status), loop: (Log, nat, Status) -> (Log, Status, nat),
      inputs: seq<Input>, before: seq<Log>, answered: seq<Status>, last: Status)
    returns (logs: seq<Log>, statuses: seq<Status>)
    requires forall log, i, last :: LoopsFrom(step, loop, inputs, log, i, last)
    requires Iterations(step, inputs, before, answered) && (answered != [] ==> GoesOn(last) && last == answered[|answered| - 1])
    ensures
      var (log, status, n) := loop(before[|answered|], |answered|, last);
      && Iterations(step, inputs, logs, statuses) && n == |statuses| >= |answered| && logs[0] == before[0] && logs[n] == log
      && status == (if n == 0 then last else statuses[n - 1]) && (n < |inputs| ==> n > 0 && !GoesOn(status))
    decreases |inputs| - |answered|
  {
    var i := |answered|;
    assert LoopsFrom(step, loop, inputs, before[i], i, last);
    if i < |inputs| {
      var (log, status) := step(inputs[i], before[i]);
      OneMoreIteration(step, inputs, before, answered);
      logs, statuses := before + [log], answered + [status];
      if GoesOn(status) { logs, statuses := LoopGoesOn(step, loop, inputs, logs, statuses, status); }
    } else {
      logs, statuses := before, answered;
    }
  }

  ghost function Looping(config: Config, inputs: seq<Input>): (Log, nat, Status) -> (Log, Status, nat) {
    (log, i: nat, last) => if i <= |inputs| then RunLoop(config, log, inputs, i, last) else (log, last, i)
  }

  lemma RunLoopStep(config: Config, inputs: seq<Input>, log: Log, i: nat, last: Status)
    requires i < |inputs|
    ensures
      var (events, status) := Iterate(config, Fold(log), IsTerminal(log), inputs[i]);
      RunLoop(config, log, inputs, i, last) ==
      if GoesOn(status) then RunLoop(config, log + events, inputs, i + 1, status) else (log + events, status, i + 1)
  {
  }

  lemma IterationIs(config: Config, input: Input, log: Log, events: Log, status: Status)
    requires (events, status) == Iterate(config, Fold(log), IsTerminal(log), input)
    ensures Iteration(config)(input, log) == (log + events, status)
  {
  }

  lemma LoopingIs(config: Config, inputs: seq<Input>, log: Log, i: nat, last: Status)
    ensures Looping(config, inputs)(log, i, last)
            == if i <= |inputs| then RunLoop(config, log, inputs, i, last) else (log, last, i)
  {
  }

  lemma RunLoopLoops(config: Config, inputs: seq<Input>, log: Log, i: nat, last: Status)
    ensures LoopsFrom(Iteration(config), Looping(config, inputs), inputs, log, i, last)
  {
    LoopingIs(config, inputs, log, i, last);
    if i < |inputs| {
      var (events, status) := Iterate(config, Fold(log), IsTerminal(log), inputs[i]);
      RunLoopStep(config, inputs, log, i, last);
      IterationIs(config, inputs[i], log, events, status);
      LoopingIs(config, inputs, log + events, i + 1, status);
    }
  }

  /** How a loop goes from a log to a log, an answer and a number of iterations. */
  ghost predicate LoopsTo(step: (Input, Log) -> (Log, Status), inputs: seq<Input>, logs: seq<Log>, statuses: seq<Status>,
                          log: Log, end: (Log, Status, nat)) {
    var (log', status, n) := end;
    && Iterations(step, inputs, logs, statuses) && n == |statuses| && logs[0] == log && logs[n] == log'
    && status == (if n == 0 then Continued else statuses[n - 1]) && (n < |inputs| ==> n > 0 && !GoesOn(status))
  }

  lemma LoopStops(step: (Input, Log) -> (Log, Status), loop: (Log, nat, Status) -> (Log, Status, nat),
                  inputs: seq<Input>, log: Log)
    returns (logs: seq<Log>, statuses: seq<Status>)
    requires forall log, i, last :: LoopsFrom(step, loop, inputs, log, i, last)
    ensures LoopsTo(step, inputs, logs, statuses, log, loop(log, 0, Continued))
  {
    logs, statuses := LoopGoesOn(step, loop, inputs, [log], [], Continued);
  }

  /** The loop ends with the first iteration that does not answer that it goes on, or with the limit, and answers with the
      status of its last iteration. */
  lemma LoopStopsExactlyWhen(config: Config, log: Log, inputs: seq<Input>) returns (logs: seq<Log>, statuses: seq<Status>)
    ensures LoopsTo(Iteration(config), inputs, logs, statuses, log, RunLoop(config, log, inputs, 0, Continued))
  {
    forall log, i, last ensures LoopsFrom(Iteration(config), Looping(config, inputs), inputs, log, i, last) {
      RunLoopLoops(config, inputs, log, i, last);
    }
    logs, statuses := LoopStops(Iteration(config), Looping(config, inputs), inputs, log);
  }
}
