/** What holds in every run of the agent loop, with the daemon dying between any two appends. */
module AgentLoopSafety {
  import opened Common
  import opened Graph
  import opened Planner
  import opened StepSelection
  import opened AgentLoop

  // ---- what an iteration sees of the log ----

  /** The reconstructed state, whether the loop is complete, and whether the log ends in a failed verification. */
  datatype View = View(state: State, terminal: bool, torn: bool)

  function See(log: Log): View {
    View(Fold(log), IsTerminal(log), log != [] && IsFailure(log[|log| - 1]))
  }

  predicate IsFailure(e: Event) {
    e.StepVerification? && !e.passed
  }

  function StepView(v: View, e: Event): View {
    View(Advance(v.state, e), v.terminal || e == LoopCompleted, IsFailure(e))
  }

  function StepAll(v: View, events: Log): View
    decreases |events|
  {
    if events == [] then v else StepAll(StepView(v, events[0]), events[1..])
  }

  lemma SeeSnoc(log: Log, e: Event)
    ensures See(log + [e]) == StepView(See(log), e)
  {
    FoldSnoc(log, e);
    TerminalSnoc(log, e);
  }

  lemma {:induction false} SeeAll(log: Log, events: Log)
    ensures See(log + events) == StepAll(See(log), events)
    decreases |events|
  {
    if events == [] {
      assert log + events == log;
    } else {
      SeeSnoc(log, events[0]);
      SeeAll(log + [events[0]], events[1..]);
      assert log + events == (log + [events[0]]) + events[1..];
    }
  }

  lemma {:induction false} StepConcat(v: View, a: Log, b: Log)
    ensures StepAll(v, a + b) == StepAll(StepAll(v, a), b)
    decreases |a|
  {
    if a == [] {
      assert a + b == b;
    } else {
      assert (a + b)[1..] == a[1..] + b;
      StepConcat(StepView(v, a[0]), a[1..], b);
    }
  }

  predicate AllNeutral(events: Log) {
    forall k :: 0 <= k < |events| ==> Neutral(events[k])
  }

  lemma {:induction false} NeutralKeepsView(v: View, events: Log)
    requires AllNeutral(events)
    ensures StepAll(v, events).state == v.state && StepAll(v, events).terminal == v.terminal
    decreases |events|
  {
    if events != [] { NeutralKeepsView(StepView(v, events[0]), events[1..]); }
  }

  lemma ExecutedIsNeutral(step: Step, ok: bool, notes: Notes)
    ensures AllNeutral(Executed(step, ok, notes))
  {
  }

  lemma PreparingIsNeutral(notes: Notes)
    ensures AllNeutral(Preparing(notes))
  {
  }

  // ---- runs ----

  /** One iteration of which the first `keep` appends reach the log before the daemon dies
      (all of them if `keep` is large enough). */
  datatype Round = Round(input: Input, keep: nat)

  ghost function EventsOf(config: Config, v: View, input: Input): Log {
    Iterate(config, v.state, v.terminal, input).0
  }

  function Cut(events: Log, keep: nat): Log {
    events[..if keep < |events| then keep else |events|]
  }

  ghost function Kept(config: Config, log: Log, round: Round): Log {
    Cut(EventsOf(config, See(log), round.input), round.keep)
  }

  ghost function Run(config: Config, log: Log, rounds: seq<Round>): Log
    decreases |rounds|
  {
    if rounds == [] then log else Run(config, log + Kept(config, log, rounds[0]), rounds[1..])
  }

  // ---- the invariant, one append at a time ----

  ghost predicate Healthy(s: State) {
    match s.plan
    case None => s.completed == {} && s.failed == {} && s.evidence == map[]
    case Some(plan) =>
      && WellFormed(plan.steps)
      && s.completed <= IdSet(plan.steps) && s.failed <= IdSet(plan.steps) && s.completed !! s.failed
      && ClosedUnderDependencies(plan.steps, s.completed)
      && s.evidence.Keys == s.completed
      && forall id :: id in s.evidence ==> s.evidence[id] != []
  }

  /** Every step of the current plan has been verified, one way or the other. */
  ghost predicate Exhausted(s: State) {
    s.plan.Some? && IdSet(s.plan.value.steps) <= s.completed + s.failed
  }

  /** Every step of the current plan has a passing verification with evidence. */
  ghost predicate AllVerified(s: State) {
    s.plan.Some? && forall id :: id in IdSet(s.plan.value.steps) ==>
      id in s.completed && id in s.evidence && s.evidence[id] != []
  }

  ghost predicate Sane(v: View) {
    Healthy(v.state) && (v.terminal ==> Exhausted(v.state))
  }

  /** No step failed beyond those of `known`, or a new plan is due. */
  ghost predicate Covered(s: State, known: set<Id>) {
    s.failed <= known || s.planInvalidated
  }

  /** The invariant inside an iteration that works with the failed steps `known`: completion finds exactly these failed,
      and a new failure is the last event or has invalidated the plan. */
  ghost predicate Inside(v: View, known: set<Id>) {
    && Sane(v) && (v.terminal ==> v.state.failed == known)
    && (Covered(v.state, known) || v.torn)
  }

  /** The appends that the loop may make. */
  ghost predicate Legal(v: View, e: Event, known: set<Id>) {
    var s := v.state;
    && (Covered(s, known) || e.PlanInvalidated?)
    && match e
       case PlanRecorded(_, plan) => !v.terminal && WellFormed(plan.steps)
       case StepVerification(id, passed, refs) => !v.terminal && MayVerify(s, id, passed, refs)
       case LoopCompleted => Exhausted(s) && s.failed == known
       case _ => true
  }

  /** A step of the plan may be verified when it was not before; it passes with evidence, after its dependencies. */
  ghost predicate MayVerify(s: State, id: Id, passed: bool, refs: seq<EventRef>) {
    && s.plan.Some? && id !in s.completed && id !in s.failed
    && (exists i :: 0 <= i < |s.plan.value.steps| && VerifiedStep(s, s.plan.value.steps[i], id, passed))
    && (passed ==> refs != [])
  }

  ghost predicate VerifiedStep(s: State, step: Step, id: Id, passed: bool) {
    step.stepId == id && (passed ==> forall d :: d in step.dependsOn ==> d in s.completed)
  }

  lemma VerificationKeepsHealthy(s: State, id: Id, passed: bool, refs: seq<EventRef>)
    requires Healthy(s) && MayVerify(s, id, passed, refs)
    ensures Healthy(Advance(s, StepVerification(id, passed, refs)))
  {
    var steps := s.plan.value.steps;
    var i :| 0 <= i < |steps| && VerifiedStep(s, steps[i], id, passed);
    assert Ids(steps)[i] == id;
    if passed {
      CompletingKeepsClosed(steps, i, s.completed);
      PassKeepsHealthy(s, id, refs);
    } else {
      FailureKeepsHealthy(s, id, refs);
    }
  }

  lemma PassKeepsHealthy(s: State, id: Id, refs: seq<EventRef>)
    requires Healthy(s) && s.plan.Some? && id in IdSet(s.plan.value.steps) && id !in s.completed && refs != []
    requires ClosedUnderDependencies(s.plan.value.steps, s.completed + {id})
    ensures Healthy(Advance(s, StepVerification(id, true, refs)))
  {
  }

  lemma FailureKeepsHealthy(s: State, id: Id, refs: seq<EventRef>)
    requires Healthy(s) && s.plan.Some? && id in IdSet(s.plan.value.steps) && id !in s.completed
    ensures Healthy(Advance(s, StepVerification(id, false, refs)))
  {
  }

  lemma CompletingKeepsClosed(steps: seq<Step>, i: nat, completed: set<Id>)
    requires NoDuplicates(Ids(steps)) && i < |steps|
    requires ClosedUnderDependencies(steps, completed)
    requires forall d :: d in steps[i].dependsOn ==> d in completed
    ensures ClosedUnderDependencies(steps, completed + {steps[i].stepId})
  {
    ByIdHasSteps(steps, i);
  }

  lemma LegalKeepsInside(v: View, e: Event, known: set<Id>)
    requires Inside(v, known) && Legal(v, e, known)
    ensures Inside(StepView(v, e), known)
  {
    if e.StepVerification? {
      VerificationKeepsHealthy(v.state, e.stepId, e.passed, e.evidenceRefs);
    }
  }

  ghost predicate AllLegal(v: View, events: Log, known: set<Id>)
    decreases |events|
  {
    events != [] ==> Legal(v, events[0], known) && AllLegal(StepView(v, events[0]), events[1..], known)
  }

  /** The invariant holds wherever a list of legal appends is cut. */
  lemma {:induction false} LegalPrefixKeepsInside(v: View, events: Log, known: set<Id>, k: nat)
    requires Inside(v, known) && AllLegal(v, events, known) && k <= |events|
    ensures Inside(StepAll(v, events[..k]), known)
    decreases |events|
  {
    if k > 0 {
      LegalKeepsInside(v, events[0], known);
      LegalPrefixKeepsInside(StepView(v, events[0]), events[1..], known, k - 1);
      assert events[..k][1..] == events[1..][..k - 1];
    }
  }

  lemma {:induction false} LegalConcat(v: View, a: Log, b: Log, known: set<Id>)
    requires AllLegal(v, a, known) && AllLegal(StepAll(v, a), b, known)
    ensures AllLegal(v, a + b, known)
    decreases |a|
  {
    if a == [] {
      assert a + b == b;
    } else {
      LegalConcat(StepView(v, a[0]), a[1..], b, known);
      assert (a + b)[1..] == a[1..] + b;
    }
  }

  lemma {:induction false} NeutralIsLegal(v: View, events: Log, known: set<Id>)
    requires Covered(v.state, known) && AllNeutral(events)
    ensures AllLegal(v, events, known)
    decreases |events|
  {
    if events != [] { NeutralIsLegal(StepView(v, events[0]), events[1..], known); }
  }

  /** Neutral events, and then legal ones. */
  lemma NeutralThenLegal(v: View, a: Log, b: Log, known: set<Id>)
    requires Covered(v.state, known) && AllNeutral(a) && AllLegal(StepAll(v, a), b, known)
    ensures AllLegal(v, a + b, known)
  {
    NeutralIsLegal(v, a, known);
    LegalConcat(v, a, b, known);
  }

  lemma OneThenLegal(v: View, e: Event, rest: Log, known: set<Id>)
    requires Legal(v, e, known) && AllLegal(StepView(v, e), rest, known)
    ensures AllLegal(v, [e] + rest, known)
  {
    assert ([e] + rest)[1..] == rest;
  }

  // ---- every append of an iteration is legal ----

  /** The loop works on the plan with the failed steps `known`. */
  ghost predicate Working(v: View, plan: Plan, known: set<Id>) {
    !v.terminal && Healthy(v.state) && v.state.plan == Some(plan) && v.state.failed == known
  }

  lemma GoalIsLegal(v: View, plan: Plan, known: set<Id>)
    requires Exhausted(v.state) && v.state.failed == known
    ensures AllLegal(v, GoalEvents(plan, v.state.evidence), known)
  {
    var verdict := [GoalVerification(GoalPasses(plan, v.state.evidence)), CHECKPOINT];
    NeutralKeepsView(v, verdict);
    var last: Log := if GoalPasses(plan, v.state.evidence) then [LoopCompleted] else [];
    assert AllLegal(StepAll(v, verdict), last, known);
    NeutralThenLegal(v, verdict, last, known);
  }

  lemma GoalMeansExhausted(before: IdOrder, s: State)
    requires s.plan.Some?
    requires SelectNextStep(before, s.plan.value.steps, s.completed, s.failed) == Goal
    ensures Exhausted(s)
  {
    var steps := s.plan.value.steps;
    SelectionIsDetermined(before, steps, s.completed, s.failed);
    forall id | id in IdSet(steps) ensures id in s.completed + s.failed {
      var i := StepOf(steps, id);
      assert !Incomplete(steps[i], s.completed, s.failed);
    }
  }

  lemma ConcludeIsLegal(config: Config, v: View, plan: Plan, known: set<Id>)
    requires Working(v, plan, known)
    ensures AllLegal(v, Conclude(config, v.state, plan).0, known)
  {
    match SelectNextStep(config.before, plan.steps, v.state.completed, v.state.failed)
    case Goal =>
      GoalMeansExhausted(config.before, v.state);
      GoalIsLegal(v, plan, known);
    case Selected(_) =>
      NeutralIsLegal(v, [CHECKPOINT], known);
    case Deadlock =>
  }

  lemma EligibleMayBeVerified(s: State, plan: Plan, step: Step, passed: bool, refs: seq<EventRef>)
    requires s.plan == Some(plan) && step in plan.steps && Eligible(step, s.completed, s.failed)
    requires passed ==> refs != []
    ensures MayVerify(s, step.stepId, passed, refs)
  {
    var i :| 0 <= i < |plan.steps| && plan.steps[i] == step;
    assert VerifiedStep(s, plan.steps[i], step.stepId, passed);
  }

  lemma JudgeIsLegal(config: Config, v: View, plan: Plan, step: Step, tool: ToolOutcome, known: set<Id>)
    requires Working(v, plan, known) && tool.Finished?
    requires step in plan.steps && Eligible(step, v.state.completed, v.state.failed)
    ensures AllLegal(v, Judge(config, v.state, plan, step, tool).0, known)
  {
    if tool.injection {
      NeutralIsLegal(v, [LoopHalted(step.stepId)], known);
    } else if StepPasses(tool) {
      PassIsLegal(config, v, plan, step, tool.ref, known);
    } else if !config.needsSecondOpinion(step) {
      FailureIsLegal(v, plan, step, tool.ok, tool.ref, known);
    }
  }

  lemma PassIsLegal(config: Config, v: View, plan: Plan, step: Step, ref: EventRef, known: set<Id>)
    requires Working(v, plan, known) && step in plan.steps && Eligible(step, v.state.completed, v.state.failed)
    ensures
      var passed := StepVerification(step.stepId, true, [ref]);
      AllLegal(v, [passed] + Conclude(config, Advance(v.state, passed), plan).0, known)
  {
    var passed := StepVerification(step.stepId, true, [ref]);
    EligibleMayBeVerified(v.state, plan, step, true, [ref]);
    VerificationKeepsHealthy(v.state, step.stepId, true, [ref]);
    assert v.state.failed - {step.stepId} == v.state.failed;
    ConcludeIsLegal(config, StepView(v, passed), plan, known);
    OneThenLegal(v, passed, Conclude(config, Advance(v.state, passed), plan).0, known);
  }

  lemma FailureIsLegal(v: View, plan: Plan, step: Step, ok: bool, ref: EventRef, known: set<Id>)
    requires Working(v, plan, known) && step in plan.steps && Eligible(step, v.state.completed, v.state.failed)
    ensures AllLegal(v, FailureEvents(step, ok, ref), known)
  {
    var refs: seq<EventRef> := if ok then [ref] else [];
    var failed := StepVerification(step.stepId, false, refs);
    EligibleMayBeVerified(v.state, plan, step, false, refs);
    assert AllLegal(StepView(v, failed), [PlanInvalidated(step.stepId)], known);
    OneThenLegal(v, failed, [PlanInvalidated(step.stepId)], known);
    assert [failed] + [PlanInvalidated(step.stepId)] == FailureEvents(step, ok, ref);
  }

  lemma AttemptIsLegal(config: Config, v: View, plan: Plan, step: Step, input: Input, known: set<Id>)
    requires Working(v, plan, known) && step in plan.steps && Eligible(step, v.state.completed, v.state.failed)
    ensures AllLegal(v, Attempt(config, v.state, plan, step, input).0, known)
  {
    match input.tool
    case ToolThrows =>
      NeutralIsLegal(v, Called(step, input.notes.runtime), known);
    case NeedsApproval =>
      NeutralIsLegal(v, Called(step, CallNotes(input.notes.runtime)) + [AwaitingApproval(step.stepId)], known);
    case Finished(ok, _, _, _) =>
      var executed := Executed(step, ok, input.notes);
      ExecutedIsNeutral(step, ok, input.notes);
      NeutralKeepsView(v, executed);
      JudgeIsLegal(config, StepAll(v, executed), plan, step, input.tool, known);
      NeutralThenLegal(v, executed, Judge(config, v.state, plan, step, input.tool).0, known);
  }

  lemma WorkIsLegal(config: Config, v: View, plan: Plan, input: Input, known: set<Id>)
    requires Working(v, plan, known)
    ensures AllLegal(v, Work(config, v.state, plan, input).0, known)
  {
    var s := v.state;
    SelectionKind(config.before, plan.steps, s.completed, s.failed);
    match SelectNextStep(config.before, plan.steps, s.completed, s.failed)
    case Deadlock =>
    case Goal =>
      GoalMeansExhausted(config.before, s);
      GoalIsLegal(v, plan, known);
    case Selected(step) =>
      AttemptIsLegal(config, v, plan, step, input, known);
  }

  /** Whether an iteration asks for a new plan. */
  predicate NeedsPlan(s: State) {
    s.plan.None? || s.planInvalidated
  }

  /** The failed steps that an iteration works with: none after a new plan. */
  function OldFailures(v: View): set<Id> {
    if !v.terminal && NeedsPlan(v.state) then {} else v.state.failed
  }

  lemma SaneIsInside(v: View)
    requires Sane(v)
    ensures Inside(v, OldFailures(v)) && Covered(v.state, OldFailures(v))
  {
  }

  lemma PlanAndWorkIsLegal(config: Config, v: View, input: Input)
    requires !v.terminal && Covered(v.state, {})
    ensures AllLegal(v, PlanAndWork(config, v.state, input).0, {})
  {
    var planning := AllNoted(input.notes.planning);
    NeutralKeepsView(v, planning);
    if input.reply.None? || !Accepts(config, input.reply.value) {
      NeutralIsLegal(v, planning, {});
    } else {
      var plan := input.reply.value;
      var recorded := PlanRecorded(v.state.plan.Some?, plan);
      var v1 := StepAll(v, planning);
      var work := Work(config, Planned(plan), plan, input).0;
      WorkIsLegal(config, StepView(v1, recorded), plan, input, {});
      OneThenLegal(v1, recorded, work, {});
      NeutralThenLegal(v, planning, [recorded] + work, {});
      Associate(planning, [recorded], work);
    }
  }

  lemma IterateIsLegal(config: Config, v: View, input: Input)
    requires Sane(v)
    ensures AllLegal(v, EventsOf(config, v, input), OldFailures(v))
  {
    var known := OldFailures(v);
    if v.terminal {
      NeutralIsLegal(v, Opening(input.notes), known);
    } else {
      var preparing := Preparing(input.notes);
      NeutralKeepsView(v, preparing);
      var v1 := StepAll(v, preparing);
      if NeedsPlan(v.state) {
        PlanAndWorkIsLegal(config, v1, input);
        NeutralThenLegal(v, preparing, PlanAndWork(config, v.state, input).0, known);
      } else {
        WorkIsLegal(config, v1, v.state.plan.value, input, known);
        NeutralThenLegal(v, preparing, Work(config, v.state, v.state.plan.value, input).0, known);
      }
    }
  }

  /** One iteration from a sane log, cut anywhere. */
  lemma RoundStaysInside(config: Config, log: Log, round: Round)
    requires Sane(See(log))
    ensures Inside(See(log + Kept(config, log, round)), OldFailures(See(log)))
  {
    var v := See(log);
    var events := EventsOf(config, v, round.input);
    var kept := Kept(config, log, round);
    IterateIsLegal(config, v, round.input);
    SaneIsInside(v);
    LegalPrefixKeepsInside(v, events, OldFailures(v), |kept|);
    assert kept == events[..|kept|];
    SeeAll(log, kept);
  }

  lemma VerifiedUnlessFailed(s: State)
    requires Healthy(s) && Exhausted(s)
    ensures AllVerified(s) <==> s.failed == {}
  {
    if s.failed != {} {
      var id :| id in s.failed;
      assert id in IdSet(s.plan.value.steps) && id !in s.completed;
    }
  }

  /** In every run, whatever the planner and the tools answer, whatever others append and wherever the daemon dies:
      the completed set is closed under dependencies, every completed step has evidence, and a completed loop has a
      verification for every step of its plan. */
  lemma {:induction false} LoopSafety(config: Config, log: Log, rounds: seq<Round>)
    requires Sane(See(log))
    ensures Sane(See(Run(config, log, rounds)))
    decreases |rounds|
  {
    if rounds == [] {
    } else {
      RoundStaysInside(config, log, rounds[0]);
      LoopSafety(config, log + Kept(config, log, rounds[0]), rounds[1..]);
    }
  }

  lemma EmptyLogIsSane()
    ensures Sane(See([])) && Tidy(See([]))
  {
  }

  /** From the start: every task is sane, and with no invalidation torn off, completion means verified. */
  lemma EveryTaskIsSafe(config: Config, rounds: seq<Round>)
    ensures Sane(See(Run(config, [], rounds)))
    ensures Uncut(config, [], rounds) && IsTerminal(Run(config, [], rounds)) ==> AllVerified(Fold(Run(config, [], rounds)))
  {
    EmptyLogIsSane();
    LoopSafety(config, [], rounds);
    if Uncut(config, [], rounds) { CompletionMeansVerified(config, [], rounds); }
  }

  /** When an iteration completes the loop, every step of the plan has passed with evidence if and only if the
      iteration made a new plan or found no failed step. */
  lemma CompletionIsVerifiedExactlyWhen(config: Config, log: Log, round: Round)
    requires Sane(See(log)) && !IsTerminal(log) && IsTerminal(log + Kept(config, log, round))
    ensures AllVerified(Fold(log + Kept(config, log, round))) <==>
            Fold(log).plan.None? || Fold(log).planInvalidated || Fold(log).failed == {}
  {
    RoundStaysInside(config, log, round);
    VerifiedUnlessFailed(Fold(log + Kept(config, log, round)));
  }

  // ---- when the failed verification and the invalidation are not torn apart ----

  /** The daemon never dies between a failed verification and the invalidation that follows it. */
  ghost predicate Uncut(config: Config, log: Log, rounds: seq<Round>)
    decreases |rounds|
  {
    rounds != [] ==>
      var next := log + Kept(config, log, rounds[0]);
      !See(next).torn && Uncut(config, next, rounds[1..])
  }

  /** A failure invalidates the plan, and a completed loop has none. */
  ghost predicate Tidy(v: View) {
    (v.state.failed != {} ==> v.state.planInvalidated) && (v.terminal ==> v.state.failed == {})
  }

  /** With the failed verification and the invalidation appended as one step, completion means that
      every step of the current plan has a passing verification with evidence. */
  lemma {:induction false} CompletionMeansVerified(config: Config, log: Log, rounds: seq<Round>)
    requires Sane(See(log)) && Tidy(See(log)) && Uncut(config, log, rounds)
    ensures IsTerminal(Run(config, log, rounds)) ==> AllVerified(Fold(Run(config, log, rounds)))
    decreases |rounds|
  {
    if rounds == [] {
      if IsTerminal(log) { VerifiedUnlessFailed(Fold(log)); }
    } else {
      RoundStaysInside(config, log, rounds[0]);
      CompletionMeansVerified(config, log + Kept(config, log, rounds[0]), rounds[1..]);
    }
  }

  /** Without that, completion can cover a failed step: a one-step plan without criteria fails its verification, the
      daemon dies right before the invalidation, and the next iteration completes. */
  lemma CutFailureCompletes(config: Config, step: Step, plan: Plan, ref: EventRef, notes: Notes)
    requires plan.steps == [step] && plan.successCriteria == [] && plan.doneConditions == []
    requires Accepts(config, plan) && !config.needsSecondOpinion(step)
    requires step.dependsOn == []
    ensures
      var failing := Input(Some(plan), Finished(true, ref, false, false), notes);
      var first := Round(failing, |EventsOf(config, See([]), failing)| - 1);
      exists keep :: CompletesOverFailure(config, [first, Round(failing, keep)], step.stepId)
  {
    var failing := Input(Some(plan), Finished(true, ref, false, false), notes);
    var events := EventsOf(config, See([]), failing);
    CutFirstRound(config, step, plan, failing);
    SecondRoundCompletes(config, step, plan, Round(failing, |events| - 1), failing);
  }

  lemma SecondRoundCompletes(config: Config, step: Step, plan: Plan, first: Round, input: Input)
    requires plan.steps == [step] && plan.successCriteria == [] && plan.doneConditions == []
    requires See([] + Kept(config, [], first)) == View(Planned(plan).(failed := {step.stepId}), false, true)
    ensures exists keep :: CompletesOverFailure(config, [first, Round(input, keep)], step.stepId)
  {
    var log := [] + Kept(config, [], first);
    var second := Round(input, |EventsOf(config, See(log), input)|);
    CompletesWithFailure(config, log, step, plan, second);
    RunTwice(config, first, second);
    assert CompletesOverFailure(config, [first, Round(input, second.keep)], step.stepId);
  }

  ghost predicate CompletesOverFailure(config: Config, rounds: seq<Round>, id: Id) {
    var log := Run(config, [], rounds);
    IsTerminal(log) && !AllVerified(Fold(log)) && Fold(log).failed == {id}
  }

  lemma RunTwice(config: Config, a: Round, b: Round)
    ensures
      var first := [] + Kept(config, [], a);
      Run(config, [], [a, b]) == first + Kept(config, first, b)
  {
    var first := [] + Kept(config, [], a);
    assert [a, b][1..] == [b];
    assert Run(config, first, [b]) == Run(config, first + Kept(config, first, b), []);
  }

  /** The first iteration loses its last append: the step has failed and the plan stands. */
  lemma CutFirstRound(config: Config, step: Step, plan: Plan, failing: Input)
    requires plan.steps == [step] && Accepts(config, plan) && !config.needsSecondOpinion(step)
    requires step.dependsOn == [] && failing.reply == Some(plan)
    requires failing.tool.Finished? && failing.tool.ok && !failing.tool.checkHolds && !failing.tool.injection
    ensures
      var events := EventsOf(config, See([]), failing);
      && |events| > 0
      && See([] + Kept(config, [], Round(failing, |events| - 1))) == View(Planned(plan).(failed := {step.stepId}), false, true)
  {
    var failed := StepVerification(step.stepId, false, [failing.tool.ref]);
    var executed := Executed(step, true, failing.notes);
    var begun := Begun(failing.notes, plan);
    FirstFailure(config, step, plan, failing);
    FailureSplits(begun, executed, step, failing.tool.ref);
    FailingView(step, plan, failing.notes, failed);
    SeeAll([], begun + executed + [failed]);
  }

  /** Everything the first iteration appends. */
  lemma FirstFailure(config: Config, step: Step, plan: Plan, failing: Input)
    requires plan.steps == [step] && Accepts(config, plan) && !config.needsSecondOpinion(step)
    requires step.dependsOn == [] && failing.reply == Some(plan)
    requires failing.tool.Finished? && failing.tool.ok && !failing.tool.checkHolds && !failing.tool.injection
    ensures EventsOf(config, See([]), failing) ==
            Begun(failing.notes, plan) + (Executed(step, true, failing.notes) + FailureEvents(step, true, failing.tool.ref))
  {
    FirstEvents(config, plan, failing);
    SelectsOnly(config.before, step);
    WorkAttempts(config, Planned(plan), plan, step, failing);
  }

  /** All but the last of these events. */
  lemma FailureSplits(begun: Log, executed: Log, step: Step, ref: EventRef)
    ensures
      var events := begun + (executed + FailureEvents(step, true, ref));
      && |events| > 0
      && Cut(events, |events| - 1) == begun + executed + [StepVerification(step.stepId, false, [ref])]
  {
    var kept := begun + executed + [StepVerification(step.stepId, false, [ref])];
    assert begun + (executed + FailureEvents(step, true, ref)) == kept + [PlanInvalidated(step.stepId)];
  }

  lemma FailingView(step: Step, plan: Plan, notes: Notes, failed: Event)
    requires failed.StepVerification? && !failed.passed && failed.stepId == step.stepId
    ensures StepAll(See([]), Begun(notes, plan) + Executed(step, true, notes) + [failed])
            == View(Planned(plan).(failed := {step.stepId}), false, true)
  {
    var v := See([]);
    var begun, executed := Begun(notes, plan), Executed(step, true, notes);
    BegunView(notes, plan);
    NeutralKeepsView(StepAll(v, begun), executed);
    StepConcat(v, begun, executed);
    StepConcat(v, begun + executed, [failed]);
    assert {} + {step.stepId} == {step.stepId};
  }

  /** The events of a first iteration up to its plan. */
  function Begun(notes: Notes, plan: Plan): Log {
    Preparing(notes) + AllNoted(notes.planning) + [PlanRecorded(false, plan)]
  }

  lemma BegunView(notes: Notes, plan: Plan)
    ensures StepAll(See([]), Begun(notes, plan)) == View(Planned(plan), false, false)
  {
    var before := Preparing(notes) + AllNoted(notes.planning);
    NeutralKeepsView(See([]), before);
    StepConcat(See([]), before, [PlanRecorded(false, plan)]);
  }

  lemma FirstEvents(config: Config, plan: Plan, input: Input)
    requires Accepts(config, plan) && input.reply == Some(plan)
    ensures
      var (events, status) := Work(config, Planned(plan), plan, input);
      Iterate(config, START, false, input) == (Begun(input.notes, plan) + events, status)
  {
    FirstPlanning(config, plan, input);
    RegroupBegun(Preparing(input.notes), AllNoted(input.notes.planning), [PlanRecorded(false, plan)],
                 Work(config, Planned(plan), plan, input).0);
  }

  lemma FirstPlanning(config: Config, plan: Plan, input: Input)
    requires Accepts(config, plan) && input.reply == Some(plan)
    ensures
      var (events, status) := Work(config, Planned(plan), plan, input);
      PlanAndWork(config, START, input) == (AllNoted(input.notes.planning) + [PlanRecorded(false, plan)] + events, status)
  {
  }

  lemma RegroupBegun(a: Log, b: Log, c: Log, d: Log)
    ensures a + (b + c + d) == a + b + c + d
  {
  }

  lemma WorkAttempts(config: Config, s: State, plan: Plan, step: Step, input: Input)
    requires SelectNextStep(config.before, plan.steps, s.completed, s.failed) == Selected(step) && input.tool.Finished?
    ensures
      var (events, status) := Judge(config, s, plan, step, input.tool);
      Work(config, s, plan, input) == (Executed(step, input.tool.ok, input.notes) + events, status)
  {
  }

  lemma SelectsOnly(before: IdOrder, step: Step)
    requires step.dependsOn == []
    ensures SelectNextStep(before, [step], {}, {}) == Selected(step)
  {
    assert FilterSteps([step], s => Incomplete(s, {}, {})) == [step];
    assert FilterSteps([step], s => Eligible(s, {}, {})) == [step];
  }

  /** The goal is selected although the only step is failed, and without criteria it passes. */
  lemma CompletesWithFailure(config: Config, log: Log, step: Step, plan: Plan, round: Round)
    requires plan.steps == [step] && plan.successCriteria == [] && plan.doneConditions == []
    requires See(log) == View(Planned(plan).(failed := {step.stepId}), false, true)
    requires round.keep == |EventsOf(config, See(log), round.input)|
    ensures
      var log' := log + Kept(config, log, round);
      IsTerminal(log') && Fold(log').failed == {step.stepId} && !AllVerified(Fold(log'))
  {
    var s := Fold(log);
    assert FilterSteps(plan.steps, s => Incomplete(s, {}, {step.stepId})) == [];
    IterateWorks(config, s, plan, round.input);
    assert Work(config, s, plan, round.input) == (GoalEvents(plan, map[]), Completed);
    var events := Preparing(round.input.notes) + GoalEvents(plan, map[]);
    assert Kept(config, log, round) == events;
    GoalView(See(log), plan, round.input.notes);
    SeeAll(log, events);
    assert Ids(plan.steps)[0] == step.stepId;
    assert step.stepId in IdSet(plan.steps);
  }

  lemma GoalView(v: View, plan: Plan, notes: Notes)
    requires plan.successCriteria == [] && plan.doneConditions == []
    ensures StepAll(v, Preparing(notes) + GoalEvents(plan, map[])) == View(v.state, true, false)
  {
    var before := Preparing(notes) + [GoalVerification(true), CHECKPOINT];
    NeutralKeepsView(v, before);
    StepConcat(v, before, [LoopCompleted]);
    assert Preparing(notes) + GoalEvents(plan, map[]) == before + [LoopCompleted];
  }

  // ---- after completion ----

  /** After completion no iteration does anything: every later run only records that it started and what others
      append, whatever the planner and the tools would have answered. */
  lemma {:induction false} NothingAfterCompletion(config: Config, log: Log, rounds: seq<Round>)
    requires IsTerminal(log)
    ensures
      var log' := Run(config, log, rounds);
      && log <= log' && Fold(log') == Fold(log) && IsTerminal(log')
      && forall i :: |log| <= i < |log'| ==> log'[i].IterationStarted? || log'[i].Noted?
    decreases |rounds|
  {
    if rounds == [] {
    } else {
      OnlyOpens(config, log, rounds[0]);
      NeutralChangesNothing(log, Kept(config, log, rounds[0]));
      NothingAfterCompletion(config, log + Kept(config, log, rounds[0]), rounds[1..]);
    }
  }

  lemma OnlyOpens(config: Config, log: Log, round: Round)
    requires IsTerminal(log)
    ensures
      var kept := Kept(config, log, round);
      AllNeutral(kept) && forall i :: 0 <= i < |kept| ==> kept[i].IterationStarted? || kept[i].Noted?
  {
    assert EventsOf(config, See(log), round.input) == Opening(round.input.notes);
  }

  // ---- how many iterations a plan takes ----

  /** An input whose tool succeeds, whose check holds and whose output is harmless. */
  predicate Succeeds(input: Input) {
    input.tool.Finished? && input.tool.ok && input.tool.checkHolds && !input.tool.injection
  }

  ghost function Remaining(s: State): set<Id>
    requires s.plan.Some?
  {
    IdSet(s.plan.value.steps) - s.completed
  }

  /** The loop has a plan, nothing failed, and `n` steps remain. */
  ghost predicate Running(v: View, plan: Plan, n: nat) {
    && !v.terminal
    && v.state.plan == Some(plan) && !v.state.planInvalidated && v.state.failed == {}
    && |Remaining(v.state)| == n
  }

  /** The events leave `n` steps to go, or complete the loop if that is none. */
  ghost predicate LeadsOn(v: View, outcome: (Log, Status), plan: Plan, n: nat) {
    if n == 0 then outcome.1 == Completed else outcome.1 == Continued && Running(StepAll(v, outcome.0), plan, n)
  }

  lemma NeutralLeadsOn(v: View, a: Log, outcome: (Log, Status), plan: Plan, n: nat)
    requires LeadsOn(StepAll(v, a), outcome, plan, n)
    ensures LeadsOn(v, (a + outcome.0, outcome.1), plan, n)
  {
    StepConcat(v, a, outcome.0);
  }

  lemma NextStep(before: IdOrder, plan: Plan, s: State) returns (step: Step)
    requires WellFormed(plan.steps) && s.plan == Some(plan) && s.failed == {} && Remaining(s) != {}
    ensures SelectNextStep(before, plan.steps, s.completed, s.failed) == Selected(step)
    ensures step.stepId in Remaining(s)
  {
    NoFailureNoDeadlock(before, plan.steps, s.completed);
    GoalWhenNothingRemains(before, plan.steps, s.completed);
    SelectionKind(before, plan.steps, s.completed, {});
    step := SelectNextStep(before, plan.steps, s.completed, {}).step;
    SelectedIsNew(before, plan.steps, s.completed, step);
  }

  lemma GoalWhenNothingRemains(before: IdOrder, steps: seq<Step>, completed: set<Id>)
    requires WellFormed(steps)
    ensures SelectNextStep(before, steps, completed, {}) == Goal <==> IdSet(steps) - completed == {}
  {
    SelectionKind(before, steps, completed, {});
    if SelectNextStep(before, steps, completed, {}) == Goal {
      NothingMissing(steps, completed);
    } else {
      var s :| s in steps && Incomplete(s, completed, {});
      var i :| 0 <= i < |steps| && steps[i] == s;
      assert Ids(steps)[i] == s.stepId;
      assert s.stepId in IdSet(steps) - completed;
    }
  }

  /** A passing verification of a remaining step leaves one step fewer. */
  lemma PassLeavesOneFewer(v: View, plan: Plan, id: Id, ref: EventRef, n: nat)
    requires Running(v, plan, n) && id in Remaining(v.state)
    ensures n >= 1
    ensures
      var v' := StepView(v, StepVerification(id, true, [ref]));
      Running(v', plan, n - 1) && HasEvidence(v'.state.evidence)
  {
    var v' := StepView(v, StepVerification(id, true, [ref]));
    assert Remaining(v'.state) == Remaining(v.state) - {id};
    assert v'.state.evidence[id] != [];
  }

  lemma GoodConclusion(config: Config, v: View, plan: Plan, n: nat)
    requires WellFormed(plan.steps) && Running(v, plan, n) && HasEvidence(v.state.evidence)
    ensures LeadsOn(v, Conclude(config, v.state, plan), plan, n)
  {
    if n == 0 {
      assert Remaining(v.state) == {};
      GoalWhenNothingRemains(config.before, plan.steps, v.state.completed);
    } else {
      var step := NextStep(config.before, plan, v.state);
      NeutralKeepsView(v, [CHECKPOINT]);
    }
  }

  lemma GoodJudgement(config: Config, v: View, plan: Plan, step: Step, input: Input, n: nat)
    requires WellFormed(plan.steps) && Running(v, plan, n) && n >= 1 && Succeeds(input)
    requires step.stepId in Remaining(v.state)
    ensures LeadsOn(v, Judge(config, v.state, plan, step, input.tool), plan, n - 1)
  {
    var passed := StepVerification(step.stepId, true, [input.tool.ref]);
    PassLeavesOneFewer(v, plan, step.stepId, input.tool.ref, n);
    GoodConclusion(config, StepView(v, passed), plan, n - 1);
    EventLeadsOn(v, passed, Conclude(config, StepView(v, passed).state, plan), plan, n - 1);
    JudgePasses(config, v, plan, step, input.tool);
  }

  lemma EventLeadsOn(v: View, e: Event, outcome: (Log, Status), plan: Plan, n: nat)
    requires LeadsOn(StepView(v, e), outcome, plan, n)
    ensures LeadsOn(v, ([e] + outcome.0, outcome.1), plan, n)
  {
    assert StepAll(v, [e]) == StepView(v, e);
    NeutralLeadsOn(v, [e], outcome, plan, n);
  }

  lemma JudgePasses(config: Config, v: View, plan: Plan, step: Step, tool: ToolOutcome)
    requires tool.Finished? && tool.ok && tool.checkHolds && !tool.injection
    ensures
      var passed := StepVerification(step.stepId, true, [tool.ref]);
      var outcome := Conclude(config, StepView(v, passed).state, plan);
      Judge(config, v.state, plan, step, tool) == ([passed] + outcome.0, outcome.1)
  {
  }

  /** A successful attempt completes the selected step, and completes the loop with the last one. */
  lemma GoodWork(config: Config, v: View, plan: Plan, input: Input, n: nat)
    requires WellFormed(plan.steps) && Running(v, plan, n) && n >= 1 && Succeeds(input)
    ensures LeadsOn(v, Work(config, v.state, plan, input), plan, n - 1)
  {
    var step := NextStep(config.before, plan, v.state);
    WorkAttempts(config, v.state, plan, step, input);
    ExecutedIsNeutral(step, true, input.notes);
    GoodAttempt(config, v, plan, step, input, Executed(step, true, input.notes), n);
  }

  lemma GoodAttempt(config: Config, v: View, plan: Plan, step: Step, input: Input, executed: Log, n: nat)
    requires WellFormed(plan.steps) && Running(v, plan, n) && n >= 1 && Succeeds(input)
    requires step.stepId in Remaining(v.state) && AllNeutral(executed)
    ensures
      var (events, status) := Judge(config, v.state, plan, step, input.tool);
      LeadsOn(v, (executed + events, status), plan, n - 1)
  {
    NeutralKeepsView(v, executed);
    GoodJudgement(config, StepAll(v, executed), plan, step, input, n);
    NeutralLeadsOn(v, executed, Judge(config, v.state, plan, step, input.tool), plan, n - 1);
  }

  lemma IterateWorks(config: Config, s: State, plan: Plan, input: Input)
    requires s.plan == Some(plan) && !s.planInvalidated
    ensures
      var (events, status) := Work(config, s, plan, input);
      Iterate(config, s, false, input) == (Preparing(input.notes) + events, status)
  {
  }

  lemma GoodIteration(config: Config, v: View, plan: Plan, input: Input, n: nat)
    requires WellFormed(plan.steps) && Running(v, plan, n) && n >= 1 && Succeeds(input)
    ensures LeadsOn(v, Iterate(config, v.state, v.terminal, input), plan, n - 1)
  {
    var preparing := Preparing(input.notes);
    PreparingIsNeutral(input.notes);
    NeutralKeepsView(v, preparing);
    GoodWork(config, StepAll(v, preparing), plan, input, n);
    NeutralLeadsOn(v, preparing, Work(config, v.state, plan, input), plan, n - 1);
    IterateWorks(config, v.state, plan, input);
  }

  /** The loop completes after `total` iterations in all. */
  ghost predicate CompletesAt(config: Config, log: Log, inputs: seq<Input>, i: nat, last: Status, total: nat)
    requires i <= |inputs|
  {
    var (_, status, iterations) := RunLoop(config, log, inputs, i, last);
    status == Completed && iterations == total
  }

  lemma LoopGoesOn(config: Config, log: Log, inputs: seq<Input>, i: nat, last: Status, total: nat)
    requires i < |inputs|
    ensures
      var (events, status) := Iterate(config, Fold(log), IsTerminal(log), inputs[i]);
      && (status == Completed ==> CompletesAt(config, log, inputs, i, last, i + 1))
      && (status == Continued ==>
            (CompletesAt(config, log, inputs, i, last, total) <==> CompletesAt(config, log + events, inputs, i + 1, Continued, total)))
  {
  }

  /** A running plan with nothing failed needs exactly one successful iteration per remaining step. */
  lemma {:induction false} ExactIterations(config: Config, log: Log, plan: Plan, inputs: seq<Input>, i: nat, last: Status, n: nat)
    requires WellFormed(plan.steps) && Running(See(log), plan, n) && n >= 1
    requires forall k :: 0 <= k < |inputs| ==> Succeeds(inputs[k])
    requires i + n <= |inputs|
    ensures CompletesAt(config, log, inputs, i, last, i + n)
    decreases n
  {
    LoopGoesOn(config, log, inputs, i, last, i + n);
    GoodIteration(config, See(log), plan, inputs[i], n);
    if n > 1 {
      var events := EventsOf(config, See(log), inputs[i]);
      SeeAll(log, events);
      ExactIterations(config, log + events, plan, inputs, i + 1, Continued, n - 1);
    }
  }

  /** From an empty log, an accepted plan of n >= 1 steps whose steps all pass completes in exactly
      n iterations: the goal check passes because there is evidence. */
  lemma PlanCompletesInItsLength(config: Config, plan: Plan, inputs: seq<Input>)
    requires Accepts(config, plan) && |plan.steps| >= 1
    requires forall k :: 0 <= k < |inputs| ==> Succeeds(inputs[k])
    requires |inputs| >= |plan.steps| && inputs[0].reply == Some(plan)
    ensures CompletesAt(config, [], inputs, 0, Continued, |plan.steps|)
  {
    var n := |plan.steps|;
    FirstIteration(config, plan, inputs[0]);
    LoopGoesOn(config, [], inputs, 0, Continued, n);
    if n > 1 {
      var events := EventsOf(config, See([]), inputs[0]);
      SeeAll([], events);
      ExactIterations(config, [] + events, plan, inputs, 1, Continued, n - 1);
    }
  }

  lemma FirstIteration(config: Config, plan: Plan, input: Input)
    requires Accepts(config, plan) && |plan.steps| >= 1
    requires Succeeds(input) && input.reply == Some(plan)
    ensures LeadsOn(See([]), Iterate(config, START, false, input), plan, |plan.steps| - 1)
  {
    FirstWork(config, plan, input);
    NeutralLeadsOn(See([]), Begun(input.notes, plan), Work(config, Planned(plan), plan, input), plan, |plan.steps| - 1);
    FirstEvents(config, plan, input);
  }

  lemma FirstWork(config: Config, plan: Plan, input: Input)
    requires WellFormed(plan.steps) && |plan.steps| >= 1 && Succeeds(input)
    ensures LeadsOn(StepAll(See([]), Begun(input.notes, plan)), Work(config, Planned(plan), plan, input), plan, |plan.steps| - 1)
  {
    var v := View(Planned(plan), false, false);
    BegunView(input.notes, plan);
    PlannedRuns(v, plan);
    GoodWork(config, v, plan, input, |plan.steps|);
  }

  lemma PlannedRuns(v: View, plan: Plan)
    requires !v.terminal && v.state == Planned(plan) && NoDuplicates(Ids(plan.steps))
    ensures Running(v, plan, |plan.steps|)
  {
    DistinctCount(Ids(plan.steps));
    assert IdSet(plan.steps) - {} == IdSet(plan.steps);
  }
}
