/** The agent loop over the tool runtime: what happens to a step that appends to a file. The loop draws a new key for
    every call of a step (agentLoop.ts:252-261), and a call that needs an approval is carried out by the approval,
    outside the loop (toolRuntime.ts:67-121). */
module StepEffects {
  import opened Common
  import opened Disk
  import opened ToolRuntime
  import opened Effects
  import opened ToolRuntimeSafety
  import opened Reconciliation
  import A = AppendEffects
  import FsToolService
  import IdempotencyStore
  import L = AgentLoop
  import LoopOutcomes
  import P = Planner
  import S = StepSelection

  datatype Setting = Setting(config: L.Config, tools: Tools, inputOf: P.Step -> Input)

  /** The task's one log, as each side reads it: the loop's events, and the runtime's. The intent and the result that
      the loop adds for a call the runtime did not start are among the second, where reconciliation reads them. */
  datatype Task = Task(log: L.Log, m: Machine)

  datatype Joint = Loop(event: L.Event) | Runtime(step: Step)

  function Apply(t: Task, j: Joint): Task {
    match j
    case Loop(e) => t.(log := t.log + [e])
    case Runtime(step) => t.(m := Take(t.m, step))
  }

  function ApplyAll(t: Task, joints: seq<Joint>): Task
    decreases |joints|
  {
    if joints == [] then t else ApplyAll(Apply(t, joints[0]), joints[1..])
  }

  function AllLoop(events: L.Log): (r: seq<Joint>)
    ensures |r| == |events| && forall k :: 0 <= k < |r| ==> r[k] == Loop(events[k])
  {
    seq(|events|, k requires 0 <= k < |events| => Loop(events[k]))
  }

  function AllRuntime(steps: seq<Step>): (r: seq<Joint>)
    ensures |r| == |steps| && forall k :: 0 <= k < |r| ==> r[k] == Runtime(steps[k])
  {
    seq(|steps|, k requires 0 <= k < |steps| => Runtime(steps[k]))
  }

  // ---- the rounds of a task ----

  /** An iteration, with the planner's answer, what its reconciliation and its call meet, and how the verifier and the
      scan judge the output; the reconciliation of a start-up; or a decision on an approval. */
  datatype Round =
    | Iteration(reconciling: Env, reply: Option<P.Plan>, executing: Env, ref: L.EventRef, checkHolds: bool, injection: bool)
    | Recovery(env: Env)
    | Decision(id: nat, approved: bool, env: Env)

  const SILENT := L.Notes([], [], [], [], [])

  function OutcomeFor(outcome: Outcome, round: Round): L.ToolOutcome
    requires round.Iteration?
  {
    match outcome
    case Threw => L.ToolThrows
    case Finished(status) =>
      if status == WaitingForApproval then L.NeedsApproval
      else L.Finished(status == Completed, round.ref, round.checkHolds, round.injection)
  }

  /** The loop's own events: all but those it only passes over. */
  function Own(events: L.Log): L.Log {
    if events == [] then []
    else (if events[0].Noted? then [] else [events[0]]) + Own(events[1..])
  }

  /** The call of a step, under the key that the loop draws for it. */
  function CallFor(c: Setting, step: P.Step, key: Key): Call {
    Call(step.selectedTool, Some(key), c.inputOf(step))
  }

  predicate RecordsIntent(steps: seq<Step>) {
    exists k :: 0 <= k < |steps| && steps[k].AppendEvent? && steps[k].event.Intended?
  }

  /** The intent, without a key, and the result that the loop adds when the runtime recorded no intent. */
  function Fallback(c: Setting, step: P.Step, m: Machine, outcome: Outcome): seq<Step> {
    [AppendEvent(Intended(Call(step.selectedTool, None, c.inputOf(step)))),
     AppendEvent(ToolResult(|m.log|, if outcome == Finished(Completed) then Completed else Failed, false))]
  }

  /** What a step's call leaves in the runtime's part of the log and on the disk, and the runtime's answer. */
  function CallSteps(c: Setting, step: P.Step, m: Machine, env: Env): (seq<Step>, Outcome) {
    var (executing, outcome) := Execute(c.tools, m, Request(CallFor(c, step, env.freshKey), 0), false, env);
    if outcome.Threw? || RecordsIntent(executing) then (executing, outcome)
    else (executing + Fallback(c, step, TakeAll(m, executing), outcome), outcome)
  }

  /** The steps of one round in both parts of the log and on the disk, in order. */
  ghost function Joints(c: Setting, t: Task, round: Round): seq<Joint> {
    match round
    case Decision(id, approved, env) => AllRuntime(Resume(c.tools, t.m, id, approved, env).0)
    case Recovery(env) => AllRuntime(Reconcile(c.tools, t.m, env).0)
    case Iteration(reconciling, _, _, _, _, _) =>
      var recovering := Reconcile(c.tools, t.m, reconciling).0;
      [Loop(L.IterationStarted)] + (AllRuntime(recovering) + Working(c, t.log, TakeAll(t.m, recovering), round))
  }

  ghost function Working(c: Setting, log: L.Log, m: Machine, round: Round): seq<Joint>
    requires round.Iteration?
  {
    var s := L.Fold(log);
    match LoopOutcomes.InForce(c.config, s, L.IsTerminal(log), round.reply)
    case None => []
    case Some((s1, plan)) =>
      if s.plan.Some? && !s.planInvalidated then OnPlan(c, s1, plan, m, round)
      else [Loop(L.PlanRecorded(s.plan.Some?, plan))] + OnPlan(c, s1, plan, m, round)
  }

  function OnPlan(c: Setting, s: L.State, plan: P.Plan, m: Machine, round: Round): seq<Joint>
    requires round.Iteration?
  {
    match S.SelectNextStep(c.config.before, plan.steps, s.completed, s.failed)
    case Deadlock => []
    case Goal => AllLoop(Own(L.GoalEvents(plan, s.evidence)))
    case Selected(step) => Calling(c, s, plan, step, m, round)
  }

  function Calling(c: Setting, s: L.State, plan: P.Plan, step: P.Step, m: Machine, round: Round): seq<Joint>
    requires round.Iteration?
  {
    var (calling, outcome) := CallSteps(c, step, m, round.executing);
    [Loop(L.StepSelected(step.stepId))] + (AllRuntime(calling) + AllLoop(Rest(c, s, plan, step, outcome, round)))
  }

  /** What the loop itself appends after the call. */
  function Rest(c: Setting, s: L.State, plan: P.Plan, step: P.Step, outcome: Outcome, round: Round): L.Log
    requires round.Iteration?
  {
    Own(L.Attempt(c.config, s, plan, step, L.Input(round.reply, OutcomeFor(outcome, round), SILENT)).0[1..])
  }

  /** A round of which the first `keep` steps survive (all of them if `keep` is large enough). */
  datatype CutRound = CutRound(round: Round, keep: nat)

  function Cut(joints: seq<Joint>, keep: nat): seq<Joint> {
    if keep < |joints| then joints[..keep] else joints
  }

  ghost function Survives(c: Setting, t: Task, cut: CutRound): seq<Joint> {
    Cut(Joints(c, t, cut.round), cut.keep)
  }

  ghost function Do(c: Setting, t: Task, cut: CutRound): Task {
    ApplyAll(t, Survives(c, t, cut))
  }

  ghost function Run(c: Setting, t: Task, rounds: seq<CutRound>): Task
    decreases |rounds|
  {
    if rounds == [] then t else Run(c, Do(c, t, rounds[0]), rounds[1..])
  }

  // ---- the two parts of a round ----

  function LoopPart(joints: seq<Joint>): L.Log {
    if joints == [] then []
    else (if joints[0].Loop? then [joints[0].event] else []) + LoopPart(joints[1..])
  }

  function RuntimePart(joints: seq<Joint>): seq<Step> {
    if joints == [] then []
    else (if joints[0].Runtime? then [joints[0].step] else []) + RuntimePart(joints[1..])
  }

  lemma ConcatParts(a: seq<Joint>, b: seq<Joint>)
    requires a != []
    ensures (a + b)[0] == a[0] && (a + b)[1..] == a[1..] + b
  {
  }

  lemma {:induction false} PartsConcat(a: seq<Joint>, b: seq<Joint>)
    ensures LoopPart(a + b) == LoopPart(a) + LoopPart(b)
    ensures RuntimePart(a + b) == RuntimePart(a) + RuntimePart(b)
    decreases |a|
  {
    if a == [] {
      assert a + b == b;
    } else {
      ConcatParts(a, b);
      PartsConcat(a[1..], b);
      Associate(if a[0].Loop? then [a[0].event] else [], LoopPart(a[1..]), LoopPart(b));
      Associate(if a[0].Runtime? then [a[0].step] else [], RuntimePart(a[1..]), RuntimePart(b));
    }
  }

  lemma {:induction false} PartsOfRuntime(steps: seq<Step>)
    ensures LoopPart(AllRuntime(steps)) == [] && RuntimePart(AllRuntime(steps)) == steps
  {
    if steps != [] {
      assert AllRuntime(steps)[1..] == AllRuntime(steps[1..]);
      PartsOfRuntime(steps[1..]);
    }
  }

  lemma {:induction false} PartsOfLoop(events: L.Log)
    ensures LoopPart(AllLoop(events)) == events && RuntimePart(AllLoop(events)) == []
  {
    if events != [] {
      assert AllLoop(events)[1..] == AllLoop(events[1..]);
      PartsOfLoop(events[1..]);
    }
  }

  lemma PartsOfOne(e: L.Event)
    ensures LoopPart([Loop(e)]) == [e] && RuntimePart([Loop(e)]) == []
  {
    assert [Loop(e)][1..] == [];
  }

  /** The rounds act on the two parts separately. */
  lemma {:induction false} ApplyParts(t: Task, joints: seq<Joint>)
    ensures ApplyAll(t, joints) == Task(t.log + LoopPart(joints), TakeAll(t.m, RuntimePart(joints)))
    decreases |joints|
  {
    if joints == [] {
      assert t.log + [] == t.log;
    } else {
      ApplyParts(Apply(t, joints[0]), joints[1..]);
      if joints[0].Loop? {
        Associate(t.log, [joints[0].event], LoopPart(joints[1..]));
        assert [] + RuntimePart(joints[1..]) == RuntimePart(joints[1..]);
      } else {
        TakeFirst(t.m, joints[0].step, RuntimePart(joints[1..]));
        assert [] + LoopPart(joints[1..]) == LoopPart(joints[1..]);
      }
    }
  }

  lemma TakeFirst(m: Machine, step: Step, rest: seq<Step>)
    ensures TakeAll(m, [step] + rest) == TakeAll(Take(m, step), rest)
  {
    assert ([step] + rest)[1..] == rest;
  }

  /** What a cut leaves of either part is a prefix of it. */
  lemma CutParts(joints: seq<Joint>, keep: nat)
    ensures LoopPart(Cut(joints, keep)) <= LoopPart(joints) && RuntimePart(Cut(joints, keep)) <= RuntimePart(joints)
  {
    if keep < |joints| {
      PrefixSplits(joints, keep);
      PartsConcat(joints[..keep], joints[keep..]);
      PrefixOf(LoopPart(joints[..keep]), LoopPart(joints[keep..]));
      PrefixOf(RuntimePart(joints[..keep]), RuntimePart(joints[keep..]));
    }
  }

  lemma CallingParts(c: Setting, s: L.State, plan: P.Plan, step: P.Step, m: Machine, round: Round)
    requires round.Iteration?
    ensures
      var (calling, outcome) := CallSteps(c, step, m, round.executing);
      && LoopPart(Calling(c, s, plan, step, m, round)) == [L.StepSelected(step.stepId)] + Rest(c, s, plan, step, outcome, round)
      && RuntimePart(Calling(c, s, plan, step, m, round)) == calling
  {
    var (calling, outcome) := CallSteps(c, step, m, round.executing);
    SelectedParts(step.stepId, calling, Rest(c, s, plan, step, outcome, round));
  }

  lemma SelectedParts(id: string, calling: seq<Step>, rest: L.Log)
    ensures
      var joints := [Loop(L.StepSelected(id))] + (AllRuntime(calling) + AllLoop(rest));
      LoopPart(joints) == [L.StepSelected(id)] + rest && RuntimePart(joints) == calling
  {
    PartsConcat([Loop(L.StepSelected(id))], AllRuntime(calling) + AllLoop(rest));
    PartsConcat(AllRuntime(calling), AllLoop(rest));
    PartsOfOne(L.StepSelected(id));
    PartsOfRuntime(calling);
    PartsOfLoop(rest);
    NothingAround(calling);
    NothingAround(rest);
  }

  /** The parts of a round: an iteration recovers, and then works. */
  lemma IterationParts(c: Setting, t: Task, round: Round)
    requires round.Iteration?
    ensures
      var recovering := Reconcile(c.tools, t.m, round.reconciling).0;
      var working := Working(c, t.log, TakeAll(t.m, recovering), round);
      && LoopPart(Joints(c, t, round)) == [L.IterationStarted] + LoopPart(working)
      && RuntimePart(Joints(c, t, round)) == recovering + RuntimePart(working)
  {
    var recovering := Reconcile(c.tools, t.m, round.reconciling).0;
    StartedParts(recovering, Working(c, t.log, TakeAll(t.m, recovering), round));
  }

  lemma StartedParts(recovering: seq<Step>, working: seq<Joint>)
    ensures
      var joints := [Loop(L.IterationStarted)] + (AllRuntime(recovering) + working);
      && LoopPart(joints) == [L.IterationStarted] + LoopPart(working)
      && RuntimePart(joints) == recovering + RuntimePart(working)
  {
    PartsConcat([Loop(L.IterationStarted)], AllRuntime(recovering) + working);
    PartsConcat(AllRuntime(recovering), working);
    PartsOfOne(L.IterationStarted);
    PartsOfRuntime(recovering);
    NothingAround(LoopPart(working));
    NothingAround(recovering + RuntimePart(working));
  }

  // ---- the loop's part is an iteration of the loop ----

  lemma OwnParts(a: L.Log, b: L.Log)
    requires a != []
    ensures (a + b)[0] == a[0] && (a + b)[1..] == a[1..] + b
  {
  }

  lemma {:induction false} OwnConcat(a: L.Log, b: L.Log)
    ensures Own(a + b) == Own(a) + Own(b)
    decreases |a|
  {
    if a == [] {
      assert a + b == b;
    } else {
      OwnParts(a, b);
      OwnConcat(a[1..], b);
      Associate(if a[0].Noted? then [] else [a[0]], Own(a[1..]), Own(b));
    }
  }

  /** What the runtime answers the loop, if the loop calls a step. */
  ghost function Answer(c: Setting, t: Task, round: Round): L.ToolOutcome
    requires round.Iteration?
  {
    var m := TakeAll(t.m, Reconcile(c.tools, t.m, round.reconciling).0);
    match LoopOutcomes.InForce(c.config, L.Fold(t.log), L.IsTerminal(t.log), round.reply)
    case None => L.ToolThrows
    case Some((s, plan)) => AnswerOn(c, s, plan, m, round)
  }

  function AnswerOn(c: Setting, s: L.State, plan: P.Plan, m: Machine, round: Round): L.ToolOutcome
    requires round.Iteration?
  {
    match S.SelectNextStep(c.config.before, plan.steps, s.completed, s.failed)
    case Selected(step) => OutcomeFor(CallSteps(c, step, m, round.executing).1, round)
    case _ => L.ToolThrows
  }

  /** The loop's own events of a round are those of an iteration of the loop whose planner answers the same and whose
      tool answers as the runtime does. */
  lemma LoopPartIsIterate(c: Setting, t: Task, round: Round)
    requires round.Iteration?
    ensures LoopPart(Joints(c, t, round)) ==
            Own(L.Iterate(c.config, L.Fold(t.log), L.IsTerminal(t.log), L.Input(round.reply, Answer(c, t, round), SILENT)).0)
  {
    var m := TakeAll(t.m, Reconcile(c.tools, t.m, round.reconciling).0);
    IterationParts(c, t, round);
    SilentStart();
    WorkingIsWork(c, t, m, round);
    NothingAround([L.IterationStarted]);
    OwnConcat(L.Preparing(SILENT), WorkEvents(c, t, round));
  }

  /** The events of an iteration after its start, by the loop alone. */
  ghost function WorkEvents(c: Setting, t: Task, round: Round): L.Log
    requires round.Iteration?
  {
    var input := L.Input(round.reply, Answer(c, t, round), SILENT);
    var s := L.Fold(t.log);
    if L.IsTerminal(t.log) then []
    else if s.plan.None? || s.planInvalidated then L.PlanAndWork(c.config, s, input).0
    else L.Work(c.config, s, s.plan.value, input).0
  }

  lemma SilentStart()
    ensures L.Opening(SILENT) == [L.IterationStarted] && L.Preparing(SILENT) == [L.IterationStarted]
    ensures Own([L.IterationStarted]) == [L.IterationStarted] && L.AllNoted(SILENT.planning) == []
  {
    assert L.AllNoted([]) == [];
    assert [L.IterationStarted][1..] == [];
  }

  lemma WorkingIsWork(c: Setting, t: Task, m: Machine, round: Round)
    requires round.Iteration? && m == TakeAll(t.m, Reconcile(c.tools, t.m, round.reconciling).0)
    ensures LoopPart(Working(c, t.log, m, round)) == Own(WorkEvents(c, t, round))
  {
    var s := L.Fold(t.log);
    var input := L.Input(round.reply, Answer(c, t, round), SILENT);
    match LoopOutcomes.InForce(c.config, s, L.IsTerminal(t.log), round.reply) {
      case None =>
        SilentStart();
      case Some((s1, plan)) =>
        OnPlanIsWork(c, s1, plan, m, round, input);
        if s.plan.None? || s.planInvalidated {
          PlannedIsWork(c, s, plan, OnPlan(c, s1, plan, m, round), input);
        }
    }
  }

  lemma PlannedIsWork(c: Setting, s: L.State, plan: P.Plan, working: seq<Joint>, input: L.Input)
    requires input.reply == Some(plan) && L.Accepts(c.config, plan) && input.notes == SILENT
    requires LoopPart(working) == Own(L.Work(c.config, L.Planned(plan), plan, input).0)
    ensures LoopPart([Loop(L.PlanRecorded(s.plan.Some?, plan))] + working) == Own(L.PlanAndWork(c.config, s, input).0)
  {
    var recorded := L.PlanRecorded(s.plan.Some?, plan);
    var work := L.Work(c.config, L.Planned(plan), plan, input).0;
    PartsConcat([Loop(recorded)], working);
    PartsOfOne(recorded);
    SilentStart();
    NothingAround([recorded]);
    OwnConcat([recorded], work);
    assert Own([recorded]) == [recorded] by { assert [recorded][1..] == []; }
  }

  lemma OnPlanIsWork(c: Setting, s: L.State, plan: P.Plan, m: Machine, round: Round, input: L.Input)
    requires round.Iteration? && input == L.Input(round.reply, AnswerOn(c, s, plan, m, round), SILENT)
    ensures LoopPart(OnPlan(c, s, plan, m, round)) == Own(L.Work(c.config, s, plan, input).0)
  {
    match S.SelectNextStep(c.config.before, plan.steps, s.completed, s.failed)
    case Deadlock =>
    case Goal => PartsOfLoop(Own(L.GoalEvents(plan, s.evidence)));
    case Selected(step) =>
      CallingParts(c, s, plan, step, m, round);
      AttemptSelects(c, s, plan, step, input);
  }

  lemma AttemptSelects(c: Setting, s: L.State, plan: P.Plan, step: P.Step, input: L.Input)
    ensures
      var events := L.Attempt(c.config, s, plan, step, input).0;
      events != [] && events[0] == L.StepSelected(step.stepId)
      && Own(events) == [L.StepSelected(step.stepId)] + Own(events[1..])
  {
  }

  // ---- a call that needs an approval is never verified ----

  predicate AllNeutral(events: L.Log) {
    forall k :: 0 <= k < |events| ==> L.Neutral(events[k])
  }

  /** The loop reconstructs the same state from both logs. */
  ghost predicate SameState(log: L.Log, log': L.Log) {
    L.Fold(log') == L.Fold(log) && L.IsTerminal(log') == L.IsTerminal(log)
  }

  /** The plan stands, and `step` is next. */
  ghost predicate IsNext(c: Setting, log: L.Log, step: P.Step) {
    var s := L.Fold(log);
    && !L.IsTerminal(log) && s.plan.Some? && !s.planInvalidated
    && S.SelectNextStep(c.config.before, s.plan.value.steps, s.completed, s.failed) == S.Selected(step)
  }

  /** The policy of the tool asks for an approval of every call. */
  predicate Asking(env: Env) {
    env.gate.inputValid && env.gate.decision == NeedApproval
  }

  predicate CallAsks(round: Round) {
    round.Iteration? ==> Asking(round.executing)
  }

  lemma NextCalls(c: Setting, t: Task, round: Round, step: P.Step)
    requires IsNext(c, t.log, step) && round.Iteration?
    ensures
      var m := TakeAll(t.m, Reconcile(c.tools, t.m, round.reconciling).0);
      var (calling, outcome) := CallSteps(c, step, m, round.executing);
      var s := L.Fold(t.log);
      && LoopPart(Joints(c, t, round)) ==
         [L.IterationStarted] + ([L.StepSelected(step.stepId)] + Rest(c, s, s.plan.value, step, outcome, round))
      && RuntimePart(Joints(c, t, round)) == Reconcile(c.tools, t.m, round.reconciling).0 + calling
  {
    var m := TakeAll(t.m, Reconcile(c.tools, t.m, round.reconciling).0);
    var s := L.Fold(t.log);
    IterationParts(c, t, round);
    CallingParts(c, s, s.plan.value, step, m, round);
  }

  /** An asking call ends before it starts. */
  lemma AskingEnds(c: Setting, step: P.Step, m: Machine, env: Env)
    requires Asking(env)
    ensures
      var (executing, outcome) := Execute(c.tools, m, Request(CallFor(c, step, env.freshKey), 0), false, env);
      && (outcome == Threw || outcome == Finished(WaitingForApproval))
      && outcome == CallSteps(c, step, m, env).1
  {
  }

  lemma AskingRestIsNeutral(c: Setting, s: L.State, plan: P.Plan, step: P.Step, outcome: Outcome, round: Round)
    requires round.Iteration? && (outcome == Threw || outcome == Finished(WaitingForApproval))
    ensures AllNeutral(Rest(c, s, plan, step, outcome, round))
  {
    var events := L.Attempt(c.config, s, plan, step, L.Input(round.reply, OutcomeFor(outcome, round), SILENT)).0;
    assert AllNeutral(events);
    OwnIsNeutral(events[1..]);
  }

  lemma {:induction false} OwnIsNeutral(events: L.Log)
    requires AllNeutral(events)
    ensures AllNeutral(Own(events))
  {
    if events != [] { OwnIsNeutral(events[1..]); }
  }

  lemma AskingRoundIsNeutral(c: Setting, t: Task, round: Round, step: P.Step)
    requires IsNext(c, t.log, step) && CallAsks(round)
    ensures AllNeutral(LoopPart(Joints(c, t, round)))
  {
    match round
    case Decision(id, approved, env) => PartsOfRuntime(Resume(c.tools, t.m, id, approved, env).0);
    case Recovery(env) => PartsOfRuntime(Reconcile(c.tools, t.m, env).0);
    case Iteration(reconciling, _, executing, _, _, _) =>
      var m := TakeAll(t.m, Reconcile(c.tools, t.m, reconciling).0);
      var s := L.Fold(t.log);
      NextCalls(c, t, round, step);
      AskingEnds(c, step, m, executing);
      AskingRestIsNeutral(c, s, s.plan.value, step, CallSteps(c, step, m, executing).1, round);
      StartAndSelectAreNeutral(step, Rest(c, s, s.plan.value, step, CallSteps(c, step, m, executing).1, round));
  }

  lemma StartAndSelectAreNeutral(step: P.Step, rest: L.Log)
    requires AllNeutral(rest)
    ensures AllNeutral([L.IterationStarted] + ([L.StepSelected(step.stepId)] + rest))
  {
  }

  lemma AskingRoundKeepsState(c: Setting, t: Task, cut: CutRound, step: P.Step)
    requires IsNext(c, t.log, step) && CallAsks(cut.round)
    ensures SameState(t.log, Do(c, t, cut).log)
  {
    var joints := Joints(c, t, cut.round);
    AskingRoundIsNeutral(c, t, cut.round, step);
    CutParts(joints, cut.keep);
    ApplyParts(t, Cut(joints, cut.keep));
    L.NeutralChangesNothing(t.log, LoopPart(Cut(joints, cut.keep)));
  }

  /** In every run of iterations, start-ups and decisions, granted or denied, cut anywhere: a step whose tool asks for an
      approval of every call is never verified, so it stays the next one. */
  lemma {:induction false} AskingNeverVerifies(c: Setting, t: Task, rounds: seq<CutRound>, step: P.Step)
    requires IsNext(c, t.log, step) && forall k :: 0 <= k < |rounds| ==> CallAsks(rounds[k].round)
    ensures L.Fold(Run(c, t, rounds).log) == L.Fold(t.log) && IsNext(c, Run(c, t, rounds).log, step)
    decreases |rounds|
  {
    if rounds != [] {
      AskingRoundKeepsState(c, t, rounds[0], step);
      AskingNeverVerifies(c, Do(c, t, rounds[0]), rounds[1..], step);
    }
  }

  // ---- a call that is let through, and cut off before it is recorded, is made again ----

  /** The round is cut before the loop has recorded a verdict. */
  ghost predicate CutBeforeVerdict(c: Setting, t: Task, cut: CutRound) {
    AllNeutral(LoopPart(Survives(c, t, cut)))
  }

  /** Any tool: whatever a round did before it was cut, the next iteration runs the same step's call again, under the key
      that it draws itself. */
  lemma UnrecordedCallRepeats(c: Setting, t: Task, cut: CutRound, again: Round, step: P.Step)
    requires IsNext(c, t.log, step) && CutBeforeVerdict(c, t, cut)
    requires again.Iteration? && step.selectedTool in c.tools
    requires Admit(Keyed(c.tools, CallFor(c, step, again.executing.freshKey), again.executing), false, again.executing.gate).1.None?
    ensures
      var t1 := Do(c, t, cut);
      var recovering := Reconcile(c.tools, t1.m, again.reconciling).0;
      RuntimePart(Joints(c, t1, again)) == recovering + AdmittedRun(c, step, TakeAll(t1.m, recovering), again.executing)
  {
    var t1 := Do(c, t, cut);
    ApplyParts(t, Survives(c, t, cut));
    L.NeutralChangesNothing(t.log, LoopPart(Survives(c, t, cut)));
    NextCalls(c, t1, again, step);
    AdmittedIntends(c, step, TakeAll(t1.m, Reconcile(c.tools, t1.m, again.reconciling).0), again.executing);
  }

  /** What an admitted call of the step does: its intent, the tool's actions, its result. */
  function AdmittedRun(c: Setting, step: P.Step, m: Machine, env: Env): seq<Step>
    requires step.selectedTool in c.tools
  {
    var call := Keyed(c.tools, CallFor(c, step, env.freshKey), env);
    var admitting := Admit(call, false, env.gate).0;
    admitting + RunTool(c.tools[call.tool], TakeAll(m, admitting), call, 1, env.oracle).0
  }

  lemma AdmittedIntends(c: Setting, step: P.Step, m: Machine, env: Env)
    requires step.selectedTool in c.tools
    requires Admit(Keyed(c.tools, CallFor(c, step, env.freshKey), env), false, env.gate).1.None?
    ensures CallSteps(c, step, m, env).0 == AdmittedRun(c, step, m, env)
  {
    var call := Keyed(c.tools, CallFor(c, step, env.freshKey), env);
    var admitting := Admit(call, false, env.gate).0;
    var running := RunTool(c.tools[call.tool], TakeAll(m, admitting), call, 1, env.oracle).0;
    assert running[0] == AppendEvent(Intended(call));
    assert (admitting + running)[|admitting|] == AppendEvent(Intended(call));
    assert RecordsIntent(admitting + running);
  }

  // ---- an orphan that an asking iteration hides ----

  /** Pairing, and what is hidden, are kept by every round with any tools and answers, cut anywhere. */
  lemma RoundKeepsLog(inv: Invariant, c: Setting, t: Task, round: Round)
    requires !inv.ExactlyOnce? && Holds(inv, t.m) && Paired(t.m.log)
    ensures Always(inv, t.m, RuntimePart(Joints(c, t, round)))
  {
    match round
    case Decision(id, approved, env) =>
      PartsOfRuntime(Resume(c.tools, t.m, id, approved, env).0);
      ResumeKeeps(inv, c.tools, t.m, id, approved, env);
    case Recovery(env) =>
      PartsOfRuntime(Reconcile(c.tools, t.m, env).0);
      ReconcileKeeps(inv, c.tools, t.m, env);
    case Iteration(reconciling, _, _, _, _, _) =>
      var recovering := Reconcile(c.tools, t.m, reconciling).0;
      IterationParts(c, t, round);
      ReconcileKeeps(inv, c.tools, t.m, reconciling);
      ReconcileKeeps(Pairing, c.tools, t.m, reconciling);
      AlwaysEnd(inv, t.m, recovering);
      AlwaysEnd(Pairing, t.m, recovering);
      WorkingKeepsLog(inv, c, t.log, TakeAll(t.m, recovering), round);
      AlwaysConcat(inv, t.m, recovering, RuntimePart(Working(c, t.log, TakeAll(t.m, recovering), round)));
  }

  lemma WorkingKeepsLog(inv: Invariant, c: Setting, log: L.Log, m: Machine, round: Round)
    requires round.Iteration? && !inv.ExactlyOnce? && Holds(inv, m) && Paired(m.log)
    ensures Always(inv, m, RuntimePart(Working(c, log, m, round)))
  {
    var s := L.Fold(log);
    match LoopOutcomes.InForce(c.config, s, L.IsTerminal(log), round.reply)
    case None => AlwaysNone(inv, m);
    case Some((s1, plan)) =>
      var recorded := L.PlanRecorded(s.plan.Some?, plan);
      OnPlanKeepsLog(inv, c, s1, plan, m, round);
      PartsConcat([Loop(recorded)], OnPlan(c, s1, plan, m, round));
      PartsOfOne(recorded);
      NothingAround(RuntimePart(OnPlan(c, s1, plan, m, round)));
  }

  lemma OnPlanKeepsLog(inv: Invariant, c: Setting, s: L.State, plan: P.Plan, m: Machine, round: Round)
    requires round.Iteration? && !inv.ExactlyOnce? && Holds(inv, m) && Paired(m.log)
    ensures Always(inv, m, RuntimePart(OnPlan(c, s, plan, m, round)))
  {
    match S.SelectNextStep(c.config.before, plan.steps, s.completed, s.failed)
    case Deadlock => AlwaysNone(inv, m);
    case Goal =>
      PartsOfLoop(Own(L.GoalEvents(plan, s.evidence)));
      AlwaysNone(inv, m);
    case Selected(step) =>
      CallingParts(c, s, plan, step, m, round);
      CallKeepsLog(inv, c, step, m, round.executing);
  }

  lemma CallKeepsLog(inv: Invariant, c: Setting, step: P.Step, m: Machine, env: Env)
    requires !inv.ExactlyOnce? && Holds(inv, m) && Paired(m.log)
    ensures Always(inv, m, CallSteps(c, step, m, env).0)
  {
    var request := Request(CallFor(c, step, env.freshKey), 0);
    var (executing, outcome) := Execute(c.tools, m, request, false, env);
    ExecuteKeeps(inv, c.tools, m, request, false, env);
    ExecuteKeeps(Pairing, c.tools, m, request, false, env);
    AlwaysEnd(inv, m, executing);
    AlwaysEnd(Pairing, m, executing);
    var m1 := TakeAll(m, executing);
    FallbackKeepsLog(inv, c, step, m1, outcome);
    AlwaysConcat(inv, m, executing, Fallback(c, step, m1, outcome));
  }

  lemma FallbackKeepsLog(inv: Invariant, c: Setting, step: P.Step, m: Machine, outcome: Outcome)
    requires !inv.ExactlyOnce? && Holds(inv, m) && Paired(m.log)
    ensures Always(inv, m, Fallback(c, step, m, outcome))
  {
    var call := Call(step.selectedTool, None, c.inputOf(step));
    var status := if outcome == Finished(Completed) then Completed else Failed;
    var intending, answering := AppendEvent(Intended(call)), AppendEvent(ToolResult(|m.log|, status, false));
    AlwaysHarmless(inv, m, [intending]);
    TakeOne(m, intending);
    NewIntentIsUnanswered(m, call);
    ResultKeeps(inv, Take(m, intending), |m.log|, status, false);
    AlwaysOne(inv, Take(m, intending), answering);
    AlwaysConcat(inv, m, [intending], [answering]);
    assert [intending] + [answering] == Fallback(c, step, m, outcome);
  }

  lemma CutKeepsLog(inv: Invariant, c: Setting, t: Task, cut: CutRound)
    requires !inv.ExactlyOnce? && Holds(inv, t.m) && Paired(t.m.log)
    ensures Holds(inv, Do(c, t, cut).m)
  {
    var steps := RuntimePart(Joints(c, t, cut.round));
    var kept := RuntimePart(Survives(c, t, cut));
    RoundKeepsLog(inv, c, t, cut.round);
    CutParts(Joints(c, t, cut.round), cut.keep);
    ApplyParts(t, Survives(c, t, cut));
    assert HoldsAfter(inv, t.m, steps, |kept|);
    assert kept == steps[..|kept|];
  }

  lemma {:induction false} HiddenStays(c: Setting, t: Task, rounds: seq<CutRound>, i: nat)
    requires Paired(t.m.log) && IsHidden(t.m.log, i)
    ensures IsHidden(Run(c, t, rounds).m.log, i)
    decreases |rounds|
  {
    if rounds != [] {
      CutKeepsLog(Pairing, c, t, rounds[0]);
      CutKeepsLog(Hidden(i), c, t, rounds[0]);
      HiddenStays(c, Do(c, t, rounds[0]), rounds[1..], i);
    }
  }

  /** The reconciliation of the iteration leaves the orphan; then the loop's call asks, and the loop adds its own intent
      and result for it: the orphan is hidden. */
  lemma AskingHides(c: Setting, t: Task, round: Round, step: P.Step, i: nat)
    requires IsNext(c, t.log, step) && Paired(t.m.log) && round.Iteration? && Asking(round.executing)
    requires step.selectedTool in c.tools
    requires LatestOrphan(TakeAll(t.m, Reconcile(c.tools, t.m, round.reconciling).0).log) == Some(i)
    ensures IsHidden(TakeAll(t.m, RuntimePart(Joints(c, t, round))).log, i)
  {
    var recovering := Reconcile(c.tools, t.m, round.reconciling).0;
    var m := TakeAll(t.m, recovering);
    var call := Keyed(c.tools, CallFor(c, step, round.executing.freshKey), round.executing);
    var asking := [AppendEvent(SafetyDecided), AskApproval(call)];
    NextCalls(c, t, round, step);
    ReconcileKeeps(Pairing, c.tools, t.m, round.reconciling);
    AlwaysEnd(Pairing, t.m, recovering);
    TakeConcat(t.m, recovering, CallSteps(c, step, m, round.executing).0);
    AskingCallSteps(c, step, m, round.executing);
    TakeConcat(m, asking, Fallback(c, step, TakeAll(m, asking), Finished(WaitingForApproval)));
    AskingLog(m, call);
    FallbackHides(c, step, TakeAll(m, asking), i);
  }

  lemma AskingCallSteps(c: Setting, step: P.Step, m: Machine, env: Env)
    requires Asking(env) && step.selectedTool in c.tools
    ensures
      var asking := [AppendEvent(SafetyDecided), AskApproval(Keyed(c.tools, CallFor(c, step, env.freshKey), env))];
      CallSteps(c, step, m, env) ==
      (asking + Fallback(c, step, TakeAll(m, asking), Finished(WaitingForApproval)), Finished(WaitingForApproval))
  {
    var call := Keyed(c.tools, CallFor(c, step, env.freshKey), env);
    AskingSteps(call, env.gate);
    assert Execute(c.tools, m, Request(CallFor(c, step, env.freshKey), 0), false, env) ==
           ([AppendEvent(SafetyDecided), AskApproval(call)], Finished(WaitingForApproval));
  }

  lemma AskingSteps(call: Call, gate: Gate)
    requires gate.inputValid && gate.decision == NeedApproval
    ensures Admit(call, false, gate) == ([AppendEvent(SafetyDecided), AskApproval(call)], Some(Finished(WaitingForApproval)))
  {
    assert [AppendEvent(SafetyDecided)] + [AskApproval(call)] == [AppendEvent(SafetyDecided), AskApproval(call)];
  }

  /** Asking for an approval appends one event and one approval. */
  lemma AskingLog(m: Machine, call: Call)
    requires Paired(m.log)
    ensures
      var m' := TakeAll(m, [AppendEvent(SafetyDecided), AskApproval(call)]);
      && m' == Machine(m.log + [SafetyDecided], m.world, m.approvals + [Approval(call, true)])
      && LatestOrphan(m'.log) == LatestOrphan(m.log) && Paired(m'.log)
  {
    TakeTwo(m, AppendEvent(SafetyDecided), AskApproval(call));
    OrphanSnoc(m.log, SafetyDecided);
    HarmlessKeeps(Pairing, m, AppendEvent(SafetyDecided));
    assert Take(m, AppendEvent(SafetyDecided)).log == m.log + [SafetyDecided];
  }

  lemma TakeTwo(m: Machine, a: Step, b: Step)
    ensures TakeAll(m, [a, b]) == Take(Take(m, a), b)
  {
    assert [a, b] == [a] + [b];
    TakeConcat(m, [a], [b]);
    TakeOne(m, a);
    TakeOne(Take(m, a), b);
  }

  lemma FallbackHides(c: Setting, step: P.Step, m: Machine, i: nat)
    requires Paired(m.log) && LatestOrphan(m.log) == Some(i)
    ensures IsHidden(TakeAll(m, Fallback(c, step, m, Finished(WaitingForApproval))).log, i)
  {
    var call := Call(step.selectedTool, None, c.inputOf(step));
    var fallback := Fallback(c, step, m, Finished(WaitingForApproval));
    OrphanIsUnanswered(m.log);
    TakeTwo(m, fallback[0], fallback[1]);
    var log := m.log + [Intended(call)] + [ToolResult(|m.log|, Failed, false)];
    assert log[|m.log|] == Intended(call);
    assert Unanswered(log, i);
  }

  /** A granted call that crashed and that the next reconciliation does not settle: the iteration hides its intent, and in
      no run that follows is it answered, whatever the tools, the decisions and the crashes. */
  lemma AskingHidesForGood(c: Setting, t: Task, round: Round, step: P.Step, i: nat, rounds: seq<CutRound>)
    requires IsNext(c, t.log, step) && Paired(t.m.log) && round.Iteration? && Asking(round.executing)
    requires step.selectedTool in c.tools
    requires LatestOrphan(TakeAll(t.m, Reconcile(c.tools, t.m, round.reconciling).0).log) == Some(i)
    ensures
      var hiding := CutRound(round, |Joints(c, t, round)|);
      var log := Run(c, Do(c, t, hiding), rounds).m.log;
      Unanswered(log, i) && LatestOrphan(log) != Some(i)
  {
    var hiding := CutRound(round, |Joints(c, t, round)|);
    var t1 := Do(c, t, hiding);
    AskingHides(c, t, round, step, i);
    ApplyParts(t, Joints(c, t, round));
    CutKeepsLog(Pairing, c, t, hiding);
    HiddenStays(c, t1, rounds, i);
    PairedStays(c, t1, rounds);
    OrphanExactlyWhen(Run(c, t1, rounds).m.log, i);
  }

  lemma {:induction false} PairedStays(c: Setting, t: Task, rounds: seq<CutRound>)
    requires Paired(t.m.log)
    ensures Paired(Run(c, t, rounds).m.log)
    decreases |rounds|
  {
    if rounds != [] {
      CutKeepsLog(Pairing, c, t, rounds[0]);
      PairedStays(c, Do(c, t, rounds[0]), rounds[1..]);
    }
  }

  // ---- what reaches the disk ----

  function DiskActions(steps: seq<Step>): seq<Action> {
    if steps == [] then []
    else (if steps[0].OnDisk? then [steps[0].action] else []) + DiskActions(steps[1..])
  }

  lemma ConcatSteps(a: seq<Step>, b: seq<Step>)
    requires a != []
    ensures (a + b)[0] == a[0] && (a + b)[1..] == a[1..] + b
  {
  }

  lemma {:induction false} DiskConcat(a: seq<Step>, b: seq<Step>)
    ensures DiskActions(a + b) == DiskActions(a) + DiskActions(b)
    decreases |a|
  {
    if a == [] {
      assert a + b == b;
    } else {
      ConcatSteps(a, b);
      DiskConcat(a[1..], b);
      Associate(if a[0].OnDisk? then [a[0].action] else [], DiskActions(a[1..]), DiskActions(b));
    }
  }

  lemma {:induction false} DiskOfActions(actions: seq<Action>)
    ensures DiskActions(OnDiskAll(actions)) == actions
  {
    if actions != [] {
      DiskOfActions(actions[1..]);
      ConsDisk(actions[0], OnDiskAll(actions[1..]));
      assert [actions[0]] + actions[1..] == actions;
    }
  }

  lemma ConsDisk(a: Action, rest: seq<Step>)
    ensures DiskActions([OnDisk(a)] + rest) == [a] + DiskActions(rest)
  {
    assert ([OnDisk(a)] + rest)[1..] == rest;
  }

  lemma {:induction false} NoDisk(steps: seq<Step>)
    requires forall k :: 0 <= k < |steps| ==> !steps[k].OnDisk?
    ensures DiskActions(steps) == []
  {
    if steps != [] { NoDisk(steps[1..]); }
  }

  lemma {:induction false} TakeWorld(m: Machine, steps: seq<Step>)
    ensures TakeAll(m, steps).world == DoAll(m.world, DiskActions(steps))
    decreases |steps|
  {
    if steps != [] {
      TakeWorld(Take(m, steps[0]), steps[1..]);
      if steps[0].OnDisk? {
        DoFirst(m.world, steps[0].action, DiskActions(steps[1..]));
      } else {
        NothingAround(DiskActions(steps[1..]));
      }
    }
  }

  lemma DoFirst(w: World, a: Action, rest: seq<Action>)
    ensures DoAll(w, [a] + rest) == DoAll(Disk.Do(w, a), rest)
  {
    assert ([a] + rest)[1..] == rest;
  }

  lemma RestOf<T>(a: seq<T>, b: seq<T>) returns (rest: seq<T>)
    requires a <= b
    ensures b == a + rest
  {
    rest := b[|a|..];
  }

  lemma DiskPrefix(a: seq<Step>, b: seq<Step>)
    requires a <= b
    ensures DiskActions(a) <= DiskActions(b)
  {
    var rest := RestOf(a, b);
    DiskConcat(a, rest);
    PrefixOf(DiskActions(a), DiskActions(rest));
  }

  // ---- a step that appends, asked for every time ----

  /** The step appends, by the tool as it is registered. */
  ghost predicate Appends(c: Setting, step: P.Step) {
    step.selectedTool == "fs.append" && "fs.append" in c.tools && c.tools["fs.append"] == FsAppendTool()
  }

  predicate IsCallOf(c: Setting, step: P.Step, call: Call) {
    call.tool == "fs.append" && call.input == c.inputOf(step)
  }

  /** Every call that the task has left open is one of the step: that of the orphan, and those that wait for a decision. */
  ghost predicate OnlyStepCalls(c: Setting, step: P.Step, m: Machine) {
    && (LatestOrphan(m.log).Some? ==> IsCallOf(c, step, m.log[LatestOrphan(m.log).value].call))
    && (forall i :: 0 <= i < |m.approvals| && m.approvals[i].pending ==>
          IsCallOf(c, step, m.approvals[i].call) && m.approvals[i].call.key.Some?)
  }

  predicate OpensStepCall(c: Setting, step: P.Step, s: Step) {
    && (s.AppendEvent? && s.event.Intended? ==> IsCallOf(c, step, s.event.call))
    && (s.AskApproval? ==> IsCallOf(c, step, s.call) && s.call.key.Some?)
  }

  predicate OpenStepCalls(c: Setting, step: P.Step, steps: seq<Step>) {
    forall k :: 0 <= k < |steps| ==> OpensStepCall(c, step, steps[k])
  }

  lemma StepKeepsOnly(c: Setting, step: P.Step, m: Machine, s: Step)
    requires OnlyStepCalls(c, step, m) && OpensStepCall(c, step, s)
    ensures OnlyStepCalls(c, step, Take(m, s))
  {
    if s.AppendEvent? { OrphanSnoc(m.log, s.event); }
  }

  lemma {:induction false} StepsKeepOnly(c: Setting, step: P.Step, m: Machine, steps: seq<Step>)
    requires OnlyStepCalls(c, step, m) && OpenStepCalls(c, step, steps)
    ensures OnlyStepCalls(c, step, TakeAll(m, steps))
    decreases |steps|
  {
    if steps != [] {
      StepKeepsOnly(c, step, m, steps[0]);
      StepsKeepOnly(c, step, Take(m, steps[0]), steps[1..]);
    }
  }

  lemma OpenConcat(c: Setting, step: P.Step, a: seq<Step>, b: seq<Step>)
    requires OpenStepCalls(c, step, a) && OpenStepCalls(c, step, b)
    ensures OpenStepCalls(c, step, a + b)
  {
  }

  /** Every policy decision of the round asks. */
  predicate AlwaysAsks(round: Round) {
    match round
    case Iteration(reconciling, _, executing, _, _, _) => Asking(reconciling) && Asking(executing)
    case Recovery(env) => Asking(env)
    case Decision(_, _, _) => true
  }

  /** The key that reconciliation asks about, if it asks. */
  function QueriedKey(m: Machine): Option<Key> {
    match LatestOrphan(m.log)
    case None => None
    case Some(i) => if PendingReapproval(m.log, i) then None else m.log[i].call.key
  }

  ghost function Querying(m: Machine): seq<Action> {
    match QueriedKey(m)
    case None => []
    case Some(key) => FsToolService.StatusQuery(m.world, FsAppend, key).0
  }

  /** An asking execution of a call only asks. */
  lemma AskingExecutes(c: Setting, m: Machine, call: Call, env: Env)
    requires call.tool in c.tools && Asking(env)
    ensures Execute(c.tools, m, Request(call, 0), false, env) ==
            ([AppendEvent(SafetyDecided), AskApproval(Keyed(c.tools, call, env))], Finished(WaitingForApproval))
  {
    AskingSteps(Keyed(c.tools, call, env), env.gate);
  }

  /** An asking reconciliation queries the orphan's key, and then reports it as done or asks for its call again, under the
      same key. */
  lemma AskingReconciles(c: Setting, step: P.Step, m: Machine, env: Env)
    requires Appends(c, step) && OnlyStepCalls(c, step, m) && Asking(env)
    ensures
      var steps := Reconcile(c.tools, m, env).0;
      DiskActions(steps) == Querying(m) && OpenStepCalls(c, step, steps)
  {
    if LatestOrphan(m.log).Some? && !PendingReapproval(m.log, LatestOrphan(m.log).value) {
      var i := LatestOrphan(m.log).value;
      var m1 := TakeAll(m, [AppendEvent(ReconciliationStarted(i))]);
      TakeOne(m, AppendEvent(ReconciliationStarted(i)));
      AskingSettles(c, step, m1, i, m.log[i].call, env);
      EventThen(c, step, ReconciliationStarted(i), ReconcileOrphan(c.tools, m1, FsAppendTool(), i, m.log[i].call, env).0);
    }
  }

  lemma EventThen(c: Setting, step: P.Step, e: Event, rest: seq<Step>)
    requires !e.Intended? && OpenStepCalls(c, step, rest)
    ensures
      var steps := [AppendEvent(e)] + rest;
      DiskActions(steps) == DiskActions(rest) && OpenStepCalls(c, step, steps)
  {
    DiskConcat([AppendEvent(e)], rest);
    NoDisk([AppendEvent(e)]);
    NothingAround(DiskActions(rest));
    OpenConcat(c, step, [AppendEvent(e)], rest);
  }

  lemma AskingSettles(c: Setting, step: P.Step, m: Machine, i: nat, call: Call, env: Env)
    requires Appends(c, step) && IsCallOf(c, step, call) && Asking(env)
    ensures
      var steps := ReconcileOrphan(c.tools, m, FsAppendTool(), i, call, env).0;
      && DiskActions(steps) == (if call.key.Some? then FsToolService.StatusQuery(m.world, FsAppend, call.key.value).0 else [])
      && OpenStepCalls(c, step, steps)
  {
    var (querying, applied) := Query(FsAppendTool(), m.world, call.key);
    QueryIsStatus(m.world, call.key);
    var asking := OnDiskAll(querying);
    var rest := if applied then [AppendEvent(ToolResult(i, Completed, true)), AppendEvent(ReconciliationSynthesized(i))]
                else Reexecute(c.tools, TakeAll(m, asking), FsAppendTool(), i, call, env).0;
    if !applied { AskingReexecutes(c, step, TakeAll(m, asking), i, call, env); }
    QueriedThen(c, step, querying, rest);
  }

  lemma QueriedThen(c: Setting, step: P.Step, querying: seq<Action>, rest: seq<Step>)
    requires OpenStepCalls(c, step, rest) && forall k :: 0 <= k < |rest| ==> !rest[k].OnDisk?
    ensures DiskActions(OnDiskAll(querying) + rest) == querying && OpenStepCalls(c, step, OnDiskAll(querying) + rest)
  {
    DiskStepsOnly(querying);
    DiskOfActions(querying);
    NoDisk(rest);
    DiskConcat(OnDiskAll(querying), rest);
    NothingAround(querying);
    OpenConcat(c, step, OnDiskAll(querying), rest);
  }

  lemma QueryIsStatus(w: World, key: Option<Key>)
    ensures Query(FsAppendTool(), w, key) == if key.Some? then FsQuery(FsAppend, w, key.value) else ([], false)
  {
    if key.Some? {
      assert FsAppendTool().statusQuery.value(w, key.value) == FsQuery(FsAppend, w, key.value);
    }
  }

  lemma AskingReexecutes(c: Setting, step: P.Step, m: Machine, i: nat, call: Call, env: Env)
    requires Appends(c, step) && IsCallOf(c, step, call) && Asking(env)
    ensures
      var steps := Reexecute(c.tools, m, FsAppendTool(), i, call, env).0;
      OpenStepCalls(c, step, steps) && forall k :: 0 <= k < |steps| ==> !steps[k].OnDisk?
  {
    var marking := [AppendEvent(ReconciliationReexecute(i))];
    AskingExecutes(c, TakeAll(m, marking), call, env);
    NothingAround(marking + [AppendEvent(SafetyDecided), AskApproval(Keyed(c.tools, call, env))]);
  }

  lemma AskingCallOnlyAsks(c: Setting, step: P.Step, m: Machine, env: Env)
    requires Appends(c, step) && Asking(env)
    ensures
      var steps := CallSteps(c, step, m, env).0;
      DiskActions(steps) == [] && OpenStepCalls(c, step, steps)
  {
    AskingCallSteps(c, step, m, env);
    NoDisk(CallSteps(c, step, m, env).0);
  }

  /** What an asking iteration and a start-up do: a query. */
  lemma AskingRoundQueries(c: Setting, t: Task, round: Round, step: P.Step)
    requires IsNext(c, t.log, step) && Appends(c, step) && OnlyStepCalls(c, step, t.m)
    requires AlwaysAsks(round) && !round.Decision?
    ensures
      var steps := RuntimePart(Joints(c, t, round));
      DiskActions(steps) == Querying(t.m) && OpenStepCalls(c, step, steps)
  {
    match round
    case Recovery(env) =>
      PartsOfRuntime(Reconcile(c.tools, t.m, env).0);
      AskingReconciles(c, step, t.m, env);
    case Iteration(reconciling, _, executing, _, _, _) =>
      var recovering := Reconcile(c.tools, t.m, reconciling).0;
      var calling := CallSteps(c, step, TakeAll(t.m, recovering), executing).0;
      NextCalls(c, t, round, step);
      AskingReconciles(c, step, t.m, reconciling);
      AskingCallOnlyAsks(c, step, TakeAll(t.m, recovering), executing);
      DiskConcat(recovering, calling);
      NothingAround(DiskActions(recovering));
      OpenConcat(c, step, recovering, calling);
  }

  // ---- a grant ----

  /** The checks that a granted execution still meets, and the path check of fs.append. */
  predicate Passes(env: Env) {
    && env.gate.inputValid && env.gate.timeoutFits && env.gate.withinBudget && env.gate.lockFree
    && env.oracle(1) != 1 && env.oracle(1) != 2
  }

  /** The approval is pending, it is granted, and the execution passes the checks. */
  ghost predicate Executes(m: Machine, round: Round) {
    && round.Decision? && round.approved && round.id < |m.approvals| && m.approvals[round.id].pending
    && m.approvals[round.id].call.key.Some? && Passes(round.env)
  }

  function GrantedKey(m: Machine, round: Round): Key {
    if round.Decision? && round.id < |m.approvals| && m.approvals[round.id].call.key.Some?
    then m.approvals[round.id].call.key.value else ""
  }

  ghost function AppendOf(c: Setting, step: P.Step, w: World, key: Key): (seq<Action>, FsToolService.Outcome) {
    FsToolService.Append(w, key, c.inputOf(step).path, c.inputOf(step).content)
  }

  /** Four steps of the log, then the actions, then no more of the disk. */
  ghost predicate GrantShape(steps: seq<Step>, before: seq<Step>, actions: seq<Action>, after: seq<Step>) {
    && steps == before + (OnDiskAll(actions) + after) && |before| == 4
    && (forall k :: 0 <= k < |before| ==> !before[k].OnDisk?) && (forall k :: 0 <= k < |after| ==> !after[k].OnDisk?)
  }

  lemma GrantShapeDisk(steps: seq<Step>, before: seq<Step>, actions: seq<Action>, after: seq<Step>)
    requires GrantShape(steps, before, actions, after)
    ensures DiskActions(steps) == actions
  {
    DiskConcat(before, OnDiskAll(actions) + after);
    DiskConcat(OnDiskAll(actions), after);
    DiskOfActions(actions);
    NoDisk(before);
    NoDisk(after);
    NothingAround(actions);
  }

  /** A granted execution past its checks: one attempt, without a retry. */
  lemma GrantRuns(c: Setting, step: P.Step, m: Machine, id: nat, env: Env) returns (before: seq<Step>, after: seq<Step>)
    requires Appends(c, step) && OnlyStepCalls(c, step, m) && id < |m.approvals| && m.approvals[id].pending
    requires Admit(m.approvals[id].call, true, env.gate).1.None?
    ensures
      var call := m.approvals[id].call;
      var steps := Resume(c.tools, m, id, true, env).0;
      && GrantShape(steps, before, FsAppendRun(m.world, call.key, call.input, env.oracle(1)).0, after)
      && OpenStepCalls(c, step, steps)
  {
    var call := m.approvals[id].call;
    var admitting := Admit(call, true, env.gate).0;
    var m2 := TakeAll(TakeAll(m, Granting(id)), admitting);
    var status := GrantExecutes(c, step, m, id, env);
    var actions := FsAppendRun(m.world, call.key, call.input, env.oracle(1)).0;
    after := Ending(|m2.log|, status);
    before := Granting(id) + admitting + [AppendEvent(Intended(call))];
    GrantIsShaped(c, step, id, admitting, call, actions, after);
  }

  lemma GrantIsShaped(
      c: Setting, step: P.Step, id: nat, admitting: seq<Step>, call: Call, actions: seq<Action>, after: seq<Step>)
    requires IsCallOf(c, step, call) && admitting == [AppendEvent(LockAcquired)]
    requires forall k :: 0 <= k < |after| ==> after[k].AppendEvent? && !after[k].event.Intended?
    ensures
      var intending := [AppendEvent(Intended(call))];
      var steps := Granting(id) + (admitting + (intending + OnDiskAll(actions) + after));
      GrantShape(steps, Granting(id) + admitting + intending, actions, after) && OpenStepCalls(c, step, steps)
  {
    var before := Granting(id) + admitting + [AppendEvent(Intended(call))];
    RegroupGrant(Granting(id), admitting, [AppendEvent(Intended(call))], OnDiskAll(actions), after);
    DiskStepsOnly(actions);
    OpenConcat(c, step, OnDiskAll(actions), after);
    OpenConcat(c, step, before, OnDiskAll(actions) + after);
  }

  function Granting(id: nat): seq<Step> {
    [ResolveApproval(id), AppendEvent(ApprovalGranted(id))]
  }

  lemma GrantExecutes(c: Setting, step: P.Step, m: Machine, id: nat, env: Env) returns (status: ExecutionStatus)
    requires Appends(c, step) && OnlyStepCalls(c, step, m) && id < |m.approvals| && m.approvals[id].pending
    requires Admit(m.approvals[id].call, true, env.gate).1.None?
    ensures
      var call := m.approvals[id].call;
      var admitting := Admit(call, true, env.gate).0;
      var m2 := TakeAll(TakeAll(m, Granting(id)), admitting);
      var actions := FsAppendRun(m.world, call.key, call.input, env.oracle(1)).0;
      Resume(c.tools, m, id, true, env).0 ==
      Granting(id) + (admitting + ([AppendEvent(Intended(call))] + OnDiskAll(actions) + Ending(|m2.log|, status)))
  {
    var call := m.approvals[id].call;
    var admitting := Admit(call, true, env.gate).0;
    var m1 := TakeAll(m, Granting(id));
    AdmittedExecutes(c.tools, m1, call, true, 0, env);
    SideStepsKeepWorld(m, Granting(id));
    SideStepsKeepWorld(m1, admitting);
    status := AppendRuns(TakeAll(m1, admitting), call, env);
  }

  lemma RegroupGrant(a: seq<Step>, b: seq<Step>, i: seq<Step>, x: seq<Step>, y: seq<Step>)
    ensures a + (b + (i + x + y)) == a + b + i + (x + y)
  {
  }

  lemma AppendRuns(m: Machine, call: Call, env: Env) returns (status: ExecutionStatus)
    ensures
      var actions := FsAppendRun(m.world, call.key, call.input, env.oracle(1)).0;
      RunTool(FsAppendTool(), m, call, 1, env.oracle) ==
      ([AppendEvent(Intended(call))] + OnDiskAll(actions) + Ending(|m.log|, status), status)
  {
    assert FsAppendTool().execute(m.world, call.key, call.input, env.oracle(1)) ==
           FsAppendRun(m.world, call.key, call.input, env.oracle(1));
    status := Attempts(FsAppendTool(), m.world, call, 1, 1, env.oracle).1;
  }

  /** A granted call that passes appends, after four steps that are not on the disk. */
  lemma GrantAppends(c: Setting, step: P.Step, m: Machine, round: Round) returns (before: seq<Step>, after: seq<Step>)
    requires Appends(c, step) && OnlyStepCalls(c, step, m) && Executes(m, round)
    ensures
      var steps := Resume(c.tools, m, round.id, round.approved, round.env).0;
      && GrantShape(steps, before, AppendOf(c, step, m.world, GrantedKey(m, round)).0, after)
      && OpenStepCalls(c, step, steps)
  {
    before, after := GrantRuns(c, step, m, round.id, round.env);
  }

  /** Every other decision leaves the disk alone. */
  lemma OtherDecisionOnlyLogs(c: Setting, step: P.Step, m: Machine, round: Round)
    requires Appends(c, step) && OnlyStepCalls(c, step, m) && round.Decision? && !Executes(m, round)
    ensures
      var steps := Resume(c.tools, m, round.id, round.approved, round.env).0;
      DiskActions(steps) == [] && OpenStepCalls(c, step, steps)
  {
    if round.id < |m.approvals| && m.approvals[round.id].pending && round.approved {
      if Admit(m.approvals[round.id].call, true, round.env.gate).1.None? {
        BadPathOnlyLogs(c, step, m, round.id, round.env);
      } else {
        RefusedOnlyLogs(c, step, m, round.id, round.env);
      }
    } else {
      NoDisk(Resume(c.tools, m, round.id, round.approved, round.env).0);
    }
  }

  /** A grant whose path check fails. */
  lemma BadPathOnlyLogs(c: Setting, step: P.Step, m: Machine, id: nat, env: Env)
    requires Appends(c, step) && OnlyStepCalls(c, step, m) && id < |m.approvals| && m.approvals[id].pending
    requires Admit(m.approvals[id].call, true, env.gate).1.None? && (env.oracle(1) == 1 || env.oracle(1) == 2)
    ensures
      var steps := Resume(c.tools, m, id, true, env).0;
      DiskActions(steps) == [] && OpenStepCalls(c, step, steps)
  {
    var call := m.approvals[id].call;
    var before, after := GrantRuns(c, step, m, id, env);
    GrantShapeDisk(Resume(c.tools, m, id, true, env).0, before,
                   FsAppendRun(m.world, call.key, call.input, env.oracle(1)).0, after);
  }

  /** A grant that is refused before its execution. */
  lemma RefusedOnlyLogs(c: Setting, step: P.Step, m: Machine, id: nat, env: Env)
    requires Appends(c, step) && OnlyStepCalls(c, step, m) && id < |m.approvals| && m.approvals[id].pending
    requires Admit(m.approvals[id].call, true, env.gate).1.Some?
    ensures
      var steps := Resume(c.tools, m, id, true, env).0;
      DiskActions(steps) == [] && OpenStepCalls(c, step, steps)
  {
    var granting := [ResolveApproval(id), AppendEvent(ApprovalGranted(id))];
    var refusing := Admit(m.approvals[id].call, true, env.gate).0;
    assert Resume(c.tools, m, id, true, env).0 == granting + refusing;
    OpenConcat(c, step, granting, refusing);
    NoDisk(granting + refusing);
  }

  // ---- the run as appends and queries ----

  /** What a round does to the disk, as one call of the file service: a grant appends under its key; an iteration and a
      start-up query the orphan. It is cut where the round is. */
  ghost function EffectOf(c: Setting, t: Task, cut: CutRound, step: P.Step): seq<A.Call> {
    var kept := |DiskActions(RuntimePart(Survives(c, t, cut)))|;
    if Executes(t.m, cut.round) then
      [A.AppendCall(GrantedKey(t.m, cut.round), c.inputOf(step).path, c.inputOf(step).content, kept)]
    else if !cut.round.Decision? && QueriedKey(t.m).Some? then [A.QueryCall(QueriedKey(t.m).value, kept)]
    else []
  }

  ghost function EffectsOf(c: Setting, t: Task, rounds: seq<CutRound>, step: P.Step): seq<A.Call>
    decreases |rounds|
  {
    if rounds == [] then []
    else EffectOf(c, t, rounds[0], step) + EffectsOf(c, Do(c, t, rounds[0]), rounds[1..], step)
  }

  /** The step is next, it appends, and nothing else is left open. */
  ghost predicate Ready(c: Setting, t: Task, step: P.Step) {
    IsNext(c, t.log, step) && Appends(c, step) && OnlyStepCalls(c, step, t.m)
  }

  /** The disk actions of a whole round. */
  ghost function RoundActions(c: Setting, t: Task, round: Round, step: P.Step): seq<Action> {
    if Executes(t.m, round) then AppendOf(c, step, t.m.world, GrantedKey(t.m, round)).0
    else if round.Decision? then []
    else Querying(t.m)
  }

  lemma RoundDisk(c: Setting, t: Task, round: Round, step: P.Step)
    requires Ready(c, t, step) && AlwaysAsks(round)
    ensures
      var steps := RuntimePart(Joints(c, t, round));
      DiskActions(steps) == RoundActions(c, t, round, step) && OpenStepCalls(c, step, steps)
  {
    match round
    case Decision(id, approved, env) =>
      var steps := Resume(c.tools, t.m, id, approved, env).0;
      PartsOfRuntime(steps);
      if Executes(t.m, round) {
        var before, after := GrantAppends(c, step, t.m, round);
        GrantShapeDisk(steps, before, AppendOf(c, step, t.m.world, GrantedKey(t.m, round)).0, after);
      } else {
        OtherDecisionOnlyLogs(c, step, t.m, round);
      }
    case _ => AskingRoundQueries(c, t, round, step);
  }

  lemma PrefixLength<T>(a: seq<T>, b: seq<T>)
    requires a <= b
    ensures a == b[..|a|]
  {
  }

  lemma OpenPrefix(c: Setting, step: P.Step, a: seq<Step>, b: seq<Step>)
    requires a <= b && OpenStepCalls(c, step, b)
    ensures OpenStepCalls(c, step, a)
  {
    forall k | 0 <= k < |a| ensures OpensStepCall(c, step, a[k]) {
      assert a[k] == b[k];
    }
  }

  /** What a cut leaves of the round's disk actions. */
  lemma CutDisk(c: Setting, t: Task, cut: CutRound, step: P.Step)
    requires Ready(c, t, step) && AlwaysAsks(cut.round)
    ensures
      var kept := DiskActions(RuntimePart(Survives(c, t, cut)));
      var actions := RoundActions(c, t, cut.round, step);
      kept <= actions && kept == Disk.Cut(actions, |kept|)
    ensures OpenStepCalls(c, step, RuntimePart(Survives(c, t, cut)))
  {
    var joints := Joints(c, t, cut.round);
    RoundDisk(c, t, cut.round, step);
    CutParts(joints, cut.keep);
    DiskPrefix(RuntimePart(Cut(joints, cut.keep)), RuntimePart(joints));
    PrefixLength(DiskActions(RuntimePart(Cut(joints, cut.keep))), RoundActions(c, t, cut.round, step));
    OpenPrefix(c, step, RuntimePart(Cut(joints, cut.keep)), RuntimePart(joints));
  }

  /** One round: the step stays ready, and the disk is as the round's effect leaves it. */
  lemma RoundIsEffect(c: Setting, t: Task, cut: CutRound, step: P.Step)
    requires Ready(c, t, step) && AlwaysAsks(cut.round)
    ensures Ready(c, Do(c, t, cut), step)
    ensures Do(c, t, cut).m.world == A.Run(t.m.world, EffectOf(c, t, cut, step))
  {
    var kept := RuntimePart(Survives(c, t, cut));
    CutDisk(c, t, cut, step);
    ApplyParts(t, Survives(c, t, cut));
    StepsKeepOnly(c, step, t.m, kept);
    AskingRoundKeepsState(c, t, cut, step);
    TakeWorld(t.m, kept);
    EffectActs(c, t, cut, step);
  }

  lemma EffectActs(c: Setting, t: Task, cut: CutRound, step: P.Step)
    requires Ready(c, t, step) && AlwaysAsks(cut.round)
    ensures A.Run(t.m.world, EffectOf(c, t, cut, step)) == DoAll(t.m.world, DiskActions(RuntimePart(Survives(c, t, cut))))
  {
    var effect := EffectOf(c, t, cut, step);
    CutDisk(c, t, cut, step);
    if effect != [] { OneCall(t.m.world, effect[0]); }
  }

  lemma OneCall(w: World, call: A.Call)
    ensures A.Run(w, [call]) == DoAll(w, A.Actions(w, call))
  {
    NothingAround([call]);
    A.RunFirst(w, DoAll(w, A.Actions(w, call)), call, []);
  }

  /** In every run of iterations, start-ups and decisions, cut anywhere, the disk is that of a run of appends under
      granted keys and of queries, cut anywhere. */
  lemma {:induction false} RunIsEffects(c: Setting, t: Task, rounds: seq<CutRound>, step: P.Step)
    requires Ready(c, t, step) && forall k :: 0 <= k < |rounds| ==> AlwaysAsks(rounds[k].round)
    ensures Run(c, t, rounds).m.world == A.Run(t.m.world, EffectsOf(c, t, rounds, step))
    ensures Ready(c, Run(c, t, rounds), step)
    decreases |rounds|
  {
    if rounds != [] {
      var t1 := Do(c, t, rounds[0]);
      RoundIsEffect(c, t, rounds[0], step);
      RunIsEffects(c, t1, rounds[1..], step);
      EffectThen(t.m.world, EffectOf(c, t, rounds[0], step), EffectsOf(c, t1, rounds[1..], step));
    }
  }

  lemma EffectThen(w: World, effect: seq<A.Call>, rest: seq<A.Call>)
    requires |effect| <= 1
    ensures A.Run(w, effect + rest) == A.Run(A.Run(w, effect), rest)
    ensures A.Writers(w, effect + rest) == A.Writers(w, effect) + A.Writers(A.Run(w, effect), rest)
  {
    if effect == [] {
      NothingAround(rest);
      NothingAround(A.Writers(w, rest));
    } else {
      var w1 := DoAll(w, A.Actions(w, effect[0]));
      assert effect == [effect[0]];
      OneCall(w, effect[0]);
      A.RunFirst(w, w1, effect[0], rest);
      A.RunFirst(w, w1, effect[0], []);
      NothingAround(effect);
      NothingAround(A.WriterOf(effect[0], A.Actions(w, effect[0])));
    }
  }

  // ---- every copy is a grant, and every key copies once ----

  /** The round appends the content: it grants a pending approval, its execution passes, the append succeeds and does not
      find its after-image in place, and the write is not cut off. All of it can be told before the round. */
  ghost predicate Copies(c: Setting, t: Task, cut: CutRound, step: P.Step) {
    var key := GrantedKey(t.m, cut.round);
    && Executes(t.m, cut.round)
    && AppendOf(c, step, t.m.world, key).1.Done?
    && !A.AlreadyInPlace(t.m.world, key, c.inputOf(step).path, c.inputOf(step).content)
    && cut.keep > 4 + A.BeforeWrite(t.m.world, key)
  }

  ghost function CopiedKeys(c: Setting, t: Task, cut: CutRound, step: P.Step): seq<Key> {
    if Copies(c, t, cut, step) then [GrantedKey(t.m, cut.round)] else []
  }

  /** The keys of the approvals whose grants append, in order. */
  ghost function CopyKeys(c: Setting, t: Task, rounds: seq<CutRound>, step: P.Step): seq<Key>
    decreases |rounds|
  {
    if rounds == [] then []
    else CopiedKeys(c, t, rounds[0], step) + CopyKeys(c, Do(c, t, rounds[0]), rounds[1..], step)
  }

  function WrittenBy(c: Setting, step: P.Step, keys: seq<Key>): (r: seq<A.Written>)
    ensures |r| == |keys|
    ensures forall k :: 0 <= k < |r| ==> r[k] == A.Written(keys[k], c.inputOf(step).path, c.inputOf(step).content)
  {
    seq(|keys|, k requires 0 <= k < |keys| => A.Written(keys[k], c.inputOf(step).path, c.inputOf(step).content))
  }

  /** How much of the actions a cut grant keeps. */
  lemma GrantKeeps(steps: seq<Step>, before: seq<Step>, actions: seq<Action>, after: seq<Step>, keep: nat)
    requires GrantShape(steps, before, actions, after) && keep <= |steps|
    ensures
      var n := if keep <= 4 then 0 else if keep - 4 <= |actions| then keep - 4 else |actions|;
      DiskActions(steps[..keep]) == actions[..n]
  {
    var x := OnDiskAll(actions);
    if keep <= 4 {
      assert steps[..keep] == before[..keep];
      NoDisk(before[..keep]);
    } else if keep - 4 <= |actions| {
      var n := keep - 4;
      assert steps[..keep] == before + x[..n];
      OnDiskPrefix(actions, n);
      DiskOfActions(actions[..n]);
      DiskConcat(before, x[..n]);
      NoDisk(before);
      NothingAround(actions[..n]);
    } else {
      var n := keep - 4 - |actions|;
      assert steps[..keep] == before + (x + after[..n]);
      GrantShapeDisk(before + (x + after[..n]), before, actions, after[..n]);
      assert actions[..|actions|] == actions;
    }
  }

  /** How much of its disk actions a cut grant keeps: what is beyond the first four steps. */
  lemma CutGrantKeeps(c: Setting, t: Task, cut: CutRound, step: P.Step)
    requires Ready(c, t, step) && Executes(t.m, cut.round)
    ensures
      var kept := |DiskActions(RuntimePart(Survives(c, t, cut)))|;
      var actions := AppendOf(c, step, t.m.world, GrantedKey(t.m, cut.round)).0;
      Disk.Cut(actions, kept) == Disk.Cut(actions, if cut.keep <= 4 then 0 else cut.keep - 4)
  {
    var actions := AppendOf(c, step, t.m.world, GrantedKey(t.m, cut.round)).0;
    var steps := Resume(c.tools, t.m, cut.round.id, true, cut.round.env).0;
    var before, after := GrantAppends(c, step, t.m, cut.round);
    var keep := if cut.keep < |steps| then cut.keep else |steps|;
    CutRuntime(steps, cut.keep);
    GrantKeeps(steps, before, actions, after, keep);
  }

  lemma CutRuntime(steps: seq<Step>, keep: nat)
    ensures RuntimePart(Cut(AllRuntime(steps), keep)) == steps[..if keep < |steps| then keep else |steps|]
  {
    var n := if keep < |steps| then keep else |steps|;
    assert Cut(AllRuntime(steps), keep) == AllRuntime(steps[..n]);
    PartsOfRuntime(steps[..n]);
  }

  /** Exactly when a round appends: `Copies` says so before it begins. */
  lemma RoundCopiesExactlyWhen(c: Setting, t: Task, cut: CutRound, step: P.Step, base: Files, writers: seq<A.Written>)
    requires Ready(c, t, step) && AlwaysAsks(cut.round) && A.Consistent(t.m.world, base, writers)
    ensures A.Writers(t.m.world, EffectOf(c, t, cut, step)) ==
            WrittenBy(c, step, CopiedKeys(c, t, cut, step))
  {
    if Executes(t.m, cut.round) {
      GrantCopies(c, t, cut, step, base, writers);
      AppendWrites(c, step, t.m.world, EffectOf(c, t, cut, step)[0], Copies(c, t, cut, step));
    } else {
      QueriesWriteNothing(t.m.world, EffectOf(c, t, cut, step));
    }
  }

  lemma AppendWrites(c: Setting, step: P.Step, w: World, call: A.Call, copies: bool)
    requires call.AppendCall? && call.target == c.inputOf(step).path && call.content == c.inputOf(step).content
    requires A.WritesFile(A.Actions(w, call)) <==> copies
    ensures A.Writers(w, [call]) == WrittenBy(c, step, if copies then [call.key] else [])
  {
    OneWriter(w, call);
  }

  lemma QueriesWriteNothing(w: World, calls: seq<A.Call>)
    requires |calls| <= 1 && forall k :: 0 <= k < |calls| ==> calls[k].QueryCall?
    ensures A.Writers(w, calls) == []
  {
    if calls != [] {
      assert calls == [calls[0]];
      OneWriter(w, calls[0]);
    }
  }

  lemma OneWriter(w: World, call: A.Call)
    ensures A.Writers(w, [call]) == A.WriterOf(call, A.Actions(w, call))
  {
    NothingAround([call]);
    A.RunFirst(w, DoAll(w, A.Actions(w, call)), call, []);
    NothingAround(A.WriterOf(call, A.Actions(w, call)));
  }

  lemma GrantCopies(c: Setting, t: Task, cut: CutRound, step: P.Step, base: Files, writers: seq<A.Written>)
    requires Ready(c, t, step) && A.Consistent(t.m.world, base, writers) && Executes(t.m, cut.round)
    ensures A.WritesFile(A.Actions(t.m.world, EffectOf(c, t, cut, step)[0])) <==> Copies(c, t, cut, step)
  {
    var keep := if cut.keep <= 4 then 0 else cut.keep - 4;
    var key := GrantedKey(t.m, cut.round);
    CutGrantKeeps(c, t, cut, step);
    A.CutWritesExactlyWhen(t.m.world, base, writers, A.AppendCall(key, c.inputOf(step).path, c.inputOf(step).content, keep));
  }

  lemma RoundStaysConsistent(c: Setting, t: Task, cut: CutRound, step: P.Step, base: Files, writers: seq<A.Written>)
    requires Ready(c, t, step) && A.Consistent(t.m.world, base, writers) && AlwaysAsks(cut.round)
    ensures A.Consistent(Do(c, t, cut).m.world, t.m.world.files, WrittenBy(c, step, CopiedKeys(c, t, cut, step)))
  {
    A.CountFromHere(t.m.world, base, writers);
    RoundIsEffect(c, t, cut, step);
    RoundCopiesExactlyWhen(c, t, cut, step, base, writers);
    A.RunStaysConsistent(t.m.world, t.m.world.files, [], EffectOf(c, t, cut, step));
    NothingAround(WrittenBy(c, step, CopiedKeys(c, t, cut, step)));
  }

  /** The writers of the run's effects are the grants that copy. */
  ghost predicate WritersListed(c: Setting, t: Task, rounds: seq<CutRound>, step: P.Step) {
    A.Writers(t.m.world, EffectsOf(c, t, rounds, step)) == WrittenBy(c, step, CopyKeys(c, t, rounds, step))
  }

  lemma NoRounds(c: Setting, t: Task, step: P.Step)
    ensures WritersListed(c, t, [], step)
  {
  }

  lemma OneRoundMore(c: Setting, t: Task, t1: Task, rounds: seq<CutRound>, step: P.Step)
    requires rounds != [] && t1 == Do(c, t, rounds[0]) && WritersListed(c, t1, rounds[1..], step)
    requires t1.m.world == A.Run(t.m.world, EffectOf(c, t, rounds[0], step))
    requires A.Writers(t.m.world, EffectOf(c, t, rounds[0], step)) == WrittenBy(c, step, CopiedKeys(c, t, rounds[0], step))
    ensures WritersListed(c, t, rounds, step)
  {
    EffectThen(t.m.world, EffectOf(c, t, rounds[0], step), EffectsOf(c, t1, rounds[1..], step));
    WrittenConcat(c, step, CopiedKeys(c, t, rounds[0], step), CopyKeys(c, t1, rounds[1..], step));
  }

  lemma {:induction false} WritersAreCopies(
      c: Setting, t: Task, rounds: seq<CutRound>, step: P.Step, base: Files, writers: seq<A.Written>)
    requires Ready(c, t, step) && (forall k :: 0 <= k < |rounds| ==> AlwaysAsks(rounds[k].round))
    requires A.Consistent(t.m.world, base, writers)
    ensures WritersListed(c, t, rounds, step)
    decreases |rounds|
  {
    if rounds == [] {
      NoRounds(c, t, step);
    } else {
      var t1 := Do(c, t, rounds[0]);
      RoundIsEffect(c, t, rounds[0], step);
      RoundCopiesExactlyWhen(c, t, rounds[0], step, base, writers);
      RoundStaysConsistent(c, t, rounds[0], step, base, writers);
      WritersAreCopies(c, t1, rounds[1..], step, t.m.world.files, WrittenBy(c, step, CopiedKeys(c, t, rounds[0], step)));
      OneRoundMore(c, t, t1, rounds, step);
    }
  }

  lemma WrittenConcat(c: Setting, step: P.Step, a: seq<Key>, b: seq<Key>)
    ensures WrittenBy(c, step, a + b) == WrittenBy(c, step, a) + WrittenBy(c, step, b)
  {
  }

  function Times(content: Bytes, n: nat): Bytes {
    if n == 0 then [] else Times(content, n - 1) + content
  }

  function FileOf(c: Setting, step: P.Step, t: Task): Bytes {
    FsToolService.ReadFileOrEmpty(t.m.world.files, c.inputOf(step).path)
  }

  lemma {:induction false} CopiesAreTimes(c: Setting, step: P.Step, keys: seq<Key>)
    ensures A.Contents(WrittenBy(c, step, keys), c.inputOf(step).path) == Times(c.inputOf(step).content, |keys|)
  {
    if keys != [] {
      var n := |keys| - 1;
      CopiesAreTimes(c, step, keys[..n]);
      assert WrittenBy(c, step, keys)[..n] == WrittenBy(c, step, keys[..n]);
    }
  }

  lemma ConsistentGrows(w: World, base: Files, writers: seq<A.Written>, p: Path)
    requires A.Consistent(w, base, writers)
    ensures A.Grown(w.files, base, writers, p) && A.DistinctKeys(writers)
  {
  }

  lemma WrittenDistinct(c: Setting, step: P.Step, keys: seq<Key>)
    requires A.DistinctKeys(WrittenBy(c, step, keys))
    ensures NoDuplicates(keys)
  {
    var writers := WrittenBy(c, step, keys);
    forall i, j | 0 <= i < j < |keys| ensures keys[i] != keys[j] {
      assert writers[i].key != writers[j].key;
    }
  }

  lemma CopiesGrow(c: Setting, step: P.Step, w: World, w': World, keys: seq<Key>)
    requires A.Consistent(w', w.files, WrittenBy(c, step, keys))
    ensures
      var path := c.inputOf(step).path;
      FsToolService.ReadFileOrEmpty(w'.files, path) ==
      FsToolService.ReadFileOrEmpty(w.files, path) + Times(c.inputOf(step).content, |keys|)
    ensures NoDuplicates(keys)
  {
    ConsistentGrows(w', w.files, WrittenBy(c, step, keys), c.inputOf(step).path);
    CopiesAreTimes(c, step, keys);
    WrittenDistinct(c, step, keys);
  }

  lemma RunStaysConsistent(
      c: Setting, t: Task, rounds: seq<CutRound>, step: P.Step, base: Files, writers: seq<A.Written>)
    requires Ready(c, t, step) && A.Consistent(t.m.world, base, writers)
    requires forall k :: 0 <= k < |rounds| ==> AlwaysAsks(rounds[k].round)
    ensures A.Consistent(Run(c, t, rounds).m.world, t.m.world.files, WrittenBy(c, step, CopyKeys(c, t, rounds, step)))
  {
    var w := t.m.world;
    A.CountFromHere(w, base, writers);
    RunIsEffects(c, t, rounds, step);
    WritersAreCopies(c, t, rounds, step, w.files, []);
    A.RunStaysConsistent(w, w.files, [], EffectsOf(c, t, rounds, step));
    NothingAround(WrittenBy(c, step, CopyKeys(c, t, rounds, step)));
  }

  /** A step that appends and needs an approval of every call, from any store that appends leave. In every run of
      iterations, start-ups and decisions, cut anywhere, the file grows by the content once for each grant that copies,
      no two of these grants have the same key, and the loop selects the step again. */
  lemma EveryKeyCopiesOnce(
      c: Setting, t: Task, rounds: seq<CutRound>, step: P.Step, base: Files, writers: seq<A.Written>)
    requires Ready(c, t, step) && A.Consistent(t.m.world, base, writers)
    requires forall k :: 0 <= k < |rounds| ==> AlwaysAsks(rounds[k].round)
    ensures
      var keys := CopyKeys(c, t, rounds, step);
      && FileOf(c, step, Run(c, t, rounds)) == FileOf(c, step, t) + Times(c.inputOf(step).content, |keys|)
      && NoDuplicates(keys)
      && IsNext(c, Run(c, t, rounds).log, step)
  {
    RunStaysConsistent(c, t, rounds, step, base, writers);
    CopiesGrow(c, step, t.m.world, Run(c, t, rounds).m.world, CopyKeys(c, t, rounds, step));
    RunIsEffects(c, t, rounds, step);
  }

  lemma {:induction false} TimesLength(content: Bytes, n: nat)
    ensures |Times(content, n)| == |content| * n
  {
    if n > 0 { TimesLength(content, n - 1); }
  }

  lemma OneTime(file: Bytes, content: Bytes, n: nat)
    requires content != []
    ensures file + Times(content, n) == file + content <==> n == 1
  {
    TimesLength(content, n);
    if n == 1 {
      assert Times(content, 1) == Times(content, 0) + content;
    } else if n > 1 {
      assert |content| * n > |content|;
    }
  }

  /** So the content lands exactly once if and only if exactly one round of the run copies. */
  lemma LandsOnceExactlyWhen(
      c: Setting, t: Task, rounds: seq<CutRound>, step: P.Step, base: Files, writers: seq<A.Written>)
    requires Ready(c, t, step) && A.Consistent(t.m.world, base, writers) && c.inputOf(step).content != []
    requires forall k :: 0 <= k < |rounds| ==> AlwaysAsks(rounds[k].round)
    ensures FileOf(c, step, Run(c, t, rounds)) == FileOf(c, step, t) + c.inputOf(step).content <==>
            |CopyKeys(c, t, rounds, step)| == 1
  {
    EveryKeyCopiesOnce(c, t, rounds, step, base, writers);
    OneTime(FileOf(c, step, t), c.inputOf(step).content, |CopyKeys(c, t, rounds, step)|);
  }

  /** Exactly what one round adds: the content if it copies, and otherwise nothing. A grant that is not cut off copies if
      and only if its execution passes, its append succeeds and its after-image is not there already. */
  lemma RoundAddsExactlyWhen(c: Setting, t: Task, cut: CutRound, step: P.Step, base: Files, writers: seq<A.Written>)
    requires Ready(c, t, step) && A.Consistent(t.m.world, base, writers) && AlwaysAsks(cut.round)
    ensures FileOf(c, step, Do(c, t, cut)) ==
            if Copies(c, t, cut, step) then FileOf(c, step, t) + c.inputOf(step).content else FileOf(c, step, t)
    ensures Executes(t.m, cut.round) && cut.keep >= |Joints(c, t, cut.round)| ==>
            (Copies(c, t, cut, step) <==>
             && AppendOf(c, step, t.m.world, GrantedKey(t.m, cut.round)).1.Done?
             && !A.AlreadyInPlace(t.m.world, GrantedKey(t.m, cut.round), c.inputOf(step).path, c.inputOf(step).content))
  {
    RoundStaysConsistent(c, t, cut, step, base, writers);
    CopiesGrow(c, step, t.m.world, Do(c, t, cut).m.world, CopiedKeys(c, t, cut, step));
    AtMostOneTime(FileOf(c, step, t), c.inputOf(step).content);
    if Executes(t.m, cut.round) && cut.keep >= |Joints(c, t, cut.round)| {
      UncutCopiesExactlyWhen(c, t, cut, step, base, writers);
    }
  }

  lemma AtMostOneTime(file: Bytes, content: Bytes)
    ensures file + Times(content, 0) == file && file + Times(content, 1) == file + content
  {
    assert Times(content, 1) == [] + content;
  }

  lemma UncutCopiesExactlyWhen(c: Setting, t: Task, cut: CutRound, step: P.Step, base: Files, writers: seq<A.Written>)
    requires Ready(c, t, step) && A.Consistent(t.m.world, base, writers) && Executes(t.m, cut.round)
    requires cut.keep >= |Joints(c, t, cut.round)|
    ensures Copies(c, t, cut, step) <==>
            && AppendOf(c, step, t.m.world, GrantedKey(t.m, cut.round)).1.Done?
            && !A.AlreadyInPlace(t.m.world, GrantedKey(t.m, cut.round), c.inputOf(step).path, c.inputOf(step).content)
  {
    if AppendOf(c, step, t.m.world, GrantedKey(t.m, cut.round)).1.Done?
       && !A.AlreadyInPlace(t.m.world, GrantedKey(t.m, cut.round), c.inputOf(step).path, c.inputOf(step).content) {
      UncutReachesTheWrite(c, t, cut, step, base, writers);
    }
  }

  /** An uncut grant is long enough for its write. */
  lemma UncutReachesTheWrite(c: Setting, t: Task, cut: CutRound, step: P.Step, base: Files, writers: seq<A.Written>)
    requires Ready(c, t, step) && A.Consistent(t.m.world, base, writers) && Executes(t.m, cut.round)
    requires cut.keep >= |Joints(c, t, cut.round)|
    requires AppendOf(c, step, t.m.world, GrantedKey(t.m, cut.round)).1.Done?
    requires !A.AlreadyInPlace(t.m.world, GrantedKey(t.m, cut.round), c.inputOf(step).path, c.inputOf(step).content)
    ensures cut.keep > 4 + A.BeforeWrite(t.m.world, GrantedKey(t.m, cut.round))
  {
    var key := GrantedKey(t.m, cut.round);
    var actions := AppendOf(c, step, t.m.world, key).0;
    var before, after := GrantAppends(c, step, t.m, cut.round);
    var input := c.inputOf(step);
    A.CutWritesExactlyWhen(t.m.world, base, writers, A.AppendCall(key, input.path, input.content, |actions| + 7));
    if |actions| <= A.BeforeWrite(t.m.world, key) {
      A.CutWritesExactlyWhen(t.m.world, base, writers, A.AppendCall(key, input.path, input.content, |actions|));
    }
  }

  // ---- a granted append that crashed before its write ----

  /** An asking reconciliation leaves the orphan exactly when it cannot tell that the append has been applied. */
  lemma AskingLeavesOrphanExactlyWhen(c: Setting, step: P.Step, m: Machine, env: Env, i: nat)
    requires Appends(c, step) && OnlyStepCalls(c, step, m) && Asking(env) && LatestOrphan(m.log) == Some(i)
    ensures LatestOrphan(TakeAll(m, Reconcile(c.tools, m, env).0).log) == Some(i) <==>
            QueriedKey(m).None? || FsToolService.StatusQuery(m.world, FsAppend, QueriedKey(m).value).1.None?
  {
    if !PendingReapproval(m.log, i) {
      var started := [AppendEvent(ReconciliationStarted(i))];
      var m1 := TakeAll(m, started);
      var call := m.log[i].call;
      var (querying, applied) := Query(FsAppendTool(), m.world, call.key);
      TakeOne(m, started[0]);
      QueryIsStatus(m.world, call.key);
      if applied {
        SynthesisAnswers(m, i, querying);
      } else {
        AskingReexecutionIsPlain(c, TakeAll(m1, OnDiskAll(querying)), i, call, env);
        PlainRestKeepsOrphan(m, i, querying, Reexecute(c.tools, TakeAll(m1, OnDiskAll(querying)), FsAppendTool(), i, call, env).0);
      }
    }
  }

  /** The steps of a reconciliation that found the append applied. */
  lemma SynthesisAnswers(m: Machine, i: nat, querying: seq<Action>)
    requires LatestOrphan(m.log) == Some(i)
    ensures
      var settled := [AppendEvent(ToolResult(i, Completed, true)), AppendEvent(ReconciliationSynthesized(i))];
      LatestOrphan(TakeAll(m, [AppendEvent(ReconciliationStarted(i))] + (OnDiskAll(querying) + settled)).log).None?
  {
    var started := [AppendEvent(ReconciliationStarted(i))];
    var settled := [AppendEvent(ToolResult(i, Completed, true)), AppendEvent(ReconciliationSynthesized(i))];
    LogAfter(m, started + (OnDiskAll(querying) + settled));
    EventsConcat(started, OnDiskAll(querying) + settled);
    EventsConcat(OnDiskAll(querying), settled);
    DiskHasNoEvents(querying);
    TwoEvents(ReconciliationStarted(i), ReconciliationStarted(i));
    TwoEvents(ToolResult(i, Completed, true), ReconciliationSynthesized(i));
    NothingAround(EventsOf(settled));
    ResultAnswers(m.log, i);
  }

  lemma ResultAnswers(log: Log, i: nat)
    requires LatestOrphan(log) == Some(i)
    ensures
      var events := [ReconciliationStarted(i)] + [ToolResult(i, Completed, true), ReconciliationSynthesized(i)];
      LatestOrphan(log + events).None?
  {
    var events := [ReconciliationStarted(i)] + [ToolResult(i, Completed, true), ReconciliationSynthesized(i)];
    assert (log + events)[|log| + 1] == ToolResult(i, Completed, true);
    AnsweredIsNoOrphan(log + events, i, |log| + 1);
  }

  lemma PlainRestKeepsOrphan(m: Machine, i: nat, querying: seq<Action>, rest: seq<Step>)
    requires LatestOrphan(m.log) == Some(i)
    requires forall k :: 0 <= k < |rest| ==> (rest[k].AppendEvent? ==> Plain(rest[k].event))
    ensures LatestOrphan(TakeAll(m, [AppendEvent(ReconciliationStarted(i))] + (OnDiskAll(querying) + rest)).log) == Some(i)
  {
    var steps := [AppendEvent(ReconciliationStarted(i))] + (OnDiskAll(querying) + rest);
    DiskStepsOnly(querying);
    LogAfter(m, steps);
    PlainSteps(steps);
    PlainKeepsOrphan(m.log, EventsOf(steps));
  }

  lemma AskingReexecutionIsPlain(c: Setting, m: Machine, i: nat, call: Call, env: Env)
    requires call.tool in c.tools && Asking(env)
    ensures
      var steps := Reexecute(c.tools, m, FsAppendTool(), i, call, env).0;
      forall k :: 0 <= k < |steps| ==> (steps[k].AppendEvent? ==> Plain(steps[k].event))
  {
    AskingExecutes(c, TakeAll(m, [AppendEvent(ReconciliationReexecute(i))]), call, env);
  }

  /** A granted append whose execution crashed before its write: the next iteration hides its intent for good. In no run
      that follows is it answered or found again, whatever the tools, the decisions and the crashes. */
  lemma CrashedGrantIsHidden(c: Setting, t: Task, round: Round, step: P.Step, i: nat, rounds: seq<CutRound>)
    requires Ready(c, t, step) && Paired(t.m.log) && round.Iteration? && AlwaysAsks(round)
    requires LatestOrphan(t.m.log) == Some(i) && t.m.log[i].call.key.Some?
    requires FsToolService.StatusQuery(t.m.world, FsAppend, t.m.log[i].call.key.value).1.None?
    ensures
      var hiding := CutRound(round, |Joints(c, t, round)|);
      var log := Run(c, Do(c, t, hiding), rounds).m.log;
      Unanswered(log, i) && LatestOrphan(log) != Some(i)
  {
    AskingLeavesOrphanExactlyWhen(c, step, t.m, round.reconciling, i);
    AskingHidesForGood(c, t, round, step, i, rounds);
  }
}
