/** Step and goal verification (apps/daemon/src/agent/verifiers.ts), and that the loop uses it. */
module Verifiers {
  import opened Common
  import opened Graph
  import opened Planner
  import opened AgentLoop

  datatype Verification = Verification(passed: bool, evidenceRefs: seq<EventRef>)

  /** A step passes when its success check holds and there is evidence. */
  function VerifyStep(checkHolds: bool, evidenceRefs: seq<EventRef>): Verification {
    Verification(checkHolds && evidenceRefs != [], evidenceRefs)
  }

  /** The references without repetitions, in the order of their first occurrence. */
  function Distinct(refs: seq<EventRef>): seq<EventRef> {
    if refs == [] then []
    else
      var init := Distinct(refs[..|refs| - 1]);
      if refs[|refs| - 1] in init then init else init + [refs[|refs| - 1]]
  }

  /** Two verdicts are combined if both pass; otherwise the loop halts. */
  function CombineDouble(a: Verification, b: Verification): Option<Verification> {
    if a.passed && b.passed then Some(Verification(true, Distinct(a.evidenceRefs + b.evidenceRefs))) else None
  }

  /** The verdict the loop records: of one verification, or of two on the same input. */
  function FinalVerification(double: bool, checkHolds: bool, refs: seq<EventRef>): Option<Verification> {
    var v := VerifyStep(checkHolds, refs);
    if double then CombineDouble(v, v) else Some(v)
  }

  datatype Evidence = Evidence(met: bool, refs: seq<EventRef>)

  function StatusOf(evidence: map<string, Evidence>, id: string): Evidence {
    if id in evidence then evidence[id] else Evidence(false, [])
  }

  predicate CriterionMet(c: Criterion, evidence: map<string, Evidence>) {
    var status := StatusOf(evidence, c.id);
    status.met && (!c.requiresEvidence || status.refs != []) && status.refs != []
  }

  predicate AllMet(criteria: seq<Criterion>, evidence: map<string, Evidence>) {
    forall i :: 0 <= i < |criteria| ==> CriterionMet(criteria[i], evidence)
  }

  predicate VerifyGoal(plan: Plan, evidence: map<string, Evidence>) {
    AllMet(plan.successCriteria, evidence) && AllMet(plan.doneConditions, evidence)
  }

  // ---- what verification accepts ----

  lemma {:induction false} DistinctKeepsAll(refs: seq<EventRef>)
    ensures NoDuplicates(Distinct(refs))
    ensures forall x :: x in Distinct(refs) <==> x in refs
  {
    if refs != [] {
      var n := |refs| - 1;
      DistinctKeepsAll(refs[..n]);
      assert refs == refs[..n] + [refs[n]];
    }
  }

  /** Two verdicts, whatever they are of, combine if and only if both pass, to one with the references of both, each once. */
  lemma CombinesExactlyWhenBothPass(a: Verification, b: Verification)
    ensures CombineDouble(a, b).Some? <==> a.passed && b.passed
    ensures CombineDouble(a, b).Some? ==>
              var v := CombineDouble(a, b).value;
              && v.passed && NoDuplicates(v.evidenceRefs)
              && forall x :: x in v.evidenceRefs <==> x in a.evidenceRefs || x in b.evidenceRefs
  {
    DistinctKeepsAll(a.evidenceRefs + b.evidenceRefs);
  }

  /** A second opinion on the same input never passes more, never loses a reference, and turns every
      failure into a halt. */
  lemma SecondOpinionOnlyHalts(checkHolds: bool, refs: seq<EventRef>)
    ensures FinalVerification(true, checkHolds, refs).None? <==> !VerifyStep(checkHolds, refs).passed
    ensures FinalVerification(true, checkHolds, refs).Some? ==>
              var v := FinalVerification(true, checkHolds, refs).value;
              v.passed && v.evidenceRefs != [] && forall x :: x in v.evidenceRefs <==> x in refs
  {
    DistinctKeepsAll(refs + refs);
    if refs != [] {
      assert (refs + refs)[0] == refs[0];
      assert refs[0] in Distinct(refs + refs);
    }
  }

  lemma DistinctOnce(ref: EventRef)
    ensures Distinct([ref] + [ref]) == [ref]
  {
    assert ([ref] + [ref])[..1] == [ref] && [ref][..0] == [];
    assert Distinct([ref]) == [ref];
  }

  /** The verdict of an attempt of the loop is the final verification of its tool outcome: nothing when
      the second opinion halts it, and otherwise the recorded verdict with its references, before all that follows. */
  lemma LoopRecordsFinalVerification(config: Config, s: State, plan: Plan, step: Step, input: Input)
    requires input.tool.Finished? && !input.tool.injection
    ensures
      var refs: seq<EventRef> := if input.tool.ok then [input.tool.ref] else [];
      var (events, status) := Attempt(config, s, plan, step, input);
      var executed := Executed(step, input.tool.ok, input.notes);
      match FinalVerification(config.needsSecondOpinion(step), input.tool.checkHolds, refs)
      case None => events == executed && status == Threw
      case Some(v) => executed + [StepVerification(step.stepId, v.passed, v.evidenceRefs)] <= events
  {
    JudgeRecordsFinalVerification(config, s, plan, step, input.tool);
    StartsWith(Executed(step, input.tool.ok, input.notes), Judge(config, s, plan, step, input.tool).0);
  }

  lemma StartsWith(a: Log, b: Log)
    ensures b == [] ==> a + b == a
    ensures b != [] ==> a + [b[0]] <= a + b
  {
  }

  lemma JudgeRecordsFinalVerification(config: Config, s: State, plan: Plan, step: Step, tool: ToolOutcome)
    requires tool.Finished? && !tool.injection
    ensures
      var refs: seq<EventRef> := if tool.ok then [tool.ref] else [];
      var (events, status) := Judge(config, s, plan, step, tool);
      match FinalVerification(config.needsSecondOpinion(step), tool.checkHolds, refs)
      case None => events == [] && status == Threw
      case Some(v) => events != [] && events[0] == StepVerification(step.stepId, v.passed, v.evidenceRefs)
  {
    DistinctOnce(tool.ref);
  }

  /** The evidence the loop passes to goal verification: all of it, for every criterion. */
  function AllEvidence(plan: Plan, refs: seq<EventRef>): map<string, Evidence> {
    map id | id in CriterionIds(plan.successCriteria) + CriterionIds(plan.doneConditions) :: Evidence(true, refs)
  }

  function CriterionIds(criteria: seq<Criterion>): set<string> {
    set i | 0 <= i < |criteria| :: criteria[i].id
  }

  /** So the goal passes exactly when there is nothing to show or some step left evidence. */
  lemma LoopGoalIsVerifyGoal(plan: Plan, evidence: map<Id, seq<EventRef>>, refs: seq<EventRef>)
    requires refs != [] <==> HasEvidence(evidence)
    ensures VerifyGoal(plan, AllEvidence(plan, refs)) <==> GoalPasses(plan, evidence)
  {
    forall c | c in plan.successCriteria + plan.doneConditions
      ensures CriterionMet(c, AllEvidence(plan, refs)) <==> refs != []
    {
      assert c.id in AllEvidence(plan, refs);
    }
    if plan.successCriteria != [] {
      assert plan.successCriteria[0] in plan.successCriteria + plan.doneConditions;
    }
    if plan.doneConditions != [] {
      assert plan.doneConditions[0] in plan.successCriteria + plan.doneConditions;
    }
  }
}
