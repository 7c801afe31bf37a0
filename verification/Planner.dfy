/** Plans, their validation and revision (apps/daemon/src/agent/planner.ts). */
module Planner {
  import opened Common
  import opened Graph
  import opened StringOrder

  datatype RiskLevel = Low | Medium | High | Critical

  datatype Step = Step(
    stepId: Id, dependsOn: seq<Id>, riskLevel: RiskLevel, estimatedValue: real,
    produces: seq<string>, consumes: seq<string>, taint: bool, selectedTool: string, toolInput: string)

  datatype Criterion = Criterion(id: string, requiresEvidence: bool)

  datatype Plan = Plan(
    planId: string, revision: nat, parentPlanId: Option<string>, steps: seq<Step>,
    successCriteria: seq<Criterion>, doneConditions: seq<Criterion>, forbiddenActions: seq<string>)

  datatype ToolFault = UnknownTool | BadToolInput | ForbiddenAction

  datatype PlanError =
    | DuplicateStepIds
    | MissingDependency(stepId: Id, dependency: Id)
    | ToolRejected(stepId: Id, fault: ToolFault)
    | Cyclic

  /** The manifest lookup, input check and forbidden-action check of one step. */
  datatype Registry = Registry(judge: (seq<string>, Step) -> Option<ToolFault>)

  function Ids(steps: seq<Step>): (r: seq<Id>)
    ensures |r| == |steps|
    ensures forall i :: 0 <= i < |r| ==> r[i] == steps[i].stepId
  {
    seq(|steps|, i requires 0 <= i < |steps| => steps[i].stepId)
  }

  function IdSet(steps: seq<Step>): set<Id> {
    ToSet(Ids(steps))
  }

  /** The id map the search runs on; a later step with the same id replaces an earlier one. */
  function ById(steps: seq<Step>): (g: Digraph)
    ensures g.Keys == IdSet(steps)
  {
    if steps == [] then map[]
    else
      var n := |steps| - 1;
      assert Ids(steps) == Ids(steps[..n]) + [steps[n].stepId];
      ById(steps[..n])[steps[n].stepId := steps[n].dependsOn]
  }

  lemma IdsPrefix(steps: seq<Step>, n: nat)
    requires n <= |steps|
    ensures Ids(steps[..n]) == Ids(steps)[..n]
  {
  }

  lemma ByIdLast(steps: seq<Step>)
    requires steps != []
    ensures
      var n := |steps| - 1;
      ById(steps) == ById(steps[..n])[steps[n].stepId := steps[n].dependsOn]
  {
  }

  ghost predicate HasEntry(g: Digraph, step: Step) {
    step.stepId in g && g[step.stepId] == step.dependsOn
  }

  lemma {:induction false} ByIdHasSteps(steps: seq<Step>, i: nat)
    requires NoDuplicates(Ids(steps)) && i < |steps|
    ensures HasEntry(ById(steps), steps[i])
    decreases |steps|
  {
    var n := |steps| - 1;
    ByIdLast(steps);
    if i < n {
      assert Ids(steps)[i] != Ids(steps)[n];
      IdsPrefix(steps, n);
      NoDuplicatesPrefix(Ids(steps), n);
      ByIdHasSteps(steps[..n], i);
      assert steps[..n][i] == steps[i];
    }
  }

  // ---- validation ----

  function FirstMissing(known: set<Id>, dependsOn: seq<Id>): (r: Option<Id>)
    ensures r.None? <==> forall d :: d in dependsOn ==> d in known
    ensures r.Some? ==> r.value in dependsOn && r.value !in known
  {
    if dependsOn == [] then None
    else if dependsOn[0] !in known then Some(dependsOn[0])
    else FirstMissing(known, dependsOn[1..])
  }

  function StepFault(plan: Plan, registry: Registry, step: Step): Option<PlanError> {
    var missing := FirstMissing(IdSet(plan.steps), step.dependsOn);
    if missing.Some? then Some(MissingDependency(step.stepId, missing.value))
    else
      var fault := registry.judge(plan.forbiddenActions, step);
      if fault.Some? then Some(ToolRejected(step.stepId, fault.value)) else None
  }

  ghost predicate IsFirstMissing(known: set<Id>, dependsOn: seq<Id>, k: int) {
    0 <= k < |dependsOn| && dependsOn[k] !in known && forall j :: 0 <= j < k ==> dependsOn[j] in known
  }

  lemma {:induction false} FirstMissingIsFirst(known: set<Id>, dependsOn: seq<Id>) returns (k: nat)
    requires FirstMissing(known, dependsOn).Some?
    ensures IsFirstMissing(known, dependsOn, k) && FirstMissing(known, dependsOn) == Some(dependsOn[k])
  {
    if dependsOn[0] !in known {
      k := 0;
    } else {
      var rest := FirstMissingIsFirst(known, dependsOn[1..]);
      k := rest + 1;
    }
  }

  /** What a step is rejected for: its first dependency that is not in the plan, and only with all of them there the
      judgement of its tool. */
  lemma FaultsInOrder(plan: Plan, registry: Registry, step: Step)
    ensures
      match StepFault(plan, registry, step)
      case Some(MissingDependency(id, missing)) =>
        id == step.stepId && exists k :: IsFirstMissing(IdSet(plan.steps), step.dependsOn, k) && step.dependsOn[k] == missing
      case Some(ToolRejected(id, fault)) =>
        && id == step.stepId && (forall d :: d in step.dependsOn ==> d in IdSet(plan.steps))
        && registry.judge(plan.forbiddenActions, step) == Some(fault)
      case Some(_) => false
      case None =>
        && (forall d :: d in step.dependsOn ==> d in IdSet(plan.steps))
        && registry.judge(plan.forbiddenActions, step) == None
  {
    if FirstMissing(IdSet(plan.steps), step.dependsOn).Some? {
      var k := FirstMissingIsFirst(IdSet(plan.steps), step.dependsOn);
    }
  }

  ghost predicate Resolved(steps: seq<Step>) {
    forall i :: 0 <= i < |steps| ==> forall d :: d in steps[i].dependsOn ==> d in IdSet(steps)
  }

  /** What an accepted plan promises to everything that runs it. */
  ghost predicate WellFormed(steps: seq<Step>) {
    NoDuplicates(Ids(steps)) && Resolved(steps) && Acyclic(ById(steps))
  }

  method HasCycle(steps: seq<Step>) returns (cyclic: bool)
    ensures cyclic <==> !Acyclic(ById(steps))
  {
    cyclic := FindCycle(ById(steps), Ids(steps));
  }

  method ValidatePlan(plan: Plan, registry: Registry) returns (r: Result<Plan, PlanError>)
    ensures r.Ok? <==> WellFormed(plan.steps)
                       && forall i :: 0 <= i < |plan.steps| ==> registry.judge(plan.forbiddenActions, plan.steps[i]).None?
    ensures r.Ok? ==> r.value == plan
    ensures r == Err(DuplicateStepIds) <==> !NoDuplicates(Ids(plan.steps))
    ensures r.Err? && (r.error.MissingDependency? || r.error.ToolRejected?) ==>
              exists i :: && 0 <= i < |plan.steps| && StepFault(plan, registry, plan.steps[i]) == Some(r.error)
                          && forall j :: 0 <= j < i ==> StepFault(plan, registry, plan.steps[j]).None?
    ensures r == Err(Cyclic) <==>
              && NoDuplicates(Ids(plan.steps)) && !Acyclic(ById(plan.steps))
              && forall i :: 0 <= i < |plan.steps| ==> StepFault(plan, registry, plan.steps[i]).None?
  {
    var stepIds := IdSet(plan.steps);
    SizeTest(Ids(plan.steps));
    if |stepIds| != |plan.steps| {
      return Err(DuplicateStepIds);
    }
    for i := 0 to |plan.steps|
      invariant forall j :: 0 <= j < i ==> StepFault(plan, registry, plan.steps[j]).None?
      invariant forall j :: 0 <= j < i ==> forall d :: d in plan.steps[j].dependsOn ==> d in stepIds
    {
      var fault := StepFault(plan, registry, plan.steps[i]);
      if fault.Some? {
        return Err(fault.value);
      }
    }
    var cyclic := HasCycle(plan.steps);
    if cyclic {
      return Err(Cyclic);
    }
    return Ok(plan);
  }

  /** Comparing sizes tells whether a list has duplicates. */
  lemma {:induction false} SizeTest<T>(s: seq<T>)
    ensures |ToSet(s)| == |s| <==> NoDuplicates(s)
    ensures |ToSet(s)| <= |s|
  {
    if s != [] {
      SizeTest(s[1..]);
      assert s == [s[0]] + s[1..];
      ToSetPrepend(s[0], s[1..]);
      NoDuplicatesPrepend(s[0], s[1..]);
    }
  }

  // ---- revision ----

  /** Dependency edges of every step of the list, also when ids repeat. */
  function Dependencies(steps: seq<Step>): Digraph {
    map a | a in IdSet(steps) :: Merge(steps, a)
  }

  function Merge(steps: seq<Step>, a: Id): (r: seq<Id>)
    ensures forall b :: b in r <==> exists i :: 0 <= i < |steps| && steps[i].stepId == a && b in steps[i].dependsOn
  {
    if steps == [] then []
    else (if steps[0].stepId == a then steps[0].dependsOn else []) + Merge(steps[1..], a)
  }

  lemma DependencyEdge(steps: seq<Step>, i: nat, b: Id)
    requires i < |steps| && b in steps[i].dependsOn
    ensures Edge(Dependencies(steps), steps[i].stepId, b)
  {
    assert Ids(steps)[i] in IdSet(steps);
  }

  /** The changed step and everything that depends on it, directly or not. */
  ghost predicate IsAffected(steps: seq<Step>, changed: Id, x: Id) {
    x == changed || Reaches(Dependencies(steps), x, changed)
  }

  predicate DependsOnAny(step: Step, s: set<Id>) {
    exists i :: 0 <= i < |step.dependsOn| && step.dependsOn[i] in s
  }

  method AffectedSubgraph(steps: seq<Step>, changedStepId: Id) returns (affected: set<Id>)
    ensures forall x :: x in affected <==> IsAffected(steps, changedStepId, x)
  {
    affected := {changedStepId};
    var changed := true;
    while changed
      invariant changedStepId in affected && affected <= {changedStepId} + IdSet(steps)
      invariant forall x :: x in affected ==> IsAffected(steps, changedStepId, x)
      invariant !changed ==> forall i :: 0 <= i < |steps| && DependsOnAny(steps[i], affected) ==> steps[i].stepId in affected
      decreases {changedStepId} + IdSet(steps) - affected, changed
    {
      changed := false;
      ghost var before := affected;
      for i := 0 to |steps|
        invariant changedStepId in affected && affected <= {changedStepId} + IdSet(steps)
        invariant before <= affected
        invariant changed <==> affected != before
        invariant forall x :: x in affected ==> IsAffected(steps, changedStepId, x)
        invariant !changed ==> forall j :: 0 <= j < i && DependsOnAny(steps[j], affected) ==> steps[j].stepId in affected
      {
        if steps[i].stepId !in affected && DependsOnAny(steps[i], affected) {
          AffectedSpreads(steps, changedStepId, i, affected);
          assert Ids(steps)[i] in IdSet(steps);
          affected := affected + {steps[i].stepId};
          changed := true;
        }
      }
    }
    AffectedComplete(steps, changedStepId, affected);
  }

  lemma AffectedSpreads(steps: seq<Step>, changed: Id, i: nat, affected: set<Id>)
    requires i < |steps| && DependsOnAny(steps[i], affected)
    requires forall x :: x in affected ==> IsAffected(steps, changed, x)
    ensures IsAffected(steps, changed, steps[i].stepId)
  {
    var k :| 0 <= k < |steps[i].dependsOn| && steps[i].dependsOn[k] in affected;
    var d := steps[i].dependsOn[k];
    DependencyEdge(steps, i, d);
    EdgeReaches(Dependencies(steps), steps[i].stepId, d);
    if d != changed {
      ReachesTransitive(Dependencies(steps), steps[i].stepId, d, changed);
    }
  }

  lemma {:induction false} AffectedAlongPath(steps: seq<Step>, affected: set<Id>, p: seq<Id>)
    requires |p| > 0 && IsPath(Dependencies(steps), p) && p[|p| - 1] in affected
    requires forall i :: 0 <= i < |steps| && DependsOnAny(steps[i], affected) ==> steps[i].stepId in affected
    ensures p[0] in affected
    decreases |p|
  {
    if |p| > 1 {
      AffectedAlongPath(steps, affected, p[1..]);
      assert Edge(Dependencies(steps), p[0], p[1]);
      var i :| 0 <= i < |steps| && steps[i].stepId == p[0] && p[1] in steps[i].dependsOn;
      var k :| 0 <= k < |steps[i].dependsOn| && steps[i].dependsOn[k] == p[1];
    }
  }

  lemma AffectedComplete(steps: seq<Step>, changed: Id, affected: set<Id>)
    requires changed in affected
    requires forall i :: 0 <= i < |steps| && DependsOnAny(steps[i], affected) ==> steps[i].stepId in affected
    ensures forall x :: IsAffected(steps, changed, x) ==> x in affected
  {
    forall x | IsAffected(steps, changed, x) ensures x in affected {
      if x != changed {
        var p :| PathBetween(Dependencies(steps), p, x, changed);
        AffectedAlongPath(steps, affected, p);
      }
    }
  }

  /** Three lists of ids, each sorted by code unit. */
  datatype Diff = Diff(added: seq<Id>, removed: seq<Id>, modified: seq<Id>)

  ghost predicate SortedIds(ids: seq<Id>) {
    Ascending(ids) && NoDuplicates(ids)
  }

  datatype Revision = Revision(plan: Plan, diff: Diff, carriedEvidence: map<Id, seq<string>>)

  /** Evidence survives a revision for exactly the steps that do not depend on the changed one. */
  method RevisePlan(original: Plan, revised: Plan, changedStepId: Id, evidence: map<Id, seq<string>>)
    returns (r: Revision)
    ensures r.plan == revised.(planId := original.planId, revision := original.revision + 1,
                               parentPlanId := original.parentPlanId)
    ensures forall x :: x in r.carriedEvidence <==> x in evidence && !IsAffected(original.steps, changedStepId, x)
    ensures forall x :: x in r.carriedEvidence ==> r.carriedEvidence[x] == evidence[x]
    ensures SortedIds(r.diff.added) && SortedIds(r.diff.removed) && SortedIds(r.diff.modified)
    ensures forall x :: x in r.diff.added <==> x in IdSet(revised.steps) && x !in IdSet(original.steps)
    ensures forall x :: x in r.diff.removed <==> x in IdSet(original.steps) && x !in IdSet(revised.steps)
    ensures forall x :: x in r.diff.modified <==> IsAffected(original.steps, changedStepId, x) && x in IdSet(revised.steps)
  {
    var affected := AffectedSubgraph(original.steps, changedStepId);
    var originalIds, revisedIds := IdSet(original.steps), IdSet(revised.steps);
    r := Revision(
      revised.(planId := original.planId, revision := original.revision + 1, parentPlanId := original.parentPlanId),
      Diff(SortedSubset(Ids(revised.steps), revisedIds - originalIds),
           SortedSubset(Ids(original.steps), originalIds - revisedIds),
           SortedSubset(Ids(revised.steps), affected)),
      map x | x in evidence && x !in affected :: evidence[x]);
  }
}
