/** Deterministic choice of the next step (apps/daemon/src/agent/stepSelection.ts), and why an
    accepted plan always runs to its goal. */
module StepSelection {
  import opened Common
  import opened Graph
  import opened Planner

  datatype Selection = Selected(step: Step) | Goal | Deadlock

  function RiskRank(r: RiskLevel): nat {
    match r
    case Low => 0
    case Medium => 1
    case High => 2
    case Critical => 3
  }

  // ---- the order of ids ----

  ghost predicate StrictWeakOrder(before: (Id, Id) -> bool) {
    && (forall a :: !before(a, a))
    && (forall a, b, c :: before(a, b) && before(b, c) ==> before(a, c))
    && (forall a, b, c :: before(a, c) ==> before(a, b) || before(b, c))
  }

  /** What a collation such as `localeCompare` decides: it may call different ids equal. */
  type IdOrder = before: (Id, Id) -> bool | StrictWeakOrder(before) witness (a, b) => false

  lemma OrderLaws(before: IdOrder, a: Id, b: Id, c: Id)
    ensures !before(a, a)
    ensures before(a, b) && before(b, c) ==> before(a, c)
    ensures before(a, c) ==> before(a, b) || before(b, c)
  {
  }

  /** The sort comparator: lower risk first, then higher value, then the smaller id. */
  predicate Precedes(before: IdOrder, l: Step, r: Step) {
    RiskRank(l.riskLevel) < RiskRank(r.riskLevel)
    || (l.riskLevel == r.riskLevel
        && (l.estimatedValue > r.estimatedValue
            || (l.estimatedValue == r.estimatedValue && before(l.stepId, r.stepId))))
  }

  predicate Incomplete(step: Step, completed: set<Id>, failed: set<Id>) {
    step.stepId !in completed && step.stepId !in failed
  }

  predicate Eligible(step: Step, completed: set<Id>, failed: set<Id>) {
    Incomplete(step, completed, failed)
    && forall i :: 0 <= i < |step.dependsOn| ==> step.dependsOn[i] in completed
  }

  function FilterSteps(steps: seq<Step>, keep: Step -> bool): (r: seq<Step>)
    ensures forall s :: s in r <==> s in steps && keep(s)
  {
    if steps == [] then []
    else (if keep(steps[0]) then [steps[0]] else []) + FilterSteps(steps[1..], keep)
  }

  lemma FilterSkips(steps: seq<Step>, keep: Step -> bool)
    requires steps != [] && !keep(steps[0])
    ensures FilterSteps(steps, keep) == FilterSteps(steps[1..], keep)
  {
    NothingAround(FilterSteps(steps[1..], keep));
  }

  lemma FilterKeeps(steps: seq<Step>, keep: Step -> bool)
    requires steps != [] && keep(steps[0])
    ensures FilterSteps(steps, keep) == [steps[0]] + FilterSteps(steps[1..], keep)
  {
  }

  /** The head of the stably sorted candidates. */
  function First(before: IdOrder, candidates: seq<Step>): (r: Step)
    requires candidates != []
    ensures r in candidates
  {
    if |candidates| == 1 then candidates[0]
    else
      var best := First(before, candidates[1..]);
      if Precedes(before, best, candidates[0]) then best else candidates[0]
  }

  function SelectNextStep(before: IdOrder, steps: seq<Step>, completed: set<Id>, failed: set<Id>): Selection {
    var incomplete := FilterSteps(steps, s => Incomplete(s, completed, failed));
    if incomplete == [] then Goal
    else
      var candidates := FilterSteps(incomplete, s => Eligible(s, completed, failed));
      if candidates == [] then Deadlock else Selected(First(before, candidates))
  }

  // ---- the choice is unique ----

  lemma PrecedesLaws(before: IdOrder, a: Step, b: Step, c: Step)
    ensures !Precedes(before, a, a)
    ensures Precedes(before, a, b) && Precedes(before, b, c) ==> Precedes(before, a, c)
    ensures Precedes(before, a, c) ==> Precedes(before, a, b) || Precedes(before, b, c)
  {
    OrderLaws(before, a.stepId, b.stepId, c.stepId);
  }

  /** The step at `i` is kept, no kept step precedes it, and it precedes every kept step listed earlier. */
  ghost predicate Leads(before: IdOrder, steps: seq<Step>, keep: Step -> bool, i: int) {
    && 0 <= i < |steps| && keep(steps[i])
    && (forall j :: 0 <= j < |steps| && keep(steps[j]) ==> !Precedes(before, steps[j], steps[i]))
    && (forall j :: 0 <= j < i && keep(steps[j]) ==> Precedes(before, steps[i], steps[j]))
  }

  lemma {:induction false} FirstLeads(before: IdOrder, steps: seq<Step>, keep: Step -> bool) returns (i: nat)
    requires FilterSteps(steps, keep) != []
    ensures Leads(before, steps, keep, i) && steps[i] == First(before, FilterSteps(steps, keep))
    decreases |steps|
  {
    var rest := FilterSteps(steps[1..], keep);
    if !keep(steps[0]) {
      FilterSkips(steps, keep);
      var k := FirstLeads(before, steps[1..], keep);
      i := k + 1;
      SkippedFirst(before, steps, keep, k);
    } else if rest == [] {
      i := 0;
      OnlyFirst(before, steps, keep);
    } else {
      var k := FirstLeads(before, steps[1..], keep);
      FilterKeeps(steps, keep);
      FirstCons(before, steps[0], rest);
      i := FirstOfTwo(before, steps, keep, k);
    }
  }

  lemma FirstCons(before: IdOrder, step: Step, rest: seq<Step>)
    requires rest != []
    ensures
      var best := First(before, rest);
      First(before, [step] + rest) == if Precedes(before, best, step) then best else step
  {
    assert ([step] + rest)[1..] == rest;
  }

  lemma SkippedFirst(before: IdOrder, steps: seq<Step>, keep: Step -> bool, k: nat)
    requires steps != [] && !keep(steps[0]) && Leads(before, steps[1..], keep, k)
    ensures Leads(before, steps, keep, k + 1)
  {
    forall j | 0 <= j < |steps| && keep(steps[j])
      ensures !Precedes(before, steps[j], steps[k + 1]) && (j < k + 1 ==> Precedes(before, steps[k + 1], steps[j]))
    {
      assert steps[1..][j - 1] == steps[j];
    }
  }

  lemma OnlyFirst(before: IdOrder, steps: seq<Step>, keep: Step -> bool)
    requires steps != [] && keep(steps[0]) && FilterSteps(steps[1..], keep) == []
    ensures Leads(before, steps, keep, 0) && FilterSteps(steps, keep) == [steps[0]]
  {
    PrecedesLaws(before, steps[0], steps[0], steps[0]);
    forall j | 0 < j < |steps| ensures !keep(steps[j]) {
      assert steps[j] in steps[1..];
    }
  }

  /** The first step against the leader of the others: the later one wins only if it precedes. */
  lemma FirstOfTwo(before: IdOrder, steps: seq<Step>, keep: Step -> bool, k: nat) returns (i: nat)
    requires steps != [] && keep(steps[0]) && Leads(before, steps[1..], keep, k)
    ensures i == if Precedes(before, steps[k + 1], steps[0]) then k + 1 else 0
    ensures Leads(before, steps, keep, i)
  {
    i := if Precedes(before, steps[k + 1], steps[0]) then k + 1 else 0;
    forall j | 0 <= j < |steps| && keep(steps[j]) ensures !Precedes(before, steps[j], steps[i]) {
      PrecedesLaws(before, steps[j], steps[k + 1], steps[0]);
      PrecedesLaws(before, steps[0], steps[k + 1], steps[0]);
      if j > 0 { assert steps[1..][j - 1] == steps[j]; }
    }
    forall j | 0 <= j < i && keep(steps[j]) ensures Precedes(before, steps[i], steps[j]) {
      if j > 0 { assert steps[1..][j - 1] == steps[j]; }
    }
  }

  lemma {:induction false} FilterTwice(steps: seq<Step>, p: Step -> bool, q: Step -> bool)
    requires forall s :: q(s) ==> p(s)
    ensures FilterSteps(FilterSteps(steps, p), q) == FilterSteps(steps, q)
  {
    if steps != [] {
      FilterTwice(steps[1..], p, q);
      var rest := FilterSteps(steps[1..], p);
      if p(steps[0]) {
        assert ([steps[0]] + rest)[1..] == rest;
      } else {
        assert FilterSteps(steps, p) == rest;
      }
    }
  }

  /** The step at `i` is the eligible one that the sort puts first: none precedes it, and one that it does
      not precede itself is listed later. */
  ghost predicate IsChosen(before: IdOrder, steps: seq<Step>, completed: set<Id>, failed: set<Id>, i: int) {
    && 0 <= i < |steps| && Eligible(steps[i], completed, failed)
    && (forall j :: 0 <= j < |steps| && Eligible(steps[j], completed, failed) ==> !Precedes(before, steps[j], steps[i]))
    && (forall j :: 0 <= j < i && Eligible(steps[j], completed, failed) ==> Precedes(before, steps[i], steps[j]))
  }

  /** Exactly what is selected: the goal when nothing is incomplete, a deadlock when nothing incomplete is
      eligible, and otherwise the eligible step that the stable sort puts first. */
  lemma SelectionIsDetermined(before: IdOrder, steps: seq<Step>, completed: set<Id>, failed: set<Id>)
    ensures
      match SelectNextStep(before, steps, completed, failed)
      case Goal => forall s :: s in steps ==> !Incomplete(s, completed, failed)
      case Deadlock =>
        && (exists s :: s in steps && Incomplete(s, completed, failed))
        && (forall s :: s in steps ==> !Eligible(s, completed, failed))
      case Selected(step) =>
        && step in steps && Eligible(step, completed, failed)
        && exists i :: IsChosen(before, steps, completed, failed, i) && steps[i] == step
  {
    var p := (s: Step) => Incomplete(s, completed, failed);
    var q := (s: Step) => Eligible(s, completed, failed);
    var incomplete := FilterSteps(steps, p);
    var candidates := FilterSteps(incomplete, q);
    if incomplete == [] {
      forall s | s in steps ensures !Incomplete(s, completed, failed) {
        assert s in incomplete <==> p(s);
      }
    } else if candidates == [] {
      assert incomplete[0] in steps;
      forall s | s in steps ensures !Eligible(s, completed, failed) {
        assert s in candidates <==> s in incomplete && q(s);
      }
    } else {
      FilterTwice(steps, p, q);
      var i := FirstLeads(before, steps, q);
      assert IsChosen(before, steps, completed, failed, i);
    }
  }

  /** A step as risky as another or less. */
  predicate NoRiskier(a: RiskLevel, b: RiskLevel) {
    match b
    case Low => a == Low
    case Medium => a == Low || a == Medium
    case High => a != Critical
    case Critical => true
  }

  /** The selected step is eligible; no eligible step is less risky; of those as risky, none has a greater value; and of
      those with the same value, none comes before it in the order of ids. */
  lemma SelectedIsSafestAndBest(before: IdOrder, steps: seq<Step>, completed: set<Id>, failed: set<Id>)
    ensures
      match SelectNextStep(before, steps, completed, failed)
      case Selected(step) =>
        && step in steps && step.stepId !in completed && step.stepId !in failed
        && (forall d :: d in step.dependsOn ==> d in completed)
        && forall s :: s in steps && Eligible(s, completed, failed) ==>
             && NoRiskier(step.riskLevel, s.riskLevel)
             && (step.riskLevel == s.riskLevel ==> step.estimatedValue >= s.estimatedValue)
             && (step.riskLevel == s.riskLevel && step.estimatedValue == s.estimatedValue ==> !before(s.stepId, step.stepId))
      case _ => true
  {
    SelectionIsDetermined(before, steps, completed, failed);
    match SelectNextStep(before, steps, completed, failed)
    case Selected(step) =>
      var i :| IsChosen(before, steps, completed, failed, i) && steps[i] == step;
      forall s | s in steps && Eligible(s, completed, failed) ensures !Precedes(before, s, step) {
        var j :| 0 <= j < |steps| && steps[j] == s;
      }
    case _ =>
  }

  /** The order tells any two ids of the list apart. */
  ghost predicate Decides(before: IdOrder, steps: seq<Step>) {
    forall a, b :: a in steps && b in steps && a != b ==> before(a.stepId, b.stepId) || before(b.stepId, a.stepId)
  }

  /** Listing the steps in another order selects the same step, unless the order calls two ids equal. */
  lemma OrderIrrelevant(before: IdOrder, steps: seq<Step>, steps': seq<Step>, completed: set<Id>, failed: set<Id>)
    requires Decides(before, steps)
    requires forall s :: s in steps <==> s in steps'
    ensures SelectNextStep(before, steps, completed, failed) == SelectNextStep(before, steps', completed, failed)
  {
    SelectionKind(before, steps, completed, failed);
    SelectionKind(before, steps', completed, failed);
    assert AllDone(steps, completed, failed) == AllDone(steps', completed, failed);
    assert NoneEligible(steps, completed, failed) == NoneEligible(steps', completed, failed);
    if SelectNextStep(before, steps, completed, failed).Selected? {
      var a := SelectNextStep(before, steps, completed, failed).step;
      var b := SelectNextStep(before, steps', completed, failed).step;
      NonePrecedes(before, steps, completed, failed, a, b);
      NonePrecedes(before, steps', completed, failed, b, a);
      DecidedBetween(before, steps, a, b);
    }
  }

  ghost predicate AllDone(steps: seq<Step>, completed: set<Id>, failed: set<Id>) {
    forall s :: s in steps ==> !Incomplete(s, completed, failed)
  }

  ghost predicate NoneEligible(steps: seq<Step>, completed: set<Id>, failed: set<Id>) {
    forall s :: s in steps ==> !Eligible(s, completed, failed)
  }

  lemma SelectionKind(before: IdOrder, steps: seq<Step>, completed: set<Id>, failed: set<Id>)
    ensures
      match SelectNextStep(before, steps, completed, failed)
      case Goal => AllDone(steps, completed, failed)
      case Deadlock => !AllDone(steps, completed, failed) && NoneEligible(steps, completed, failed)
      case Selected(step) =>
        && !AllDone(steps, completed, failed) && !NoneEligible(steps, completed, failed)
        && step in steps && Eligible(step, completed, failed)
  {
    SelectionIsDetermined(before, steps, completed, failed);
  }

  lemma DecidedBetween(before: IdOrder, steps: seq<Step>, a: Step, b: Step)
    requires Decides(before, steps) && a in steps && b in steps
    requires !Precedes(before, a, b) && !Precedes(before, b, a)
    ensures a == b
  {
  }

  lemma NonePrecedes(before: IdOrder, steps: seq<Step>, completed: set<Id>, failed: set<Id>, chosen: Step, other: Step)
    requires SelectNextStep(before, steps, completed, failed) == Selected(chosen)
    requires other in steps && Eligible(other, completed, failed)
    ensures !Precedes(before, other, chosen)
  {
    SelectionIsDetermined(before, steps, completed, failed);
    var i :| IsChosen(before, steps, completed, failed, i) && steps[i] == chosen;
    var j :| 0 <= j < |steps| && steps[j] == other;
  }

  /** However the steps are listed, the same one is selected. */
  ghost predicate ListingIrrelevant(before: IdOrder, steps: seq<Step>, completed: set<Id>, failed: set<Id>) {
    forall steps' :: multiset(steps') == multiset(steps) ==>
      SelectNextStep(before, steps', completed, failed) == SelectNextStep(before, steps, completed, failed)
  }

  /** The step precedes every other eligible one. */
  ghost predicate AloneFirst(before: IdOrder, steps: seq<Step>, completed: set<Id>, failed: set<Id>, step: Step) {
    forall b :: b in steps && Eligible(b, completed, failed) && b != step ==> Precedes(before, step, b)
  }

  /** Exactly when the listing does not matter: the selected step precedes every other eligible one. Otherwise one that
      ties with it is selected when it is listed first. */
  lemma ListingIrrelevantExactlyWhen(before: IdOrder, steps: seq<Step>, completed: set<Id>, failed: set<Id>, step: Step)
    requires SelectNextStep(before, steps, completed, failed) == Selected(step)
    ensures ListingIrrelevant(before, steps, completed, failed) <==> AloneFirst(before, steps, completed, failed, step)
  {
    if AloneFirst(before, steps, completed, failed, step) {
      AloneIsAlwaysSelected(before, steps, completed, failed, step);
    } else {
      var b :| b in steps && Eligible(b, completed, failed) && b != step && !Precedes(before, step, b);
      TieMatters(before, steps, completed, failed, step, b);
    }
  }

  lemma AloneIsAlwaysSelected(before: IdOrder, steps: seq<Step>, completed: set<Id>, failed: set<Id>, step: Step)
    requires SelectNextStep(before, steps, completed, failed) == Selected(step)
    requires AloneFirst(before, steps, completed, failed, step)
    ensures ListingIrrelevant(before, steps, completed, failed)
  {
    SelectionKind(before, steps, completed, failed);
    forall steps' | multiset(steps') == multiset(steps)
      ensures SelectNextStep(before, steps', completed, failed) == Selected(step)
    {
      SameMembers(steps, steps');
      StrictlyFirstIsSelected(before, steps', completed, failed, step);
    }
  }

  lemma TieMatters(before: IdOrder, steps: seq<Step>, completed: set<Id>, failed: set<Id>, step: Step, b: Step)
    requires SelectNextStep(before, steps, completed, failed) == Selected(step)
    requires b in steps && Eligible(b, completed, failed) && b != step && !Precedes(before, step, b)
    ensures !ListingIrrelevant(before, steps, completed, failed)
  {
    var listed := ListedFirst(steps, b);
    NonePrecedes(before, steps, completed, failed, step, b);
    TiedIsSelected(before, steps, listed, completed, failed, step, b);
  }

  lemma SameMembers(steps: seq<Step>, steps': seq<Step>)
    requires multiset(steps') == multiset(steps)
    ensures forall s :: s in steps' <==> s in steps
  {
    forall s ensures s in steps' <==> s in steps {
      assert s in steps <==> s in multiset(steps);
      assert s in steps' <==> s in multiset(steps');
    }
  }

  lemma ListedFirst(steps: seq<Step>, b: Step) returns (listed: seq<Step>)
    requires b in steps
    ensures multiset(listed) == multiset(steps) && listed != [] && listed[0] == b
  {
    var i :| 0 <= i < |steps| && steps[i] == b;
    listed := [b] + (steps[..i] + steps[i + 1..]);
    assert steps == steps[..i] + [b] + steps[i + 1..];
  }

  lemma StrictlyFirstIsSelected(before: IdOrder, steps: seq<Step>, completed: set<Id>, failed: set<Id>, step: Step)
    requires step in steps && Eligible(step, completed, failed)
    requires AloneFirst(before, steps, completed, failed, step)
    ensures SelectNextStep(before, steps, completed, failed) == Selected(step)
  {
    SelectionKind(before, steps, completed, failed);
    var a := SelectNextStep(before, steps, completed, failed).step;
    NonePrecedes(before, steps, completed, failed, a, step);
  }

  /** A step that ties with the selected one is selected from a list that starts with it. */
  lemma TiedIsSelected(before: IdOrder, steps: seq<Step>, listed: seq<Step>, completed: set<Id>, failed: set<Id>, step: Step, b: Step)
    requires SelectNextStep(before, steps, completed, failed) == Selected(step)
    requires multiset(listed) == multiset(steps) && listed != [] && listed[0] == b
    requires Eligible(b, completed, failed) && !Precedes(before, step, b) && !Precedes(before, b, step)
    ensures SelectNextStep(before, listed, completed, failed) == Selected(b)
  {
    SameMembers(steps, listed);
    SelectionKind(before, listed, completed, failed);
    var a := SelectNextStep(before, listed, completed, failed).step;
    NonePrecedes(before, listed, completed, failed, a, b);
    NonePrecedes(before, steps, completed, failed, step, a);
    PrecedesLaws(before, a, step, b);
    EarliestOfTies(before, listed, completed, failed, a);
  }

  lemma EarliestOfTies(before: IdOrder, steps: seq<Step>, completed: set<Id>, failed: set<Id>, chosen: Step)
    requires SelectNextStep(before, steps, completed, failed) == Selected(chosen)
    requires steps != [] && Eligible(steps[0], completed, failed) && !Precedes(before, chosen, steps[0])
    ensures chosen == steps[0]
  {
    SelectionIsDetermined(before, steps, completed, failed);
    var i :| IsChosen(before, steps, completed, failed, i) && steps[i] == chosen;
  }

  // ---- accepted plans never deadlock by themselves ----

  /** A failed step that was not completed later stands somewhere before `x`. */
  ghost predicate Blocked(steps: seq<Step>, completed: set<Id>, failed: set<Id>, x: Id) {
    exists f :: f in failed && f !in completed && Reaches(ById(steps), x, f)
  }

  ghost predicate ClosedUnderDependencies(steps: seq<Step>, completed: set<Id>) {
    Closed(ById(steps), completed)
  }

  lemma StepOf(steps: seq<Step>, id: Id) returns (i: nat)
    requires id in IdSet(steps)
    ensures i < |steps| && steps[i].stepId == id
  {
    i :| 0 <= i < |Ids(steps)| && Ids(steps)[i] == id;
  }

  /** An incomplete step that is not eligible depends on a step that is not completed. */
  lemma Unmet(steps: seq<Step>, s: Step, completed: set<Id>, failed: set<Id>) returns (d: Step)
    requires WellFormed(steps) && s in steps
    requires Incomplete(s, completed, failed) && !Eligible(s, completed, failed)
    ensures d in steps && Edge(ById(steps), s.stepId, d.stepId) && d.stepId !in completed
  {
    var i :| 0 <= i < |steps| && steps[i] == s;
    var k :| 0 <= k < |s.dependsOn| && s.dependsOn[k] !in completed;
    var j := StepOf(steps, s.dependsOn[k]);
    d := steps[j];
    ByIdHasSteps(steps, i);
  }

  /** Selection deadlocks only behind failures: for an accepted plan, it throws exactly when
      something is incomplete and every incomplete step waits, directly or not, for a failed one. */
  lemma DeadlockOnlyBehindFailures(before: IdOrder, steps: seq<Step>, completed: set<Id>, failed: set<Id>)
    requires WellFormed(steps) && ClosedUnderDependencies(steps, completed)
    ensures SelectNextStep(before, steps, completed, failed) == Deadlock <==>
            && (exists s :: s in steps && Incomplete(s, completed, failed))
            && (forall s :: s in steps && Incomplete(s, completed, failed) ==> Blocked(steps, completed, failed, s.stepId))
  {
    SelectionIsDetermined(before, steps, completed, failed);
    match SelectNextStep(before, steps, completed, failed)
    case Deadlock =>
      DeadlockBlocksAll(steps, completed, failed);
    case Selected(step) =>
      EligibleIsNotBlocked(steps, completed, failed, step);
    case Goal =>
  }

  lemma DeadlockBlocksAll(steps: seq<Step>, completed: set<Id>, failed: set<Id>)
    requires WellFormed(steps)
    requires forall s :: s in steps ==> !Eligible(s, completed, failed)
    ensures forall s :: s in steps && Incomplete(s, completed, failed) ==> Blocked(steps, completed, failed, s.stepId)
  {
    var free := Free(steps, completed, failed);
    if free != {} {
      var x := SinkExists(ById(steps), free);
      FreeLeadsOn(steps, completed, failed, x);
    } else {
      forall s | s in steps && Incomplete(s, completed, failed) ensures Blocked(steps, completed, failed, s.stepId) {
        assert Blocked(steps, completed, failed, s.stepId) || s.stepId in free;
      }
    }
  }

  /** The incomplete steps that wait for no failed one. */
  ghost function Free(steps: seq<Step>, completed: set<Id>, failed: set<Id>): set<Id> {
    set s | s in steps && Incomplete(s, completed, failed) && !Blocked(steps, completed, failed, s.stepId) :: s.stepId
  }

  lemma FreeLeadsOn(steps: seq<Step>, completed: set<Id>, failed: set<Id>, x: Id)
    requires WellFormed(steps) && x in Free(steps, completed, failed)
    requires forall s :: s in steps ==> !Eligible(s, completed, failed)
    ensures LeadsInto(ById(steps), x, Free(steps, completed, failed))
  {
    var g := ById(steps);
    var s :| s in steps && s.stepId == x && Incomplete(s, completed, failed) && !Blocked(steps, completed, failed, s.stepId);
    var d := Unmet(steps, s, completed, failed);
    EdgeReaches(g, x, d.stepId);
    if Blocked(steps, completed, failed, d.stepId) {
      var f :| f in failed && f !in completed && Reaches(g, d.stepId, f);
      ReachesTransitive(g, x, d.stepId, f);
    }
    assert d.stepId in Free(steps, completed, failed);
  }

  lemma EligibleIsNotBlocked(steps: seq<Step>, completed: set<Id>, failed: set<Id>, s: Step)
    requires WellFormed(steps) && ClosedUnderDependencies(steps, completed)
    requires s in steps && Eligible(s, completed, failed)
    ensures !Blocked(steps, completed, failed, s.stepId)
  {
    if Blocked(steps, completed, failed, s.stepId) {
      var f :| f in failed && f !in completed && Reaches(ById(steps), s.stepId, f);
      var b := FirstEdge(ById(steps), s.stepId, f);
      var i :| 0 <= i < |steps| && steps[i] == s;
      ByIdHasSteps(steps, i);
      var k :| 0 <= k < |s.dependsOn| && s.dependsOn[k] == b;
      if b != f { ClosedReaches(ById(steps), completed, b, f); }
    }
  }

  // ---- repeated selection ----

  /** Selecting and completing until nothing more is selected. */
  function Order(before: IdOrder, steps: seq<Step>, completed: set<Id>): seq<Step>
    decreases IdSet(steps) - completed
  {
    match SelectNextStep(before, steps, completed, {})
    case Selected(step) =>
      SelectedIsNew(before, steps, completed, step);
      [step] + Order(before, steps, completed + {step.stepId})
    case _ => []
  }

  lemma SelectedIsNew(before: IdOrder, steps: seq<Step>, completed: set<Id>, step: Step)
    requires SelectNextStep(before, steps, completed, {}) == Selected(step)
    ensures step in steps && step.stepId in IdSet(steps) && step.stepId !in completed
  {
    var i :| 0 <= i < |steps| && steps[i] == step;
    assert Ids(steps)[i] == step.stepId;
  }

  lemma NoFailureNoDeadlock(before: IdOrder, steps: seq<Step>, completed: set<Id>)
    requires WellFormed(steps)
    ensures SelectNextStep(before, steps, completed, {}) != Deadlock
  {
    SelectionIsDetermined(before, steps, completed, {});
    if SelectNextStep(before, steps, completed, {}) == Deadlock {
      DeadlockBlocksAll(steps, completed, {});
    }
  }

  /** A list of steps that covers `missing` once each, every step after what it depends on. */
  ghost predicate GoodOrder(steps: seq<Step>, completed: set<Id>, order: seq<Step>) {
    && NoDuplicates(Ids(order))
    && IdSet(order) == IdSet(steps) - completed
    && forall i :: 0 <= i < |order| ==> DependenciesFirst(steps, completed, order, i)
  }

  ghost predicate DependenciesFirst(steps: seq<Step>, completed: set<Id>, order: seq<Step>, i: nat)
    requires i < |order|
  {
    order[i] in steps && forall d :: d in order[i].dependsOn ==> d in completed + IdSet(order[..i])
  }

  /** From any completed set, an accepted plan with no failed step runs to the goal: every missing step
      is selected exactly once, and each only after everything it depends on. */
  lemma {:induction false} RunsToGoal(before: IdOrder, steps: seq<Step>, completed: set<Id>)
    requires WellFormed(steps)
    ensures GoodOrder(steps, completed, Order(before, steps, completed))
    ensures SelectNextStep(before, steps, completed + IdSet(Order(before, steps, completed)), {}) == Goal
    decreases IdSet(steps) - completed
  {
    NoFailureNoDeadlock(before, steps, completed);
    SelectionIsDetermined(before, steps, completed, {});
    match SelectNextStep(before, steps, completed, {})
    case Selected(step) =>
      SelectedIsNew(before, steps, completed, step);
      var rest := Order(before, steps, completed + {step.stepId});
      RunsToGoal(before, steps, completed + {step.stepId});
      PrependKeepsOrder(steps, completed, step, rest);
      TogetherWith(completed, step, rest);
    case Goal =>
      NothingMissing(steps, completed);
      assert completed + IdSet([]) == completed;
  }

  lemma TogetherWith(completed: set<Id>, step: Step, rest: seq<Step>)
    ensures completed + IdSet([step] + rest) == completed + {step.stepId} + IdSet(rest)
  {
    OrderPrepend(step, rest);
  }

  lemma PrependKeepsOrder(steps: seq<Step>, completed: set<Id>, step: Step, rest: seq<Step>)
    requires step in steps && step.stepId in IdSet(steps) && step.stepId !in completed
    requires forall d :: d in step.dependsOn ==> d in completed
    requires GoodOrder(steps, completed + {step.stepId}, rest)
    ensures GoodOrder(steps, completed, [step] + rest)
  {
    var order := [step] + rest;
    OrderPrepend(step, rest);
    forall i | 0 <= i < |order| ensures DependenciesFirst(steps, completed, order, i) {
      if i > 0 {
        assert DependenciesFirst(steps, completed + {step.stepId}, rest, i - 1);
        assert order[..i] == [step] + rest[..i - 1];
        OrderPrepend(step, rest[..i - 1]);
      }
    }
  }

  lemma OrderPrepend(step: Step, rest: seq<Step>)
    ensures IdSet([step] + rest) == {step.stepId} + IdSet(rest)
    ensures NoDuplicates(Ids([step] + rest)) <==> NoDuplicates(Ids(rest)) && step.stepId !in IdSet(rest)
  {
    assert Ids([step] + rest) == [step.stepId] + Ids(rest);
    ToSetPrepend(step.stepId, Ids(rest));
    NoDuplicatesPrepend(step.stepId, Ids(rest));
  }

  lemma NothingMissing(steps: seq<Step>, completed: set<Id>)
    requires forall s :: s in steps ==> !Incomplete(s, completed, {})
    ensures IdSet(steps) - completed == {}
  {
    forall x | x in IdSet(steps) ensures x in completed {
      var i := StepOf(steps, x);
      assert steps[i] in steps;
    }
  }

  /** From the start: exactly as many selections as the plan has steps. */
  lemma FullRunLength(before: IdOrder, steps: seq<Step>)
    requires WellFormed(steps)
    ensures |Order(before, steps, {})| == |steps| && IdSet(Order(before, steps, {})) == IdSet(steps)
  {
    RunsToGoal(before, steps, {});
    assert IdSet(steps) - {} == IdSet(steps);
    DistinctCount(Ids(steps));
    DistinctCount(Ids(Order(before, steps, {})));
  }
}
