/** Taint propagation through a plan (apps/daemon/src/agent/untrustedData.ts): a step that consumes a
    tainted output is tainted, and so is everything a tainted step produces. */
module Taint {
  import opened Common
  import opened Planner

  ghost predicate ConsumesAny(step: Step, names: set<string>) {
    exists c :: c in step.consumes && c in names
  }

  /** Nothing more follows: `names` covers the seed and every product of a tainted step, and every
      consumer of one of the names is tainted. */
  ghost predicate Saturated(steps: seq<Step>, seed: set<string>, tainted: seq<bool>, names: set<string>) {
    && |tainted| == |steps|
    && seed <= names
    && forall i :: 0 <= i < |steps| ==>
         && (steps[i].taint || ConsumesAny(steps[i], names) ==> tainted[i])
         && (tainted[i] ==> forall p :: p in steps[i].produces ==> p in names)
  }

  ghost predicate Within(tainted: seq<bool>, names: set<string>, tainted': seq<bool>, names': set<string>)
    requires |tainted| == |tainted'|
  {
    names <= names' && forall i :: 0 <= i < |tainted| ==> tainted[i] ==> tainted'[i]
  }

  /** No more than what must be tainted. */
  ghost predicate Forced(steps: seq<Step>, seed: set<string>, tainted: seq<bool>, names: set<string>)
    requires |tainted| == |steps|
  {
    forall tainted', names' :: Saturated(steps, seed, tainted', names') ==> Within(tainted, names, tainted', names')
  }

  function Flags(steps: seq<Step>): (r: seq<bool>)
    ensures |r| == |steps|
    ensures forall i :: 0 <= i < |r| ==> r[i] == steps[i].taint
  {
    seq(|steps|, i requires 0 <= i < |steps| => steps[i].taint)
  }

  ghost predicate SameButTaint(steps: seq<Step>, steps': seq<Step>) {
    |steps| == |steps'| && forall i :: 0 <= i < |steps| ==> steps'[i] == steps[i].(taint := steps'[i].taint)
  }

  /** The least taint: saturated and forced. */
  ghost predicate LeastTaint(steps: seq<Step>, seed: set<string>, steps': seq<Step>, names: set<string>) {
    && SameButTaint(steps, steps')
    && Saturated(steps, seed, Flags(steps'), names)
    && Forced(steps, seed, Flags(steps'), names)
  }

  function Produced(steps: seq<Step>): set<string> {
    set i, p | 0 <= i < |steps| && p in steps[i].produces :: p
  }

  ghost function Untainted(steps: seq<Step>): set<int> {
    set i | 0 <= i < |steps| && !steps[i].taint
  }

  predicate AnyIn(names: seq<string>, tainted: set<string>) {
    exists i :: 0 <= i < |names| && names[i] in tainted
  }

  /** One pass over the steps has nothing to add at positions before `n`. */
  ghost predicate Settled(steps: seq<Step>, names: set<string>, n: nat) {
    forall i :: 0 <= i < n <= |steps| ==>
      && (ConsumesAny(steps[i], names) ==> steps[i].taint)
      && (steps[i].taint ==> forall p :: p in steps[i].produces ==> p in names)
  }

  /** What holds all along: nothing but taint changes, none is taken back, and none is added without need. */
  ghost predicate Ongoing(steps: seq<Step>, seed: set<string>, steps': seq<Step>, names: set<string>) {
    && SameButTaint(steps, steps') && seed <= names
    && (forall i :: 0 <= i < |steps| && steps[i].taint ==> steps'[i].taint)
    && Forced(steps, seed, Flags(steps'), names)
  }

  /** From one point of the loops to a later one: only taint and produced names are added. */
  ghost predicate Grows(steps: seq<Step>, steps0: seq<Step>, names0: set<string>, steps': seq<Step>, names: set<string>) {
    && SameButTaint(steps, steps0) && SameButTaint(steps, steps')
    && names0 <= names <= names0 + Produced(steps)
    && forall i :: 0 <= i < |steps| && steps0[i].taint ==> steps'[i].taint
  }

  method PropagateTaint(steps: seq<Step>, taintedOutputs: set<string>) returns (steps': seq<Step>)
    ensures exists names :: LeastTaint(steps, taintedOutputs, steps', names)
  {
    var tainted := taintedOutputs;
    steps' := steps;
    var changed := true;
    StartIsForced(steps, taintedOutputs);
    while changed
      invariant Ongoing(steps, taintedOutputs, steps', tainted)
      invariant !changed ==> Settled(steps', tainted, |steps|)
      decreases Produced(steps) - tainted, Untainted(steps'), changed
    {
      ghost var tainted0, steps0 := tainted, steps';
      steps', tainted, changed := PassOver(steps, taintedOutputs, steps', tainted);
      if changed {
        ChangeShrinksRest(steps, steps0, tainted0, steps', tainted);
      }
    }
    SettledIsLeast(steps, taintedOutputs, steps', tainted);
  }

  /** One pass of the inner loop over all steps. */
  method PassOver(ghost steps: seq<Step>, ghost seed: set<string>, steps0: seq<Step>, tainted0: set<string>)
    returns (steps': seq<Step>, tainted: set<string>, changed: bool)
    requires Ongoing(steps, seed, steps0, tainted0)
    ensures Ongoing(steps, seed, steps', tainted) && Grows(steps, steps0, tainted0, steps', tainted)
    ensures changed <==> !(tainted == tainted0 && steps' == steps0)
    ensures !changed ==> Settled(steps', tainted, |steps|)
  {
    steps', tainted, changed := steps0, tainted0, false;
    for i := 0 to |steps'|
      invariant Ongoing(steps, seed, steps', tainted) && Grows(steps, steps0, tainted0, steps', tainted)
      invariant changed <==> !(tainted == tainted0 && steps' == steps0)
      invariant !changed ==> Settled(steps', tainted, i)
    {
      var consumesTainted := AnyIn(steps'[i].consumes, tainted);
      if (steps'[i].taint || consumesTainted) && !steps'[i].taint {
        TaintKeepsOngoing(steps, seed, steps', tainted, i);
        steps' := steps'[i := steps'[i].(taint := true)];
        changed := true;
      }
      if steps'[i].taint || consumesTainted {
        ProductsKeepOngoing(steps, seed, steps', tainted, i);
        var grew: bool;
        tainted, grew := AddProducts(steps'[i].produces, tainted);
        changed := changed || grew;
      }
    }
  }

  lemma SettledIsLeast(steps: seq<Step>, seed: set<string>, steps': seq<Step>, names: set<string>)
    requires Ongoing(steps, seed, steps', names) && Settled(steps', names, |steps|)
    ensures LeastTaint(steps, seed, steps', names)
  {
  }

  lemma StartIsForced(steps: seq<Step>, seed: set<string>)
    ensures Forced(steps, seed, Flags(steps), seed)
  {
  }

  lemma TaintKeepsOngoing(steps: seq<Step>, seed: set<string>, steps': seq<Step>, names: set<string>, i: nat)
    requires Ongoing(steps, seed, steps', names) && i < |steps|
    requires AnyIn(steps'[i].consumes, names)
    ensures Ongoing(steps, seed, steps'[i := steps'[i].(taint := true)], names)
  {
    var steps2 := steps'[i := steps'[i].(taint := true)];
    assert Flags(steps2) == Flags(steps')[i := true];
    forall tainted', names' | Saturated(steps, seed, tainted', names')
      ensures Within(Flags(steps2), names, tainted', names')
    {
      assert Within(Flags(steps'), names, tainted', names');
      assert ConsumesAny(steps[i], names');
    }
  }

  lemma ProductsKeepOngoing(steps: seq<Step>, seed: set<string>, steps': seq<Step>, names: set<string>, i: nat)
    requires Ongoing(steps, seed, steps', names) && i < |steps| && steps'[i].taint
    ensures Ongoing(steps, seed, steps', names + ToSet(steps'[i].produces))
    ensures ToSet(steps'[i].produces) <= Produced(steps)
  {
    forall tainted', names' | Saturated(steps, seed, tainted', names')
      ensures Within(Flags(steps'), names + ToSet(steps'[i].produces), tainted', names')
    {
      assert Within(Flags(steps'), names, tainted', names');
      assert Flags(steps')[i] && tainted'[i];
    }
    forall p | p in ToSet(steps'[i].produces) ensures p in Produced(steps) {
      assert p in steps[i].produces;
    }
  }

  /** What the outer loop's termination rests on: a change leaves fewer names, or as many and fewer untainted steps. */
  lemma ChangeShrinksRest(steps: seq<Step>, steps0: seq<Step>, names0: set<string>, steps': seq<Step>, names: set<string>)
    requires Grows(steps, steps0, names0, steps', names) && !(names == names0 && steps' == steps0)
    ensures Produced(steps) - names < Produced(steps) - names0
            || (names == names0 && Untainted(steps') < Untainted(steps0))
  {
    if names == names0 {
      var i :| 0 <= i < |steps| && steps'[i] != steps0[i];
      assert i in Untainted(steps0) && i !in Untainted(steps');
    } else {
      var p :| p in names && p !in names0;
      assert p in Produced(steps) - names0;
    }
  }

  method AddProducts(produces: seq<string>, tainted: set<string>) returns (tainted': set<string>, grew: bool)
    ensures tainted' == tainted + ToSet(produces)
    ensures grew <==> tainted' != tainted
  {
    tainted', grew := tainted, false;
    for k := 0 to |produces|
      invariant tainted' == tainted + ToSet(produces[..k])
      invariant grew <==> tainted' != tainted
    {
      if produces[k] !in tainted' {
        tainted' := tainted' + {produces[k]};
        grew := true;
      }
      assert produces[..k + 1] == produces[..k] + [produces[k]];
    }
    assert produces[..|produces|] == produces;
  }

  // ---- what leastness gives ----

  /** A larger seed never untaints a step. */
  lemma Monotone(steps: seq<Step>, seed: set<string>, r: seq<Step>, names: set<string>,
                 seed': set<string>, r': seq<Step>, names': set<string>)
    requires seed <= seed'
    requires LeastTaint(steps, seed, r, names) && LeastTaint(steps, seed', r', names')
    ensures forall i :: 0 <= i < |steps| ==> r[i].taint ==> r'[i].taint
    ensures names <= names'
  {
    assert Saturated(steps, seed, Flags(r'), names');
    assert Within(Flags(r), names, Flags(r'), names');
    assert forall i :: 0 <= i < |steps| ==> Flags(r)[i] == r[i].taint && Flags(r')[i] == r'[i].taint;
  }

  /** Propagating once more changes nothing. */
  lemma Idempotent(steps: seq<Step>, seed: set<string>, r: seq<Step>, names: set<string>, r': seq<Step>, names': set<string>)
    requires LeastTaint(steps, seed, r, names) && LeastTaint(r, seed, r', names')
    ensures r' == r && names' == names
  {
    forall i | 0 <= i < |steps| ensures ConsumesAny(r[i], names) == ConsumesAny(steps[i], names) {
    }
    assert Saturated(r, seed, Flags(r), names);
    assert Within(Flags(r'), names', Flags(r), names);
    forall i | 0 <= i < |steps| ensures ConsumesAny(r[i], names') == ConsumesAny(steps[i], names') {
    }
    assert Saturated(steps, seed, Flags(r'), names') by {
      forall i | 0 <= i < |steps| && steps[i].taint ensures r[i].taint {
        assert Flags(r)[i];
      }
    }
    assert Within(Flags(r), names, Flags(r'), names');
    forall i | 0 <= i < |steps| ensures r'[i] == r[i] {
      assert Flags(r)[i] == Flags(r')[i];
    }
  }
}
