/** When a reconciliation settles its orphan: what the next reconciliation appends. */
module Reconciliation {
  import opened Common
  import opened Disk
  import opened ToolRuntime
  import opened ToolRuntimeSafety

  /** Events that neither start nor answer anything, nor ask for or decide an approval. */
  predicate Plain(e: Event) {
    !e.Intended? && !e.ToolResult? && !e.ApprovalGranted? && !e.ApprovalDenied? && !e.ReapprovalRequired?
  }

  predicate AllPlain(events: Log) {
    forall k :: 0 <= k < |events| ==> Plain(events[k])
  }

  // ---- orphans of a log that grows ----

  lemma LastIntendedIs(log: Log, i: nat)
    requires i < |log| && log[i].Intended? && forall j :: i < j < |log| ==> !log[j].Intended?
    ensures LastIntended(log) == Some(i)
  {
  }

  lemma PlainKeepsOrphan(log: Log, events: Log)
    requires AllPlain(events)
    ensures LatestOrphan(log + events) == LatestOrphan(log)
  {
    var longer := log + events;
    var last := LastIntended(log);
    if last.None? {
      assert LastIntended(longer).None?;
    } else {
      LastIntendedIs(longer, last.value);
      if j :| last.value < j < |log| && ResultOf(log[j], last.value) {
        assert longer[j] == log[j];
      }
    }
  }

  lemma PlainKeepsPending(log: Log, events: Log, i: nat)
    requires AllPlain(events)
    ensures PendingReapproval(log + events, i) <==> PendingReapproval(log, i)
  {
    var longer := log + events;
    if r :| 0 <= r < |log| && StandsFrom(log, i, r) {
      assert StandsFrom(longer, i, r);
    }
    if r :| 0 <= r < |longer| && StandsFrom(longer, i, r) {
      assert longer[r] == ReapprovalRequired(i) && r < |log|;
      assert forall j :: r < j < |log| ==> longer[j] == log[j];
      assert StandsFrom(log, i, r);
    }
  }

  /** An intent followed by its result leaves no orphan. */
  lemma AnsweredIsNoOrphan(log: Log, i: nat, j: nat)
    requires i < |log| && log[i].Intended? && (forall k :: i < k < |log| ==> !log[k].Intended?)
    requires i < j < |log| && ResultOf(log[j], i)
    ensures LatestOrphan(log).None?
  {
    LastIntendedIs(log, i);
  }

  lemma UnansweredIsOrphan(log: Log, i: nat)
    requires i < |log| && log[i].Intended? && (forall k :: i < k < |log| ==> !log[k].Intended? && !log[k].ToolResult?)
    ensures LatestOrphan(log) == Some(i)
  {
    LastIntendedIs(log, i);
  }

  /** A reconciliation appends something exactly when there is an orphan without a pending reapproval. */
  lemma AppendsNothingWhen(tools: Tools, m: Machine, env: Env)
    ensures Reconcile(tools, m, env).0 == [] <==>
            LatestOrphan(m.log).None? || PendingReapproval(m.log, LatestOrphan(m.log).value)
  {
  }

  // ---- the log after each part ----

  function EventsOf(steps: seq<Step>): Log {
    if steps == [] then []
    else (if steps[0].AppendEvent? then [steps[0].event] else []) + EventsOf(steps[1..])
  }

  lemma {:induction false} LogAfter(m: Machine, steps: seq<Step>)
    ensures TakeAll(m, steps).log == m.log + EventsOf(steps)
    decreases |steps|
  {
    if steps == [] {
      assert m.log + [] == m.log;
    } else {
      LogAfter(Take(m, steps[0]), steps[1..]);
      var first := if steps[0].AppendEvent? then [steps[0].event] else [];
      assert Take(m, steps[0]).log == m.log + first;
      Associate(m.log, first, EventsOf(steps[1..]));
    }
  }

  lemma TwoEvents(a: Event, b: Event)
    ensures EventsOf([AppendEvent(a)]) == [a]
    ensures EventsOf([AppendEvent(a), AppendEvent(b)]) == [a, b]
  {
    assert EventsOf([AppendEvent(b)]) == [b];
    EventsConcat([AppendEvent(a)], [AppendEvent(b)]);
    assert [AppendEvent(a)] + [AppendEvent(b)] == [AppendEvent(a), AppendEvent(b)];
  }

  lemma {:induction false} EventsConcat(a: seq<Step>, b: seq<Step>)
    ensures EventsOf(a + b) == EventsOf(a) + EventsOf(b)
    decreases |a|
  {
    if a == [] {
      NothingAround(b);
      NothingAround(EventsOf(b));
    } else {
      TailOfConcat(a, b);
      EventsConcat(a[1..], b);
      Associate(if a[0].AppendEvent? then [a[0].event] else [], EventsOf(a[1..]), EventsOf(b));
    }
  }

  lemma {:induction false} DiskHasNoEvents(actions: seq<Action>)
    ensures EventsOf(OnDiskAll(actions)) == []
  {
    if actions != [] {
      DiskHasNoEvents(actions[1..]);
    }
  }

  lemma {:induction false} PlainSteps(steps: seq<Step>)
    requires forall k :: 0 <= k < |steps| ==> (steps[k].AppendEvent? ==> Plain(steps[k].event))
    ensures AllPlain(EventsOf(steps))
  {
    if steps != [] {
      PlainSteps(steps[1..]);
    }
  }

  /** An admitted execution appends plain events, its intent, the result of a terminal status, and
      plain events again. */
  lemma RunToolEvents(tool: Tool, m: Machine, call: Call, max: nat, oracle: nat -> nat)
    ensures
      var (steps, status) := RunTool(tool, m, call, max, oracle);
      TakeAll(m, steps).log == m.log + ([Intended(call)] + EventsOf(Ending(|m.log|, status)))
  {
    var (actions, status) := Attempts(tool, m.world, call, 1, max, oracle);
    var intending := [AppendEvent(Intended(call))];
    LogAfter(m, RunTool(tool, m, call, max, oracle).0);
    EventsConcat(intending + OnDiskAll(actions), Ending(|m.log|, status));
    EventsConcat(intending, OnDiskAll(actions));
    DiskHasNoEvents(actions);
    assert EventsOf(intending) == [Intended(call)];
  }

  lemma EndingEvents(i: nat, status: ExecutionStatus)
    ensures EventsOf(Ending(i, status)) ==
            if Terminal(status) then [ToolResult(i, status, false), LockReleased] else [LockReleased]
  {
    TwoEvents(ToolResult(i, status, false), LockReleased);
    TwoEvents(LockReleased, LockReleased);
  }

  /** After an admitted execution the latest orphan is its own intent, or none if it ended. */
  lemma AdmittedLeaves(tool: Tool, m: Machine, call: Call, max: nat, oracle: nat -> nat)
    requires forall j :: 0 <= j < |m.log| && m.log[j].ReapprovalRequired? ==> m.log[j].intended < j
    ensures
      var (steps, status) := RunTool(tool, m, call, max, oracle);
      var log := TakeAll(m, steps).log;
      if Terminal(status) then LatestOrphan(log).None?
      else LatestOrphan(log) == Some(|m.log|) && !PendingReapproval(log, |m.log|)
  {
    var status := RunTool(tool, m, call, max, oracle).1;
    RunToolEvents(tool, m, call, max, oracle);
    EndingEvents(|m.log|, status);
    if Terminal(status) {
      EndedLeaves(m.log, call, status);
    } else {
      OpenLeaves(m.log, call);
    }
  }

  lemma EndedLeaves(log: Log, call: Call, status: ExecutionStatus)
    ensures LatestOrphan(log + ([Intended(call)] + [ToolResult(|log|, status, false), LockReleased])).None?
  {
    var longer := log + ([Intended(call)] + [ToolResult(|log|, status, false), LockReleased]);
    assert longer[|log|] == Intended(call) && longer[|log| + 1] == ToolResult(|log|, status, false);
    AnsweredIsNoOrphan(longer, |log|, |log| + 1);
  }

  lemma OpenLeaves(log: Log, call: Call)
    requires forall j :: 0 <= j < |log| && log[j].ReapprovalRequired? ==> log[j].intended < j
    ensures
      var longer := log + ([Intended(call)] + [LockReleased]);
      LatestOrphan(longer) == Some(|log|) && !PendingReapproval(longer, |log|)
  {
    var longer := log + ([Intended(call)] + [LockReleased]);
    assert longer[|log|] == Intended(call);
    UnansweredIsOrphan(longer, |log|);
    NoReapprovalYet(log, [Intended(call)] + [LockReleased]);
  }

  lemma NoReapprovalYet(log: Log, events: Log)
    requires forall j :: 0 <= j < |log| && log[j].ReapprovalRequired? ==> log[j].intended < j
    requires forall k :: 0 <= k < |events| ==> !events[k].ReapprovalRequired?
    ensures !PendingReapproval(log + events, |log|)
  {
    var longer := log + events;
    forall r | 0 <= r < |longer| ensures !StandsFrom(longer, |log|, r) {
      assert longer[r] == if r < |log| then log[r] else events[r - |log|];
    }
  }

  /** Whether a fresh execution gets past every check and writes its intent. */
  predicate Starts(gate: Gate) {
    gate.inputValid && gate.decision == Allow && gate.timeoutFits && gate.withinBudget && gate.lockFree
  }

  lemma NotStartedIsPlain(call: Call, gate: Gate)
    ensures Starts(gate) <==> Admit(call, false, gate).1.None?
    ensures
      var steps := Admit(call, false, gate).0;
      forall k :: 0 <= k < |steps| ==> (steps[k].AppendEvent? ==> Plain(steps[k].event))
  {
  }

  // ---- the theorem ----

  /** After this reconciliation, the next one appends nothing. */
  predicate Settles(tools: Tools, m: Machine, env: Env) {
    match Reconcile(tools, m, env).1
    case NoOrphan => true
    case AwaitingReapproval => true
    case Synthesized => true
    case NotRegistered => false
    case CannotTell => false
    case Reexecuted(outcome) =>
      if Starts(env.gate) then outcome.Finished? && Terminal(outcome.status)
      else
        var tool := m.log[LatestOrphan(m.log).value].call.tool;
        tool in tools && tools[tool].sideEffect == External && outcome == Finished(WaitingForApproval)
  }

  /** A quiet log: nothing for a reconciliation to do. */
  predicate Quiet(log: Log) {
    LatestOrphan(log).None? || PendingReapproval(log, LatestOrphan(log).value)
  }

  lemma PlainKeepsQuiet(log: Log, events: Log)
    requires AllPlain(events)
    ensures Quiet(log + events) <==> Quiet(log)
  {
    PlainKeepsOrphan(log, events);
    if LatestOrphan(log).Some? {
      PlainKeepsPending(log, events, LatestOrphan(log).value);
    }
  }

  lemma SynthesisIsQuiet(m: Machine, i: nat)
    requires LatestOrphan(m.log) == Some(i)
    ensures Quiet(m.log + [ToolResult(i, Completed, true), ReconciliationSynthesized(i)])
  {
    var log := m.log + [ToolResult(i, Completed, true), ReconciliationSynthesized(i)];
    assert log[|m.log|] == ToolResult(i, Completed, true);
    AnsweredIsNoOrphan(log, i, |m.log|);
  }

  /** Asking for a reapproval of the latest orphan makes the log quiet; of an older one, it changes nothing. */
  lemma ReapprovalQuiet(log: Log, i: nat)
    ensures LatestOrphan(log) == Some(i) ==> Quiet(log + [ReapprovalRequired(i)])
    ensures LatestOrphan(log) != Some(i) ==> (Quiet(log + [ReapprovalRequired(i)]) <==> Quiet(log))
  {
    var longer := log + [ReapprovalRequired(i)];
    var last := LastIntended(log);
    if last.Some? {
      LastIntendedIs(longer, last.value);
      assert HasResultAfter(longer, last.value) <==> HasResultAfter(log, last.value) by {
        assert forall j :: 0 <= j < |log| ==> longer[j] == log[j];
      }
    } else {
      assert LastIntended(longer).None?;
    }
    assert LatestOrphan(longer) == LatestOrphan(log);
    if LatestOrphan(log) == Some(i) {
      assert StandsFrom(longer, i, |log|);
    } else if LatestOrphan(log).Some? {
      OtherReapproval(log, i, LatestOrphan(log).value);
    }
  }

  lemma OtherReapproval(log: Log, i: nat, orphan: nat)
    requires i != orphan
    ensures PendingReapproval(log + [ReapprovalRequired(i)], orphan) <==> PendingReapproval(log, orphan)
  {
    var longer := log + [ReapprovalRequired(i)];
    assert forall j :: 0 <= j < |log| ==> longer[j] == log[j];
    if r :| 0 <= r < |log| && StandsFrom(log, orphan, r) {
      assert StandsFrom(longer, orphan, r);
    }
    if r :| 0 <= r < |longer| && StandsFrom(longer, orphan, r) {
      assert StandsFrom(log, orphan, r);
    }
  }

  /** The re-execution of an orphan, by whether it starts. */
  lemma ExecuteLeaves(tools: Tools, m: Machine, request: Request, env: Env, i: nat)
    requires Paired(m.log) && LatestOrphan(m.log) == Some(i) && !PendingReapproval(m.log, i) && request.call.tool in tools
    ensures
      var (steps, outcome) := Execute(tools, m, request, false, env);
      var log := TakeAll(m, steps).log;
      if Starts(env.gate) then
        outcome.Finished?
        && (if Terminal(outcome.status) then LatestOrphan(log).None? else !Quiet(log) && LatestOrphan(log) != Some(i))
      else LatestOrphan(log) == Some(i) && !Quiet(log)
  {
    var tool := tools[request.call.tool];
    var call := request.call.(key := KeyFor(tool.sideEffect, request.call.key, env.freshKey));
    NotStartedIsPlain(call, env.gate);
    if Starts(env.gate) {
      StartedLeaves(m, tool, call, request.retry + 1, env, i);
    } else {
      NotStartedLeaves(m, call, env.gate);
    }
  }

  lemma NotStartedLeaves(m: Machine, call: Call, gate: Gate)
    ensures
      var log := TakeAll(m, Admit(call, false, gate).0).log;
      LatestOrphan(log) == LatestOrphan(m.log) && (Quiet(log) <==> Quiet(m.log))
  {
    var admitting := Admit(call, false, gate).0;
    NotStartedIsPlain(call, gate);
    PlainSteps(admitting);
    LogAfter(m, admitting);
    PlainKeepsOrphan(m.log, EventsOf(admitting));
    PlainKeepsQuiet(m.log, EventsOf(admitting));
  }

  lemma StartedLeaves(m: Machine, tool: Tool, call: Call, max: nat, env: Env, i: nat)
    requires Paired(m.log) && LatestOrphan(m.log) == Some(i) && Starts(env.gate)
    ensures
      var admitting := Admit(call, false, env.gate).0;
      var (running, status) := RunTool(tool, TakeAll(m, admitting), call, max, env.oracle);
      var log := TakeAll(m, admitting + running).log;
      if Terminal(status) then LatestOrphan(log).None? else !Quiet(log) && LatestOrphan(log) != Some(i)
  {
    var admitting := Admit(call, false, env.gate).0;
    var m1 := TakeAll(m, admitting);
    TakeConcat(m, admitting, RunTool(tool, m1, call, max, env.oracle).0);
    AlwaysHarmless(Pairing, m, admitting);
    LogGrows(m, admitting);
    AdmittedLeaves(tool, m1, call, max, env.oracle);
  }

  lemma ReexecutionLeaves(tools: Tools, m: Machine, tool: Tool, i: nat, call: Call, env: Env)
    requires Paired(m.log) && LatestOrphan(m.log) == Some(i) && !PendingReapproval(m.log, i)
    requires call.tool in tools && tool == tools[call.tool]
    ensures
      var (steps, outcome) := Reexecute(tools, m, tool, i, call, env);
      Quiet(TakeAll(m, steps).log) <==>
      if Starts(env.gate) then outcome.Finished? && Terminal(outcome.status)
      else tool.sideEffect == External && outcome == Finished(WaitingForApproval)
  {
    var marking := [AppendEvent(ReconciliationReexecute(i))];
    var m1 := TakeAll(m, marking);
    TakeOne(m, marking[0]);
    assert m1.log == m.log + [ReconciliationReexecute(i)];
    PlainKeepsOrphan(m.log, [ReconciliationReexecute(i)]);
    PlainKeepsPending(m.log, [ReconciliationReexecute(i)], i);
    AlwaysHarmless(Pairing, m, marking);
    var (executing, outcome) := Execute(tools, m1, Request(call, 0), false, env);
    ExecuteLeaves(tools, m1, Request(call, 0), env, i);
    ReexecuteInParts(tools, m, [], tool, i, call, env);
    var m2 := TakeAll(m1, executing);
    if Reapproval(tool, i, outcome) != [] {
      TakeOne(m2, AppendEvent(ReapprovalRequired(i)));
      ReapprovalQuiet(m2.log, i);
    }
  }

  lemma OrphanLeaves(tools: Tools, m: Machine, tool: Tool, i: nat, call: Call, env: Env)
    requires Paired(m.log) && LatestOrphan(m.log) == Some(i) && !PendingReapproval(m.log, i)
    requires call.tool in tools && tool == tools[call.tool]
    ensures
      var (steps, r) := ReconcileOrphan(tools, m, tool, i, call, env);
      Quiet(TakeAll(m, steps).log) <==>
      (r.Synthesized?
       || (r.Reexecuted?
           && if Starts(env.gate) then r.outcome.Finished? && Terminal(r.outcome.status)
              else tool.sideEffect == External && r.outcome == Finished(WaitingForApproval)))
  {
    var (querying, applied) := Query(tool, m.world, call.key);
    var asking := OnDiskAll(querying);
    DiskKeepsLog(m, querying);
    var m1 := TakeAll(m, asking);
    if applied {
      var synthesizing := [AppendEvent(ToolResult(i, Completed, true)), AppendEvent(ReconciliationSynthesized(i))];
      TakeConcat(m, asking, synthesizing);
      LogAfter(m1, synthesizing);
      TwoEvents(ToolResult(i, Completed, true), ReconciliationSynthesized(i));
      SynthesisIsQuiet(m1, i);
    } else if Risky(tool) && !tool.supportsStatusQuery {
      var blocking := [AppendEvent(ReconciliationBlocked(i))];
      TakeConcat(m, asking, blocking);
      TakeOne(m1, blocking[0]);
      PlainKeepsQuiet(m.log, [ReconciliationBlocked(i)]);
    } else {
      TakeConcat(m, asking, Reexecute(tools, m1, tool, i, call, env).0);
      ReexecutionLeaves(tools, m1, tool, i, call, env);
    }
  }

  /** Exactly when the next reconciliation appends nothing: after a synthesized result, a re-execution
      that started and ended, or one of an external tool that is waiting for approval before it started. */
  lemma NextReconcileIsQuietExactlyWhen(tools: Tools, m: Machine, env: Env, next: Env)
    requires Paired(m.log)
    ensures
      var m' := TakeAll(m, Reconcile(tools, m, env).0);
      Reconcile(tools, m', next).0 == [] <==> Settles(tools, m, env)
  {
    AppendsNothingWhen(tools, TakeAll(m, Reconcile(tools, m, env).0), next);
    QuietAfterwards(tools, m, env);
  }

  lemma QuietAfterwards(tools: Tools, m: Machine, env: Env)
    requires Paired(m.log)
    ensures Quiet(TakeAll(m, Reconcile(tools, m, env).0).log) <==> Settles(tools, m, env)
  {
    var orphan := LatestOrphan(m.log);
    if orphan.Some? && !PendingReapproval(m.log, orphan.value) {
      var i := orphan.value;
      if m.log[i].call.tool !in tools {
        TakeOne(m, AppendEvent(ReconciliationBlocked(i)));
        PlainKeepsQuiet(m.log, [ReconciliationBlocked(i)]);
      } else {
        RegisteredLeaves(tools, m, i, env);
      }
    }
  }

  lemma RegisteredLeaves(tools: Tools, m: Machine, i: nat, env: Env)
    requires Paired(m.log) && LatestOrphan(m.log) == Some(i) && !PendingReapproval(m.log, i)
    requires m.log[i].call.tool in tools
    ensures Quiet(TakeAll(m, Reconcile(tools, m, env).0).log) <==> Settles(tools, m, env)
  {
    var call := m.log[i].call;
    var tool := tools[call.tool];
    var starting := [AppendEvent(ReconciliationStarted(i))];
    TakeOne(m, starting[0]);
    var m1 := TakeAll(m, starting);
    PlainKeepsOrphan(m.log, [ReconciliationStarted(i)]);
    PlainKeepsPending(m.log, [ReconciliationStarted(i)], i);
    AlwaysHarmless(Pairing, m, starting);
    OrphanLeaves(tools, m1, tool, i, call, env);
    var (steps, r) := ReconcileOrphan(tools, m1, tool, i, call, env);
    TakeConcat(m, starting, steps);
    assert Reconcile(tools, m, env) == (starting + steps, r);
  }

  /** A re-execution that is denied returns the terminal status "failed" and writes no result, so each
      further reconciliation repeats it. */
  lemma DeniedReexecutionRepeats(tools: Tools, call: Call, tool: Tool, env: Env)
    requires call.tool in tools && tools[call.tool] == tool && tool.sideEffect == WriteIdempotent
    requires env.gate.inputValid && env.gate.decision == Deny
    ensures
      var m := Machine([Intended(call)], World(map[], Store(map[], [], [], map[])), []);
      var (steps, r) := Reconcile(tools, m, env);
      && r == Reexecuted(Finished(Failed)) && Terminal(Failed)
      && Reconcile(tools, TakeAll(m, steps), env).0 != []
  {
    var m := Machine([Intended(call)], World(map[], Store(map[], [], [], map[])), []);
    UnansweredIsOrphan(m.log, 0);
    assert m.log[0] == Intended(call);
    assert !PendingReapproval(m.log, 0);
    assert Query(tool, m.world, call.key) == ([], false);
    NextReconcileIsQuietExactlyWhen(tools, m, env, env);
  }
}
