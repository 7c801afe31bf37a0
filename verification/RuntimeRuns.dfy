/** What executions, decisions and reconciliations may do in every run, and what each of them does exactly. */
module RuntimeRuns {
  import opened Common
  import opened Disk
  import opened ToolRuntime
  import opened ToolRuntimeSafety

  // ---- exactly what a reconciliation does ----

  /** An orphan that reconciliation looks at: nobody has been asked to approve it again. */
  predicate IsOpenOrphan(m: Machine, i: nat) {
    LatestOrphan(m.log) == Some(i) && !PendingReapproval(m.log, i)
  }

  /** Its effect cannot be repeated safely, and cannot be asked about. */
  predicate IsUnanswerable(tool: Tool) {
    (tool.sideEffect == WriteNonIdempotent || tool.sideEffect == External) && !tool.supportsStatusQuery
  }

  /** Whether the tool is asked about the orphan. */
  predicate IsAsked(tool: Tool, call: Call) {
    && (tool.sideEffect == WriteNonIdempotent || tool.sideEffect == External)
    && tool.supportsStatusQuery && tool.statusQuery.Some? && call.key.Some?
  }

  lemma TakeTwoEvents(m: Machine, a: Event, b: Event)
    ensures TakeAll(m, [AppendEvent(a), AppendEvent(b)]) == m.(log := m.log + [a, b])
  {
    TakeConcat(m, [AppendEvent(a)], [AppendEvent(b)]);
    assert [AppendEvent(a)] + [AppendEvent(b)] == [AppendEvent(a), AppendEvent(b)];
    TakeOne(m, AppendEvent(a));
    TakeOne(Take(m, AppendEvent(a)), AppendEvent(b));
    assert m.log + [a] + [b] == m.log + [a, b];
  }

  /** Without an orphan, or while its reapproval is pending, nothing happens. */
  lemma NothingToReconcile(tools: Tools, m: Machine, env: Env)
    requires forall i: nat :: !IsOpenOrphan(m, i)
    ensures TakeAll(m, Reconcile(tools, m, env).0) == m
  {
    if LatestOrphan(m.log).Some? { assert !IsOpenOrphan(m, LatestOrphan(m.log).value); }
  }

  lemma UnregisteredOrphanIsBlocked(tools: Tools, m: Machine, env: Env, i: nat)
    requires IsOpenOrphan(m, i) && m.log[i].call.tool !in tools
    ensures TakeAll(m, Reconcile(tools, m, env).0) == m.(log := m.log + [ReconciliationBlocked(i)])
  {
    TakeOne(m, AppendEvent(ReconciliationBlocked(i)));
  }

  /** An orphan whose effect cannot be repeated safely and cannot be asked about is blocked, whatever the gate says. */
  lemma UnanswerableOrphanIsBlocked(tools: Tools, m: Machine, env: Env, i: nat)
    requires IsOpenOrphan(m, i) && m.log[i].call.tool in tools && IsUnanswerable(tools[m.log[i].call.tool])
    ensures Reconcile(tools, m, env).0 == [AppendEvent(ReconciliationStarted(i)), AppendEvent(ReconciliationBlocked(i))]
    ensures TakeAll(m, Reconcile(tools, m, env).0)
            == m.(log := m.log + [ReconciliationStarted(i), ReconciliationBlocked(i)])
  {
    TakeTwoEvents(m, ReconciliationStarted(i), ReconciliationBlocked(i));
  }

  /** An orphan that its tool reports as applied gets a completed result, and nothing is run again. */
  lemma AppliedOrphanIsAnswered(tools: Tools, m: Machine, env: Env, i: nat)
    requires IsOpenOrphan(m, i) && m.log[i].call.tool in tools && IsAsked(tools[m.log[i].call.tool], m.log[i].call)
    requires tools[m.log[i].call.tool].statusQuery.value(m.world, m.log[i].call.key.value).1
    ensures
      var querying := tools[m.log[i].call.tool].statusQuery.value(m.world, m.log[i].call.key.value).0;
      TakeAll(m, Reconcile(tools, m, env).0)
      == m.(log := m.log + [ReconciliationStarted(i), ToolResult(i, Completed, true), ReconciliationSynthesized(i)],
            world := DoAll(m.world, querying))
  {
    var querying := tools[m.log[i].call.tool].statusQuery.value(m.world, m.log[i].call.key.value).0;
    var starting := AppendEvent(ReconciliationStarted(i));
    TakeOne(m, starting);
    TakeConcat(m, [starting], OnDiskAll(querying) + Answering(i));
    AnswerTaken(Take(m, starting), querying, i);
    assert m.log + [ReconciliationStarted(i)] + [ToolResult(i, Completed, true), ReconciliationSynthesized(i)]
           == m.log + [ReconciliationStarted(i), ToolResult(i, Completed, true), ReconciliationSynthesized(i)];
  }

  function Answering(i: nat): seq<Step> {
    [AppendEvent(ToolResult(i, Completed, true)), AppendEvent(ReconciliationSynthesized(i))]
  }

  lemma AnswerTaken(m: Machine, querying: seq<Action>, i: nat)
    ensures TakeAll(m, OnDiskAll(querying) + Answering(i)) ==
            m.(log := m.log + [ToolResult(i, Completed, true), ReconciliationSynthesized(i)],
               world := DoAll(m.world, querying))
  {
    TakeConcat(m, OnDiskAll(querying), Answering(i));
    TakeActions(m, querying);
    TakeTwoEvents(TakeAll(m, OnDiskAll(querying)), ToolResult(i, Completed, true), ReconciliationSynthesized(i));
  }

  /** Every other orphan is executed again, with the arguments and the key of its intent, and an external one that waits
      for an approval is marked. */
  lemma OtherOrphanIsReexecuted(tools: Tools, m: Machine, env: Env, i: nat)
    requires IsOpenOrphan(m, i) && m.log[i].call.tool in tools && !IsUnanswerable(tools[m.log[i].call.tool])
    requires
      var tool := tools[m.log[i].call.tool];
      IsAsked(tool, m.log[i].call) ==> !tool.statusQuery.value(m.world, m.log[i].call.key.value).1
    ensures
      var tool, call := tools[m.log[i].call.tool], m.log[i].call;
      var querying := if IsAsked(tool, call) then tool.statusQuery.value(m.world, call.key.value).0 else [];
      var m1 := m.(log := m.log + [ReconciliationStarted(i), ReconciliationReexecute(i)], world := DoAll(m.world, querying));
      var (executing, outcome) := Execute(tools, m1, Request(call, 0), false, env);
      var m2 := TakeAll(m1, executing);
      TakeAll(m, Reconcile(tools, m, env).0) ==
      if tool.sideEffect == External && outcome == Finished(WaitingForApproval)
      then m2.(log := m2.log + [ReapprovalRequired(i)]) else m2
  {
    var tool, call := tools[m.log[i].call.tool], m.log[i].call;
    var querying := Query(tool, m.world, call.key).0;
    var starting, marking := AppendEvent(ReconciliationStarted(i)), AppendEvent(ReconciliationReexecute(i));
    var m0 := Take(m, starting);
    var asked := TakeAll(m0, OnDiskAll(querying));
    TakeOne(m, starting);
    TakeConcat(m, [starting], ReconcileOrphan(tools, m0, tool, i, call, env).0);
    TakeConcat(m0, OnDiskAll(querying), Reexecute(tools, asked, tool, i, call, env).0);
    TakeActions(m0, querying);
    ReexecuteInParts(tools, asked, [], tool, i, call, env);
    TakeOne(asked, marking);
    assert m.log + [ReconciliationStarted(i)] + [ReconciliationReexecute(i)]
           == m.log + [ReconciliationStarted(i), ReconciliationReexecute(i)];
    ReapprovalTaken(tools, Take(asked, marking), tool, i, call, env);
  }

  lemma ReapprovalTaken(tools: Tools, m: Machine, tool: Tool, i: nat, call: Call, env: Env)
    ensures
      var (executing, outcome) := Execute(tools, m, Request(call, 0), false, env);
      var m2 := TakeAll(m, executing);
      TakeAll(m2, Reapproval(tool, i, outcome)) ==
      if tool.sideEffect == External && outcome == Finished(WaitingForApproval)
      then m2.(log := m2.log + [ReapprovalRequired(i)]) else m2
  {
    var (executing, outcome) := Execute(tools, m, Request(call, 0), false, env);
    TakeOne(TakeAll(m, executing), AppendEvent(ReapprovalRequired(i)));
  }

  // ---- an orphan that waits for an approval ----

  /** A reapproval is pending from the event that asks for it until the next decision on any approval, or a result of its
      intent. */
  lemma PendingFromAskingToDecision(log: Log, e: Event, i: nat)
    ensures PendingReapproval(log + [e], i) <==>
            || e == ReapprovalRequired(i)
            || (PendingReapproval(log, i) && !e.ApprovalGranted? && !e.ApprovalDenied? && !(e.ToolResult? && e.intended == i))
  {
    var longer := log + [e];
    if e == ReapprovalRequired(i) {
      assert StandsFrom(longer, i, |log|);
    } else if r :| 0 <= r < |longer| && StandsFrom(longer, i, r) {
      assert forall j :: r < j < |log| ==> longer[j] == log[j];
      assert StandsFrom(log, i, r) && longer[|log|] == e;
    } else if r :| 0 <= r < |log| && StandsFrom(log, i, r) {
      assert !StandsFrom(longer, i, r);
    }
  }

  lemma DenialLogs(tools: Tools, m: Machine, id: nat, env: Env)
    requires id < |m.approvals| && m.approvals[id].pending
    ensures TakeAll(m, Resume(tools, m, id, false, env).0).log == m.log + [ApprovalDenied(id)]
  {
    var a, b := ResolveApproval(id), AppendEvent(ApprovalDenied(id));
    TakeConcat(m, [a], [b]);
    assert [a] + [b] == [a, b];
    TakeOne(m, a);
    TakeOne(Take(m, a), b);
  }

  /** A denial, of whichever approval, leaves the orphan open: the next reconciliation looks at it again. */
  lemma DenialReopens(tools: Tools, m: Machine, id: nat, env: Env, i: nat)
    requires id < |m.approvals| && m.approvals[id].pending && LatestOrphan(m.log) == Some(i)
    ensures IsOpenOrphan(TakeAll(m, Resume(tools, m, id, false, env).0), i)
  {
    DenialLogs(tools, m, id, env);
    PendingFromAskingToDecision(m.log, ApprovalDenied(id), i);
    OrphanSnoc(m.log, ApprovalDenied(id));
  }

  // ---- how often a tool is started ----

  function Starts(log: Log, name: string): nat {
    if log == [] then 0
    else Starts(log[..|log| - 1], name) + Started(log[|log| - 1], name)
  }

  function Started(e: Event, name: string): nat {
    if e.Intended? && e.call.tool == name then 1 else 0
  }

  /** The approvals still to be decided that would start it. */
  function Waiting(approvals: seq<Approval>, name: string): nat {
    if approvals == [] then 0
    else Waiting(approvals[..|approvals| - 1], name) + WaitsFor(approvals[|approvals| - 1], name)
  }

  function WaitsFor(a: Approval, name: string): nat {
    if a.pending && a.call.tool == name then 1 else 0
  }

  /** The starts there have been, and those that a decision may still cause. */
  function Committed(m: Machine, name: string): nat {
    Starts(m.log, name) + Waiting(m.approvals, name)
  }

  /** How many of the steps start the tool or ask for its start. */
  function Opens(steps: seq<Step>, name: string): nat {
    if steps == [] then 0 else OpensOne(steps[0], name) + Opens(steps[1..], name)
  }

  function OpensOne(step: Step, name: string): nat {
    match step
    case AppendEvent(e) => Started(e, name)
    case AskApproval(call) => if call.tool == name then 1 else 0
    case _ => 0
  }

  lemma StartsSnoc(log: Log, e: Event, name: string)
    ensures Starts(log + [e], name) == Starts(log, name) + Started(e, name)
  {
    assert (log + [e])[..|log|] == log;
  }

  lemma WaitingSnoc(approvals: seq<Approval>, a: Approval, name: string)
    ensures Waiting(approvals + [a], name) == Waiting(approvals, name) + WaitsFor(a, name)
  {
    assert (approvals + [a])[..|approvals|] == approvals;
  }

  /** Deciding an approval takes it from those that wait. */
  lemma {:induction false} WaitingResolved(approvals: seq<Approval>, id: nat, name: string)
    requires id < |approvals|
    ensures
      var decided := approvals[id := approvals[id].(pending := false)];
      Waiting(decided, name) + WaitsFor(approvals[id], name) == Waiting(approvals, name)
    decreases |approvals|
  {
    var n := |approvals| - 1;
    var decided := approvals[id := approvals[id].(pending := false)];
    if id == n {
      assert decided[..n] == approvals[..n];
    } else {
      WaitingResolved(approvals[..n], id, name);
      assert decided[..n] == approvals[..n][id := approvals[..n][id].(pending := false)];
    }
  }

  lemma TakeCommits(m: Machine, step: Step, name: string)
    ensures Committed(Take(m, step), name) <= Committed(m, name) + OpensOne(step, name)
  {
    match step
    case AppendEvent(e) => StartsSnoc(m.log, e, name);
    case AskApproval(call) => WaitingSnoc(m.approvals, Approval(call, true), name);
    case ResolveApproval(id) => if id < |m.approvals| { WaitingResolved(m.approvals, id, name); }
    case OnDisk(_) =>
  }

  lemma {:induction false} TakeAllCommits(m: Machine, steps: seq<Step>, name: string)
    ensures Committed(TakeAll(m, steps), name) <= Committed(m, name) + Opens(steps, name)
    decreases |steps|
  {
    if steps != [] {
      TakeCommits(m, steps[0], name);
      TakeAllCommits(Take(m, steps[0]), steps[1..], name);
    }
  }

  lemma {:induction false} OpensConcat(a: seq<Step>, b: seq<Step>, name: string)
    ensures Opens(a + b, name) == Opens(a, name) + Opens(b, name)
    decreases |a|
  {
    if a == [] {
      NothingAround(b);
    } else {
      TailOfConcat(a, b);
      OpensConcat(a[1..], b, name);
    }
  }

  lemma OpensPrefix(steps: seq<Step>, n: nat, name: string)
    requires n <= |steps|
    ensures Opens(steps[..n], name) <= Opens(steps, name)
  {
    PrefixSplits(steps, n);
    OpensConcat(steps[..n], steps[n..], name);
  }

  lemma {:induction false} OpensNothing(steps: seq<Step>, name: string)
    requires forall k :: 0 <= k < |steps| ==> OpensOne(steps[k], name) == 0
    ensures Opens(steps, name) == 0
  {
    if steps != [] { OpensNothing(steps[1..], name); }
  }

  lemma RunToolOpens(tool: Tool, m: Machine, call: Call, max: nat, oracle: nat -> nat, name: string)
    ensures Opens(RunTool(tool, m, call, max, oracle).0, name) == if call.tool == name then 1 else 0
  {
    var (actions, status) := Attempts(tool, m.world, call, 1, max, oracle);
    var intending := [AppendEvent(Intended(call))];
    OpensConcat(intending + OnDiskAll(actions), Ending(|m.log|, status), name);
    OpensConcat(intending, OnDiskAll(actions), name);
    DiskStepsOnly(actions);
    OpensNothing(OnDiskAll(actions), name);
    OpensNothing(Ending(|m.log|, status), name);
    assert intending[1..] == [];
  }

  /** Before it starts, an execution that is not let through asks at most once, and one that is asks nothing. */
  lemma AdmitOpens(call: Call, resumed: bool, gate: Gate, name: string)
    ensures Opens(Admit(call, resumed, gate).0, name) <= if call.tool == name then 1 else 0
    ensures Admit(call, resumed, gate).1.None? || resumed ==> Opens(Admit(call, resumed, gate).0, name) == 0
  {
    var steps := Admit(call, resumed, gate).0;
    if !resumed && gate.inputValid && gate.decision == NeedApproval {
      OpensConcat([AppendEvent(SafetyDecided)], [AskApproval(call)], name);
      assert [AppendEvent(SafetyDecided)][1..] == [] && [AskApproval(call)][1..] == [];
    } else {
      OpensNothing(steps, name);
    }
  }

  lemma AdmittedOpens(
      tool: Tool, m: Machine, admitting: seq<Step>, call: Call, max: nat, oracle: nat -> nat, name: string)
    requires Opens(admitting, name) == 0
    ensures Opens(admitting + RunTool(tool, TakeAll(m, admitting), call, max, oracle).0, name)
            == if call.tool == name then 1 else 0
  {
    RunToolOpens(tool, TakeAll(m, admitting), call, max, oracle, name);
    OpensConcat(admitting, RunTool(tool, TakeAll(m, admitting), call, max, oracle).0, name);
  }

  lemma ExecuteOpens(tools: Tools, m: Machine, request: Request, resumed: bool, env: Env, name: string)
    ensures Opens(Execute(tools, m, request, resumed, env).0, name) <= if request.call.tool == name then 1 else 0
  {
    if request.call.tool in tools {
      var call := Keyed(tools, request.call, env);
      AdmitOpens(call, resumed, env.gate, name);
      if Admit(call, resumed, env.gate).1.None? {
        AdmittedOpens(tools[call.tool], m, Admit(call, resumed, env.gate).0, call, request.retry + 1, env.oracle, name);
      }
    }
  }

  /** A reconciliation opens nothing for a tool whose effect cannot be repeated safely and cannot be asked about. */
  lemma ReconcileOpensNothing(tools: Tools, m: Machine, env: Env, name: string)
    requires name in tools && IsUnanswerable(tools[name])
    ensures Opens(Reconcile(tools, m, env).0, name) == 0
  {
    var orphan := LatestOrphan(m.log);
    if orphan.Some? && IsOpenOrphan(m, orphan.value) {
      var i := orphan.value;
      var call := m.log[i].call;
      if call.tool !in tools || call.tool == name {
        if call.tool in tools { UnanswerableOrphanIsBlocked(tools, m, env, i); }
        OpensNothing(Reconcile(tools, m, env).0, name);
      } else {
        var starting := AppendEvent(ReconciliationStarted(i));
        OtherOrphanOpensNothing(tools, Take(m, starting), i, call, env, name);
        TakeOne(m, starting);
        OpensConcat([starting], ReconcileOrphan(tools, Take(m, starting), tools[call.tool], i, call, env).0, name);
        assert [starting][1..] == [];
      }
    }
  }

  lemma OtherOrphanOpensNothing(tools: Tools, m: Machine, i: nat, call: Call, env: Env, name: string)
    requires call.tool in tools && call.tool != name
    ensures Opens(ReconcileOrphan(tools, m, tools[call.tool], i, call, env).0, name) == 0
  {
    var tool := tools[call.tool];
    var (querying, applied) := Query(tool, m.world, call.key);
    DiskStepsOnly(querying);
    OpensNothing(OnDiskAll(querying), name);
    if applied {
      var ending := [AppendEvent(ToolResult(i, Completed, true)), AppendEvent(ReconciliationSynthesized(i))];
      OpensConcat(OnDiskAll(querying), ending, name);
      OpensNothing(ending, name);
    } else if Risky(tool) && !tool.supportsStatusQuery {
      OpensConcat(OnDiskAll(querying), [AppendEvent(ReconciliationBlocked(i))], name);
      OpensNothing([AppendEvent(ReconciliationBlocked(i))], name);
    } else {
      var m1 := TakeAll(m, OnDiskAll(querying));
      OtherReexecutionOpensNothing(tools, m1, tool, i, call, env, name);
      OpensConcat(OnDiskAll(querying), Reexecute(tools, m1, tool, i, call, env).0, name);
    }
  }

  lemma OtherReexecutionOpensNothing(tools: Tools, m: Machine, tool: Tool, i: nat, call: Call, env: Env, name: string)
    requires call.tool != name
    ensures Opens(Reexecute(tools, m, tool, i, call, env).0, name) == 0
  {
    var marking := [AppendEvent(ReconciliationReexecute(i))];
    var (executing, outcome) := Execute(tools, TakeAll(m, marking), Request(call, 0), false, env);
    ExecuteOpens(tools, TakeAll(m, marking), Request(call, 0), false, env, name);
    OpensNothing(marking, name);
    OpensNothing(Reapproval(tool, i, outcome), name);
    OpensConcat(marking, executing, name);
    OpensConcat(marking + executing, Reapproval(tool, i, outcome), name);
  }

  lemma ResumeCommits(tools: Tools, m: Machine, id: nat, approved: bool, env: Env, keep: nat, name: string)
    ensures Committed(TakeAll(m, Kept(Resume(tools, m, id, approved, env).0, keep)), name) <= Committed(m, name)
  {
    var steps := Resume(tools, m, id, approved, env).0;
    var kept := Kept(steps, keep);
    if kept != [] {
      var rest := kept[1..];
      assert kept[0] == ResolveApproval(id);
      ResumeOpens(tools, m, id, approved, env, name);
      assert rest == steps[1..][..|rest|];
      OpensPrefix(steps[1..], |rest|, name);
      WaitingResolved(m.approvals, id, name);
      TakeAllCommits(Take(m, ResolveApproval(id)), rest, name);
    }
  }

  /** After the approval is resolved, its execution opens at most what the approval was waiting for. */
  lemma ResumeOpens(tools: Tools, m: Machine, id: nat, approved: bool, env: Env, name: string)
    requires id < |m.approvals| && m.approvals[id].pending
    ensures Opens(Resume(tools, m, id, approved, env).0[1..], name) <= WaitsFor(m.approvals[id], name)
  {
    var steps := Resume(tools, m, id, approved, env).0;
    if approved {
      var granting := [ResolveApproval(id), AppendEvent(ApprovalGranted(id))];
      var executing := Execute(tools, TakeAll(m, granting), Request(m.approvals[id].call, 0), true, env).0;
      ExecuteOpens(tools, TakeAll(m, granting), Request(m.approvals[id].call, 0), true, env, name);
      TailOfConcat(granting, executing);
      assert granting[1..] == [AppendEvent(ApprovalGranted(id))];
      OpensConcat([AppendEvent(ApprovalGranted(id))], executing, name);
      OpensNothing([AppendEvent(ApprovalGranted(id))], name);
    } else {
      OpensNothing(steps[1..], name);
    }
  }

  /** How many rounds request an execution of the tool. */
  function Requests(rounds: seq<Round>, name: string): nat {
    if rounds == [] then 0 else RequestsOne(rounds[0], name) + Requests(rounds[1..], name)
  }

  function RequestsOne(round: Round, name: string): nat {
    if round.ExecuteRound? && round.request.call.tool == name then 1 else 0
  }

  lemma RoundCommits(tools: Tools, m: Machine, round: Round, name: string)
    requires name in tools && IsUnanswerable(tools[name])
    ensures Committed(TakeAll(m, Kept(Steps(tools, m, round), round.keep)), name) <= Committed(m, name) + RequestsOne(round, name)
  {
    var steps := Steps(tools, m, round);
    var kept := Kept(steps, round.keep);
    match round {
      case ResumeRound(id, approved, env, keep) => ResumeCommits(tools, m, id, approved, env, keep, name);
      case ExecuteRound(request, env, _) =>
        ExecuteOpens(tools, m, request, false, env, name);
        OpensPrefix(steps, |kept|, name);
        assert kept == steps[..|kept|];
        TakeAllCommits(m, kept, name);
      case ReconcileRound(env, _) =>
        ReconcileOpensNothing(tools, m, env, name);
        OpensPrefix(steps, |kept|, name);
        assert kept == steps[..|kept|];
        TakeAllCommits(m, kept, name);
    }
  }

  /** At most once per request: over every run of executions, decisions and reconciliations, each cut anywhere, a tool
      whose effect cannot be repeated safely and cannot be asked about is started at most as often as it was requested,
      counting what was started or waited for a decision before. */
  lemma {:induction false} StartsAtMostOncePerRequest(tools: Tools, m: Machine, rounds: seq<Round>, name: string)
    requires name in tools && IsUnanswerable(tools[name])
    ensures Starts(Run(tools, m, rounds).log, name) <= Committed(m, name) + Requests(rounds, name)
    ensures Committed(Run(tools, m, rounds), name) <= Committed(m, name) + Requests(rounds, name)
    decreases |rounds|
  {
    if rounds != [] {
      RoundCommits(tools, m, rounds[0], name);
      StartsAtMostOncePerRequest(tools, TakeAll(m, Kept(Steps(tools, m, rounds[0]), rounds[0].keep)), rounds[1..], name);
    }
  }

  /** In every run, a reconciliation of such an orphan, cut anywhere, leaves the disk and the approvals as they are and
      starts nothing. */
  lemma UnanswerableIsNeverRepeated(tools: Tools, m: Machine, rounds: seq<Round>, env: Env, keep: nat, i: nat)
    requires
      var m' := Run(tools, m, rounds);
      LatestOrphan(m'.log) == Some(i) && m'.log[i].call.tool in tools && IsUnanswerable(tools[m'.log[i].call.tool])
    ensures
      var m' := Run(tools, m, rounds);
      var after := TakeAll(m', Kept(Reconcile(tools, m', env).0, keep));
      && after.world == m'.world && after.approvals == m'.approvals && LatestOrphan(after.log) == Some(i)
      && forall name :: Starts(after.log, name) == Starts(m'.log, name)
  {
    var m' := Run(tools, m, rounds);
    if PendingReapproval(m'.log, i) {
      assert Kept(Reconcile(tools, m', env).0, keep) == [];
    } else {
      var a, b := AppendEvent(ReconciliationStarted(i)), AppendEvent(ReconciliationBlocked(i));
      var m1 := Take(m', a);
      UnanswerableOrphanIsBlocked(tools, m', env, i);
      OrphanSnoc(m'.log, ReconciliationStarted(i));
      OrphanSnoc(m1.log, ReconciliationBlocked(i));
      forall name ensures Starts(m1.log, name) == Starts(m'.log, name) && Starts(Take(m1, b).log, name) == Starts(m'.log, name) {
        StartsSnoc(m'.log, ReconciliationStarted(i), name);
        StartsSnoc(m1.log, ReconciliationBlocked(i), name);
      }
      var kept := Kept([a, b], keep);
      assert kept == [] || kept == [a] || kept == [a, b];
      TakeOne(m', a);
      TakeConcat(m', [a], [b]);
      TakeOne(m1, b);
      assert [a] + [b] == [a, b];
    }
  }
}
