/** What holds in every run of executions, approvals and reconciliations of one task, with the daemon
    dying between any two durable actions. */
module ToolRuntimeSafety {
  import opened Common
  import opened Disk
  import opened ToolRuntime
  import opened Apart
  import opened Effects
  import A = AppendOnce
  import T = TransferOnce
  import FsToolService
  import IdempotencyStore

  /** An operation of which the first `keep` steps survive (all of them if `keep` is large enough). */
  datatype Round =
    | ExecuteRound(request: Request, env: Env, keep: nat)
    | ResumeRound(id: nat, approved: bool, env: Env, keep: nat)
    | ReconcileRound(env: Env, keep: nat)

  function Steps(tools: Tools, m: Machine, round: Round): seq<Step> {
    match round
    case ExecuteRound(request, env, _) => Execute(tools, m, request, false, env).0
    case ResumeRound(id, approved, env, _) => Resume(tools, m, id, approved, env).0
    case ReconcileRound(env, _) => Reconcile(tools, m, env).0
  }

  function Kept(steps: seq<Step>, keep: nat): seq<Step> {
    if keep < |steps| then steps[..keep] else steps
  }

  function Run(tools: Tools, m: Machine, rounds: seq<Round>): Machine
    decreases |rounds|
  {
    if rounds == [] then m
    else Run(tools, TakeAll(m, Kept(Steps(tools, m, rounds[0]), rounds[0].keep)), rounds[1..])
  }

  // ---- the invariants ----

  /** Every result names an earlier intent, no intent has two results, and a reapproval names an
      earlier event. */
  ghost predicate Paired(log: Log) {
    && (forall j :: 0 <= j < |log| && log[j].ToolResult? ==> log[j].intended < j && log[log[j].intended].Intended?)
    && (forall j, k :: 0 <= j < k < |log| && log[j].ToolResult? && log[k].ToolResult? ==> log[j].intended != log[k].intended)
    && (forall j :: 0 <= j < |log| && log[j].ReapprovalRequired? ==> log[j].intended < j)
  }

  /** Whatever the tool does for the input under another key, cut anywhere, leaves the place alone. */
  ghost predicate RunsKeepOut(tool: Tool, input: Input, x: Place) {
    forall w: World, key: Option<Key>, oracle: nat :: IdempotencyStore.Sound(w.store) && key != Some(x.key) ==>
      KeepOut(w, tool.execute(w, key, input, oracle).0, x)
  }

  ghost predicate QueriesKeepOut(tool: Tool, x: Place) {
    tool.statusQuery.Some? ==>
      forall w: World, key: Key :: IdempotencyStore.Sound(w.store) && key != x.key ==> KeepOut(w, tool.statusQuery.value(w, key).0, x)
  }

  /** Any other call of any other tool that leaves the effect's key and files alone. */
  ghost predicate Friendly(tools: Tools, x: Effect, call: Call) {
    && call.key != Some(x.Where().key)
    && (call.tool in tools ==>
          RunsKeepOut(tools[call.tool], call.input, x.Where()) && QueriesKeepOut(tools[call.tool], x.Where()))
  }

  ghost predicate OwnOrFriendly(tools: Tools, x: Effect, call: Call) {
    call == CallOf(x) || Friendly(tools, x, call)
  }

  /** A completed result for an intent of the effect's call. */
  predicate Reports(x: Effect, log: Log, j: nat) {
    && j < |log| && log[j].ToolResult? && log[j].status == Completed
    && log[j].intended < j && log[log[j].intended] == Intended(CallOf(x))
  }

  ghost predicate Reported(x: Effect, log: Log) {
    exists j: nat :: Reports(x, log, j)
  }

  /** The calls that a reconciliation or an approval may still make: that of the orphan, and those waiting for a decision. */
  ghost predicate OpenCalls(m: Machine, fits: Call -> bool) {
    && (LatestOrphan(m.log).Some? ==> fits(m.log[LatestOrphan(m.log).value].call))
    && (forall i :: 0 <= i < |m.approvals| && m.approvals[i].pending ==> fits(m.approvals[i].call))
  }

  ghost predicate Once(x: Effect, tools: Tools, m: Machine) {
    && Between(m.world, x)
    && OpenCalls(m, call => OwnOrFriendly(tools, x, call))
    && (Reported(x, m.log) ==> Settled(m.world, x))
  }

  ghost predicate Unanswered(log: Log, i: nat) {
    i < |log| && log[i].Intended? && forall j :: 0 <= j < |log| ==> !ResultOf(log[j], i)
  }

  /** An unanswered intent with a later one behind it. */
  ghost predicate IsHidden(log: Log, i: nat) {
    Unanswered(log, i) && exists j :: i < j < |log| && log[j].Intended?
  }

  datatype Invariant = Pairing | ExactlyOnce(x: Effect, tools: Tools) | Hidden(i: nat)

  ghost predicate Holds(inv: Invariant, m: Machine) {
    match inv
    case Pairing => Paired(m.log)
    case ExactlyOnce(x, tools) => Once(x, tools, m)
    case Hidden(i) => IsHidden(m.log, i)
  }

  /** The invariant holds wherever a crash cuts the steps. */
  ghost predicate Always(inv: Invariant, m: Machine, steps: seq<Step>) {
    forall n :: 0 <= n <= |steps| ==> HoldsAfter(inv, m, steps, n)
  }

  ghost predicate HoldsAfter(inv: Invariant, m: Machine, steps: seq<Step>, n: nat)
    requires n <= |steps|
  {
    Holds(inv, TakeAll(m, steps[..n]))
  }

  lemma AlwaysConcat(inv: Invariant, m: Machine, a: seq<Step>, b: seq<Step>)
    requires Always(inv, m, a) && Always(inv, TakeAll(m, a), b)
    ensures Always(inv, m, a + b)
  {
    forall n | 0 <= n <= |a + b| ensures HoldsAfter(inv, m, a + b, n) {
      if n <= |a| {
        PrefixWithin(a, b, n);
        assert HoldsAfter(inv, m, a, n);
      } else {
        HoldsBeyond(inv, m, a, b, n);
      }
    }
  }

  lemma HoldsBeyond(inv: Invariant, m: Machine, a: seq<Step>, b: seq<Step>, n: nat)
    requires |a| < n <= |a + b| && Always(inv, TakeAll(m, a), b)
    ensures HoldsAfter(inv, m, a + b, n)
  {
    PrefixBeyond(a, b, n);
    TakeConcat(m, a, b[..n - |a|]);
    assert HoldsAfter(inv, TakeAll(m, a), b, n - |a|);
  }

  lemma AlwaysEnd(inv: Invariant, m: Machine, steps: seq<Step>)
    requires Always(inv, m, steps)
    ensures Holds(inv, m) && Holds(inv, TakeAll(m, steps))
  {
    assert HoldsAfter(inv, m, steps, 0) && HoldsAfter(inv, m, steps, |steps|);
    assert steps[..0] == [] && steps[..|steps|] == steps;
  }

  lemma AlwaysNone(inv: Invariant, m: Machine)
    requires Holds(inv, m)
    ensures Always(inv, m, [])
  {
    forall n | 0 <= n <= 0 ensures HoldsAfter(inv, m, [], n) {
      var none: seq<Step> := [];
      assert none[..n] == [];
    }
  }

  lemma AlwaysOne(inv: Invariant, m: Machine, step: Step)
    requires Holds(inv, m) && Holds(inv, Take(m, step))
    ensures Always(inv, m, [step])
  {
    TakeOne(m, step);
    forall n | 0 <= n <= 1 ensures HoldsAfter(inv, m, [step], n) {
      if n == 0 { assert [step][..0] == []; } else { assert [step][..1] == [step]; }
    }
  }

  // ---- steps that cannot break an invariant ----

  ghost predicate Harmless(inv: Invariant, step: Step) {
    match inv
    case Pairing => !(step.AppendEvent? && (step.event.ToolResult? || step.event.ReapprovalRequired?))
    case Hidden(_) => !(step.AppendEvent? && step.event.ToolResult?)
    case ExactlyOnce(x, tools) =>
      match step
      case AppendEvent(e) => !e.ToolResult? && (e.Intended? ==> OwnOrFriendly(tools, x, e.call))
      case AskApproval(call) => OwnOrFriendly(tools, x, call)
      case ResolveApproval(_) => true
      case OnDisk(_) => false
  }

  lemma HarmlessKeeps(inv: Invariant, m: Machine, step: Step)
    requires Holds(inv, m) && Harmless(inv, step)
    ensures Holds(inv, Take(m, step))
  {
    match inv
    case Pairing => HarmlessKeepsPairing(m, step);
    case Hidden(i) => HarmlessKeepsHidden(i, m, step);
    case ExactlyOnce(_, _) => HarmlessKeepsOnce(inv, m, step);
  }

  lemma HarmlessKeepsPairing(m: Machine, step: Step)
    requires Paired(m.log) && Harmless(Pairing, step)
    ensures Paired(Take(m, step).log)
  {
  }

  lemma HarmlessKeepsOnce(inv: Invariant, m: Machine, step: Step)
    requires inv.ExactlyOnce? && Holds(inv, m) && Harmless(inv, step)
    ensures Holds(inv, Take(m, step))
  {
    if step.AppendEvent? {
      NewEventReports(inv.x, m.log, step.event);
      OrphanSnoc(m.log, step.event);
    }
  }

  lemma HarmlessKeepsHidden(i: nat, m: Machine, step: Step)
    requires IsHidden(m.log, i) && Harmless(Hidden(i), step)
    ensures IsHidden(Take(m, step).log, i)
  {
    var j :| i < j < |m.log| && m.log[j].Intended?;
    if step.AppendEvent? {
      assert (m.log + [step.event])[j] == m.log[j];
    }
  }

  /** One more event opens its own intent, closes the orphan by a result, or changes nothing. */
  lemma OrphanSnoc(log: Log, e: Event)
    ensures LatestOrphan(log + [e]) ==
            if e.Intended? then Some(|log|)
            else if LatestOrphan(log).Some? && ResultOf(e, LatestOrphan(log).value) then None
            else LatestOrphan(log)
  {
    var longer := log + [e];
    assert longer[..|log|] == log;
    var last := LastIntended(log);
    if !e.Intended? && last.Some? {
      assert LastIntended(longer) == last;
      assert HasResultAfter(longer, last.value) <==> HasResultAfter(log, last.value) || ResultOf(e, last.value) by {
        if HasResultAfter(log, last.value) {
          var j :| last.value < j < |log| && ResultOf(log[j], last.value);
          assert ResultOf(longer[j], last.value);
        }
        if ResultOf(e, last.value) { assert ResultOf(longer[|log|], last.value); }
      }
    }
  }

  /** An event reports the effect if it is a completed result for one of its intents. */
  lemma NewEventReports(x: Effect, log: Log, e: Event)
    ensures Reported(x, log + [e]) ==> Reported(x, log) || Reports(x, log + [e], |log|)
  {
    if Reported(x, log + [e]) {
      var j: nat :| Reports(x, log + [e], j);
      if j < |log| { assert Reports(x, log, j); }
    }
  }

  ghost predicate AllHarmless(inv: Invariant, steps: seq<Step>) {
    forall k :: 0 <= k < |steps| ==> Harmless(inv, steps[k])
  }

  lemma {:induction false} AlwaysHarmless(inv: Invariant, m: Machine, steps: seq<Step>)
    requires Holds(inv, m) && AllHarmless(inv, steps)
    ensures Always(inv, m, steps) && Holds(inv, TakeAll(m, steps))
    decreases |steps|
  {
    if steps == [] {
      AlwaysNone(inv, m);
    } else {
      HarmlessKeeps(inv, m, steps[0]);
      HarmlessRest(inv, steps);
      AlwaysHarmless(inv, Take(m, steps[0]), steps[1..]);
      AlwaysCons(inv, m, steps[0], steps[1..]);
      assert [steps[0]] + steps[1..] == steps;
      AlwaysEnd(inv, m, steps);
    }
  }

  lemma HarmlessRest(inv: Invariant, steps: seq<Step>)
    requires steps != [] && AllHarmless(inv, steps)
    ensures AllHarmless(inv, steps[1..])
  {
  }

  lemma AlwaysCons(inv: Invariant, m: Machine, step: Step, rest: seq<Step>)
    requires Holds(inv, m) && Always(inv, Take(m, step), rest)
    ensures Always(inv, m, [step] + rest)
  {
    AlwaysEnd(inv, Take(m, step), rest);
    AlwaysOne(inv, m, step);
    TakeOne(m, step);
    AlwaysConcat(inv, m, [step], rest);
  }

  lemma {:induction false} DiskStepsOnly(actions: seq<Action>)
    ensures forall k :: 0 <= k < |actions| ==> OnDiskAll(actions)[k] == OnDisk(actions[k])
  {
    if actions != [] {
      DiskStepsOnly(actions[1..]);
    }
  }

  lemma OnDiskPrefix(actions: seq<Action>, n: nat)
    requires n <= |actions|
    ensures OnDiskAll(actions)[..n] == OnDiskAll(actions[..n])
  {
    JoinActions(actions[..n], actions[n..]);
    assert actions[..n] + actions[n..] == actions;
  }

  // ---- every operation, for each invariant ----

  /** What the invariants ask of the tools, and of the calls that are made. */
  ghost predicate Fits(inv: Invariant, tools: Tools) {
    inv.ExactlyOnce? ==> tools == inv.tools && Registered(tools, inv.x.Where().tool)
  }

  ghost predicate Allowed(inv: Invariant, call: Call) {
    inv.ExactlyOnce? ==> OwnOrFriendly(inv.tools, inv.x, call)
  }

  ghost predicate Runs(inv: Invariant, tool: Tool, call: Call) {
    inv.ExactlyOnce? ==>
      var place := inv.x.Where();
      (call == CallOf(inv.x) && tool == ToolFor(place.tool))
      || (call.key != Some(place.key) && RunsKeepOut(tool, call.input, place) && QueriesKeepOut(tool, place))
  }

  lemma AllowedRuns(inv: Invariant, tools: Tools, call: Call)
    requires Fits(inv, tools) && Allowed(inv, call) && call.tool in tools
    ensures Runs(inv, tools[call.tool], call)
  {
  }

  /** A completed result for the call may follow: for the effect's own, only once it is settled. */
  ghost predicate MayReport(inv: Invariant, m: Machine, call: Call) {
    inv.ExactlyOnce? && call == CallOf(inv.x) ==> Settled(m.world, inv.x)
  }

  ghost predicate WorldFits(inv: Invariant, w: World, w': World) {
    inv.ExactlyOnce? ==> Between(w', inv.x) && (Settled(w, inv.x) ==> Settled(w', inv.x))
  }

  /** Actions that leave the disk fit wherever they are cut. */
  lemma DiskKeeps(inv: Invariant, m: Machine, actions: seq<Action>)
    requires Holds(inv, m)
    requires forall n :: 0 <= n <= |actions| ==> WorldFits(inv, m.world, DoAll(m.world, actions[..n]))
    ensures Always(inv, m, OnDiskAll(actions)) && Holds(inv, TakeAll(m, OnDiskAll(actions)))
  {
    forall n | 0 <= n <= |OnDiskAll(actions)| ensures HoldsAfter(inv, m, OnDiskAll(actions), n) {
      OnDiskPrefix(actions, n);
      TakeActions(m, actions[..n]);
      assert WorldFits(inv, m.world, DoAll(m.world, actions[..n]));
    }
    AlwaysEnd(inv, m, OnDiskAll(actions));
  }

  /** The actions of a call that keeps out. */
  lemma OthersKeep(inv: Invariant, m: Machine, actions: seq<Action>)
    requires Holds(inv, m) && (inv.ExactlyOnce? ==> KeepOut(m.world, actions, inv.x.Where()))
    ensures Always(inv, m, OnDiskAll(actions)) && Holds(inv, TakeAll(m, OnDiskAll(actions)))
  {
    if inv.ExactlyOnce? {
      forall n | 0 <= n <= |actions| ensures WorldFits(inv, m.world, DoAll(m.world, actions[..n])) {
        UndisturbedKeeps(m.world, DoAll(m.world, actions[..n]), inv.x);
      }
    }
    DiskKeeps(inv, m, actions);
  }

  /** The effect's own execution. */
  lemma OwnKeeps(inv: Invariant, m: Machine, oracle: nat)
    requires inv.ExactlyOnce? && Holds(inv, m)
    ensures
      var (actions, outcome) := Running(m.world, inv.x, oracle);
      var m' := TakeAll(m, OnDiskAll(actions));
      Always(inv, m, OnDiskAll(actions)) && Holds(inv, m') && (outcome == Returned ==> Settled(m'.world, inv.x))
  {
    var actions := Running(m.world, inv.x, oracle).0;
    forall n | 0 <= n <= |actions| ensures WorldFits(inv, m.world, DoAll(m.world, actions[..n])) {
      OwnRunKeeps(m.world, inv.x, oracle, n);
    }
    OwnRunKeeps(m.world, inv.x, oracle, |actions|);
    PrefixOfAll(actions);
    TakeActions(m, actions);
    DiskKeeps(inv, m, actions);
  }

  lemma PrefixOfAll(actions: seq<Action>)
    ensures actions[..|actions|] == actions
  {
  }

  /** The effect's own status query. */
  lemma OwnQuery(inv: Invariant, m: Machine)
    requires inv.ExactlyOnce? && Holds(inv, m)
    ensures
      var (actions, applied) := FsQuery(inv.x.Where().tool, m.world, inv.x.Where().key);
      var m' := TakeAll(m, OnDiskAll(actions));
      Always(inv, m, OnDiskAll(actions)) && Holds(inv, m') && (applied ==> Settled(m'.world, inv.x))
  {
    var actions := FsQuery(inv.x.Where().tool, m.world, inv.x.Where().key).0;
    forall n | 0 <= n <= |actions| ensures WorldFits(inv, m.world, DoAll(m.world, actions[..n])) {
      OwnQueryKeeps(m.world, inv.x, n);
    }
    OwnQueryKeeps(m.world, inv.x, |actions|);
    PrefixOfAll(actions);
    TakeActions(m, actions);
    DiskKeeps(inv, m, actions);
  }

  lemma OneAttempt(inv: Invariant, tool: Tool, m: Machine, call: Call, oracle: nat)
    requires Holds(inv, m) && Runs(inv, tool, call)
    ensures
      var (actions, outcome) := tool.execute(m.world, call.key, call.input, oracle);
      var m' := TakeAll(m, OnDiskAll(actions));
      Always(inv, m, OnDiskAll(actions)) && Holds(inv, m') && (outcome == Returned ==> MayReport(inv, m', call))
  {
    var actions := tool.execute(m.world, call.key, call.input, oracle).0;
    if inv.ExactlyOnce? && call == CallOf(inv.x) {
      assert call.key == Some(inv.x.Where().key);
      ToolRuns(m.world, inv.x, oracle);
      OwnKeeps(inv, m, oracle);
    } else {
      OthersKeep(inv, m, actions);
    }
  }

  lemma {:induction false} AttemptsKeep(inv: Invariant, tool: Tool, m: Machine, call: Call, attempt: nat, max: nat, oracle: nat -> nat)
    requires Holds(inv, m) && Runs(inv, tool, call)
    ensures
      var (actions, status) := Attempts(tool, m.world, call, attempt, max, oracle);
      var m' := TakeAll(m, OnDiskAll(actions));
      Always(inv, m, OnDiskAll(actions)) && Holds(inv, m') && (status == Completed ==> MayReport(inv, m', call))
    decreases max - attempt
  {
    var (actions, outcome) := tool.execute(m.world, call.key, call.input, oracle(attempt));
    OneAttempt(inv, tool, m, call, oracle(attempt));
    if outcome.Raised? && ShouldRetry(outcome.code) && attempt < max {
      var m1 := TakeAll(m, OnDiskAll(actions));
      TakeActions(m, actions);
      AttemptsKeep(inv, tool, m1, call, attempt + 1, max, oracle);
      var more := Attempts(tool, m1.world, call, attempt + 1, max, oracle).0;
      AlwaysConcat(inv, m, OnDiskAll(actions), OnDiskAll(more));
      JoinActions(actions, more);
      TakeConcat(m, OnDiskAll(actions), OnDiskAll(more));
    }
  }

  // ---- a result after its intent ----

  ghost predicate MayAnswer(inv: Invariant, m: Machine, i: nat, status: ExecutionStatus) {
    && Unanswered(m.log, i) && (status == Completed ==> MayReport(inv, m, m.log[i].call))
    && (inv.Hidden? ==> i != inv.i)
  }

  lemma ResultKeeps(inv: Invariant, m: Machine, i: nat, status: ExecutionStatus, synthesized: bool)
    requires Holds(inv, m) && MayAnswer(inv, m, i, status)
    ensures Holds(inv, Take(m, AppendEvent(ToolResult(i, status, synthesized))))
  {
    var e := ToolResult(i, status, synthesized);
    match inv
    case Pairing =>
    case ExactlyOnce(x, _) =>
      NewEventReports(x, m.log, e);
      OrphanSnoc(m.log, e);
    case Hidden(hidden) =>
      var j :| hidden < j < |m.log| && m.log[j].Intended?;
      assert (m.log + [e])[j] == m.log[j];
  }

  lemma DiskKeepsLog(m: Machine, actions: seq<Action>)
    ensures TakeAll(m, OnDiskAll(actions)).log == m.log && TakeAll(m, OnDiskAll(actions)).approvals == m.approvals
  {
    TakeActions(m, actions);
  }

  /** Results name earlier intents, so the intent at the end of the log has none yet. */
  lemma NewIntentIsUnanswered(m: Machine, call: Call)
    requires Paired(m.log)
    ensures Unanswered(m.log + [Intended(call)], |m.log|)
  {
  }

  lemma EndingKeeps(inv: Invariant, m: Machine, i: nat, status: ExecutionStatus)
    requires Holds(inv, m) && MayAnswer(inv, m, i, status)
    ensures Always(inv, m, Ending(i, status))
  {
    if Terminal(status) {
      var result := AppendEvent(ToolResult(i, status, false));
      ResultKeeps(inv, m, i, status, false);
      AlwaysOne(inv, m, result);
      TakeOne(m, result);
      AlwaysHarmless(inv, Take(m, result), [AppendEvent(LockReleased)]);
      AlwaysConcat(inv, m, [result], [AppendEvent(LockReleased)]);
      assert [result] + [AppendEvent(LockReleased)] == Ending(i, status);
    } else {
      AlwaysHarmless(inv, m, [AppendEvent(LockReleased)]);
    }
  }

  /** The other invariants need pairing while a tool runs; pairing alone keeps itself. */
  lemma RunToolKeeps(inv: Invariant, tool: Tool, m: Machine, call: Call, max: nat, oracle: nat -> nat)
    requires Holds(inv, m) && Paired(m.log) && Allowed(inv, call) && Runs(inv, tool, call)
    ensures Always(inv, m, RunTool(tool, m, call, max, oracle).0)
  {
    var (actions, status) := Attempts(tool, m.world, call, 1, max, oracle);
    var intending := AppendEvent(Intended(call));
    var m1 := Take(m, intending);
    AlwaysHarmless(inv, m, [intending]);
    TakeOne(m, intending);
    AttemptsKeep(inv, tool, m1, call, 1, max, oracle);
    var m2 := TakeAll(m1, OnDiskAll(actions));
    DiskKeepsLog(m1, actions);
    NewIntentIsUnanswered(m, call);
    EndingKeeps(inv, m2, |m.log|, status);
    AlwaysConcat(inv, m, [intending], OnDiskAll(actions));
    TakeConcat(m, [intending], OnDiskAll(actions));
    AlwaysConcat(inv, m, [intending] + OnDiskAll(actions), Ending(|m.log|, status));
  }

  lemma AdmitIsHarmless(inv: Invariant, call: Call, resumed: bool, gate: Gate)
    requires Allowed(inv, call)
    ensures
      var steps := Admit(call, resumed, gate).0;
      forall k :: 0 <= k < |steps| ==> Harmless(inv, steps[k]) && Harmless(Pairing, steps[k])
  {
  }

  /** A key that the runtime draws is not the effect's. */
  ghost predicate DrawsOther(inv: Invariant, env: Env) {
    inv.ExactlyOnce? ==> env.freshKey != inv.x.Where().key
  }

  /** The call with the key that the runtime gives it. */
  function Keyed(tools: Tools, call: Call, env: Env): Call
    requires call.tool in tools
  {
    call.(key := KeyFor(tools[call.tool].sideEffect, call.key, env.freshKey))
  }

  lemma KeyedIsAllowed(inv: Invariant, tools: Tools, call: Call, env: Env)
    requires Fits(inv, tools) && Allowed(inv, call) && call.tool in tools
    requires DrawsOther(inv, env) || call.key.Some?
    ensures Allowed(inv, Keyed(tools, call, env))
    ensures inv.ExactlyOnce? && call == CallOf(inv.x) ==> Keyed(tools, call, env) == call
  {
  }

  lemma ExecuteKeeps(inv: Invariant, tools: Tools, m: Machine, request: Request, resumed: bool, env: Env)
    requires Holds(inv, m) && Paired(m.log) && Fits(inv, tools) && Allowed(inv, request.call)
    requires DrawsOther(inv, env) || request.call.key.Some?
    ensures Always(inv, m, Execute(tools, m, request, resumed, env).0)
  {
    if request.call.tool !in tools {
      AlwaysNone(inv, m);
    } else {
      var call := Keyed(tools, request.call, env);
      KeyedIsAllowed(inv, tools, request.call, env);
      AllowedRuns(inv, tools, call);
      if Admit(call, resumed, env.gate).1.None? {
        AdmittedKeeps(inv, tools[request.call.tool], m, call, resumed, request.retry, env);
      } else {
        AdmitIsHarmless(inv, call, resumed, env.gate);
        AlwaysHarmless(inv, m, Admit(call, resumed, env.gate).0);
      }
    }
  }

  lemma AdmittedKeeps(inv: Invariant, tool: Tool, m: Machine, call: Call, resumed: bool, retry: nat, env: Env)
    requires Holds(inv, m) && Paired(m.log) && Allowed(inv, call) && Runs(inv, tool, call)
    ensures
      var admitting := Admit(call, resumed, env.gate).0;
      Always(inv, m, admitting + RunTool(tool, TakeAll(m, admitting), call, retry + 1, env.oracle).0)
  {
    var admitting := Admit(call, resumed, env.gate).0;
    AdmitIsHarmless(inv, call, resumed, env.gate);
    AlwaysHarmless(inv, m, admitting);
    AlwaysHarmless(Pairing, m, admitting);
    RunToolKeeps(inv, tool, TakeAll(m, admitting), call, retry + 1, env.oracle);
    AlwaysConcat(inv, m, admitting, RunTool(tool, TakeAll(m, admitting), call, retry + 1, env.oracle).0);
  }

  lemma ResumeKeeps(inv: Invariant, tools: Tools, m: Machine, id: nat, approved: bool, env: Env)
    requires Holds(inv, m) && Paired(m.log) && Fits(inv, tools) && DrawsOther(inv, env)
    ensures Always(inv, m, Resume(tools, m, id, approved, env).0)
  {
    if id >= |m.approvals| || !m.approvals[id].pending {
      AlwaysNone(inv, m);
    } else if !approved {
      AlwaysHarmless(inv, m, [ResolveApproval(id), AppendEvent(ApprovalDenied(id))]);
    } else {
      var granting := [ResolveApproval(id), AppendEvent(ApprovalGranted(id))];
      var call := m.approvals[id].call;
      AlwaysHarmless(inv, m, granting);
      AlwaysHarmless(Pairing, m, granting);
      var m1 := TakeAll(m, granting);
      ExecuteKeeps(inv, tools, m1, Request(call, 0), true, env);
      AlwaysConcat(inv, m, granting, Execute(tools, m1, Request(call, 0), true, env).0);
    }
  }

  // ---- reconciliation ----

  lemma OrphanIsUnanswered(log: Log)
    requires Paired(log) && LatestOrphan(log).Some?
    ensures Unanswered(log, LatestOrphan(log).value) && !IsHidden(log, LatestOrphan(log).value)
  {
  }

  lemma {:induction false} LogGrows(m: Machine, steps: seq<Step>)
    ensures |TakeAll(m, steps).log| >= |m.log|
    decreases |steps|
  {
    if steps != [] {
      LogGrows(Take(m, steps[0]), steps[1..]);
    }
  }

  lemma ReapprovalKeeps(inv: Invariant, m: Machine, tool: Tool, i: nat, outcome: Outcome)
    requires Holds(inv, m) && i < |m.log|
    ensures Always(inv, m, Reapproval(tool, i, outcome))
  {
    if Reapproval(tool, i, outcome) == [] {
      AlwaysNone(inv, m);
    } else {
      var asking := AppendEvent(ReapprovalRequired(i));
      if !inv.Pairing? { HarmlessKeeps(inv, m, asking); }
      AlwaysOne(inv, m, asking);
    }
  }

  lemma ReexecuteKeeps(inv: Invariant, tools: Tools, m: Machine, tool: Tool, i: nat, call: Call, env: Env)
    requires Holds(inv, m) && Paired(m.log) && i < |m.log|
    requires Fits(inv, tools) && Allowed(inv, call) && DrawsOther(inv, env)
    ensures Always(inv, m, Reexecute(tools, m, tool, i, call, env).0)
  {
    var marking := [AppendEvent(ReconciliationReexecute(i))];
    AlwaysHarmless(inv, m, marking);
    AlwaysHarmless(Pairing, m, marking);
    var m1 := TakeAll(m, marking);
    var (executing, outcome) := Execute(tools, m1, Request(call, 0), false, env);
    ExecuteKeeps(inv, tools, m1, Request(call, 0), false, env);
    AlwaysEnd(inv, m1, executing);
    LogGrows(m, marking);
    LogGrows(m1, executing);
    ReapprovalKeeps(inv, TakeAll(m1, executing), tool, i, outcome);
    AlwaysConcat(inv, m, marking, executing);
    TakeConcat(m, marking, executing);
    AlwaysConcat(inv, m, marking + executing, Reapproval(tool, i, outcome));
  }

  lemma QueryKeeps(inv: Invariant, m: Machine, tool: Tool, call: Call)
    requires Holds(inv, m) && Runs(inv, tool, call)
    ensures
      var (querying, applied) := Query(tool, m.world, call.key);
      var m' := TakeAll(m, OnDiskAll(querying));
      && Always(inv, m, OnDiskAll(querying)) && Holds(inv, m') && m'.log == m.log
      && (applied ==> MayReport(inv, m', call))
  {
    var querying := Query(tool, m.world, call.key).0;
    DiskKeepsLog(m, querying);
    if inv.ExactlyOnce? && call == CallOf(inv.x) {
      assert call.key == Some(inv.x.Where().key);
      ToolQueries(m.world, inv.x.Where().tool, inv.x.Where().key);
      OwnQuery(inv, m);
    } else if querying == [] {
      AlwaysNone(inv, m);
    } else {
      OthersKeep(inv, m, querying);
    }
  }

  lemma SynthesisKeeps(inv: Invariant, m: Machine, i: nat)
    requires Holds(inv, m) && MayAnswer(inv, m, i, Completed)
    ensures Always(inv, m, [AppendEvent(ToolResult(i, Completed, true)), AppendEvent(ReconciliationSynthesized(i))])
  {
    var result := AppendEvent(ToolResult(i, Completed, true));
    ResultKeeps(inv, m, i, Completed, true);
    AlwaysOne(inv, m, result);
    TakeOne(m, result);
    AlwaysHarmless(inv, Take(m, result), [AppendEvent(ReconciliationSynthesized(i))]);
    AlwaysConcat(inv, m, [result], [AppendEvent(ReconciliationSynthesized(i))]);
    assert [result] + [AppendEvent(ReconciliationSynthesized(i))] == [result, AppendEvent(ReconciliationSynthesized(i))];
  }

  lemma OrphanKeeps(inv: Invariant, tools: Tools, m: Machine, i: nat, env: Env)
    requires Holds(inv, m) && Paired(m.log) && Unanswered(m.log, i) && (inv.Hidden? ==> i != inv.i)
    requires m.log[i].call.tool in tools && Fits(inv, tools) && Allowed(inv, m.log[i].call) && DrawsOther(inv, env)
    ensures Always(inv, m, ReconcileOrphan(tools, m, tools[m.log[i].call.tool], i, m.log[i].call, env).0)
  {
    var call := m.log[i].call;
    var tool := tools[call.tool];
    var (querying, applied) := Query(tool, m.world, call.key);
    var asking := OnDiskAll(querying);
    AllowedRuns(inv, tools, call);
    QueryKeeps(inv, m, tool, call);
    var m1 := TakeAll(m, asking);
    if applied {
      SynthesisKeeps(inv, m1, i);
      AlwaysConcat(inv, m, asking, [AppendEvent(ToolResult(i, Completed, true)), AppendEvent(ReconciliationSynthesized(i))]);
    } else if Risky(tool) && !tool.supportsStatusQuery {
      AlwaysHarmless(inv, m1, [AppendEvent(ReconciliationBlocked(i))]);
      AlwaysConcat(inv, m, asking, [AppendEvent(ReconciliationBlocked(i))]);
    } else {
      ReexecuteKeeps(inv, tools, m1, tool, i, call, env);
      AlwaysConcat(inv, m, asking, Reexecute(tools, m1, tool, i, call, env).0);
    }
  }

  lemma ReconcileKeeps(inv: Invariant, tools: Tools, m: Machine, env: Env)
    requires Holds(inv, m) && Paired(m.log) && Fits(inv, tools) && DrawsOther(inv, env)
    ensures Always(inv, m, Reconcile(tools, m, env).0)
  {
    var orphan := LatestOrphan(m.log);
    if orphan.None? || PendingReapproval(m.log, orphan.value) {
      AlwaysNone(inv, m);
    } else {
      var i := orphan.value;
      var call := m.log[i].call;
      if call.tool !in tools {
        AlwaysHarmless(inv, m, [AppendEvent(ReconciliationBlocked(i))]);
      } else {
        OrphanIsUnanswered(m.log);
        StartedOrphanKeeps(inv, tools, m, i, env);
      }
    }
  }

  lemma StartedOrphanKeeps(inv: Invariant, tools: Tools, m: Machine, i: nat, env: Env)
    requires Holds(inv, m) && Paired(m.log) && Unanswered(m.log, i) && (inv.Hidden? ==> i != inv.i)
    requires m.log[i].call.tool in tools && Fits(inv, tools) && Allowed(inv, m.log[i].call) && DrawsOther(inv, env)
    ensures
      var starting := [AppendEvent(ReconciliationStarted(i))];
      var m1 := TakeAll(m, starting);
      Always(inv, m, starting + ReconcileOrphan(tools, m1, tools[m.log[i].call.tool], i, m.log[i].call, env).0)
  {
    var starting := [AppendEvent(ReconciliationStarted(i))];
    var call := m.log[i].call;
    AlwaysHarmless(inv, m, starting);
    AlwaysHarmless(Pairing, m, starting);
    TakeOne(m, starting[0]);
    var m1 := TakeAll(m, starting);
    assert m1.log == m.log + [ReconciliationStarted(i)];
    OrphanKeeps(inv, tools, m1, i, env);
    AlwaysConcat(inv, m, starting, ReconcileOrphan(tools, m1, tools[call.tool], i, call, env).0);
  }

  // ---- every run ----

  ghost predicate RoundFits(inv: Invariant, tools: Tools, round: Round) {
    Fits(inv, tools) && DrawsOther(inv, round.env) && (round.ExecuteRound? ==> Allowed(inv, round.request.call))
  }

  lemma RoundKeeps(inv: Invariant, tools: Tools, m: Machine, round: Round)
    requires Holds(inv, m) && Paired(m.log) && RoundFits(inv, tools, round)
    ensures Holds(inv, TakeAll(m, Kept(Steps(tools, m, round), round.keep)))
  {
    match round {
      case ExecuteRound(request, env, _) => ExecuteKeeps(inv, tools, m, request, false, env);
      case ResumeRound(id, approved, env, _) => ResumeKeeps(inv, tools, m, id, approved, env);
      case ReconcileRound(env, _) => ReconcileKeeps(inv, tools, m, env);
    }
    KeptHolds(inv, m, Steps(tools, m, round), round.keep);
  }

  lemma KeptHolds(inv: Invariant, m: Machine, steps: seq<Step>, keep: nat)
    requires Always(inv, m, steps)
    ensures Holds(inv, TakeAll(m, Kept(steps, keep)))
  {
    var kept := Kept(steps, keep);
    assert HoldsAfter(inv, m, steps, |kept|);
    assert kept == steps[..|kept|];
  }

  lemma {:induction false} RunKeeps(inv: Invariant, tools: Tools, m: Machine, rounds: seq<Round>)
    requires Holds(inv, m) && Paired(m.log) && forall k :: 0 <= k < |rounds| ==> RoundFits(inv, tools, rounds[k])
    ensures Holds(inv, Run(tools, m, rounds)) && Paired(Run(tools, m, rounds).log)
    decreases |rounds|
  {
    if rounds != [] {
      RoundKeeps(inv, tools, m, rounds[0]);
      RoundKeeps(Pairing, tools, m, rounds[0]);
      RunKeeps(inv, tools, TakeAll(m, Kept(Steps(tools, m, rounds[0]), rounds[0].keep)), rounds[1..]);
    }
  }

  /** In every run, whatever the tools, answers and crashes: each result names an earlier intent, and
      no intent has two results. */
  lemma ResultsPairWithIntents(tools: Tools, m: Machine, rounds: seq<Round>)
    requires Paired(m.log)
    ensures Paired(Run(tools, m, rounds).log)
  {
    RunKeeps(Pairing, tools, m, rounds);
  }

  // ---- orphans and later intents ----

  /** Reconciliation finds an intent exactly when it has no result and no later intent follows. */
  lemma OrphanExactlyWhen(log: Log, i: nat)
    requires Paired(log) && i < |log| && log[i].Intended?
    ensures LatestOrphan(log) == Some(i) <==> Unanswered(log, i) && !IsHidden(log, i)
  {
    if Unanswered(log, i) && !IsHidden(log, i) {
      assert forall j :: i < j < |log| ==> !log[j].Intended?;
      var last := LastIntended(log).value;
      assert last == i;
    }
  }

  /** An unanswered intent that a later one hides is never answered and never found again, in any run. */
  lemma HiddenIsNeverAnswered(tools: Tools, m: Machine, rounds: seq<Round>, i: nat)
    requires Paired(m.log) && IsHidden(m.log, i)
    ensures Unanswered(Run(tools, m, rounds).log, i) && LatestOrphan(Run(tools, m, rounds).log) != Some(i)
  {
    RunKeeps(Hidden(i), tools, m, rounds);
    OrphanExactlyWhen(Run(tools, m, rounds).log, i);
  }

  // ---- exactly once ----

  /** The effect's call has not been made yet: its key is unused, its tool is registered, the files are those before it,
      and what the task has left open leaves it alone. Earlier effects on the same files are no obstacle. */
  ghost predicate NewEffect(tools: Tools, m: Machine, x: Effect) {
    && Paired(m.log) && IdempotencyStore.Sound(m.world.store)
    && IdempotencyStore.Lookup(m.world.store, x.Where().tool, x.Where().key).None? && x.IsBefore(m.world.files)
    && Registered(tools, x.Where().tool)
    && OpenCalls(m, call => Friendly(tools, x, call))
    && forall i :: 0 <= i < |m.log| && m.log[i].Intended? ==> m.log[i].call.key != Some(x.Where().key)
  }

  /** The round makes the effect's call, or something that leaves it alone; and the keys that the runtime draws are new. */
  ghost predicate CallsOnce(tools: Tools, x: Effect, round: Round) {
    round.env.freshKey != x.Where().key && (round.ExecuteRound? ==> OwnOrFriendly(tools, x, round.request.call))
  }

  ghost predicate AllCallOnce(tools: Tools, x: Effect, rounds: seq<Round>) {
    forall k :: 0 <= k < |rounds| ==> CallsOnce(tools, x, rounds[k])
  }

  lemma NewIsOnce(tools: Tools, m: Machine, x: Effect)
    requires NewEffect(tools, m, x)
    ensures Once(x, tools, m)
  {
    NewIsBetween(m.world, x);
  }

  lemma OnceHolds(tools: Tools, m: Machine, x: Effect, rounds: seq<Round>)
    requires NewEffect(tools, m, x) && AllCallOnce(tools, x, rounds)
    ensures Once(x, tools, Run(tools, m, rounds)) && Paired(Run(tools, m, rounds).log)
  {
    NewIsOnce(tools, m, x);
    RunKeeps(ExactlyOnce(x, tools), tools, m, rounds);
  }

  /** What the log and the target say about an append. */
  ghost predicate LandedOnce(a: A.TheAppend, m: Machine) {
    var file := FsToolService.ReadFileOrEmpty(m.world.files, a.path);
    && (file == a.initial || file == a.initial + a.content)
    && (Reported(Appending(a), m.log) ==> file == a.initial + a.content)
  }

  ghost predicate RunLandsOnce(tools: Tools, m: Machine, a: A.TheAppend, rounds: seq<Round>) {
    LandedOnce(a, Run(tools, m, rounds))
  }

  /** End to end: one append call, executed, crashed, reconciled, approved and executed again in any order, among any
      other calls that leave its key and target alone, leaves its target with the initial bytes or those and the
      content once; and with the content as soon as the log has a completed result for it, executed or synthesized. */
  lemma AppendIsExactlyOnce(tools: Tools, m: Machine, a: A.TheAppend, rounds: seq<Round>)
    requires NewEffect(tools, m, Appending(a)) && AllCallOnce(tools, Appending(a), rounds)
    ensures RunLandsOnce(tools, m, a, rounds)
  {
    OnceHolds(tools, m, Appending(a), rounds);
    A.BetweenMeans(Run(tools, m, rounds).world, a);
  }

  /** What the log and the files say about a copy or move. */
  ghost predicate TransferredOnce(t: T.TheTransfer, m: Machine) {
    && (t.IsBefore(m.world.files) || t.IsAfter(m.world.files))
    && (Reported(Transferring(t), m.log) ==> t.IsAfter(m.world.files))
  }

  ghost predicate RunTransfersOnce(tools: Tools, m: Machine, t: T.TheTransfer, rounds: seq<Round>) {
    TransferredOnce(t, Run(tools, m, rounds))
  }

  /** End to end: one copy or move call, under the same conditions, leaves its two files as they were or as after one copy
      or move that nothing interrupts; and a completed result for it, executed or synthesized, means the second. */
  lemma TransferIsExactlyOnce(tools: Tools, m: Machine, t: T.TheTransfer, rounds: seq<Round>)
    requires NewEffect(tools, m, Transferring(t)) && AllCallOnce(tools, Transferring(t), rounds)
    ensures RunTransfersOnce(tools, m, t, rounds)
  {
    OnceHolds(tools, m, Transferring(t), rounds);
    T.BetweenMeans(Run(tools, m, rounds).world, t);
  }

  /** Among the calls that leave an effect alone is every append under another key to another file, or without a key. */
  lemma OtherAppendsAreFriendly(tools: Tools, x: Effect, call: Call)
    requires Registered(tools, FsAppend) && call.tool == "fs.append"
    requires call.key != Some(x.Where().key) && call.input.path !in x.Where().paths
    ensures Friendly(tools, x, call)
  {
    var tool := FsAppendTool();
    forall w: World, key: Option<Key>, oracle: nat | IdempotencyStore.Sound(w.store) && key != Some(x.Where().key)
      ensures KeepOut(w, tool.execute(w, key, call.input, oracle).0, x.Where())
    {
      assert tool.execute(w, key, call.input, oracle) == FsAppendRun(w, key, call.input, oracle);
      OtherAppendKeepsOut(w, key, call.input, oracle, x.Where());
    }
    OtherQueriesAreFriendly(FsAppend, x);
  }

  /** So is every copy and move under another key to another file; a move must come from another file, too. */
  lemma OtherTransfersAreFriendly(tools: Tools, x: Effect, tool: FileTool, call: Call)
    requires tool != FsAppend && Registered(tools, tool) && call.tool == ToolName(tool)
    requires call.key != Some(x.Where().key) && call.input.path !in x.Where().paths
    requires tool == FsMove ==> call.input.source !in x.Where().paths
    ensures Friendly(tools, x, call)
  {
    var transferring := FsTransferTool(tool);
    forall w: World, key: Option<Key>, oracle: nat | IdempotencyStore.Sound(w.store) && key != Some(x.Where().key)
      ensures KeepOut(w, transferring.execute(w, key, call.input, oracle).0, x.Where())
    {
      assert transferring.execute(w, key, call.input, oracle) == FsTransferRun(tool, w, key, call.input, oracle);
      OtherTransferKeepsOut(tool, w, key, call.input, oracle, x.Where());
    }
    OtherQueriesAreFriendly(tool, x);
  }

  lemma OtherQueriesAreFriendly(tool: FileTool, x: Effect)
    ensures QueriesKeepOut(ToolFor(tool), x.Where())
  {
    forall w: World, key: Key | IdempotencyStore.Sound(w.store) && key != x.Where().key
      ensures KeepOut(w, ToolFor(tool).statusQuery.value(w, key).0, x.Where())
    {
      ToolQueries(w, tool, key);
      OtherQueryKeepsOut(tool, w, key, x.Where());
    }
  }

  /** After any such run, an execution that passes the checks and the path check completes, and the
      target holds the content: no crash leaves the append stuck. */
  lemma AppendRecovers(tools: Tools, m: Machine, a: A.TheAppend, rounds: seq<Round>, resumed: bool, retry: nat, env: Env)
    requires NewEffect(tools, m, Appending(a)) && AllCallOnce(tools, Appending(a), rounds)
    requires Admit(CallOf(Appending(a)), resumed, env.gate).1.None? && env.oracle(1) != 1 && env.oracle(1) != 2
    ensures
      var m1 := Run(tools, m, rounds);
      var (steps, outcome) := Execute(tools, m1, Request(CallOf(Appending(a)), retry), resumed, env);
      && outcome == Finished(Completed)
      && FsToolService.ReadFileOrEmpty(TakeAll(m1, steps).world.files, a.path) == a.initial + a.content
  {
    OnceHolds(tools, m, Appending(a), rounds);
    ExecutionCompletes(tools, Run(tools, m, rounds), a, resumed, retry, env);
  }

  /** From any disk between the two states of the append, an admitted execution completes and leaves the second. */
  lemma ExecutionCompletes(tools: Tools, m: Machine, a: A.TheAppend, resumed: bool, retry: nat, env: Env)
    requires A.Between(m.world, a) && Registered(tools, FsAppend)
    requires Admit(CallOf(Appending(a)), resumed, env.gate).1.None? && env.oracle(1) != 1 && env.oracle(1) != 2
    ensures
      var (steps, outcome) := Execute(tools, m, Request(CallOf(Appending(a)), retry), resumed, env);
      && outcome == Finished(Completed)
      && TakeAll(m, steps).world == AfterAppend(m.world, a)
      && FsToolService.ReadFileOrEmpty(TakeAll(m, steps).world.files, a.path) == a.initial + a.content
  {
    var call := CallOf(Appending(a));
    var admitting := Admit(call, resumed, env.gate).0;
    AdmitKeepsWorld(m, call, resumed, env.gate);
    var m1 := TakeAll(m, admitting);
    FirstAttemptCompletes(a, m1, retry + 1, env.oracle);
    TakeConcat(m, admitting, RunTool(FsAppendTool(), m1, call, retry + 1, env.oracle).0);
    AdmittedExecutes(tools, m, call, resumed, retry, env);
  }

  /** After any such run, an execution of the copy or move that passes the checks and the path check completes if and only
      if the very first one could have, and then the files are those after it: no crash leaves the transfer stuck. */
  lemma TransferCompletesExactlyWhen(
      tools: Tools, m: Machine, t: T.TheTransfer, rounds: seq<Round>, resumed: bool, retry: nat, env: Env)
    requires NewEffect(tools, m, Transferring(t)) && AllCallOnce(tools, Transferring(t), rounds)
    requires Admit(CallOf(Transferring(t)), resumed, env.gate).1.None? && env.oracle(1) != 1 && env.oracle(1) != 2
    ensures
      var m1 := Run(tools, m, rounds);
      var (steps, outcome) := Execute(tools, m1, Request(CallOf(Transferring(t)), retry), resumed, env);
      && (outcome == Finished(Completed) <==> t.IsPermitted())
      && (outcome == Finished(Completed) ==> t.IsAfter(TakeAll(m1, steps).world.files))
  {
    var x := Transferring(t);
    var m1 := Run(tools, m, rounds);
    var admitting := Admit(CallOf(x), resumed, env.gate).0;
    OnceHolds(tools, m, x, rounds);
    AdmittedExecutes(tools, m1, CallOf(x), resumed, retry, env);
    AdmitIsHarmless(ExactlyOnce(x, tools), CallOf(x), resumed, env.gate);
    AlwaysHarmless(ExactlyOnce(x, tools), m1, admitting);
    TakeConcat(m1, admitting, RunTool(ToolFor(t.m.tool), TakeAll(m1, admitting), CallOf(x), retry + 1, env.oracle).0);
    TransferRuns(tools, TakeAll(m1, admitting), t, retry + 1, env.oracle);
  }

  lemma TransferRuns(tools: Tools, m: Machine, t: T.TheTransfer, max: nat, oracle: nat -> nat)
    requires Once(Transferring(t), tools, m) && oracle(1) != 1 && oracle(1) != 2
    ensures
      var (steps, status) := RunTool(ToolFor(t.m.tool), m, CallOf(Transferring(t)), max, oracle);
      (status == Completed <==> t.IsPermitted()) && (status == Completed ==> t.IsAfter(TakeAll(m, steps).world.files))
  {
    var x := Transferring(t);
    var inv := ExactlyOnce(x, tools);
    var tool, intending := ToolFor(t.m.tool), AppendEvent(Intended(CallOf(x)));
    var (actions, status) := Attempts(tool, m.world, CallOf(x), 1, max, oracle);
    AlwaysHarmless(inv, m, [intending]);
    TakeOne(m, intending);
    AttemptsKeep(inv, tool, Take(m, intending), CallOf(x), 1, max, oracle);
    TakeActions(Take(m, intending), actions);
    if status == Completed {
      T.SettledMeans(DoAll(m.world, actions), t);
      RunToolWorld(m, CallOf(x), actions);
    } else {
      T.SucceedsExactlyWhen(m.world, t);
      ToolRuns(m.world, x, oracle(1));
    }
  }

  ghost function AfterAppend(w: World, a: A.TheAppend): World {
    DoAll(w, FsToolService.Append(w, a.key, a.path, a.content).0)
  }

  /** Nothing that comes before an execution touches the disk. */
  lemma AdmitKeepsWorld(m: Machine, call: Call, resumed: bool, gate: Gate)
    ensures TakeAll(m, Admit(call, resumed, gate).0).world == m.world
  {
    SideStepsKeepWorld(m, Admit(call, resumed, gate).0);
  }

  lemma {:induction false} SideStepsKeepWorld(m: Machine, steps: seq<Step>)
    requires forall k :: 0 <= k < |steps| ==> !steps[k].OnDisk?
    ensures TakeAll(m, steps).world == m.world
    decreases |steps|
  {
    if steps != [] { SideStepsKeepWorld(Take(m, steps[0]), steps[1..]); }
  }

  lemma AdmittedExecutes(tools: Tools, m: Machine, call: Call, resumed: bool, retry: nat, env: Env)
    requires call.tool in tools && Admit(Keyed(tools, call, env), resumed, env.gate).1.None?
    ensures
      var admitting := Admit(Keyed(tools, call, env), resumed, env.gate).0;
      var (running, status) := RunTool(tools[call.tool], TakeAll(m, admitting), Keyed(tools, call, env), retry + 1, env.oracle);
      Execute(tools, m, Request(call, retry), resumed, env) == (admitting + running, Finished(status))
  {
  }

  /** The first attempt returns and settles the append. */
  lemma FirstAttemptCompletes(a: A.TheAppend, m: Machine, max: nat, oracle: nat -> nat)
    requires A.Between(m.world, a) && oracle(1) != 1 && oracle(1) != 2
    ensures
      var (steps, status) := RunTool(FsAppendTool(), m, CallOf(Appending(a)), max, oracle);
      && status == Completed
      && TakeAll(m, steps).world == AfterAppend(m.world, a)
      && FsToolService.ReadFileOrEmpty(TakeAll(m, steps).world.files, a.path) == a.initial + a.content
  {
    var call := CallOf(Appending(a));
    var actions := FsToolService.Append(m.world, a.key, a.path, a.content).0;
    A.CallKeeps(m.world, a, |actions|);
    CutIsPrefix(actions, |actions|);
    PrefixOfAll(actions);
    A.BetweenMeans(AfterAppend(m.world, a), a);
    assert FsAppendTool().execute(m.world, call.key, call.input, oracle(1)) == FsAppendRun(m.world, call.key, call.input, oracle(1));
    assert Attempts(FsAppendTool(), m.world, call, 1, max, oracle) == (actions, Completed);
    RunToolWorld(m, call, actions);
  }

  lemma RunToolWorld(m: Machine, call: Call, actions: seq<Action>)
    ensures TakeAll(m, [AppendEvent(Intended(call))] + OnDiskAll(actions) + Ending(|m.log|, Completed)).world
            == DoAll(m.world, actions)
  {
    var intending := [AppendEvent(Intended(call))];
    var ending := Ending(|m.log|, Completed);
    TakeConcat(m, intending + OnDiskAll(actions), ending);
    TakeConcat(m, intending, OnDiskAll(actions));
    TakeActions(TakeAll(m, intending), actions);
    SideStepsKeepWorld(m, intending);
    SideStepsKeepWorld(TakeAll(m, intending + OnDiskAll(actions)), ending);
  }
}
