/** Every interleaving of starts, stops, process deaths, termination callbacks, delayed respawns,
    watchdog ticks and health results. */
module SupervisorRuns {
  import opened Common
  import opened DaemonSupervisor

  /** What a thread still has to do after the critical section it left. */
  datatype Task =
    | Tick
    | Judge(seen: Process, wasRunning: bool)
    | MarkAndRespawn(seen: Process)
    | Kill(seen: Process)
    | Terminate(process: Process)
    | Callback(process: Process, crashed: bool)
    | DelayedRespawn

  /** The fields, the operating system's processes and the threads. `pids[p]` is the pid of process
      `p`; `doomed` holds the processes that have been sent a signal; `checks` the health checks in flight. */
  datatype State = State(
    fields: Guarded, pids: seq<Pid>, alive: set<Process>, doomed: set<Process>,
    tasks: multiset<Task>, checks: multiset<Process>)

  const INITIAL := State(Guarded(None, false, false, 0, false), [], {}, {}, multiset{}, multiset{})

  datatype Event =
    | StartCalled(launch: Option<Pid>)
    | StopCalled
    | Dies(process: Process, crashed: bool)
    | TimerFires
    | Runs(task: Task, launch: Option<Pid>, foreignPid: bool, skipsCheck: bool)
    | CheckReturns(seen: Process, healthy: bool)

  /** The system gives a new process a pid that no live process has. */
  predicate Launches(s: State, launch: Option<Pid>) {
    launch.Some? && forall p :: p in s.alive && p < |s.pids| ==> s.pids[p] != launch.value
  }

  function Spawned(s: State, launch: Option<Pid>): Option<Process> {
    if Launches(s, launch) then Some(|s.pids|) else None
  }

  /** The state after a critical section that may have launched a process. */
  function AfterLaunch(s: State, fields: Guarded, launch: Option<Pid>): State {
    if Launches(s, launch) && fields.process == Some(|s.pids|) then
      s.(fields := fields, pids := s.pids + [launch.value], alive := s.alive + {|s.pids|})
    else s.(fields := fields)
  }

  predicate PidExists(s: State, pid: Pid, foreignPid: bool) {
    foreignPid || exists p :: p in s.alive && p < |s.pids| && s.pids[p] == pid
  }

  function WithPid(s: State, pid: Pid): set<Process> {
    set p | p in s.alive && p < |s.pids| && s.pids[p] == pid
  }

  function Then(s: State, condition: bool, task: Task): State {
    if condition then s.(tasks := s.tasks + multiset{task}) else s
  }

  function Respawning(s: State, launch: Option<Pid>): State {
    AfterLaunch(s, RespawnIfNeeded(s.fields, s.alive, Spawned(s, launch)), launch)
  }

  /** A task of one thread, up to and including its next critical section or signal. */
  function RunTask(s: State, e: Event): State
    requires e.Runs?
  {
    match e.task
    case Tick =>
      var seen := Snapshot(s.fields);
      if seen.None? then Then(s, true, DelayedRespawn) else Then(s, true, Judge(seen.value, seen.value in s.alive))
    case Judge(seen, wasRunning) =>
      if seen >= |s.pids| then s
      else if !wasRunning || !PidExists(s, s.pids[seen], e.foreignPid) then Then(s, true, MarkAndRespawn(seen))
      else if e.skipsCheck then s
      else
        var (fields, begins) := BeginHealthCheck(s.fields);
        s.(fields := fields, checks := if begins then s.checks + multiset{seen} else s.checks)
    case MarkAndRespawn(seen) =>
      if seen >= |s.pids| then s
      else
        var (fields, stale) := MarkProcessUnhealthy(s.fields, s.pids, s.pids[seen]);
        Then(s.(fields := fields), stale.Some?, Kill(seen))
    case Kill(seen) =>
      if seen >= |s.pids| then s
      else Then(s.(doomed := s.doomed + WithPid(s, s.pids[seen])), true, DelayedRespawn)
    case Terminate(process) => if process in s.alive then s.(doomed := s.doomed + {process}) else s
    case Callback(process, crashed) =>
      var (fields, respawns) := HandleTermination(s.fields, process, crashed);
      Then(s.(fields := fields), respawns, DelayedRespawn)
    case DelayedRespawn => Respawning(s, e.launch)
  }

  function Next(threshold: nat, s: State, e: Event): State {
    match e
    case StartCalled(launch) => AfterLaunch(s, Start(s.fields, s.alive, Spawned(s, launch)).0, launch)
    case StopCalled =>
      var (fields, running) := Stop(s.fields);
      if running.Some? then Then(s.(fields := fields), true, Terminate(running.value)) else s.(fields := fields)
    case Dies(process, crashed) =>
      if process in s.alive then Then(s.(alive := s.alive - {process}), true, Callback(process, crashed)) else s
    case TimerFires => Then(s, s.fields.watchdog, Tick)
    case Runs(task, _, _, _) => if task in s.tasks then RunTask(s.(tasks := s.tasks - multiset{task}), e) else s
    case CheckReturns(seen, healthy) =>
      if seen in s.checks && seen < |s.pids| then
        var (fields, respawns) := FinishHealthCheck(s.fields, s.pids, s.pids[seen], healthy, threshold);
        Then(s.(fields := fields, checks := s.checks - multiset{seen}), respawns, MarkAndRespawn(seen))
      else s
  }

  function Run(threshold: nat, s: State, events: seq<Event>): State
    decreases |events|
  {
    if events == [] then s else Run(threshold, Next(threshold, s, events[0]), events[1..])
  }

  // ---- the invariant ----

  ghost predicate OwedAKill(s: State, p: Process) {
    || p in s.doomed
    || Terminate(p) in s.tasks
    || exists q :: Kill(q) in s.tasks && SamePid(s, p, q)
  }

  predicate SamePid(s: State, p: Process, q: Process) {
    p < |s.pids| && q < |s.pids| && s.pids[p] == s.pids[q]
  }

  /** A live process is tracked, or some thread will signal it, or it has been signalled. */
  ghost predicate Accounted(s: State, p: Process) {
    s.fields.process == Some(p) || OwedAKill(s, p)
  }

  ghost predicate Safe(s: State) {
    && (s.fields.process.Some? ==> s.fields.process.value < |s.pids|)
    && (forall p :: p in s.alive ==> p < |s.pids| && Accounted(s, p))
    && (s.fields.stopped ==> s.fields.process.None? && !s.fields.watchdog)
    && |s.checks| == (if s.fields.checkInFlight then 1 else 0)
    && (forall p :: p in s.checks ==> p < |s.pids|)
    && (forall t :: t in s.tasks ==> TaskOk(s, t))
  }

  predicate TaskOk(s: State, t: Task) {
    match t
    case Judge(seen, _) => seen < |s.pids|
    case MarkAndRespawn(seen) => seen < |s.pids|
    case Kill(seen) => seen < |s.pids|
    case Callback(process, _) => process < |s.pids| && process !in s.alive
    case _ => true
  }

  // ---- one event at a time ----

  /** A step that adds tasks and signals and changes no field keeps every process accounted for. */
  lemma MoreTasks(s: State, condition: bool, task: Task)
    requires Safe(s) && TaskOk(s, task)
    ensures Safe(Then(s, condition, task))
  {
    var s' := Then(s, condition, task);
    forall p | p in s'.alive ensures Accounted(s', p) {
      KeepsAccount(s, s', p);
    }
  }

  lemma KeepsAccount(s: State, s': State, p: Process)
    requires Accounted(s, p) && s.fields.process == s'.fields.process
    requires s.pids <= s'.pids && s.doomed <= s'.doomed && s.tasks <= s'.tasks
    ensures Accounted(s', p)
  {
    if q :| Kill(q) in s.tasks && SamePid(s, p, q) {
      assert Kill(q) in s'.tasks && SamePid(s', p, q);
    }
  }

  /** Losing tasks that signal nobody keeps a process accounted for. */
  lemma KeepsKills(s: State, s': State, p: Process)
    requires Accounted(s, p) && s.fields.process == s'.fields.process && s.pids == s'.pids && s.doomed <= s'.doomed
    requires Terminate(p) in s.tasks ==> Terminate(p) in s'.tasks
    requires forall q :: Kill(q) in s.tasks ==> Kill(q) in s'.tasks
    ensures Accounted(s', p)
  {
    if q :| Kill(q) in s.tasks && SamePid(s, p, q) {
      assert Kill(q) in s'.tasks && SamePid(s', p, q);
    }
  }

  lemma LaunchIsSafe(s: State, fields: Guarded, launch: Option<Pid>)
    requires Safe(s) && !IsRunning(s.fields.process, s.alive) && !fields.stopped
    requires fields.process == (if Launches(s, launch) then Some(|s.pids|) else s.fields.process)
    requires fields.checkInFlight == s.fields.checkInFlight
    ensures Safe(AfterLaunch(s, fields, launch))
  {
    var s' := AfterLaunch(s, fields, launch);
    forall p | p in s'.alive ensures p < |s'.pids| && Accounted(s', p) {
      if p in s.alive {
        if q :| Kill(q) in s.tasks && SamePid(s, p, q) {
          assert Kill(q) in s'.tasks && SamePid(s', p, q);
        }
      }
    }
  }

  lemma StartIsSafe(s: State, launch: Option<Pid>)
    requires Safe(s)
    ensures Safe(AfterLaunch(s, Start(s.fields, s.alive, Spawned(s, launch)).0, launch))
  {
    var fields := Start(s.fields, s.alive, Spawned(s, launch)).0;
    if IsRunning(s.fields.process, s.alive) {
      assert fields == s.fields;
    } else {
      LaunchIsSafe(s, fields, launch);
    }
  }

  lemma RespawnIsSafe(s: State, launch: Option<Pid>)
    requires Safe(s)
    ensures Safe(Respawning(s, launch))
  {
    var fields := RespawnIfNeeded(s.fields, s.alive, Spawned(s, launch));
    if s.fields.stopped || IsRunning(s.fields.process, s.alive) {
      assert fields == s.fields;
    } else {
      LaunchIsSafe(s, fields, launch);
    }
  }

  lemma StopIsSafe(s: State)
    requires Safe(s)
    ensures
      var (fields, running) := Stop(s.fields);
      Safe(if running.Some? then Then(s.(fields := fields), true, Terminate(running.value)) else s.(fields := fields))
  {
    var (fields, running) := Stop(s.fields);
    var s' := if running.Some? then Then(s.(fields := fields), true, Terminate(running.value)) else s.(fields := fields);
    forall p | p in s'.alive ensures Accounted(s', p) {
      assert Accounted(s, p);
      if s.fields.process == Some(p) {
        assert Terminate(p) in s'.tasks;
      } else if q :| Kill(q) in s.tasks && SamePid(s, p, q) {
        assert Kill(q) in s'.tasks && SamePid(s', p, q);
      }
    }
  }

  lemma DeathIsSafe(s: State, process: Process, crashed: bool)
    requires Safe(s) && process in s.alive
    ensures Safe(Then(s.(alive := s.alive - {process}), true, Callback(process, crashed)))
  {
    var s' := s.(alive := s.alive - {process});
    forall p | p in s'.alive ensures Accounted(s', p) {
      assert p in s.alive;
      KeepsAccount(s, s', p);
    }
    MoreTasks(s', true, Callback(process, crashed));
  }

  lemma CallbackIsSafe(s: State, process: Process, crashed: bool)
    requires Safe(s) && process !in s.alive
    ensures
      var (fields, respawns) := HandleTermination(s.fields, process, crashed);
      Safe(Then(s.(fields := fields), respawns, DelayedRespawn))
  {
    var (fields, respawns) := HandleTermination(s.fields, process, crashed);
    var s' := s.(fields := fields);
    forall p | p in s'.alive ensures Accounted(s', p) {
      assert Accounted(s, p);
      assert s.fields.process == Some(p) ==> s'.fields.process == Some(p);
      if q :| Kill(q) in s.tasks && SamePid(s, p, q) {
        assert Kill(q) in s'.tasks && SamePid(s', p, q);
      }
    }
    MoreTasks(s', respawns, DelayedRespawn);
  }

  lemma MarkIsSafe(s: State, seen: Process)
    requires Safe(s) && seen < |s.pids|
    ensures
      var (fields, stale) := MarkProcessUnhealthy(s.fields, s.pids, s.pids[seen]);
      Safe(Then(s.(fields := fields), stale.Some?, Kill(seen)))
  {
    var (fields, stale) := MarkProcessUnhealthy(s.fields, s.pids, s.pids[seen]);
    var s' := Then(s.(fields := fields), stale.Some?, Kill(seen));
    forall p | p in s'.alive ensures Accounted(s', p) {
      assert Accounted(s, p);
      if s.fields.process == Some(p) {
        assert stale.Some? ==> Kill(seen) in s'.tasks && SamePid(s', p, seen);
      } else if q :| Kill(q) in s.tasks && SamePid(s, p, q) {
        assert Kill(q) in s'.tasks && SamePid(s', p, q);
      }
    }
  }

  /** Taking a task away keeps the invariant unless it was somebody's kill. */
  lemma WithoutTask(s: State, task: Task)
    requires Safe(s) && task in s.tasks && !task.Kill? && !task.Terminate?
    ensures Safe(s.(tasks := s.tasks - multiset{task}))
  {
    var s' := s.(tasks := s.tasks - multiset{task});
    forall p | p in s'.alive ensures Accounted(s', p) {
      KeepsKills(s, s', p);
    }
    forall t | t in s'.tasks ensures TaskOk(s', t) {
      assert t in s.tasks;
    }
  }

  lemma KillIsSafe(s: State, seen: Process)
    requires Safe(s) && Kill(seen) in s.tasks
    ensures
      var s' := s.(tasks := s.tasks - multiset{Kill(seen)});
      Safe(Then(s'.(doomed := s'.doomed + WithPid(s', s'.pids[seen])), true, DelayedRespawn))
  {
    assert TaskOk(s, Kill(seen));
    var s0 := s.(tasks := s.tasks - multiset{Kill(seen)});
    var s' := s0.(doomed := s0.doomed + WithPid(s0, s0.pids[seen]));
    forall p | p in s'.alive ensures Accounted(s', p) {
      assert Accounted(s, p);
      if p !in s'.doomed {
        assert !SamePid(s, p, seen);
        if q :| Kill(q) in s.tasks && SamePid(s, p, q) {
          assert Kill(q) in s'.tasks && SamePid(s', p, q);
        }
      }
    }
    MoreTasks(s', true, DelayedRespawn);
  }

  lemma TerminateIsSafe(s: State, process: Process)
    requires Safe(s) && Terminate(process) in s.tasks
    ensures
      var s' := s.(tasks := s.tasks - multiset{Terminate(process)});
      Safe(if process in s'.alive then s'.(doomed := s'.doomed + {process}) else s')
  {
    var s0 := s.(tasks := s.tasks - multiset{Terminate(process)});
    var s' := if process in s0.alive then s0.(doomed := s0.doomed + {process}) else s0;
    forall p | p in s'.alive ensures Accounted(s', p) {
      if p != process {
        KeepsKills(s, s', p);
      }
    }
    forall t | t in s'.tasks ensures TaskOk(s', t) {
      assert t in s.tasks;
    }
  }

  lemma JudgeIsSafe(s: State, e: Event)
    requires Safe(s) && e.Runs? && e.task.Judge? && e.task.seen < |s.pids|
    ensures Safe(RunTask(s, e))
  {
    var seen := e.task.seen;
    if !e.task.wasRunning || !PidExists(s, s.pids[seen], e.foreignPid) {
      MoreTasks(s, true, MarkAndRespawn(seen));
    } else if !e.skipsCheck {
      var (fields, begins) := BeginHealthCheck(s.fields);
      var s' := s.(fields := fields, checks := if begins then s.checks + multiset{seen} else s.checks);
      forall p | p in s'.alive ensures Accounted(s', p) {
        KeepsAccount(s, s', p);
      }
    }
  }

  lemma CheckReturnsIsSafe(threshold: nat, s: State, seen: Process, healthy: bool)
    requires Safe(s) && seen in s.checks
    ensures Safe(Next(threshold, s, CheckReturns(seen, healthy)))
  {
    var (fields, respawns) := FinishHealthCheck(s.fields, s.pids, s.pids[seen], healthy, threshold);
    var s' := s.(fields := fields, checks := s.checks - multiset{seen});
    forall p | p in s'.alive ensures Accounted(s', p) {
      KeepsAccount(s, s', p);
    }
    MoreTasks(s', respawns, MarkAndRespawn(seen));
  }

  lemma TaskIsSafe(s: State, e: Event)
    requires Safe(s) && e.Runs? && e.task in s.tasks
    ensures Safe(RunTask(s.(tasks := s.tasks - multiset{e.task}), e))
  {
    var s' := s.(tasks := s.tasks - multiset{e.task});
    assert TaskOk(s, e.task);
    match e.task
    case Kill(seen) => KillIsSafe(s, seen);
    case Terminate(process) => TerminateIsSafe(s, process);
    case Tick =>
      WithoutTask(s, e.task);
      var seen := Snapshot(s'.fields);
      if seen.None? { MoreTasks(s', true, DelayedRespawn); }
      else { MoreTasks(s', true, Judge(seen.value, seen.value in s'.alive)); }
    case Judge(_, _) => WithoutTask(s, e.task); JudgeIsSafe(s', e);
    case MarkAndRespawn(seen) => WithoutTask(s, e.task); MarkIsSafe(s', seen);
    case Callback(process, crashed) => WithoutTask(s, e.task); CallbackIsSafe(s', process, crashed);
    case DelayedRespawn => WithoutTask(s, e.task); RespawnIsSafe(s', e.launch);
  }

  lemma NextIsSafe(threshold: nat, s: State, e: Event)
    requires Safe(s)
    ensures Safe(Next(threshold, s, e))
  {
    match e
    case StartCalled(launch) => StartIsSafe(s, launch);
    case StopCalled => StopIsSafe(s);
    case Dies(process, crashed) => if process in s.alive { DeathIsSafe(s, process, crashed); }
    case TimerFires => MoreTasks(s, s.fields.watchdog, Tick);
    case Runs(task, _, _, _) => if task in s.tasks { TaskIsSafe(s, e); }
    case CheckReturns(seen, healthy) => if seen in s.checks { CheckReturnsIsSafe(threshold, s, seen, healthy); }
  }

  // ---- every interleaving ----

  /** In every interleaving: a live process is tracked, or some thread owes it a signal, or it has been
      signalled; stopped means nothing tracked and no watchdog; and at most one health check is in flight. */
  lemma {:induction false} SupervisorIsSafe(threshold: nat, s: State, events: seq<Event>)
    requires Safe(s)
    ensures Safe(Run(threshold, s, events))
    ensures |Run(threshold, s, events).checks| <= 1
    decreases |events|
  {
    if events != [] {
      NextIsSafe(threshold, s, events[0]);
      SupervisorIsSafe(threshold, Next(threshold, s, events[0]), events[1..]);
    }
  }

  lemma InitialIsSafe()
    ensures Safe(INITIAL)
  {
  }

  /** From the start, in every interleaving. */
  lemma EveryRunIsSafe(threshold: nat, events: seq<Event>)
    ensures Safe(Run(threshold, INITIAL, events))
  {
    InitialIsSafe();
    SupervisorIsSafe(threshold, INITIAL, events);
  }

  // ---- old results and newer processes ----

  /** What a thread acting on process `seen` does to another process. */
  predicate ActsOn(e: Event, seen: Process) {
    || (e.CheckReturns? && e.seen == seen)
    || (e.Runs? && (e.task == MarkAndRespawn(seen) || e.task == Kill(seen) || (e.task.Judge? && e.task.seen == seen)))
  }

  /** What an event of a thread that acts on `seen` leaves alone: `other` stays tracked, with its
      failure count, and is sent no signal. */
  ghost predicate Spares(s: State, s': State, other: Process) {
    && (s.fields.process == Some(other) ==> s'.fields.process == Some(other) && s'.fields.failures == s.fields.failures)
    && (other in s'.doomed ==> other in s.doomed)
  }

  /** A health result, verdict or kill for one process spares every other that does not have its pid. */
  lemma OldResultsSpareOthers(threshold: nat, s: State, e: Event, seen: Process, other: Process)
    requires Safe(s) && ActsOn(e, seen) && other != seen && !SamePid(s, other, seen)
    ensures Spares(s, Next(threshold, s, e), other)
  {
    if e.CheckReturns? {
      ResultSparesOthers(threshold, s, seen, e.healthy, other);
    } else if e.task in s.tasks {
      var s0 := s.(tasks := s.tasks - multiset{e.task});
      TaskSparesOthers(s0, e, seen, other);
      assert Next(threshold, s, e) == RunTask(s0, e);
    } else {
      assert Next(threshold, s, e) == s;
    }
  }

  lemma ResultSparesOthers(threshold: nat, s: State, seen: Process, healthy: bool, other: Process)
    requires s.fields.process.Some? ==> s.fields.process.value < |s.pids|
    requires !SamePid(s, other, seen)
    ensures Spares(s, Next(threshold, s, CheckReturns(seen, healthy)), other)
  {
  }

  lemma TaskSparesOthers(s: State, e: Event, seen: Process, other: Process)
    requires e.Runs? && ActsOn(e, seen) && !SamePid(s, other, seen)
    requires s.fields.process.Some? ==> s.fields.process.value < |s.pids|
    ensures Spares(s, RunTask(s, e), other)
  {
    match e.task
    case Judge(_, _) => assert RunTask(s, e).doomed == s.doomed;
    case MarkAndRespawn(_) => assert RunTask(s, e).doomed == s.doomed;
    case Kill(_) => assert RunTask(s, e).fields == s.fields;
  }

  /** Exactly when a verdict untracks the tracked process, whichever it is: it has the pid that was judged. */
  lemma VerdictUntracksExactlyItsPid(threshold: nat, s: State, e: Event, seen: Process, other: Process)
    requires Safe(s) && e.Runs? && e.task == MarkAndRespawn(seen) && e.task in s.tasks
    requires s.fields.process == Some(other)
    ensures Next(threshold, s, e).fields.process == (if SamePid(s, other, seen) then None else Some(other))
    ensures SamePid(s, other, seen) ==> OwedAKill(Next(threshold, s, e), other)
  {
    assert TaskOk(s, e.task);
    var s' := Next(threshold, s, e);
    assert SamePid(s, other, seen) ==> Kill(seen) in s'.tasks && SamePid(s', other, seen);
  }

  /** Exactly when a health result counts against the tracked process: it is bad, and the process has
      the pid that was checked. A good result of that pid clears the count. */
  lemma ResultCountsExactlyForItsPid(threshold: nat, s: State, seen: Process, healthy: bool, other: Process)
    requires Safe(s) && seen in s.checks && s.fields.process == Some(other)
    ensures Next(threshold, s, CheckReturns(seen, healthy)).fields.failures ==
            if !SamePid(s, other, seen) then s.fields.failures else if healthy then 0 else s.fields.failures + 1
  {
  }

  function LaunchOf(e: Event): Option<Pid> {
    match e
    case StartCalled(launch) => launch
    case Runs(_, launch, _, _) => launch
    case _ => None
  }

  /** The system never gives out a pid twice. */
  ghost predicate NoReuse(threshold: nat, s: State, events: seq<Event>)
    decreases |events|
  {
    events == []
    || ((LaunchOf(events[0]).Some? ==> LaunchOf(events[0]).value !in s.pids)
        && NoReuse(threshold, Next(threshold, s, events[0]), events[1..]))
  }

  ghost predicate DistinctPids(s: State) {
    forall p, q :: 0 <= p < q < |s.pids| ==> s.pids[p] != s.pids[q]
  }

  lemma DistinctPidsStay(threshold: nat, s: State, e: Event)
    requires DistinctPids(s) && (LaunchOf(e).Some? ==> LaunchOf(e).value !in s.pids)
    ensures DistinctPids(Next(threshold, s, e))
  {
  }

  /** Without pid reuse, in every interleaving: a result, verdict or kill for one process never untracks,
      never counts against and never signals another one. */
  lemma {:induction false} NewerProcessesAreSpared(threshold: nat, s: State, events: seq<Event>, e: Event, seen: Process, other: Process)
    requires Safe(s) && DistinctPids(s) && NoReuse(threshold, s, events)
    requires ActsOn(e, seen) && other != seen
    ensures Spares(Run(threshold, s, events), Next(threshold, Run(threshold, s, events), e), other)
    decreases |events|
  {
    if events == [] {
      assert Run(threshold, s, events) == s;
      OldResultsSpareOthers(threshold, s, e, seen, other);
    } else {
      NextIsSafe(threshold, s, events[0]);
      DistinctPidsStay(threshold, s, events[0]);
      NewerProcessesAreSpared(threshold, Next(threshold, s, events[0]), events[1..], e, seen, other);
    }
  }

  /** Exactly when some event can signal a live process next: a stop owes it a signal, or a kill is pending for a
      process with its pid, be it this one or an earlier one. */
  lemma SignalledNextExactlyWhen(threshold: nat, s: State, p: Process)
    requires Safe(s) && p in s.alive && p !in s.doomed
    ensures (exists e :: p in Next(threshold, s, e).doomed) <==> OwedAKill(s, p)
  {
    forall e | p in Next(threshold, s, e).doomed ensures OwedAKill(s, p) {
      OnlyOwedSignals(threshold, s, e, p);
    }
    if Terminate(p) in s.tasks {
      assert p in Next(threshold, s, Runs(Terminate(p), None, false, false)).doomed;
    } else if q :| Kill(q) in s.tasks && SamePid(s, p, q) {
      assert p in Next(threshold, s, Runs(Kill(q), None, false, false)).doomed;
    }
  }

  lemma OnlyOwedSignals(threshold: nat, s: State, e: Event, p: Process)
    requires Safe(s) && p in Next(threshold, s, e).doomed && p !in s.doomed
    ensures OwedAKill(s, p)
  {
    if e.Runs? && e.task in s.tasks {
      TaskSignals(s.(tasks := s.tasks - multiset{e.task}), e, p);
      if e.task.Kill? {
        assert Kill(e.task.seen) in s.tasks && SamePid(s, p, e.task.seen);
      }
    }
  }

  lemma TaskSignals(s: State, e: Event, p: Process)
    requires e.Runs? && p in RunTask(s, e).doomed && p !in s.doomed
    ensures e.task == Terminate(p) || (e.task.Kill? && SamePid(s, p, e.task.seen))
  {
  }

  /** What a late verdict and a late health result do in every interleaving from the start: a verdict untracks the tracked
      process if and only if it has the judged pid, and then owes it a kill; a result changes its failure count if and only
      if it has the checked pid. */
  lemma LateResultsReachExactlyTheirPid(threshold: nat, events: seq<Event>, seen: Process, other: Process, launch: Option<Pid>, healthy: bool)
    requires Run(threshold, INITIAL, events).fields.process == Some(other)
    ensures
      var s := Run(threshold, INITIAL, events);
      var judged := Next(threshold, s, Runs(MarkAndRespawn(seen), launch, false, false));
      var checked := Next(threshold, s, CheckReturns(seen, healthy));
      var counted := if !SamePid(s, other, seen) then s.fields.failures else if healthy then 0 else s.fields.failures + 1;
      && (MarkAndRespawn(seen) in s.tasks ==>
            && judged.fields.process == (if SamePid(s, other, seen) then None else Some(other))
            && (SamePid(s, other, seen) ==> OwedAKill(judged, other)))
      && (seen in s.checks ==> checked.fields.failures == counted)
  {
    var s := Run(threshold, INITIAL, events);
    EveryRunIsSafe(threshold, events);
    if MarkAndRespawn(seen) in s.tasks {
      VerdictUntracksExactlyItsPid(threshold, s, Runs(MarkAndRespawn(seen), launch, false, false), seen, other);
    }
    if seen in s.checks {
      ResultCountsExactlyForItsPid(threshold, s, seen, healthy, other);
    }
  }

  /** A process is judged dead, and before its kill is sent its successor is given its pid. */
  function ReusedPid(pid: Pid): seq<Event> {
    [StartCalled(Some(pid)), TimerFires, Dies(0, true), Runs(Tick, None, false, false),
     Runs(Judge(0, false), None, false, false), Runs(MarkAndRespawn(0), None, false, false),
     StartCalled(Some(pid)), Runs(Kill(0), None, false, false)]
  }

  /** With a reused pid it does happen: the pending kill hits the tracked, live successor. */
  lemma ReusedPidIsKilled(pid: Pid)
    ensures
      var s := Run(1, INITIAL, ReusedPid(pid));
      s.fields.process == Some(1) && 1 in s.alive && 1 in s.doomed
  {
    ReachesLastStage(pid);
    RunOne(Stage(pid, 7), Runs(Kill(0), None, false, false));
    SuccessorIsHit(pid);
  }

  /** The states of that run before its last event. */
  function Stage(pid: Pid, k: nat): State {
    var fields := Guarded(Some(0), true, false, 0, false);
    if k == 0 then INITIAL
    else if k == 1 then State(fields, [pid], {0}, {}, multiset{}, multiset{})
    else if k == 2 then State(fields, [pid], {0}, {}, multiset{Tick}, multiset{})
    else if k == 3 then State(fields, [pid], {}, {}, multiset{Tick, Callback(0, true)}, multiset{})
    else if k == 4 then State(fields, [pid], {}, {}, multiset{Callback(0, true), Judge(0, false)}, multiset{})
    else if k == 5 then State(fields, [pid], {}, {}, multiset{Callback(0, true), MarkAndRespawn(0)}, multiset{})
    else if k == 6 then
      State(fields.(process := None), [pid], {}, {}, multiset{Callback(0, true), Kill(0)}, multiset{})
    else
      State(fields.(process := Some(1)), [pid, pid], {1}, {}, multiset{Callback(0, true), Kill(0)}, multiset{})
  }

  lemma Launched(pid: Pid)
    ensures Next(1, Stage(pid, 0), StartCalled(Some(pid))) == Stage(pid, 1)
  {
  }

  lemma TimerFired(pid: Pid)
    ensures Next(1, Stage(pid, 1), TimerFires) == Stage(pid, 2)
  {
  }

  lemma Died(pid: Pid)
    ensures Next(1, Stage(pid, 2), Dies(0, true)) == Stage(pid, 3)
  {
  }

  lemma Ticked(pid: Pid)
    ensures Next(1, Stage(pid, 3), Runs(Tick, None, false, false)) == Stage(pid, 4)
  {
    var s := Stage(pid, 3);
    assert s.tasks - multiset{Tick} == multiset{Callback(0, true)};
  }

  lemma JudgedDead(pid: Pid)
    ensures Next(1, Stage(pid, 4), Runs(Judge(0, false), None, false, false)) == Stage(pid, 5)
  {
    var s := Stage(pid, 4);
    assert s.tasks - multiset{Judge(0, false)} == multiset{Callback(0, true)};
  }

  lemma Untracked(pid: Pid)
    ensures Next(1, Stage(pid, 5), Runs(MarkAndRespawn(0), None, false, false)) == Stage(pid, 6)
  {
    var s := Stage(pid, 5);
    var s0 := s.(tasks := multiset{Callback(0, true)});
    assert s.tasks - multiset{MarkAndRespawn(0)} == s0.tasks;
    VerdictOwesAKill(s0, 0, Runs(MarkAndRespawn(0), None, false, false));
  }

  lemma VerdictOwesAKill(s: State, seen: Process, e: Event)
    requires e.Runs? && e.task == MarkAndRespawn(seen)
    requires seen < |s.pids| && s.fields.process == Some(seen) && !s.fields.stopped
    ensures
      var fields := s.fields.(process := None, failures := 0);
      RunTask(s, e) == s.(fields := fields, tasks := s.tasks + multiset{Kill(seen)})
  {
  }

  lemma Relaunched(pid: Pid)
    ensures Next(1, Stage(pid, 6), StartCalled(Some(pid))) == Stage(pid, 7)
  {
  }

  lemma SuccessorIsHit(pid: Pid)
    ensures
      var s := Next(1, Stage(pid, 7), Runs(Kill(0), None, false, false));
      s.fields.process == Some(1) && 1 in s.alive && 1 in s.doomed
  {
  }

  lemma ReachesLastStage(pid: Pid)
    ensures Run(1, INITIAL, ReusedPid(pid)) == Run(1, Stage(pid, 7), [Runs(Kill(0), None, false, false)])
  {
    var events := ReusedPid(pid);
    Launched(pid);
    RunFrom(Stage(pid, 0), Stage(pid, 1), events, 0);
    TimerFired(pid);
    RunFrom(Stage(pid, 1), Stage(pid, 2), events, 1);
    Died(pid);
    RunFrom(Stage(pid, 2), Stage(pid, 3), events, 2);
    Ticked(pid);
    RunFrom(Stage(pid, 3), Stage(pid, 4), events, 3);
    JudgedDead(pid);
    RunFrom(Stage(pid, 4), Stage(pid, 5), events, 4);
    Untracked(pid);
    RunFrom(Stage(pid, 5), Stage(pid, 6), events, 5);
    Relaunched(pid);
    RunFrom(Stage(pid, 6), Stage(pid, 7), events, 6);
    assert events[0..] == events;
    assert events[7..] == [Runs(Kill(0), None, false, false)];
  }

  lemma RunOne(s: State, e: Event)
    ensures Run(1, s, [e]) == Next(1, s, e)
  {
  }

  lemma RunFrom(s: State, s': State, events: seq<Event>, k: nat)
    requires k < |events| && s' == Next(1, s, events[k])
    ensures Run(1, s, events[k..]) == Run(1, s', events[k + 1..])
  {
    assert events[k..][1..] == events[k + 1..];
  }
}
