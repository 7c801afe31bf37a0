/** That the supervisor brings the daemon back: after a crash, after an unhealthy verdict, and when a tick finds nothing
    tracked, in every interleaving. */
module SupervisorLiveness {
  import opened Common
  import opened DaemonSupervisor
  import opened SupervisorRuns

  /** A live process is tracked. */
  predicate Watched(s: State) {
    s.fields.process.Some? && s.fields.process.value in s.alive
  }

  /** A new live process is tracked, which was not there before. */
  predicate TracksNew(s: State, s': State) {
    Watched(s') && s'.fields.process.value !in s.alive && s'.alive == s.alive + {s'.fields.process.value}
  }

  /** No live process has this pid. */
  predicate IsFresh(s: State, pid: Pid) {
    forall p :: p in s.alive && p < |s.pids| ==> s.pids[p] != pid
  }

  // ---- exactly what one event does ----

  /** Running a pending respawn launches exactly when the supervisor is not stopped, nothing tracked is running and the
      system grants the launch; then the new process is tracked with no failures, and otherwise nothing changes but that
      the respawn is no longer pending. */
  lemma RespawnLaunchesExactlyWhen(threshold: nat, s: State, e: Event)
    requires Safe(s) && e.Runs? && e.task == DelayedRespawn && DelayedRespawn in s.tasks
    ensures
      var s' := Next(threshold, s, e);
      var launches := !s.fields.stopped && !Watched(s) && Launches(s, e.launch);
      && (TracksNew(s, s') <==> launches)
      && (launches ==> s'.fields.failures == 0 && s'.pids == s.pids + [e.launch.value])
      && (!launches ==> s' == s.(tasks := s.tasks - multiset{DelayedRespawn}))
  {
    assert |s.pids| !in s.alive;
    var s0 := s.(tasks := s.tasks - multiset{DelayedRespawn});
    RespawnLeaves(s0, e.launch);
    assert Next(threshold, s, e) == Respawning(s0, e.launch);
  }

  lemma RespawnLeaves(s: State, launch: Option<Pid>)
    requires s.fields.process.Some? ==> s.fields.process.value < |s.pids|
    ensures
      var s' := Respawning(s, launch);
      if s.fields.stopped || Watched(s) || !Launches(s, launch) then s' == s
      else s' == s.(fields := s.fields.(process := Some(|s.pids|), failures := 0),
                    pids := s.pids + [launch.value], alive := s.alive + {|s.pids|})
  {
  }

  /** A start does the same, even after a stop, and turns the watchdog on; a running process is left alone. */
  lemma StartLaunchesExactlyWhen(threshold: nat, s: State, launch: Option<Pid>)
    requires Safe(s)
    ensures
      var s' := Next(threshold, s, StartCalled(launch));
      && (TracksNew(s, s') <==> !Watched(s) && Launches(s, launch))
      && (TracksNew(s, s') ==> s'.fields.watchdog && s'.fields.failures == 0)
      && (Watched(s) ==> s' == s)
      && (!Watched(s) ==> !s'.fields.stopped)
  {
    assert |s.pids| !in s.alive;
  }

  /** A stop untracks, turns the watchdog off, and owes the tracked process a signal. */
  lemma StopOwesASignal(threshold: nat, s: State)
    ensures
      var s' := Next(threshold, s, StopCalled);
      && s'.fields.stopped && s'.fields.process.None? && !s'.fields.watchdog && s'.alive == s.alive
      && s'.tasks == s.tasks + (if s.fields.process.Some? then multiset{Terminate(s.fields.process.value)} else multiset{})
  {
    assert s.tasks + multiset{} == s.tasks;
  }

  /** A callback of the tracked process asks for a respawn exactly after a crash without a stop; a clean exit never does,
      and neither does the callback of a process that is no longer tracked. */
  lemma CallbackRespawnsExactlyWhen(threshold: nat, s: State, p: Process, crashed: bool, e: Event)
    requires e.Runs? && e.task == Callback(p, crashed) && e.task in s.tasks
    ensures
      var s' := Next(threshold, s, e);
      var respawns := s.fields.process == Some(p) && crashed && !s.fields.stopped;
      && s'.tasks == s.tasks - multiset{Callback(p, crashed)} + (if respawns then multiset{DelayedRespawn} else multiset{})
      && s'.fields == (if s.fields.process == Some(p) then s.fields.(process := None) else s.fields)
  {
    var rest := s.tasks - multiset{Callback(p, crashed)};
    assert rest + multiset{} == rest;
  }

  /** A tick that finds nothing tracked asks for a respawn, and one that finds a process looks at it. */
  lemma TickAsksExactlyWhen(threshold: nat, s: State, e: Event)
    requires e.Runs? && e.task == Tick && Tick in s.tasks
    ensures
      var s' := Next(threshold, s, e);
      var seen := s.fields.process;
      && s'.fields == s.fields
      && s'.tasks == s.tasks - multiset{Tick} +
         (if s.fields.stopped || seen.None? then multiset{DelayedRespawn}
          else multiset{Judge(seen.value, seen.value in s.alive)})
  {
  }

  /** A process that was not running, or whose pid is gone, is judged dead; any other has its health checked, one check at
      a time. */
  lemma JudgesDeadExactlyWhen(threshold: nat, s: State, seen: Process, wasRunning: bool, e: Event)
    requires Safe(s) && e.Runs? && e.task == Judge(seen, wasRunning) && e.task in s.tasks
    ensures
      var s' := Next(threshold, s, e);
      var rest := s.tasks - multiset{e.task};
      && s'.alive == s.alive && s'.pids == s.pids && s'.fields.process == s.fields.process
      && s'.fields.stopped == s.fields.stopped
      && if !wasRunning || (!e.foreignPid && IsFresh(s, s.pids[seen]))
         then s'.fields == s.fields && s'.tasks == rest + multiset{MarkAndRespawn(seen)}
         else
           && s'.tasks == rest
           && s'.checks == s.checks + (if !e.skipsCheck && !s.fields.checkInFlight then multiset{seen} else multiset{})
  {
    var s0 := s.(tasks := s.tasks - multiset{e.task});
    assert TaskOk(s, e.task);
    assert IsFresh(s0, s0.pids[seen]) == IsFresh(s, s.pids[seen]);
    assert Next(threshold, s, e) == RunTask(s0, e);
    JudgeLeaves(s0, seen, wasRunning, e);
  }

  lemma JudgeLeaves(s: State, seen: Process, wasRunning: bool, e: Event)
    requires e.Runs? && e.task == Judge(seen, wasRunning) && seen < |s.pids|
    ensures
      var s' := RunTask(s, e);
      && s'.alive == s.alive && s'.pids == s.pids && s'.fields.process == s.fields.process
      && s'.fields.stopped == s.fields.stopped
      && if !wasRunning || (!e.foreignPid && IsFresh(s, s.pids[seen]))
         then s'.fields == s.fields && s'.tasks == s.tasks + multiset{MarkAndRespawn(seen)}
         else
           && s'.tasks == s.tasks
           && s'.checks == s.checks + (if !e.skipsCheck && !s.fields.checkInFlight then multiset{seen} else multiset{})
  {
    assert PidExists(s, s.pids[seen], e.foreignPid) <==> e.foreignPid || !IsFresh(s, s.pids[seen]);
    assert s.checks + multiset{} == s.checks;
  }

  /** A bad result of the tracked pid is a verdict exactly when it completes `threshold` bad results in a row. */
  lemma VerdictExactlyWhen(threshold: nat, s: State, seen: Process, healthy: bool)
    requires Safe(s) && seen in s.checks
    ensures
      var s' := Next(threshold, s, CheckReturns(seen, healthy));
      var counts := !s.fields.stopped && s.fields.process.Some? && SamePid(s, s.fields.process.value, seen);
      && !s'.fields.checkInFlight
      && s'.fields.failures == (if !counts then s.fields.failures else if healthy then 0 else s.fields.failures + 1)
      && s'.tasks == s.tasks +
         (if counts && !healthy && s.fields.failures + 1 >= threshold then multiset{MarkAndRespawn(seen)} else multiset{})
  {
    assert s.tasks + multiset{} == s.tasks;
  }

  /** A verdict untracks the process and owes it a kill; the kill is followed by a respawn. */
  lemma VerdictLeadsToRespawn(threshold: nat, s: State, seen: Process, e: Event, f: Event)
    requires Safe(s) && e.Runs? && e.task == MarkAndRespawn(seen) && e.task in s.tasks && !s.fields.stopped
    requires s.fields.process.Some? && SamePid(s, s.fields.process.value, seen)
    requires f.Runs? && f.task == Kill(seen)
    ensures
      var marked := Next(threshold, s, e);
      && marked.fields.process.None? && marked.fields.failures == 0 && Kill(seen) in marked.tasks
      && DelayedRespawn in Next(threshold, marked, f).tasks && Next(threshold, marked, f).fields == marked.fields
  {
    MarkLeaves(threshold, s, seen, e);
    KillLeaves(threshold, Next(threshold, s, e), seen, f);
  }

  lemma MarkLeaves(threshold: nat, s: State, seen: Process, e: Event)
    requires Safe(s) && e.Runs? && e.task == MarkAndRespawn(seen) && e.task in s.tasks && !s.fields.stopped
    requires s.fields.process.Some? && SamePid(s, s.fields.process.value, seen)
    ensures
      var s' := Next(threshold, s, e);
      && s'.fields == s.fields.(process := None, failures := 0) && s'.pids == s.pids && s'.alive == s.alive
      && Kill(seen) in s'.tasks
  {
    assert TaskOk(s, e.task);
  }

  lemma KillLeaves(threshold: nat, s: State, seen: Process, e: Event)
    requires seen < |s.pids| && e.Runs? && e.task == Kill(seen) && Kill(seen) in s.tasks
    ensures
      var s' := Next(threshold, s, e);
      DelayedRespawn in s'.tasks && s'.fields == s.fields && s'.pids == s.pids && s'.alive == s.alive
  {
  }

  // ---- in every interleaving ----

  /** Some thread will bring a process back: a respawn is pending, or a kill, which a respawn follows, or the callback of
      the crash of the tracked process. */
  ghost predicate Pursued(s: State) {
    || DelayedRespawn in s.tasks
    || (exists q :: Kill(q) in s.tasks)
    || (exists p: Process :: Callback(p, true) in s.tasks && s.fields.process == Some(p))
  }

  ghost predicate Attended(s: State) {
    s.fields.stopped || Watched(s) || Pursued(s)
  }

  /** What would leave the supervisor with nothing to do but wait for the next tick: the tracked process exits cleanly, or
      a launch fails. */
  ghost predicate GivesUp(s: State, e: Event) {
    match e
    case Dies(p, crashed) => s.fields.process == Some(p) && !crashed
    case StartCalled(launch) => !Launches(s, launch)
    case Runs(DelayedRespawn, launch, _, _) => !Launches(s, launch)
    case Runs(Callback(p, crashed), _, _, _) => s.fields.process == Some(p) && !crashed
    case _ => false
  }

  lemma StaysPursued(s: State, s': State)
    requires Pursued(s) && s.tasks <= s'.tasks && s'.fields.process == s.fields.process
    ensures Pursued(s')
  {
    if q :| Kill(q) in s.tasks {
      assert Kill(q) in s'.tasks;
    } else if p: Process :| Callback(p, true) in s.tasks && s.fields.process == Some(p) {
      assert Callback(p, true) in s'.tasks;
    }
  }

  lemma DeathAttended(threshold: nat, s: State, p: Process, crashed: bool)
    requires Safe(s) && Attended(s) && !GivesUp(s, Dies(p, crashed))
    ensures Attended(Next(threshold, s, Dies(p, crashed)))
  {
    var s' := Next(threshold, s, Dies(p, crashed));
    if p in s.alive && !s.fields.stopped {
      if s.fields.process == Some(p) {
        assert Callback(p, true) in s'.tasks;
      } else if Pursued(s) {
        StaysPursued(s, s');
      }
    }
  }

  lemma CheckAttended(threshold: nat, s: State, seen: Process, healthy: bool)
    requires Safe(s) && Attended(s)
    ensures Attended(Next(threshold, s, CheckReturns(seen, healthy)))
  {
    CheckKeeps(threshold, s, seen, healthy);
    KeptAttended(s, Next(threshold, s, CheckReturns(seen, healthy)));
  }

  lemma CheckKeeps(threshold: nat, s: State, seen: Process, healthy: bool)
    ensures
      var s' := Next(threshold, s, CheckReturns(seen, healthy));
      && s'.fields.process == s.fields.process && s'.fields.stopped == s.fields.stopped
      && s'.alive == s.alive && s.tasks <= s'.tasks
  {
    if seen in s.checks && seen < |s.pids| {
      var (fields, respawns) := FinishHealthCheck(s.fields, s.pids, s.pids[seen], healthy, threshold);
      FinishKeeps(s.fields, s.pids, s.pids[seen], healthy, threshold);
      ThenKeeps(s.(fields := fields, checks := s.checks - multiset{seen}), respawns, MarkAndRespawn(seen));
    }
  }

  lemma FinishKeeps(g: Guarded, pids: seq<Pid>, pid: Pid, healthy: bool, threshold: nat)
    ensures
      var g' := FinishHealthCheck(g, pids, pid, healthy, threshold).0;
      g'.process == g.process && g'.stopped == g.stopped
  {
  }

  lemma KeptAttended(s: State, s': State)
    requires Attended(s) && s.tasks <= s'.tasks && s'.alive == s.alive
    requires s'.fields.process == s.fields.process && s'.fields.stopped == s.fields.stopped
    ensures Attended(s')
  {
    if Pursued(s) { StaysPursued(s, s'); }
  }

  /** A thread that goes on takes its own task away; the pursuit by others goes on. */
  lemma OthersPursue(s: State, task: Task, s': State)
    requires Pursued(s) && s.tasks - multiset{task} <= s'.tasks && s'.fields.process == s.fields.process
    requires task != DelayedRespawn && !task.Kill? && (task.Callback? ==> s.fields.process != Some(task.process))
    ensures Pursued(s')
  {
    if q :| Kill(q) in s.tasks {
      assert Kill(q) in s'.tasks;
    } else if p: Process :| Callback(p, true) in s.tasks && s.fields.process == Some(p) {
      assert Callback(p, true) in s'.tasks;
    }
  }

  lemma TaskAttended(threshold: nat, s: State, e: Event)
    requires Safe(s) && Attended(s) && e.Runs? && e.task in s.tasks && !GivesUp(s, e)
    ensures Attended(Next(threshold, s, e))
  {
    var s' := Next(threshold, s, e);
    assert TaskOk(s, e.task);
    match e.task
    case Tick => LookAttended(threshold, s, e);
    case Judge(_, _) => LookAttended(threshold, s, e);
    case Terminate(_) => LookAttended(threshold, s, e);
    case DelayedRespawn => RespawnLaunchesExactlyWhen(threshold, s, e);
    case Kill(seen) =>
      assert DelayedRespawn in s'.tasks;
    case MarkAndRespawn(seen) => MarkAttended(threshold, s, e, seen);
    case Callback(p, crashed) => CallbackAttended(threshold, s, e, p, crashed);
  }

  /** Tasks that change no field that matters here. */
  lemma LookAttended(threshold: nat, s: State, e: Event)
    requires Safe(s) && Attended(s) && e.Runs? && e.task in s.tasks
    requires e.task.Tick? || e.task.Judge? || e.task.Terminate?
    ensures Attended(Next(threshold, s, e))
  {
    var s0 := s.(tasks := s.tasks - multiset{e.task});
    assert Next(threshold, s, e) == RunTask(s0, e);
    LookKeeps(s0, e);
    LookKeepsAttention(s, s0, e, RunTask(s0, e));
  }

  lemma LookKeepsAttention(s: State, s0: State, e: Event, s': State)
    requires Attended(s) && e.Runs? && (e.task.Tick? || e.task.Judge? || e.task.Terminate?)
    requires s0 == s.(tasks := s.tasks - multiset{e.task}) && s0.tasks <= s'.tasks
    requires s'.fields.process == s.fields.process && s'.fields.stopped == s.fields.stopped && s'.alive == s.alive
    ensures Attended(s')
  {
    if Pursued(s) { OthersPursue(s, e.task, s'); }
  }

  lemma LookKeeps(s: State, e: Event)
    requires e.Runs? && (e.task.Tick? || e.task.Judge? || e.task.Terminate?)
    ensures
      var s' := RunTask(s, e);
      && s'.fields.process == s.fields.process && s'.fields.stopped == s.fields.stopped
      && s'.alive == s.alive && s.tasks <= s'.tasks
  {
    match e.task
    case Tick =>
      var seen := Snapshot(s.fields);
      ThenKeeps(s, true, if seen.None? then DelayedRespawn else Judge(seen.value, seen.value in s.alive));
    case Judge(seen, wasRunning) =>
      if seen < |s.pids| {
        JudgeLeaves(s, seen, wasRunning, e);
        ThenKeeps(s, true, MarkAndRespawn(seen));
      }
    case Terminate(_) =>
  }

  lemma ThenKeeps(s: State, condition: bool, task: Task)
    ensures
      var s' := Then(s, condition, task);
      s'.fields == s.fields && s'.alive == s.alive && s'.pids == s.pids && s.tasks <= s'.tasks
  {
  }

  lemma MarkAttended(threshold: nat, s: State, e: Event, seen: Process)
    requires Safe(s) && Attended(s) && e.Runs? && e.task == MarkAndRespawn(seen) && e.task in s.tasks
    ensures Attended(Next(threshold, s, e))
  {
    var s' := Next(threshold, s, e);
    assert TaskOk(s, e.task);
    if s.fields.stopped || !HasPid(s.fields.process, s.pids, s.pids[seen]) {
      assert s'.fields == s.fields && s'.alive == s.alive;
      if Pursued(s) { OthersPursue(s, e.task, s'); }
    } else {
      assert Kill(seen) in s'.tasks;
    }
  }

  lemma CallbackAttended(threshold: nat, s: State, e: Event, p: Process, crashed: bool)
    requires Safe(s) && Attended(s) && e.Runs? && e.task == Callback(p, crashed) && e.task in s.tasks && !GivesUp(s, e)
    ensures Attended(Next(threshold, s, e))
  {
    var s' := Next(threshold, s, e);
    assert TaskOk(s, e.task);
    CallbackRespawnsExactlyWhen(threshold, s, p, crashed, e);
    if s.fields.process == Some(p) {
      assert !s.fields.stopped ==> DelayedRespawn in s'.tasks;
    } else {
      assert s'.alive == s.alive;
      if Pursued(s) { OthersPursue(s, e.task, s'); }
    }
  }

  lemma StartAttended(threshold: nat, s: State, launch: Option<Pid>)
    requires Safe(s) && !GivesUp(s, StartCalled(launch))
    ensures Attended(Next(threshold, s, StartCalled(launch)))
  {
    StartLaunchesExactlyWhen(threshold, s, launch);
  }

  lemma NextAttended(threshold: nat, s: State, e: Event)
    requires Safe(s) && Attended(s) && !GivesUp(s, e)
    ensures Attended(Next(threshold, s, e))
  {
    match e
    case StartCalled(launch) => StartAttended(threshold, s, launch);
    case StopCalled => StopOwesASignal(threshold, s);
    case Dies(p, crashed) => DeathAttended(threshold, s, p, crashed);
    case TimerFires => if Pursued(s) { StaysPursued(s, Next(threshold, s, e)); }
    case Runs(task, _, _, _) => if task in s.tasks { TaskAttended(threshold, s, e); }
    case CheckReturns(seen, healthy) => CheckAttended(threshold, s, seen, healthy);
  }

  ghost predicate NeverGivesUp(threshold: nat, s: State, events: seq<Event>)
    decreases |events|
  {
    events == [] || (!GivesUp(s, events[0]) && NeverGivesUp(threshold, Next(threshold, s, events[0]), events[1..]))
  }

  /** In every interleaving in which the tracked process never exits cleanly and no launch fails: until it is stopped, a
      live process is tracked, or some thread is about to bring one back. */
  lemma {:induction false} StaysAttended(threshold: nat, s: State, events: seq<Event>)
    requires Safe(s) && Attended(s) && NeverGivesUp(threshold, s, events)
    ensures Attended(Run(threshold, s, events))
    decreases |events|
  {
    if events != [] {
      NextIsSafe(threshold, s, events[0]);
      NextAttended(threshold, s, events[0]);
      StaysAttended(threshold, Next(threshold, s, events[0]), events[1..]);
    }
  }

  /** The same from the first start. */
  lemma EveryStartIsAttended(threshold: nat, before: seq<Event>, launch: Option<Pid>, events: seq<Event>)
    requires Launches(Run(threshold, INITIAL, before), launch)
    requires NeverGivesUp(threshold, Next(threshold, Run(threshold, INITIAL, before), StartCalled(launch)), events)
    ensures
      Attended(Run(threshold, Next(threshold, Run(threshold, INITIAL, before), StartCalled(launch)), events))
  {
    var s := Run(threshold, INITIAL, before);
    EveryRunIsSafe(threshold, before);
    NextIsSafe(threshold, s, StartCalled(launch));
    StartAttended(threshold, s, launch);
    StaysAttended(threshold, Next(threshold, s, StartCalled(launch)), events);
  }

  // ---- how it ends ----

  /** The launches of these events get this pid. */
  function Go(task: Task, pid: Pid): Event {
    Runs(task, Some(pid), false, false)
  }

  lemma RunTwo(threshold: nat, s: State, a: Event, b: Event)
    ensures Run(threshold, s, [a, b]) == Next(threshold, Next(threshold, s, a), b)
  {
    assert [a, b][1..] == [b];
    assert Run(threshold, Next(threshold, s, a), [b]) == Run(threshold, Next(threshold, Next(threshold, s, a), b), []);
  }

  lemma RunJust(threshold: nat, s: State, a: Event)
    ensures Run(threshold, s, [a]) == Next(threshold, s, a)
  {
    assert Run(threshold, s, [a]) == Run(threshold, Next(threshold, s, a), []);
  }

  /** Two of the supervisor's own steps are enough. */
  ghost predicate ComesBack(threshold: nat, s: State, pid: Pid) {
    exists events :: |events| <= 2 && OwnSteps(events, pid) && Watched(Run(threshold, s, events))
  }

  predicate OwnSteps(events: seq<Event>, pid: Pid) {
    forall k :: 0 <= k < |events| ==> events[k].Runs? && events[k] == Go(events[k].task, pid)
  }

  lemma RespawnWatches(threshold: nat, s: State, pid: Pid)
    requires Safe(s) && !s.fields.stopped && DelayedRespawn in s.tasks && IsFresh(s, pid)
    ensures Watched(Next(threshold, s, Go(DelayedRespawn, pid)))
  {
    RespawnLaunchesExactlyWhen(threshold, s, Go(DelayedRespawn, pid));
  }

  lemma TwoStepsBack(threshold: nat, s: State, task: Task, pid: Pid)
    requires Safe(s) && task in s.tasks && IsFresh(s, pid)
    requires
      var s1 := Next(threshold, s, Go(task, pid));
      !s1.fields.stopped && DelayedRespawn in s1.tasks && s1.alive == s.alive && s1.pids == s.pids
    ensures ComesBack(threshold, s, pid)
  {
    var a, b := Go(task, pid), Go(DelayedRespawn, pid);
    NextIsSafe(threshold, s, a);
    RespawnWatches(threshold, Next(threshold, s, a), pid);
    RunTwo(threshold, s, a, b);
    assert OwnSteps([a, b], pid);
  }

  /** A supervisor that pursues, and is not stopped, tracks a live process after at most two steps of its own threads,
      given a launch. */
  lemma PursuitEnds(threshold: nat, s: State, pid: Pid)
    requires Safe(s) && Pursued(s) && !s.fields.stopped && IsFresh(s, pid)
    ensures ComesBack(threshold, s, pid)
  {
    if DelayedRespawn in s.tasks {
      RespawnComesBack(threshold, s, pid);
    } else if q :| Kill(q) in s.tasks {
      KillComesBack(threshold, s, q, pid);
    } else {
      var p: Process :| Callback(p, true) in s.tasks && s.fields.process == Some(p);
      CallbackComesBack(threshold, s, p, pid);
    }
  }

  /** Only a respawn starts a process; no thread ends one or stops the supervisor. */
  lemma OnlyRespawnsLaunch(threshold: nat, s: State, e: Event)
    requires e.Runs? && e.task != DelayedRespawn
    ensures
      var s' := Next(threshold, s, e);
      s'.alive == s.alive && s'.pids == s.pids && s'.fields.stopped == s.fields.stopped
  {
    if e.task in s.tasks {
      var s0 := s.(tasks := s.tasks - multiset{e.task});
      assert Next(threshold, s, e) == RunTask(s0, e);
      RunTaskLaunchesNothing(s0, e);
    }
  }

  lemma RunTaskLaunchesNothing(s: State, e: Event)
    requires e.Runs? && e.task != DelayedRespawn
    ensures
      var s' := RunTask(s, e);
      s'.alive == s.alive && s'.pids == s.pids && s'.fields.stopped == s.fields.stopped
  {
    match e.task
    case Judge(seen, wasRunning) => if seen < |s.pids| { JudgeLeaves(s, seen, wasRunning, e); }
    case _ =>
  }

  lemma RespawnComesBack(threshold: nat, s: State, pid: Pid)
    requires Safe(s) && DelayedRespawn in s.tasks && !s.fields.stopped && IsFresh(s, pid)
    ensures ComesBack(threshold, s, pid)
  {
    RespawnWatches(threshold, s, pid);
    RunJust(threshold, s, Go(DelayedRespawn, pid));
    assert OwnSteps([Go(DelayedRespawn, pid)], pid);
  }

  lemma KillComesBack(threshold: nat, s: State, q: Process, pid: Pid)
    requires Safe(s) && Kill(q) in s.tasks && !s.fields.stopped && IsFresh(s, pid)
    ensures ComesBack(threshold, s, pid)
  {
    assert TaskOk(s, Kill(q));
    KillLeaves(threshold, s, q, Go(Kill(q), pid));
    TwoStepsBack(threshold, s, Kill(q), pid);
  }

  lemma CallbackComesBack(threshold: nat, s: State, p: Process, pid: Pid)
    requires Safe(s) && Callback(p, true) in s.tasks && s.fields.process == Some(p) && !s.fields.stopped && IsFresh(s, pid)
    ensures ComesBack(threshold, s, pid)
  {
    var e := Go(Callback(p, true), pid);
    CallbackRespawnsExactlyWhen(threshold, s, p, true, e);
    OnlyRespawnsLaunch(threshold, s, e);
    TwoStepsBack(threshold, s, Callback(p, true), pid);
  }

  /** A crash: whatever happened before, when the tracked process of a supervisor that is not stopped crashes, then after
      anything that follows in which nothing is given up, the supervisor is stopped, tracks a live process, or does so after
      at most two steps of its own threads. */
  lemma CrashIsAnswered(threshold: nat, before: seq<Event>, p: Process, events: seq<Event>, pid: Pid)
    requires
      var s := Run(threshold, INITIAL, before);
      && s.fields.process == Some(p) && p in s.alive && !s.fields.stopped
      && NeverGivesUp(threshold, Next(threshold, s, Dies(p, true)), events)
      && IsFresh(Run(threshold, Next(threshold, s, Dies(p, true)), events), pid)
    ensures
      var s' := Run(threshold, Next(threshold, Run(threshold, INITIAL, before), Dies(p, true)), events);
      s'.fields.stopped || Watched(s') || ComesBack(threshold, s', pid)
  {
    var s := Run(threshold, INITIAL, before);
    var s1 := Next(threshold, s, Dies(p, true));
    EveryRunIsSafe(threshold, before);
    NextIsSafe(threshold, s, Dies(p, true));
    DeathAttended(threshold, s, p, true);
    StaysAttended(threshold, s1, events);
    SupervisorIsSafe(threshold, s1, events);
    var s' := Run(threshold, s1, events);
    if !s'.fields.stopped && !Watched(s') { PursuitEnds(threshold, s', pid); }
  }

  /** The same after an unhealthy verdict on the tracked process. */
  lemma VerdictIsAnswered(threshold: nat, before: seq<Event>, seen: Process, e: Event, events: seq<Event>, pid: Pid)
    requires
      var s := Run(threshold, INITIAL, before);
      && e.Runs? && e.task == MarkAndRespawn(seen) && e.task in s.tasks && !s.fields.stopped
      && s.fields.process.Some? && SamePid(s, s.fields.process.value, seen)
      && NeverGivesUp(threshold, Next(threshold, s, e), events)
      && IsFresh(Run(threshold, Next(threshold, s, e), events), pid)
    ensures
      var s' := Run(threshold, Next(threshold, Run(threshold, INITIAL, before), e), events);
      s'.fields.stopped || Watched(s') || ComesBack(threshold, s', pid)
  {
    var s := Run(threshold, INITIAL, before);
    EveryRunIsSafe(threshold, before);
    NextIsSafe(threshold, s, e);
    VerdictLeadsToRespawn(threshold, s, seen, e, Runs(Kill(seen), None, false, false));
    StaysAttended(threshold, Next(threshold, s, e), events);
    SupervisorIsSafe(threshold, Next(threshold, s, e), events);
    var s' := Run(threshold, Next(threshold, s, e), events);
    if !s'.fields.stopped && !Watched(s') { PursuitEnds(threshold, s', pid); }
  }

  /** And after a tick that finds nothing tracked, whatever was given up before. */
  lemma TickIsAnswered(threshold: nat, before: seq<Event>, e: Event, events: seq<Event>, pid: Pid)
    requires
      var s := Run(threshold, INITIAL, before);
      && e.Runs? && e.task == Tick && e.task in s.tasks && !s.fields.stopped && s.fields.process.None?
      && NeverGivesUp(threshold, Next(threshold, s, e), events)
      && IsFresh(Run(threshold, Next(threshold, s, e), events), pid)
    ensures
      var s' := Run(threshold, Next(threshold, Run(threshold, INITIAL, before), e), events);
      s'.fields.stopped || Watched(s') || ComesBack(threshold, s', pid)
  {
    var s := Run(threshold, INITIAL, before);
    EveryRunIsSafe(threshold, before);
    NextIsSafe(threshold, s, e);
    TickAsksExactlyWhen(threshold, s, e);
    StaysAttended(threshold, Next(threshold, s, e), events);
    SupervisorIsSafe(threshold, Next(threshold, s, e), events);
    var s' := Run(threshold, Next(threshold, s, e), events);
    if !s'.fields.stopped && !Watched(s') { PursuitEnds(threshold, s', pid); }
  }

  // ---- the watchdog ----

  /** The timer, or a step of the supervisor's own threads. */
  predicate OwnOrTimer(events: seq<Event>, pid: Pid) {
    forall k :: 0 <= k < |events| ==> events[k].TimerFires? || (events[k].Runs? && events[k] == Go(events[k].task, pid))
  }

  lemma {:induction false} RunConcat(threshold: nat, s: State, a: seq<Event>, b: seq<Event>)
    ensures Run(threshold, s, a + b) == Run(threshold, Run(threshold, s, a), b)
    decreases |a|
  {
    if a == [] {
      NothingAround(b);
    } else {
      TailOfConcat(a, b);
      RunConcat(threshold, Next(threshold, s, a[0]), a[1..], b);
    }
  }

  /** A run that ends with a respawn. */
  ghost predicate LeadsBack(threshold: nat, s: State, events: seq<Event>, pid: Pid) {
    OwnOrTimer(events, pid) && Watched(Run(threshold, s, events))
  }

  lemma OneMoreStep(threshold: nat, s: State, e: Event, events: seq<Event>, pid: Pid)
    requires LeadsBack(threshold, Next(threshold, s, e), events, pid)
    requires e.TimerFires? || (e.Runs? && e == Go(e.task, pid))
    ensures LeadsBack(threshold, s, [e] + events, pid)
  {
    RunConcat(threshold, s, [e], events);
    RunJust(threshold, s, e);
  }

  lemma RespawnLeadsBack(threshold: nat, s: State, pid: Pid)
    requires Safe(s) && !s.fields.stopped && DelayedRespawn in s.tasks && IsFresh(s, pid)
    ensures LeadsBack(threshold, s, [Go(DelayedRespawn, pid)], pid)
  {
    RespawnWatches(threshold, s, pid);
    RunJust(threshold, s, Go(DelayedRespawn, pid));
  }

  lemma KillLeadsBack(threshold: nat, s: State, p: Process, pid: Pid)
    requires Safe(s) && !s.fields.stopped && Kill(p) in s.tasks && IsFresh(s, pid)
    ensures LeadsBack(threshold, s, [Go(Kill(p), pid)] + [Go(DelayedRespawn, pid)], pid)
  {
    var b := Go(Kill(p), pid);
    assert TaskOk(s, Kill(p));
    NextIsSafe(threshold, s, b);
    KillLeaves(threshold, s, p, b);
    RespawnLeadsBack(threshold, Next(threshold, s, b), pid);
    OneMoreStep(threshold, s, b, [Go(DelayedRespawn, pid)], pid);
  }

  /** From a verdict on a dead tracked process. */
  lemma DeadVerdictLeadsBack(threshold: nat, s: State, p: Process, pid: Pid) returns (events: seq<Event>)
    requires Safe(s) && !s.fields.stopped && s.fields.process == Some(p)
    requires MarkAndRespawn(p) in s.tasks && IsFresh(s, pid)
    ensures LeadsBack(threshold, s, events, pid)
  {
    var a, rest := Go(MarkAndRespawn(p), pid), [Go(Kill(p), pid)] + [Go(DelayedRespawn, pid)];
    MarkLeaves(threshold, s, p, a);
    NextIsSafe(threshold, s, a);
    KillLeadsBack(threshold, Next(threshold, s, a), p, pid);
    events := [a] + rest;
    OneMoreStep(threshold, s, a, rest, pid);
  }

  /** From a look at a process that has died. */
  lemma DeadJudgeLeadsBack(threshold: nat, s: State, p: Process, pid: Pid) returns (events: seq<Event>)
    requires Safe(s) && !s.fields.stopped && s.fields.process == Some(p) && Judge(p, false) in s.tasks && IsFresh(s, pid)
    ensures LeadsBack(threshold, s, events, pid)
  {
    var b := Go(Judge(p, false), pid);
    JudgesDeadExactlyWhen(threshold, s, p, false, b);
    NextIsSafe(threshold, s, b);
    var rest := DeadVerdictLeadsBack(threshold, Next(threshold, s, b), p, pid);
    events := [b] + rest;
    OneMoreStep(threshold, s, b, rest, pid);
  }

  lemma TickLeadsBack(threshold: nat, s: State, pid: Pid) returns (events: seq<Event>)
    requires Safe(s) && !s.fields.stopped && !Watched(s) && Tick in s.tasks && IsFresh(s, pid)
    ensures LeadsBack(threshold, s, events, pid)
  {
    var a := Go(Tick, pid);
    var rest := [Go(DelayedRespawn, pid)];
    TickAsksExactlyWhen(threshold, s, a);
    NextIsSafe(threshold, s, a);
    OnlyRespawnsLaunch(threshold, s, a);
    if s.fields.process.None? {
      RespawnLeadsBack(threshold, Next(threshold, s, a), pid);
    } else {
      rest := DeadJudgeLeadsBack(threshold, Next(threshold, s, a), s.fields.process.value, pid);
    }
    events := [a] + rest;
    OneMoreStep(threshold, s, a, rest, pid);
  }

  /** With the watchdog on, a supervisor that is not stopped comes back from every state of every run, whatever was given
      up, a clean exit and failed launches included: from the next tick its own threads lead to a live tracked process. */
  lemma WatchdogRecovers(threshold: nat, before: seq<Event>, pid: Pid) returns (events: seq<Event>)
    requires
      var s := Run(threshold, INITIAL, before);
      s.fields.watchdog && !s.fields.stopped && IsFresh(s, pid)
    ensures LeadsBack(threshold, Run(threshold, INITIAL, before), events, pid)
  {
    var s := Run(threshold, INITIAL, before);
    EveryRunIsSafe(threshold, before);
    if Watched(s) {
      events := [];
    } else {
      NextIsSafe(threshold, s, TimerFires);
      var rest := TickLeadsBack(threshold, Next(threshold, s, TimerFires), pid);
      events := [TimerFires] + rest;
      OneMoreStep(threshold, s, TimerFires, rest, pid);
    }
  }
}
