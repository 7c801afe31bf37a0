/** The daemon supervisor of the Mac app
    (apps/mac/Sources/OperatorDockCore/Services/DaemonSupervisor.swift). Each method here is one
    critical section; what a thread does between two of them is in module SupervisorRuns. */
module DaemonSupervisor {
  import opened Common

  type Pid = nat

  /** A `Process` object, numbered in the order of creation. */
  type Process = nat

  /** The lock-protected fields. */
  datatype Guarded = Guarded(
    process: Option<Process>, watchdog: bool, checkInFlight: bool, failures: nat, stopped: bool)

  predicate IsRunning(process: Option<Process>, alive: set<Process>) {
    process.Some? && process.value in alive
  }

  predicate HasPid(process: Option<Process>, pids: seq<Pid>, pid: Pid) {
    process.Some? && process.value < |pids| && pids[process.value] == pid
  }

  // ---- the critical sections as functions of the fields ----

  /** `spawned` is the process that launching yields, or none when launching throws. */
  function StartLocked(g: Guarded, spawned: Option<Process>): Guarded {
    if spawned.None? then g else g.(process := spawned, failures := 0)
  }

  datatype StartResult = Started | AlreadyRunning | LaunchFailed

  function Start(g: Guarded, alive: set<Process>, spawned: Option<Process>): (Guarded, StartResult) {
    if IsRunning(g.process, alive) then (g, AlreadyRunning)
    else
      var launched := StartLocked(g.(stopped := false), spawned);
      if spawned.None? then (launched, LaunchFailed) else (launched.(watchdog := true), Started)
  }

  function Stop(g: Guarded): (Guarded, Option<Process>) {
    (g.(stopped := true, watchdog := false, process := None), g.process)
  }

  function HandleTermination(g: Guarded, terminated: Process, crashed: bool): (Guarded, bool) {
    if g.process != Some(terminated) then (g, false)
    else (g.(process := None), !g.stopped && crashed)
  }

  function RespawnIfNeeded(g: Guarded, alive: set<Process>, spawned: Option<Process>): Guarded {
    if g.stopped || IsRunning(g.process, alive) then g else StartLocked(g, spawned)
  }

  function Snapshot(g: Guarded): Option<Process> {
    if g.stopped then None else g.process
  }

  function BeginHealthCheck(g: Guarded): (Guarded, bool) {
    if g.checkInFlight then (g, false) else (g.(checkInFlight := true), true)
  }

  function FinishHealthCheck(g: Guarded, pids: seq<Pid>, pid: Pid, healthy: bool, threshold: nat): (Guarded, bool) {
    var g' := g.(checkInFlight := false);
    if g.stopped || !HasPid(g.process, pids, pid) then (g', false)
    else if healthy then (g'.(failures := 0), false)
    else (g'.(failures := g.failures + 1), g.failures + 1 >= threshold)
  }

  function MarkProcessUnhealthy(g: Guarded, pids: seq<Pid>, pid: Pid): (Guarded, Option<Process>) {
    if g.stopped || !HasPid(g.process, pids, pid) then (g, None)
    else (g.(process := None, failures := 0), g.process)
  }

  class Supervisor {
    const healthFailureThreshold: nat
    var process: Option<Process>
    var watchdog: bool
    var watchdogCheckInFlight: bool
    var consecutiveHealthFailures: nat
    var stoppedIntentionally: bool

    constructor (healthFailureThreshold: nat)
      ensures this.healthFailureThreshold == healthFailureThreshold
      ensures Fields() == Guarded(None, false, false, 0, false)
    {
      this.healthFailureThreshold := healthFailureThreshold;
      process, watchdog, watchdogCheckInFlight, consecutiveHealthFailures, stoppedIntentionally := None, false, false, 0, false;
    }

    function Fields(): Guarded
      reads this
    {
      Guarded(process, watchdog, watchdogCheckInFlight, consecutiveHealthFailures, stoppedIntentionally)
    }

    method LaunchLocked(spawned: Option<Process>) returns (launched: bool)
      modifies this
      ensures Fields() == StartLocked(old(Fields()), spawned) && launched == spawned.Some?
    {
      if spawned.None? {
        return false;
      }
      process := spawned;
      consecutiveHealthFailures := 0;
      launched := true;
    }

    method StartDaemon(alive: set<Process>, spawned: Option<Process>) returns (r: StartResult)
      modifies this
      ensures (Fields(), r) == Start(old(Fields()), alive, spawned)
    {
      if IsRunning(process, alive) {
        return AlreadyRunning;
      }
      stoppedIntentionally := false;
      var launched := LaunchLocked(spawned);
      if !launched {
        return LaunchFailed;
      }
      if !watchdog {
        watchdog := true;
      }
      r := Started;
    }

    method StopDaemon() returns (running: Option<Process>)
      modifies this
      ensures (Fields(), running) == Stop(old(Fields()))
    {
      stoppedIntentionally := true;
      watchdog := false;
      running := process;
      process := None;
    }

    method OnTermination(terminated: Process, crashed: bool) returns (shouldRespawn: bool)
      modifies this
      ensures (Fields(), shouldRespawn) == HandleTermination(old(Fields()), terminated, crashed)
    {
      if process != Some(terminated) {
        return false;
      }
      process := None;
      shouldRespawn := !stoppedIntentionally && crashed;
    }

    method Respawn(alive: set<Process>, spawned: Option<Process>)
      modifies this
      ensures Fields() == RespawnIfNeeded(old(Fields()), alive, spawned)
    {
      if stoppedIntentionally || IsRunning(process, alive) {
        return;
      }
      var _ := LaunchLocked(spawned);
    }

    /** What a watchdog tick reads under the lock. */
    function TickSnapshot(): Option<Process>
      reads this
    {
      Snapshot(Fields())
    }

    method TryBeginCheck() returns (shouldStart: bool)
      modifies this
      ensures (Fields(), shouldStart) == BeginHealthCheck(old(Fields()))
    {
      if watchdogCheckInFlight {
        return false;
      }
      watchdogCheckInFlight := true;
      shouldStart := true;
    }

    method FinishCheck(pids: seq<Pid>, pid: Pid, healthy: bool) returns (shouldRespawn: bool)
      modifies this
      ensures (Fields(), shouldRespawn) == FinishHealthCheck(old(Fields()), pids, pid, healthy, healthFailureThreshold)
    {
      watchdogCheckInFlight := false;
      if stoppedIntentionally || !HasPid(process, pids, pid) {
        return false;
      }
      if healthy {
        consecutiveHealthFailures := 0;
        return false;
      }
      consecutiveHealthFailures := consecutiveHealthFailures + 1;
      shouldRespawn := consecutiveHealthFailures >= healthFailureThreshold;
    }

    method MarkUnhealthy(pids: seq<Pid>, pid: Pid) returns (stale: Option<Process>)
      modifies this
      ensures (Fields(), stale) == MarkProcessUnhealthy(old(Fields()), pids, pid)
    {
      if stoppedIntentionally || !HasPid(process, pids, pid) {
        return None;
      }
      stale := process;
      process := None;
      consecutiveHealthFailures := 0;
    }
  }
}
