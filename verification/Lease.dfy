/** The task lock file and its lease (apps/daemon/src/persistence/lockController.ts). */
module Lease {
  import opened Common

  /** The id a daemon instance draws at random. */
  type Daemon = nat

  datatype LockRecord = LockRecord(holder: Daemon, lastHeartbeat: nat)

  type LockFile = Option<LockRecord>

  predicate IsStale(r: LockRecord, now: nat, staleAfterMs: nat) {
    now - r.lastHeartbeat >= staleAfterMs
  }

  predicate StaleFile(file: LockFile, now: nat, staleAfterMs: nat) {
    file.Some? && IsStale(file.value, now, staleAfterMs)
  }

  predicate OwnedBy(file: LockFile, d: Daemon) {
    file.Some? && file.value.holder == d
  }

  /** Exclusive creation succeeds only without a file. */
  function CreateExclusive(file: LockFile, d: Daemon, began: nat): LockFile {
    if file.None? then Some(LockRecord(d, began)) else file
  }

  function Beaten(file: LockFile, d: Daemon, now: nat): LockFile {
    if OwnedBy(file, d) then Some(LockRecord(d, now)) else file
  }

  function Released(file: LockFile, d: Daemon): LockFile {
    if OwnedBy(file, d) then None else file
  }

  datatype AcquireResult = Acquired | LockHeld

  class SharedFile {
    var content: LockFile
    constructor ()
      ensures content == None
    {
      content := None;
    }
  }

  class LockController {
    const daemonInstanceId: Daemon
    const staleAfterMs: nat
    const reclaimDelayMs: nat
    const file: SharedFile

    constructor (id: Daemon, staleAfterMs: nat, reclaimDelayMs: nat, file: SharedFile)
      ensures daemonInstanceId == id && this.staleAfterMs == staleAfterMs
      ensures this.reclaimDelayMs == reclaimDelayMs && this.file == file
    {
      daemonInstanceId, this.staleAfterMs, this.reclaimDelayMs, this.file := id, staleAfterMs, reclaimDelayMs, file;
    }

    method TryCreate(began: nat) returns (created: bool)
      modifies file
      ensures created <==> old(file.content).None?
      ensures file.content == CreateExclusive(old(file.content), daemonInstanceId, began)
    {
      if file.content.Some? {
        return false;
      }
      file.content := Some(LockRecord(daemonInstanceId, began));
      created := true;
    }

    /** An acquisition that no other daemon interferes with takes a free lock or one that is stale. */
    method Acquire(now: nat) returns (r: AcquireResult)
      modifies file
      ensures r == Acquired <==> old(file.content).None? || IsStale(old(file.content).value, now, staleAfterMs)
      ensures file.content == if r == Acquired then Some(LockRecord(daemonInstanceId, now)) else old(file.content)
    {
      var created := TryCreate(now);
      if created {
        return Acquired;
      }
      if !IsStale(file.content.value, now, staleAfterMs) {
        return LockHeld;
      }
      if !IsStale(file.content.value, now + reclaimDelayMs, staleAfterMs) {
        return LockHeld;
      }
      file.content := None;
      created := TryCreate(now);
      r := if created then Acquired else LockHeld;
    }

    method Heartbeat(now: nat) returns (ok: bool)
      modifies file
      ensures ok <==> OwnedBy(old(file.content), daemonInstanceId)
      ensures file.content == Beaten(old(file.content), daemonInstanceId, now)
    {
      if !OwnedBy(file.content, daemonInstanceId) {
        return false;
      }
      file.content := Some(LockRecord(daemonInstanceId, now));
      ok := true;
    }

    method Release() returns (ok: bool)
      modifies file
      ensures ok <==> OwnedBy(old(file.content), daemonInstanceId)
      ensures file.content == Released(old(file.content), daemonInstanceId)
    {
      if !OwnedBy(file.content, daemonInstanceId) {
        return false;
      }
      file.content := None;
      ok := true;
    }
  }

  // ---- daemons interleaved ----

  /** Where a daemon is in its acquisition, or the heartbeat it last wrote as holder. `began` is the
      time its acquisition started, which is what it will write. */
  datatype Phase =
    | Idle
    | Creating(began: nat)
    | Looking(began: nat)
    | Sleeping(began: nat)
    | Renaming(began: nat)
    | Recreating(began: nat)
    | Holding(beat: nat)

  datatype State = State(clock: nat, file: LockFile, phases: map<Daemon, Phase>)

  datatype Event =
    | Waits(ms: nat)
    | Begins(daemon: Daemon)
    | Creates(daemon: Daemon)
    | ReadsFirst(daemon: Daemon)
    | ReadsSecond(daemon: Daemon)
    | Renames(daemon: Daemon)
    | CreatesAgain(daemon: Daemon)
    | Beats(daemon: Daemon)
    | Releases(daemon: Daemon)
    | Dies(daemon: Daemon)

  function PhaseOf(s: State, d: Daemon): Phase {
    if d in s.phases then s.phases[d] else Idle
  }

  function With(s: State, d: Daemon, file: LockFile, phase: Phase): State {
    s.(file := file, phases := s.phases[d := phase])
  }

  /** Events of a daemon that is not in the phase for them change nothing. */
  function Next(staleAfterMs: nat, s: State, e: Event): State {
    match e
    case Waits(ms) => s.(clock := s.clock + ms)
    case Begins(d) => if PhaseOf(s, d) == Idle then With(s, d, s.file, Creating(s.clock)) else s
    case Creates(d) =>
      var phase := PhaseOf(s, d);
      if !phase.Creating? then s
      else With(s, d, CreateExclusive(s.file, d, phase.began), if s.file.None? then Holding(phase.began) else Looking(phase.began))
    case ReadsFirst(d) =>
      var phase := PhaseOf(s, d);
      if !phase.Looking? then s
      else With(s, d, s.file, if StaleFile(s.file, s.clock, staleAfterMs) then Sleeping(phase.began) else Idle)
    case ReadsSecond(d) =>
      var phase := PhaseOf(s, d);
      if !phase.Sleeping? then s
      else With(s, d, s.file, if StaleFile(s.file, s.clock, staleAfterMs) then Renaming(phase.began) else Idle)
    case Renames(d) =>
      var phase := PhaseOf(s, d);
      if !phase.Renaming? then s
      else With(s, d, None, if s.file.Some? then Recreating(phase.began) else Idle)
    case CreatesAgain(d) =>
      var phase := PhaseOf(s, d);
      if !phase.Recreating? then s
      else With(s, d, CreateExclusive(s.file, d, phase.began), if s.file.None? then Holding(phase.began) else Idle)
    case Beats(d) =>
      var phase := PhaseOf(s, d);
      if !phase.Holding? then s
      else With(s, d, Beaten(s.file, d, s.clock), if OwnedBy(s.file, d) then Holding(s.clock) else phase)
    case Releases(d) => if PhaseOf(s, d).Holding? then With(s, d, Released(s.file, d), Idle) else s
    case Dies(d) => With(s, d, s.file, Idle)
  }

  function Run(staleAfterMs: nat, s: State, events: seq<Event>): State
    decreases |events|
  {
    if events == [] then s else Run(staleAfterMs, Next(staleAfterMs, s, events[0]), events[1..])
  }

  /** The daemon holds a lease younger than `staleAfterMs`. */
  predicate HoldsFresh(staleAfterMs: nat, s: State, d: Daemon) {
    PhaseOf(s, d).Holding? && s.clock - PhaseOf(s, d).beat < staleAfterMs
  }

  /** A fresh lease is the one in the file. */
  ghost predicate LeaseInFile(staleAfterMs: nat, s: State) {
    forall d :: HoldsFresh(staleAfterMs, s, d) ==> s.file == Some(LockRecord(d, PhaseOf(s, d).beat))
  }

  ghost predicate AtMostOneFresh(staleAfterMs: nat, s: State) {
    forall d, e :: HoldsFresh(staleAfterMs, s, d) && HoldsFresh(staleAfterMs, s, e) ==> d == e
  }

  /** The file that a rename takes away, if this is one, is still stale. */
  predicate RenamesStale(staleAfterMs: nat, s: State, e: Event) {
    e.Renames? && PhaseOf(s, e.daemon).Renaming? && s.file.Some? ==> StaleFile(s.file, s.clock, staleAfterMs)
  }

  ghost predicate AllRenameStale(staleAfterMs: nat, s: State, events: seq<Event>)
    decreases |events|
  {
    events == []
    || (RenamesStale(staleAfterMs, s, events[0])
        && AllRenameStale(staleAfterMs, Next(staleAfterMs, s, events[0]), events[1..]))
  }

  lemma StepKeepsLease(staleAfterMs: nat, s: State, e: Event)
    requires LeaseInFile(staleAfterMs, s) && RenamesStale(staleAfterMs, s, e)
    ensures LeaseInFile(staleAfterMs, Next(staleAfterMs, s, e))
  {
    var s' := Next(staleAfterMs, s, e);
    forall d | HoldsFresh(staleAfterMs, s', d) ensures s'.file == Some(LockRecord(d, PhaseOf(s', d).beat)) {
      var acted := e.Creates? || e.CreatesAgain? || e.Beats?;
      if !acted || d != e.daemon {
        assert HoldsFresh(staleAfterMs, s, d);
      }
    }
  }

  /** Lease safety: when every rename takes away a stale file, there is at every time at most one
      daemon with a lease younger than `staleAfterMs`, wherever daemons die and wait. */
  lemma {:induction false} AtMostOneLease(staleAfterMs: nat, s: State, events: seq<Event>)
    requires LeaseInFile(staleAfterMs, s) && AllRenameStale(staleAfterMs, s, events)
    ensures LeaseInFile(staleAfterMs, Run(staleAfterMs, s, events))
    ensures AtMostOneFresh(staleAfterMs, Run(staleAfterMs, s, events))
    decreases |events|
  {
    if events != [] {
      StepKeepsLease(staleAfterMs, s, events[0]);
      AtMostOneLease(staleAfterMs, Next(staleAfterMs, s, events[0]), events[1..]);
    } else {
      assert Run(staleAfterMs, s, events) == s;
    }
  }

  // ---- second read and rename as one step ----

  ghost predicate NobodyRenames(s: State) {
    forall d :: !PhaseOf(s, d).Renaming?
  }

  /** Nothing happens between a daemon's second read and its rename. */
  ghost predicate ReadsThenRenames(events: seq<Event>) {
    forall i :: 0 <= i && i + 1 < |events| && events[i].ReadsSecond? ==> events[i + 1] == Renames(events[i].daemon)
  }

  lemma NobodyRenamesAfter(staleAfterMs: nat, s: State, e: Event)
    requires NobodyRenames(s) && !e.ReadsSecond?
    ensures NobodyRenames(Next(staleAfterMs, s, e))
  {
    var s' := Next(staleAfterMs, s, e);
    forall d ensures !PhaseOf(s', d).Renaming? {
      assert !PhaseOf(s, d).Renaming?;
    }
  }

  lemma AtomicPair(staleAfterMs: nat, s: State, d: Daemon)
    requires NobodyRenames(s)
    ensures
      var s1 := Next(staleAfterMs, s, ReadsSecond(d));
      RenamesStale(staleAfterMs, s1, Renames(d)) && NobodyRenames(Next(staleAfterMs, s1, Renames(d)))
  {
    var s1 := Next(staleAfterMs, s, ReadsSecond(d));
    var s2 := Next(staleAfterMs, s1, Renames(d));
    assert !PhaseOf(s, d).Renaming?;
    forall x ensures !PhaseOf(s2, x).Renaming? {
      assert !PhaseOf(s, x).Renaming?;
    }
  }

  /** So every rename of such a run takes away a stale file. */
  lemma {:induction false} AtomicRunsRenameStale(staleAfterMs: nat, s: State, events: seq<Event>)
    requires NobodyRenames(s) && ReadsThenRenames(events)
    ensures AllRenameStale(staleAfterMs, s, events)
    decreases |events|
  {
    if events == [] {
    } else if events[0].ReadsSecond? && |events| > 1 {
      var s1 := Next(staleAfterMs, s, events[0]);
      var rest := events[2..];
      assert events[1] == Renames(events[0].daemon);
      AtomicPair(staleAfterMs, s, events[0].daemon);
      AtomicRunsRenameStale(staleAfterMs, Next(staleAfterMs, s1, events[1]), rest);
      assert events[1..][1..] == rest;
    } else if events[0].ReadsSecond? {
      assert events[1..] == [];
    } else {
      NobodyRenamesAfter(staleAfterMs, s, events[0]);
      AtomicRunsRenameStale(staleAfterMs, Next(staleAfterMs, s, events[0]), events[1..]);
    }
  }

  /** With the second read and the rename as one step, from a task without a lock file, at every moment
      of every run at most one daemon holds a fresh lease. */
  lemma AtomicReclaimIsSafe(staleAfterMs: nat, clock: nat, events: seq<Event>)
    requires ReadsThenRenames(events)
    ensures forall k :: 0 <= k <= |events| ==>
              AtMostOneFresh(staleAfterMs, Run(staleAfterMs, State(clock, None, map[]), events[..k]))
  {
    forall k | 0 <= k <= |events|
      ensures AtMostOneFresh(staleAfterMs, Run(staleAfterMs, State(clock, None, map[]), events[..k]))
    {
      AtomicRunsRenameStale(staleAfterMs, State(clock, None, map[]), events[..k]);
      AtMostOneLease(staleAfterMs, State(clock, None, map[]), events[..k]);
    }
  }

  // ---- exactly when a rename is safe ----

  /** However the run goes on with stale renames only, at most one daemon holds a fresh lease. */
  ghost predicate SafeFromHere(staleAfterMs: nat, s: State) {
    forall events :: AllRenameStale(staleAfterMs, s, events) ==> AtMostOneFresh(staleAfterMs, Run(staleAfterMs, s, events))
  }

  ghost predicate NobodyHoldsFresh(staleAfterMs: nat, s: State) {
    forall d :: !HoldsFresh(staleAfterMs, s, d)
  }

  /** A rename is safe, for everything that can follow it, exactly when no daemon holds a fresh lease:
      otherwise a newcomer creates the file at once and there are two. */
  lemma RenameIsSafeExactlyWhen(staleAfterMs: nat, s: State, d: Daemon)
    requires staleAfterMs > 0 && LeaseInFile(staleAfterMs, s) && PhaseOf(s, d).Renaming?
    ensures SafeFromHere(staleAfterMs, Next(staleAfterMs, s, Renames(d))) <==> NobodyHoldsFresh(staleAfterMs, s)
  {
    var s' := Next(staleAfterMs, s, Renames(d));
    if NobodyHoldsFresh(staleAfterMs, s) {
      forall x ensures HoldsFresh(staleAfterMs, s', x) <==> HoldsFresh(staleAfterMs, s, x) {
      }
      forall events | AllRenameStale(staleAfterMs, s', events)
        ensures AtMostOneFresh(staleAfterMs, Run(staleAfterMs, s', events))
      {
        AtMostOneLease(staleAfterMs, s', events);
      }
    } else {
      var holder :| HoldsFresh(staleAfterMs, s, holder);
      NewcomerMakesTwo(staleAfterMs, s', holder);
    }
  }

  lemma NewcomerMakesTwo(staleAfterMs: nat, s: State, holder: Daemon)
    requires staleAfterMs > 0 && s.file.None? && HoldsFresh(staleAfterMs, s, holder)
    ensures !SafeFromHere(staleAfterMs, s)
  {
    var newcomer := Unused(s.phases.Keys);
    var events := [Begins(newcomer), Creates(newcomer)];
    assert events[0..] == events && events[2..] == [];
    var s1 := RunFrom(staleAfterMs, s, events, 0);
    var s2 := RunFrom(staleAfterMs, s1, events, 1);
    assert AllRenameStale(staleAfterMs, s1, events[1..]);
    assert AllRenameStale(staleAfterMs, s, events);
    assert HoldsFresh(staleAfterMs, s2, newcomer) && HoldsFresh(staleAfterMs, s2, holder);
    assert !AtMostOneFresh(staleAfterMs, Run(staleAfterMs, s, events));
  }

  lemma {:induction false} Unused(ids: set<Daemon>) returns (id: Daemon)
    ensures forall x :: x in ids ==> x < id
    decreases ids
  {
    id := 0;
    if ids != {} {
      var x :| x in ids;
      var above := Unused(ids - {x});
      id := if above > x then above else x + 1;
      assert forall y :: y in ids ==> y == x || y in ids - {x};
    }
  }

  // ---- the check the code could make at the rename ----

  /** What the file says about its holder is the holder's last heartbeat. */
  ghost predicate BeatInFile(s: State) {
    s.file.Some? && PhaseOf(s, s.file.value.holder).Holding? ==>
      PhaseOf(s, s.file.value.holder).beat == s.file.value.lastHeartbeat
  }

  lemma {:induction false} BeatStaysInFile(staleAfterMs: nat, s: State, events: seq<Event>)
    requires BeatInFile(s)
    ensures BeatInFile(Run(staleAfterMs, s, events))
    decreases |events|
  {
    if events != [] {
      BeatStaysInFile(staleAfterMs, Next(staleAfterMs, s, events[0]), events[1..]);
    }
  }

  /** Reading the file once more at the rename and finding it stale is enough. It is also needed,
      except when the daemon that made the fresh file holds nothing any more, because it has died. */
  lemma StaleAgainAtRename(staleAfterMs: nat, s: State)
    requires LeaseInFile(staleAfterMs, s) && BeatInFile(s) && s.file.Some?
    ensures NobodyHoldsFresh(staleAfterMs, s) <==>
            StaleFile(s.file, s.clock, staleAfterMs) || !PhaseOf(s, s.file.value.holder).Holding?
  {
    var holder := s.file.value.holder;
    if PhaseOf(s, holder).Holding? && !StaleFile(s.file, s.clock, staleAfterMs) {
      assert HoldsFresh(staleAfterMs, s, holder);
    }
  }

  /** Two daemons read the same stale file; the second renames away the lease the first has just made. */
  function LateRename(d: Daemon, e: Daemon): seq<Event> {
    [Begins(d), Creates(d), ReadsFirst(d), ReadsSecond(d), Begins(e), Creates(e), ReadsFirst(e), ReadsSecond(e),
     Renames(d), CreatesAgain(d), Renames(e), CreatesAgain(e)]
  }

  lemma LateRenameGivesTwoLeases(staleAfterMs: nat, previous: Daemon, d: Daemon, e: Daemon)
    requires staleAfterMs > 0 && d != e
    ensures
      var s := State(staleAfterMs, Some(LockRecord(previous, 0)), map[]);
      var s' := Run(staleAfterMs, s, LateRename(d, e));
      HoldsFresh(staleAfterMs, s', d) && HoldsFresh(staleAfterMs, s', e)
  {
    var events := LateRename(d, e);
    var t := staleAfterMs;
    var s := State(t, Some(LockRecord(previous, 0)), map[]);
    var s4 := BothRead(t, s, d, events, 0);
    var s8 := BothRead(t, s4, e, events, 4);
    assert events[0..] == events;
    BothRename(t, s8, d, e);
  }

  lemma BothRename(staleAfterMs: nat, s: State, d: Daemon, e: Daemon)
    requires staleAfterMs > 0 && d != e && s.file.Some?
    requires PhaseOf(s, d) == Renaming(s.clock) && PhaseOf(s, e) == Renaming(s.clock)
    ensures
      var s' := Run(staleAfterMs, s, LateRename(d, e)[8..]);
      HoldsFresh(staleAfterMs, s', d) && HoldsFresh(staleAfterMs, s', e)
  {
    var events := LateRename(d, e);
    var s9 := RunFrom(staleAfterMs, s, events, 8);
    var s10 := RunFrom(staleAfterMs, s9, events, 9);
    var s11 := RunFrom(staleAfterMs, s10, events, 10);
    var s12 := RunFrom(staleAfterMs, s11, events, 11);
    assert events[12..] == [];
  }

  /** One daemon up to its second read of a stale file. */
  lemma BothRead(staleAfterMs: nat, s: State, d: Daemon, events: seq<Event>, k: nat) returns (s': State)
    requires k + 4 <= |events| && PhaseOf(s, d) == Idle && StaleFile(s.file, s.clock, staleAfterMs)
    requires events[k..k + 4] == [Begins(d), Creates(d), ReadsFirst(d), ReadsSecond(d)]
    ensures Run(staleAfterMs, s, events[k..]) == Run(staleAfterMs, s', events[k + 4..])
    ensures s'.clock == s.clock && s'.file == s.file && PhaseOf(s', d) == Renaming(s.clock)
    ensures forall e :: e != d ==> PhaseOf(s', e) == PhaseOf(s, e)
  {
    var part := events[k..k + 4];
    assert part[0] == events[k] && part[1] == events[k + 1] && part[2] == events[k + 2] && part[3] == events[k + 3];
    var s1 := RunFrom(staleAfterMs, s, events, k);
    var s2 := RunFrom(staleAfterMs, s1, events, k + 1);
    var s3 := RunFrom(staleAfterMs, s2, events, k + 2);
    s' := RunFrom(staleAfterMs, s3, events, k + 3);
  }

  lemma RunFrom(staleAfterMs: nat, s: State, events: seq<Event>, k: nat) returns (s': State)
    requires k < |events|
    ensures s' == Next(staleAfterMs, s, events[k])
    ensures Run(staleAfterMs, s, events[k..]) == Run(staleAfterMs, s', events[k + 1..])
  {
    s' := Next(staleAfterMs, s, events[k]);
    assert events[k..][1..] == events[k + 1..];
  }

  // ---- an acquisition nobody disturbs ----

  /** The events of one acquisition, with the sleep before the second read. */
  function Acquisition(d: Daemon, reclaimDelayMs: nat): seq<Event> {
    [Begins(d), Creates(d), ReadsFirst(d), Waits(reclaimDelayMs), ReadsSecond(d), Renames(d), CreatesAgain(d)]
  }

  /** Undisturbed, the events end as the method `Acquire` does: the lock is taken exactly when it was
      free or stale, with the time the acquisition began as its first heartbeat. */
  lemma AcquisitionIsAcquire(staleAfterMs: nat, s: State, d: Daemon, reclaimDelayMs: nat)
    requires PhaseOf(s, d) == Idle
    ensures
      var s' := Run(staleAfterMs, s, Acquisition(d, reclaimDelayMs));
      var taken := s.file.None? || IsStale(s.file.value, s.clock, staleAfterMs);
      && s'.file == (if taken then Some(LockRecord(d, s.clock)) else s.file)
      && PhaseOf(s', d) == (if taken then Holding(s.clock) else Idle)
  {
    var events := Acquisition(d, reclaimDelayMs);
    var s1 := RunFrom(staleAfterMs, s, events, 0);
    var s2 := RunFrom(staleAfterMs, s1, events, 1);
    var s3 := RunFrom(staleAfterMs, s2, events, 2);
    var s4 := RunFrom(staleAfterMs, s3, events, 3);
    assert events[0..] == events;
    Reclaims(staleAfterMs, s4, d, events);
  }

  lemma Reclaims(staleAfterMs: nat, s: State, d: Daemon, events: seq<Event>)
    requires |events| == 7 && events[4..] == [ReadsSecond(d), Renames(d), CreatesAgain(d)]
    requires PhaseOf(s, d).Sleeping? || PhaseOf(s, d).Holding? || PhaseOf(s, d).Idle?
    requires PhaseOf(s, d).Sleeping? ==> StaleFile(s.file, s.clock, staleAfterMs)
    ensures
      var s' := Run(staleAfterMs, s, events[4..]);
      if PhaseOf(s, d).Sleeping? then
        s'.file == Some(LockRecord(d, PhaseOf(s, d).began)) && PhaseOf(s', d) == Holding(PhaseOf(s, d).began)
      else s' == s
  {
    var part := events[4..];
    assert events[4] == part[0] && events[5] == part[1] && events[6] == part[2];
    var s5 := RunFrom(staleAfterMs, s, events, 4);
    var s6 := RunFrom(staleAfterMs, s5, events, 5);
    var s7 := RunFrom(staleAfterMs, s6, events, 6);
    assert events[7..] == [];
  }

  // ---- a holder that beats in time ----

  /** The daemon holds the lock, the file says so, and its heartbeat is `age` old. */
  predicate Holds(s: State, d: Daemon, age: nat) {
    && PhaseOf(s, d).Holding? && s.file == Some(LockRecord(d, PhaseOf(s, d).beat))
    && s.clock == PhaseOf(s, d).beat + age
  }

  /** Between any two heartbeats of the daemon, the last of which is `age` old, less than `staleAfterMs` goes by, and it
      neither releases the lock nor dies. */
  predicate BeatsInTime(staleAfterMs: nat, age: nat, d: Daemon, events: seq<Event>)
    decreases |events|
  {
    events == []
    || match events[0]
       case Waits(ms) => age + ms < staleAfterMs && BeatsInTime(staleAfterMs, age + ms, d, events[1..])
       case Beats(x) => BeatsInTime(staleAfterMs, if x == d then 0 else age, d, events[1..])
       case Releases(x) => x != d && BeatsInTime(staleAfterMs, age, d, events[1..])
       case Dies(x) => x != d && BeatsInTime(staleAfterMs, age, d, events[1..])
       case _ => BeatsInTime(staleAfterMs, age, d, events[1..])
  }

  /** How old the last heartbeat is after an event. */
  function AgeAfter(age: nat, d: Daemon, e: Event): nat {
    match e
    case Waits(ms) => age + ms
    case Beats(x) => if x == d then 0 else age
    case _ => age
  }

  lemma HolderStays(staleAfterMs: nat, s: State, d: Daemon, age: nat, e: Event)
    requires Holds(s, d, age) && age < staleAfterMs && NobodyRenames(s)
    requires e != Releases(d) && e != Dies(d)
    ensures Holds(Next(staleAfterMs, s, e), d, AgeAfter(age, d, e)) && NobodyRenames(Next(staleAfterMs, s, e))
  {
    var s' := Next(staleAfterMs, s, e);
    assert !StaleFile(s.file, s.clock, staleAfterMs);
    if e.Renames? { assert !PhaseOf(s, e.daemon).Renaming?; }
    forall x ensures !PhaseOf(s', x).Renaming? {
      assert !PhaseOf(s, x).Renaming?;
    }
  }

  /** A holder that beats in time is never found stale and keeps the lock, whatever the others do, in every run that
      begins when nobody is about to rename. Its heartbeats renew the lease. */
  lemma {:induction false} BeatingHolderKeepsTheLock(staleAfterMs: nat, s: State, d: Daemon, age: nat, events: seq<Event>)
    requires Holds(s, d, age) && age < staleAfterMs && NobodyRenames(s) && BeatsInTime(staleAfterMs, age, d, events)
    ensures
      var s' := Run(staleAfterMs, s, events);
      && HoldsFresh(staleAfterMs, s', d) && s'.file == Some(LockRecord(d, PhaseOf(s', d).beat))
      && !StaleFile(s'.file, s'.clock, staleAfterMs) && NobodyRenames(s')
    decreases |events|
  {
    if events != [] {
      HolderStays(staleAfterMs, s, d, age, events[0]);
      BeatingHolderKeepsTheLock(staleAfterMs, Next(staleAfterMs, s, events[0]), d, AgeAfter(age, d, events[0]), events[1..]);
    }
  }

  /** A release by the holder frees the lock at once, and by anybody else it changes nothing in the file. */
  lemma ReleaseFreesExactlyWhen(staleAfterMs: nat, s: State, d: Daemon)
    requires PhaseOf(s, d).Holding?
    ensures
      var s' := Next(staleAfterMs, s, Releases(d));
      && PhaseOf(s', d) == Idle
      && s'.file == (if s.file.Some? && s.file.value.holder == d then None else s.file)
  {
  }

  /** The lock of a holder that has died is taken by an undisturbed acquisition if and only if, when that begins, at least
      `staleAfterMs` has gone by since the last heartbeat. */
  lemma AbandonedLockIsTakenExactlyWhen(
      staleAfterMs: nat, s: State, d: Daemon, age: nat, ms: nat, taker: Daemon, reclaimDelayMs: nat)
    requires Holds(s, d, age) && taker != d && PhaseOf(s, taker) == Idle
    ensures
      var abandoned := Next(staleAfterMs, Next(staleAfterMs, s, Dies(d)), Waits(ms));
      var s' := Run(staleAfterMs, abandoned, Acquisition(taker, reclaimDelayMs));
      && (PhaseOf(s', taker).Holding? <==> age + ms >= staleAfterMs)
      && s'.file == (if age + ms >= staleAfterMs then Some(LockRecord(taker, s.clock + ms)) else s.file)
  {
    var abandoned := Next(staleAfterMs, Next(staleAfterMs, s, Dies(d)), Waits(ms));
    AcquisitionIsAcquire(staleAfterMs, abandoned, taker, reclaimDelayMs);
  }

  // ---- a reclaimed daemon ----

  /** The daemon still believes it holds the lock, but the file is gone or names another. */
  predicate Reclaimed(s: State, d: Daemon) {
    PhaseOf(s, d).Holding? && !OwnedBy(s.file, d)
  }

  /** However the run continues, as long as the daemon neither releases nor dies, it stays reclaimed;
      and its heartbeats and its release leave the file to whoever has it. */
  lemma {:induction false} ReclaimedCannotTouch(staleAfterMs: nat, s: State, d: Daemon, events: seq<Event>)
    requires Reclaimed(s, d) && forall i :: 0 <= i < |events| ==> events[i] != Releases(d) && events[i] != Dies(d)
    ensures
      var s' := Run(staleAfterMs, s, events);
      && Reclaimed(s', d)
      && Next(staleAfterMs, s', Beats(d)) == s'
      && Next(staleAfterMs, s', Releases(d)).file == s'.file
    decreases |events|
  {
    if events != [] {
      ReclaimedCannotTouch(staleAfterMs, Next(staleAfterMs, s, events[0]), d, events[1..]);
    }
  }
}
