# Operator Dock daemon: verified model

A Dafny 4.11 model of the parts of the Operator Dock daemon that must be right when the process dies at
the wrong moment, and of the plan engine that drives it. `dafny verify dfyconfig.toml` checks everything.

## How the model is built

- **Specification and machine.** Code that changes things step by step is a class whose methods have the
  source's loops and branches. Each method is proved equal to a function of the old state; the theorems are
  lemmas about those functions over every run.
- **Said twice.** The functions follow the source's branches; what they amount to is also stated without them: when
  each event is recorded, when a call starts, which files are accepted, when a process is launched (the lemmas named
  `...ExactlyWhen`, and `LogVerification`, `LoopOutcomes`, `Outsiders`, `RuntimeOutcomes`, `RuntimeRuns`, `SupervisorLiveness`).
- **Crashes.** Every durable action (a log append, a cache write, a rename) is one step. An operation is the
  list of its steps, and a crash keeps a prefix of that list; volatile state is lost. Writes to the encrypted
  log and to checkpoints are cut at any byte.
- **Cryptography.** SHA-256 and HMAC are free constructors over what they hash, so equal digests mean equal
  preimages. AES-GCM is any pair of functions that open what was sealed and seal to at least 28 bytes.
  Bodies of 4 GiB and more are an error path of the append.
- **The outside.** Answers of the model router, tools, safety governor, budgets, clocks, random bytes and the
  operating system are parameters that a theorem ranges over.

| file | component |
|---|---|
| `FrameCodec`, `RecordFile`, `EventStore`, `EventLogSafety`, `LogVerification` | encrypted record file, hash-chained event log, its guarantees, what verification accepts and rejects |
| `Uuid`, `StringOrder`, `Checkpoints` | time-ordered ids and the newest valid checkpoint |
| `Graph`, `Planner`, `StepSelection`, `Taint` | plan validation and revision, step selection, taint |
| `AgentLoop`, `AgentLoopSafety`, `LoopOutcomes`, `Verifiers` | the agent loop over its event log, what holds in every run, when each event is recorded, step and goal verification |
| `ContextEngine` | context packing |
| `Disk`, `IdempotencyStore`, `FsToolService`, `AppendEffects`, `TransferEffects` | idempotent file effects |
| `Apart`, `AppendOnce`, `TransferOnce`, `Outsiders` | one file effect among others that leave its key and files alone, and any file effects among edits by others |
| `ToolRuntime`, `Effects`, `ToolRuntimeSafety`, `Reconciliation` | execution, approvals, orphan reconciliation, file effects end to end |
| `RuntimeOutcomes`, `RuntimeRuns` | when a call starts and what it leaves, what a reconciliation does, how often a tool starts in every run |
| `StepEffects` | the agent loop joined with the runtime: how often a step takes effect |
| `DaemonSupervisor`, `SupervisorRuns`, `SupervisorLiveness` | the Mac app's supervisor, its interleavings, and that it brings the daemon back |
| `Lease` | the task lock |

## Where the code does less than one might expect

Each of these is shown by a lemma, next to one that says exactly when the good case holds.

- A failed verification and the invalidation of the plan are two appends. If the daemon dies between them, the
  next iteration can complete the loop over the failed step (`CutFailureCompletes`; `CompletionIsVerifiedExactlyWhen`
  gives the exact condition on the log before the completing iteration, `CompletionMeansVerified` the runs that meet it).
- The loop draws a new key for every call of a step, and an approval is carried out outside the loop. A step whose
  tool asks for an approval of every call, as appends, copies and moves do, is therefore never verified
  (`AskingNeverVerifies`). A granted append adds its content if and only if its execution passes the checks, it
  succeeds, its after-image is not in place yet, and its write is not cut off (`RoundAddsExactlyWhen`); grants of one
  key add it at most once, and grants of different keys each add it (`EveryKeyCopiesOnce`, `LandsOnceExactlyWhen`).
- A call of any tool that is let through and cut off before its verdict is made again, under a new key
  (`UnrecordedCallRepeats`).
- A granted append that crashed before its write is reconciled only until the loop's next iteration: then the intent
  that the loop adds for its own call hides it for good (`CrashedGrantIsHidden`, `AskingLeavesOrphanExactlyWhen`).
- A re-execution that is rejected before it starts returns a terminal status but writes no result, so the orphan
  stays and every later reconciliation repeats it (`DeniedReexecutionRepeats`, `NextReconcileIsQuietExactlyWhen`).
- Only the last intent is ever reconciled: an orphan with a later intent behind it is never answered
  (`HiddenIsNeverAnswered`).
- Two keys with equal contents prepared on the same bytes both report success over one write, because the
  after-image is recognised by its hash (`EqualContentsShareAWrite`, `WritesExactlyWhen`).
- Moving a file onto itself succeeds and leaves the source (`SourceIsGoneUnlessSelfMove`, in both directions).
- A replay of a mutation recorded as applied reports success without looking at the files, which others may have
  changed since; in every other case a success is right about the target (`AppliedReplayIgnoresEdits`, `AnswersAreRight`).
- The second staleness read of a lock and the rename that reclaims it are two steps; a late rename takes away a
  fresh lease and two daemons hold one (`LateRenameGivesTwoLeases`, `RenameIsSafeExactlyWhen`). As one step they are
  safe in every run (`AtomicReclaimIsSafe`).
- The supervisor kills by pid, so a reused pid redirects a pending kill (`ReusedPidIsKilled`,
  `SignalledNextExactlyWhen`).
- After a clean exit of the tracked process, or a launch that fails, no thread of the supervisor is left to bring the
  daemon back before the watchdog's next tick (`StaysAttended`, `CallbackRespawnsExactlyWhen`, `WatchdogRecovers`).
- Identifiers increase, whatever the random bytes, if and only if the clock never goes back, no millisecond sees more
  than 4096 calls, and no process is called in the millisecond of the last call before it was started (`TimeOrdered`).
- Steps that tie, down to ids that the collation calls equal, are selected in the order of the plan's list
  (`ListingIrrelevantExactlyWhen`, `OrderIrrelevant`).

## Model

| member | source | states |
|---|---|---|
| FrameCodec.LengthRoundTrip | apps/daemon/src/persistence/encryptedRecordCodec.ts:28-29 | reading back a written 32-bit big-endian length gives the length, for every length that fits |
| FrameCodec.ParsePrinted | apps/daemon/src/persistence/encryptedRecordCodec.ts:58-88 | the reader is the inverse of the encoder: concatenated frames followed by any torn frame parse to exactly those frames with exact end offsets, and the boundary is right after the last |
| FrameCodec.TornTailStops | apps/daemon/src/persistence/encryptedRecordCodec.ts:59-70 | a strict prefix of a frame is never taken for a record |
| FrameCodec.RawsCoverPrefix | apps/daemon/src/persistence/encryptedRecordCodec.ts:72-87 | on arbitrary bytes, the raw records are, in order, exactly the bytes up to the boundary |
| FrameCodec.TruncationKeepsFrames | apps/daemon/src/persistence/encryptedRecordCodec.ts:107-111 | cutting at the boundary keeps every frame and leaves no tail, so truncating reads are idempotent |
| FrameCodec.PrefixFrames | apps/daemon/src/persistence/encryptedRecordCodec.ts:58-88 | a byte prefix of a file parses to a prefix of its frames |
| RecordFile.RecordFile.ReadRecords | apps/daemon/src/persistence/encryptedRecordCodec.ts:45-91 | the reading loop returns the decoding of the whole frames or the authentication error, and cuts the torn tail exactly when asked |
| RecordFile.RecordFile.Append | apps/daemon/src/persistence/encryptedRecordCodec.ts:33-43 | a record that fits is appended up to the byte where the process dies; one that does not leaves the file alone |
| EventStore.EventStore.Append | apps/daemon/src/persistence/eventStore.ts:47-56 | truncating read, new event linked to the last record, write of its frame cut anywhere; a read error changes nothing |
| EventStore.EventStore.VerifyLog | apps/daemon/src/persistence/eventStore.ts:82-115 | the checking loop over previous raw bytes and previous id reports the first failing record or the count and last id, and changes nothing |
| EventStore.EventStore.RecoverTaskLog | apps/daemon/src/persistence/eventStore.ts:117-132 | recovery leaves the whole frames, counts them, and reports `truncated` exactly when bytes were cut |
| EventLogSafety.ReadReturnsHistory | apps/daemon/src/persistence/encryptedRecordCodec.ts:45-91 | reading a log that a crash left behind returns exactly the committed events and cuts exactly the torn tail |
| EventLogSafety.AppendStep | apps/daemon/src/persistence/eventStore.ts:47-56 | one append, complete or cut at any byte, moves the file to the frames of the abstract list, at the frame boundary |
| EventLogSafety.VerifyAccepts | apps/daemon/src/persistence/eventStore.ts:82-115 | verification accepts every log the daemon can leave behind and reports its length and last id |
| EventLogSafety.CrashSafety | apps/daemon/src/persistence/eventStore.ts:47-132 | over every run of appends, crashes inside writes and recoveries, the file is the frames of the committed events plus at most one torn tail, committed events are never lost, and verify accepts |
| EventLogSafety.EveryLogIsSafe | apps/daemon/src/persistence/eventStore.ts:47-132 | the same from an empty file |
| EventLogSafety.HeadCommitsToHistory | apps/daemon/src/persistence/eventStore.ts:87-108 | two accepted logs whose last raw records are equal have the same bytes up to the last record |
| EventLogSafety.VerifyPrefixClosed | apps/daemon/src/persistence/eventStore.ts:82-115 | cutting an accepted log at any byte leaves an accepted log with no more events |
| LogVerification.AcceptsExactlyWhen | apps/daemon/src/persistence/eventStore.ts:82-115 | a file is accepted if and only if it reads and every event has version 1, the HMAC of its content, the hash of the raw record before it and the id of the event before it |
| LogVerification.RejectsExactlyWhen | apps/daemon/src/persistence/eventStore.ts:157-175 | a failure is reported if and only if it is that the file does not read, or the first event that is not genuine and the first of the four things wrong with it |
| LogVerification.TamperingIsFound | apps/daemon/src/persistence/eventStore.ts:157-175 | in any log the daemon leaves, an event whose content or signature is replaced without the key is named by verification, the file being framed anew |
| LogVerification.EveryTamperingIsFound | apps/daemon/src/persistence/eventStore.ts:82-115 | so in every run of appends, crashes and recoveries from an empty file, for any committed event |
| LogVerification.AppendThenRead | apps/daemon/src/persistence/eventStore.ts:47-56 | after an append that reaches the disk whole, the log reads as before and one event more, with the caller's task, type and payload |
| Uuid.Generator.Next | apps/daemon/src/persistence/uuidv7.ts:6-28 | the buffer filled in place holds the packed timestamp, version, sequence and variant, and the module state advances |
| Uuid.PackOrder | apps/daemon/src/persistence/uuidv7.ts:15-25 | byte order of two packed ids is the order of timestamp, then sequence, whatever the random bytes |
| Uuid.NextIsGreater | apps/daemon/src/persistence/uuidv7.ts:7-13 | the next id is greater if and only if the clock advanced, or stood still with sequence numbers left |
| Uuid.TimeOrdered | apps/daemon/src/persistence/uuidv7.ts:3-28 | over the calls of any number of processes: whatever the random bytes, all ids strictly increase if and only if the clock never goes back, no millisecond sees more than 4096 calls, and none sees calls before and after a restart |
| Uuid.FormatKeepsOrder | apps/daemon/src/persistence/uuidv7.ts:27-28 | the hexadecimal text with dashes, with any suffix, sorts as the bytes do |
| Uuid.LayoutIsVersion7 | apps/daemon/src/persistence/uuidv7.ts:15-25 | 48 bits of clock, version 7, twelve bits of sequence, the variant, and random bits, as in section 5.7 of RFC 9562 |
| Checkpoints.CheckpointStore.WriteCheckpoint | apps/daemon/src/persistence/checkpointStore.ts:25-37 | the file of the event holds the frame of a record with its integrity hash, cut where the process dies, and the event is announced in the log only after a whole write |
| Checkpoints.CheckpointStore.LatestCheckpoint | apps/daemon/src/persistence/checkpointStore.ts:39-58 | whatever the directory order, the valid checkpoint with the greatest name, and none exactly when none is valid |
| Checkpoints.WriteThenLoad | apps/daemon/src/persistence/checkpointStore.ts:25-81 | a checkpoint written whole loads back with its event, state and time, and one cut short does not load |
| Checkpoints.WholeFileLoadsExactlyWhen | apps/daemon/src/persistence/checkpointStore.ts:64-78 | a whole file is valid if and only if its record has version 1 and the hash of its own event id and state |
| Checkpoints.TornCheckpointIsSkipped | apps/daemon/src/persistence/checkpointStore.ts:64-81 | a checkpoint cut short anywhere is not valid |
| Checkpoints.LatestCoversLatestEvent | apps/daemon/src/persistence/checkpointStore.ts:39-58 | with paced calls, restarts included, the latest checkpoint is that of the last generated event id whose file loads, and there is none exactly when no file loads |
| Checkpoints.LatestSurvives | apps/daemon/src/persistence/checkpointStore.ts:25-58 | in every run of checkpoint writes cut at any byte, the latest checkpoint is the state written last for the latest event whose last write is whole |
| Graph.CycleSearch.Visit | apps/daemon/src/agent/planner.ts:144-160 | one depth-first visit with carried `visiting` and `visited` sets: true only if the node leads into a cycle, false only if nothing reachable is on one |
| Graph.FindCycle | apps/daemon/src/agent/planner.ts:139-163 | the search over all roots is true if and only if the graph has a cycle |
| Planner.HasCycle | apps/daemon/src/agent/planner.ts:139-163 | true if and only if the dependsOn graph of the steps has a cycle |
| Planner.ValidatePlan | apps/daemon/src/agent/planner.ts:36-64 | accepts exactly the plans with unique ids, resolved dependencies, allowed tools and no cycle, and otherwise reports the first fault in source order |
| Planner.FaultsInOrder | apps/daemon/src/agent/planner.ts:43-58 | a step is rejected for its first dependency that is not in the plan, and for its tool only when all of them are |
| Planner.AffectedSubgraph | apps/daemon/src/agent/planner.ts:165-178 | the fixpoint loop returns exactly the changed step and its transitive dependents |
| Planner.RevisePlan | apps/daemon/src/agent/planner.ts:66-96 | evidence is carried for exactly the other steps; added, removed and modified ids are exact, sorted and without repetition; identity and revision follow the original |
| StepSelection.SelectionIsDetermined | apps/daemon/src/agent/stepSelection.ts:19-41 | for any plan and any order of ids that may call two equal: goal exactly when nothing is incomplete, deadlock exactly when nothing incomplete is eligible, and otherwise the eligible step that none precedes and that comes first among those it ties with |
| StepSelection.SelectedIsSafestAndBest | apps/daemon/src/agent/stepSelection.ts:12-17 | no eligible step is less risky than the selected one, low before medium before high before critical, none of the same risk is worth more, and none of the same worth has an id before it |
| StepSelection.OrderIrrelevant | apps/daemon/src/agent/stepSelection.ts:34-40 | listing the steps in another order selects the same step, if the order of ids tells the steps apart |
| StepSelection.ListingIrrelevantExactlyWhen | apps/daemon/src/agent/stepSelection.ts:34-40 | every listing of the same steps selects the same one if and only if the selected step precedes every other eligible one; otherwise one that ties is selected from a list that starts with it |
| StepSelection.DeadlockOnlyBehindFailures | apps/daemon/src/agent/stepSelection.ts:25-32 | for an accepted plan, selection deadlocks if and only if something is incomplete and every incomplete step waits for a failed one |
| StepSelection.NoFailureNoDeadlock | apps/daemon/src/agent/stepSelection.ts:30-32 | an accepted plan without failed steps never deadlocks, from any completed set |
| StepSelection.RunsToGoal | apps/daemon/src/agent/stepSelection.ts:19-41 | from any completed set, select-then-complete lists every missing step once, each after its dependencies, and reaches the goal |
| StepSelection.FullRunLength | apps/daemon/src/agent/stepSelection.ts:19-41 | from the start this takes exactly as many selections as the plan has steps |
| Taint.PropagateTaint | apps/daemon/src/agent/untrustedData.ts:82-110 | the loop ends with the least taint: closed under consumes and produces, and forced in every closed one |
| Taint.Monotone | apps/daemon/src/agent/untrustedData.ts:82-110 | a larger seed never untaints a step |
| Taint.Idempotent | apps/daemon/src/agent/untrustedData.ts:82-110 | propagating again changes nothing |
| ContextEngine.CompactionPhase | apps/daemon/src/agent/contextEngine.ts:35-51 | terminates; compacts only items over budget, largest first when ids are distinct; if still over budget everything is compacted |
| ContextEngine.DroppingPhase | apps/daemon/src/agent/contextEngine.ts:53-58 | what is kept fits or is one smallest item, and no larger number of the items would fit |
| ContextEngine.SmallestWeighLeast | apps/daemon/src/agent/contextEngine.ts:54-57 | no selection of items weighs less than equally many of the smallest |
| ContextEngine.ContextEngine.BuildPack | apps/daemon/src/agent/contextEngine.ts:31-97 | untouched if everything fits, otherwise compacted then best-kept; every kept item has its source's event reference; usage and events as the source updates them |
| ContextEngine.ItemFromSource | apps/daemon/src/agent/untrustedData.ts:29-35 | a kept item has its source's id, reference and taint, a token for every four characters begun, and as content a summary's reference when compacted, the source's own text, or, when tainted, that text between marks whose escaped attributes cannot end a mark and give back the source and the reference |
| AgentLoop.Reconstruct | apps/daemon/src/agent/agentLoop.ts:317-356 | the backward scan for the plan and the forward pass give the left fold over the whole log, so rebuilding after an append is one step |
| AgentLoop.AgentLoop.RunIteration | apps/daemon/src/agent/agentLoop.ts:91-216 | all events of one iteration in order, those of others included, and its status, as a function of the log and the answers |
| AgentLoop.AgentLoop.ExecuteStep | apps/daemon/src/agent/agentLoop.ts:252-287 | an intent and a result are added exactly when the runtime recorded no intent |
| AgentLoop.AgentLoop.AttemptStep | apps/daemon/src/agent/agentLoop.ts:130-216 | selection, execution, injection check and verification of one step, and what is concluded |
| AgentLoop.AgentLoop.VerifyGoalAndComplete | apps/daemon/src/agent/agentLoop.ts:289-315 | goal verification passes exactly when there is nothing to show or some evidence, a checkpoint is written either way, and only then the loop completes |
| AgentLoop.AgentLoop.RunUntilBlockedOrComplete | apps/daemon/src/agent/agentLoop.ts:79-89 | iterates until an iteration neither continues nor fails a step, within the limit |
| LoopOutcomes.RecordsExactlyWhen | apps/daemon/src/agent/agentLoop.ts:91-216 | each event of the loop is recorded if and only if it is due: a plan, a selection, the end of a call, a halt for an output that gives orders, a verdict with its evidence otherwise, an invalidation with a failure, the goal's verdict when nothing is left, and completion when it holds |
| LoopOutcomes.AnswersExactlyWhen | apps/daemon/src/agent/agentLoop.ts:91-216 | when an iteration answers each of its statuses |
| LoopOutcomes.LoopStopsExactlyWhen | apps/daemon/src/agent/agentLoop.ts:79-89 | iterations follow each other, each but the last continuing or failing a step; the last does neither or reaches the limit, and its status is the answer |
| LoopOutcomes.EveryCallHasAnIntent | apps/daemon/src/agent/agentLoop.ts:252-287 | between the selection of a step and the end of its call the log has an intent: those of the runtime, or exactly one of the loop's own, with a result |
| LoopOutcomes.EveryVerdictIsCheckpointed | apps/daemon/src/agent/agentLoop.ts:204-216 | a checkpoint ends every iteration after which the loop continues, and follows every verdict on the goal, before completion |
| LoopOutcomes.InjectionHalts | apps/daemon/src/agent/agentLoop.ts:162-174 | an output that gives orders halts the loop, whatever the check of the step says: nothing is verified, invalidated or completed, and the state is that before the call |
| LoopOutcomes.EveryVerdictWasEarned | apps/daemon/src/agent/agentLoop.ts:162-203 | in every run with crashes, a step counts as passed, or as failed, only when a call of it ended without giving orders and was judged so |
| LoopOutcomes.InjectedNeverCompletes | apps/daemon/src/agent/agentLoop.ts:162-174 | in every run with crashes, a step all of whose ended calls give orders neither passes nor fails, and the loop does not complete over it |
| AgentLoopSafety.LoopSafety | apps/daemon/src/agent/agentLoop.ts:91-216 | in every run with crashes between any two appends: completed steps are closed under dependencies and have evidence, and a completed loop has judged every step |
| AgentLoopSafety.EveryTaskIsSafe | apps/daemon/src/agent/agentLoop.ts:91-216 | the same from an empty log; and when no crash separates a failed verification from its invalidation, completion means that every step of the plan passed with evidence |
| AgentLoopSafety.CompletionIsVerifiedExactlyWhen | apps/daemon/src/agent/agentLoop.ts:112-216 | when an iteration, cut anywhere, completes the loop, every step has passed with evidence if and only if the iteration made a new plan or found no failed step |
| AgentLoopSafety.CompletionMeansVerified | apps/daemon/src/agent/agentLoop.ts:192-216 | when no crash separates a failed verification from its invalidation, completion means every step of the plan passed with evidence |
| AgentLoopSafety.CutFailureCompletes | apps/daemon/src/agent/agentLoop.ts:192-203 | whatever others append, a first iteration that loses only its last append is followed by one that completes over the failed step |
| AgentLoopSafety.NothingAfterCompletion | apps/daemon/src/agent/agentLoop.ts:91-98 | after completion every later run only records that iterations started and what others append: the state never changes again |
| AgentLoopSafety.PlanCompletesInItsLength | apps/daemon/src/agent/agentLoop.ts:79-216 | an accepted plan of n steps, n at least 1, whose steps all pass completes in exactly n iterations |
| AgentLoopSafety.ExactIterations | apps/daemon/src/agent/agentLoop.ts:79-89 | from the middle of a plan, exactly one iteration per remaining step |
| Verifiers.CombinesExactlyWhenBothPass | apps/daemon/src/agent/verifiers.ts:92-109 | two verdicts, whatever they are of, combine if and only if both pass, to one with the references of both, each once |
| Verifiers.SecondOpinionOnlyHalts | apps/daemon/src/agent/verifiers.ts:92-109 | double verification of one input passes what single verification passes, keeps its references, and halts on everything else |
| Verifiers.LoopRecordsFinalVerification | apps/daemon/src/agent/agentLoop.ts:176-195 | after the events of the call the loop records the final verification of the tool outcome, or halts when the two verdicts do not both pass |
| Verifiers.LoopGoalIsVerifyGoal | apps/daemon/src/agent/verifiers.ts:38-67 | given all evidence for every criterion, goal verification passes exactly when there is no criterion or some evidence |
| IdempotencyStore.IdempotencyStore.LookupFileMutation | apps/daemon/src/tools/runtime/idempotencyStore.ts:59-72 | the scan over the logs, in any directory order, then the cache, finds the record the store determines |
| IdempotencyStore.IdempotencyStore.PrepareFileMutation | apps/daemon/src/tools/runtime/idempotencyStore.ts:74-88 | a known mutation is returned without a write, a new one is logged and then cached; the store's invariant is kept |
| IdempotencyStore.IdempotencyStore.MarkFileMutationApplied | apps/daemon/src/tools/runtime/idempotencyStore.ts:90-108 | the known record turned to applied is logged and then cached; an unknown key writes nothing; the store's invariant is kept |
| IdempotencyStore.PreparedIsRemembered | apps/daemon/src/tools/runtime/idempotencyStore.ts:74-88 | a prepare that is not cut off makes an unknown mutation known as prepared, in log and cache, and leaves a known one alone |
| IdempotencyStore.MarkedIsRemembered | apps/daemon/src/tools/runtime/idempotencyStore.ts:90-108 | a mark that is not cut off turns a known mutation to applied, in log and cache, and an unknown one it leaves unknown |
| IdempotencyStore.LogStep | apps/daemon/src/tools/runtime/idempotencyStore.ts:190-196 | one log append keeps each key in one log and changes exactly one lookup |
| IdempotencyStore.CacheIsIrrelevant | apps/daemon/src/tools/runtime/idempotencyStore.ts:59-72 | whatever the cache holds for logged keys, and also without it, every lookup is the same |
| IdempotencyStore.LookupIsLastLogged | apps/daemon/src/tools/runtime/idempotencyStore.ts:59-108 | in every run of prepares and marks with crashes between log and cache, a lookup is the last record durably logged for the key, and applied never becomes prepared again |
| FsToolService.FsToolService.FileMutationStatus | apps/daemon/src/tools/fs/fsToolService.ts:500-521 | applied by record, or by the target's hash (and the missing source of a move) and then marked |
| FsToolService.FsToolService.Status | apps/daemon/src/tools/fs/fsToolService.ts:407-432 | the status query of a key, by its last record |
| FsToolService.FsToolService.ApplyPreparedAppend | apps/daemon/src/tools/fs/fsToolService.ts:434-448 | replay, changed-target error, or rename then mark, in that order of durable actions |
| FsToolService.FsToolService.ApplyPreparedTransfer | apps/daemon/src/tools/fs/fsToolService.ts:450-498 | the same for copy and move, with the overwrite and source checks |
| FsToolService.FsToolService.AppendOutput | apps/daemon/src/tools/fs/fsToolService.ts:192-247 | the durable actions and the answer of a keyed append, new or replayed, keeping the service valid |
| FsToolService.FsToolService.TransferOutput | apps/daemon/src/tools/fs/fsToolService.ts:279-405 | the durable actions and the answer of a keyed copy or move, new or replayed, keeping the service valid |
| AppendEffects.AppendsLandAtMostOnce | apps/daemon/src/tools/fs/fsToolService.ts:192-247 | from a store without appends, after any run of appends and queries with any keys, targets, contents and crashes, each file is its initial bytes followed by the contents of calls with pairwise different keys |
| AppendEffects.RunStaysConsistent | apps/daemon/src/tools/fs/fsToolService.ts:192-247 | the same from any consistent state, and every record fits the files: its before-image is a prefix of the target, and its after-image once it is applied or written |
| AppendEffects.DoneMeansInPlace | apps/daemon/src/tools/fs/fsToolService.ts:192-247 | a successful append leaves its record applied and its after-image a prefix of the target, reports that image's size and hash, and says idempotent exactly when the key was known |
| AppendEffects.AppliedAnswerIsRight | apps/daemon/src/tools/fs/fsToolService.ts:407-414 | a status query that answers "applied" is right about the file |
| AppendEffects.WritesExactlyWhen | apps/daemon/src/tools/fs/fsToolService.ts:434-445 | a successful call writes its own content if and only if its after-image was not already there |
| AppendEffects.CutWritesExactlyWhen | apps/daemon/src/tools/fs/fsToolService.ts:434-445 | a call cut off anywhere writes if and only if it would succeed, its after-image was not already there, and the cut is past the record of a new key |
| AppendEffects.EqualContentsShareAWrite | apps/daemon/src/tools/fs/fsToolService.ts:508-520 | two keys with equal contents prepared on the same bytes both succeed over one write |
| AppendOnce.AppendLandsExactlyOnce | apps/daemon/src/tools/fs/fsToolService.ts:192-247 | among calls with other keys on other targets, one key on one target leaves the initial bytes or those and the content; an "applied" answer means the second, and one more call always succeeds and leaves the second |
| AppendOnce.CallKeeps | apps/daemon/src/tools/fs/fsToolService.ts:434-448 | from any state that crashes and replays of the append leave, a call cut anywhere leaves such a state; uncut it never meets the changed-target error and its record is applied |
| Apart.OtherAppendStep | apps/daemon/src/tools/fs/fsToolService.ts:192-247 | an append under another key to another target, cut anywhere, leaves a key's record and files alone |
| Apart.OtherTransferStep | apps/daemon/src/tools/fs/fsToolService.ts:279-405 | so does a copy or move under another key to another target; a copy may read from these files, a move may not take one away |
| TransferOnce.CallKeeps | apps/daemon/src/tools/fs/fsToolService.ts:450-498 | whatever others do elsewhere, a copy or move cut anywhere leaves its two files before or after it; uncut and without an error its record is applied |
| TransferOnce.SucceedsExactlyWhen | apps/daemon/src/tools/fs/fsToolService.ts:296-314 | from any such state one more call succeeds if and only if the very first one could |
| TransferEffects.TransfersAreAtomic | apps/daemon/src/tools/fs/fsToolService.ts:279-405 | over every schedule of crashes, replays and queries, the files are those before the transfer or those after it |
| TransferEffects.ReplayEndsLikeOneRun | apps/daemon/src/tools/fs/fsToolService.ts:450-498 | a successful call leaves the files of one uninterrupted run, its record applied and the source's size and hash as output; a failed one changes no file |
| TransferEffects.ReplaySucceedsExactlyWhen | apps/daemon/src/tools/fs/fsToolService.ts:296-314 | after any schedule of crashes and replays with one overwrite flag, a call succeeds if and only if the source was there at first and the target was not or may be overwritten |
| TransferEffects.MoveConservesData | apps/daemon/src/tools/fs/fsToolService.ts:475-498 | at every moment the source holds the data and the target is as it was, or the source is gone and the target holds it |
| TransferEffects.CopyKeepsSource | apps/daemon/src/tools/fs/fsToolService.ts:450-473 | the source keeps its bytes, and the target is as it was or holds them |
| TransferEffects.SourceIsGoneUnlessSelfMove | apps/daemon/src/tools/fs/fsToolService.ts:489-497 | after a successful move the source is gone if and only if it was not moved onto itself |
| Outsiders.AnswersAreRight | apps/daemon/src/tools/fs/fsToolService.ts:434-521 | among edits and removals of any files by others, over every run of calls with any keys, cut anywhere: a failed append, copy or move changes no file; a successful one leaves its target with bytes of the size and hash it reports, unless it was recorded as applied before, when it does nothing |
| Outsiders.KnownTransferSucceedsExactlyWhen | apps/daemon/src/tools/fs/fsToolService.ts:464-467 | a copy or move under a known key succeeds if and only if it names the recorded paths and is applied, in place, or finds the recorded bytes at its source and may write its target |
| Outsiders.KnownAppendSucceedsExactlyWhen | apps/daemon/src/tools/fs/fsToolService.ts:434-448 | an append under a known key succeeds if and only if it names the recorded target and content and is applied, in place, or finds the target as recorded |
| Outsiders.EditedSourceFails | apps/daemon/src/tools/fs/fsToolService.ts:489-492 | a prepared copy or move that is not in place and whose source was edited fails without a durable action |
| Outsiders.AppliedReplayIgnoresEdits | apps/daemon/src/tools/fs/fsToolService.ts:500-521 | a replay of a copy or move recorded as applied succeeds whatever others wrote to the target since, and what it reports is right if and only if they wrote the same bytes |
| Outsiders.AppliedMeansInPlace | apps/daemon/src/tools/fs/fsToolService.ts:407-432 | a status query that answers is right about the record or the files, also among edits by others |
| ToolRuntime.FindLatestOrphan | apps/daemon/src/tools/runtime/toolRuntime.ts:625-643 | the backward scan finds the last intent when no later result names it |
| ToolRuntime.HasPendingReapproval | apps/daemon/src/tools/runtime/toolRuntime.ts:645-673 | true exactly when a reapproval for the intent stands uncleared |
| ToolRuntime.ToolRuntime.RunWithRetries | apps/daemon/src/tools/runtime/toolRuntime.ts:444-584 | the disk actions of all attempts and the status of the last |
| ToolRuntime.ToolRuntime.ExecuteParsed | apps/daemon/src/tools/runtime/toolRuntime.ts:255-442 | checks in order, then intent, attempts, result for a terminal status, lock release |
| ToolRuntime.ToolRuntime.ResumeApproval | apps/daemon/src/tools/runtime/toolRuntime.ts:67-121 | an approval is resolved once; a granted one executes its call with its key |
| ToolRuntime.ToolRuntime.ReconcileTask | apps/daemon/src/tools/runtime/toolRuntime.ts:158-253 | every branch of reconciliation, with its durable steps in order |
| RuntimeOutcomes.StartsExactlyWhen | apps/daemon/src/tools/runtime/toolRuntime.ts:255-417 | an intent is recorded if and only if the tool is registered, its input is valid, the policy or an approval allows the call, and timeout, budget and lock permit it; without an intent the disk is not touched |
| RuntimeOutcomes.RefusedLeaves | apps/daemon/src/tools/runtime/toolRuntime.ts:270-408 | the log, the approvals and the answer that a call leaves which is not let through, by the first check that fails |
| RuntimeOutcomes.AttemptsAre | apps/daemon/src/tools/runtime/toolRuntime.ts:444-584 | attempts act one after the other on what the one before left; each but the last failed in a way that is retried; the last succeeded, failed otherwise or was the last allowed, and gives the status |
| RuntimeOutcomes.StartedLeaves | apps/daemon/src/tools/runtime/toolRuntime.ts:410-442 | a call that is let through holds its lock from before its intent to after its result, and has a result exactly when its status is terminal |
| RuntimeOutcomes.KeyOfStartedCall | apps/daemon/src/tools/runtime/toolRuntime.ts:608-623 | a call that changes nothing has no key, and any other keeps the key asked for or gets a new one |
| RuntimeOutcomes.EveryApprovalIsDecidedOnce | apps/daemon/src/tools/runtime/toolRuntime.ts:67-121 | in every run of executions, decisions and reconciliations, each cut anywhere, an approval is granted or denied at most once and not both |
| RuntimeOutcomes.DecisionLeaves | apps/daemon/src/tools/runtime/toolRuntime.ts:67-121 | nothing for an approval that is not pending; a denial starts nothing; a grant executes its call past the policy but not past the other checks |
| RuntimeRuns.NothingToReconcile | apps/daemon/src/tools/runtime/toolRuntime.ts:158-165 | without an orphan, or while its reapproval is pending, a reconciliation does nothing |
| RuntimeRuns.UnregisteredOrphanIsBlocked | apps/daemon/src/tools/runtime/toolRuntime.ts:173-180 | an orphan whose tool is not registered is blocked, and nothing else happens |
| RuntimeRuns.UnanswerableOrphanIsBlocked | apps/daemon/src/tools/runtime/toolRuntime.ts:222-232 | an orphan whose tool's effect cannot be repeated safely and cannot be asked about is blocked, and nothing is run |
| RuntimeRuns.AppliedOrphanIsAnswered | apps/daemon/src/tools/runtime/toolRuntime.ts:191-220 | an orphan that its tool reports as applied gets a completed result, and nothing is run |
| RuntimeRuns.OtherOrphanIsReexecuted | apps/daemon/src/tools/runtime/toolRuntime.ts:234-253 | every other orphan is executed again with the arguments and key of its intent, and marked when it is external and waits for an approval |
| RuntimeRuns.PendingFromAskingToDecision | apps/daemon/src/tools/runtime/toolRuntime.ts:645-673 | a reapproval is pending from the event that asks for it until the next decision on any approval or a result of its intent |
| RuntimeRuns.DenialReopens | apps/daemon/src/tools/runtime/toolRuntime.ts:645-673 | a denial, of whichever approval, leaves an orphan open, so that the next reconciliation looks at it again |
| RuntimeRuns.StartsAtMostOncePerRequest | apps/daemon/src/tools/runtime/toolRuntime.ts:158-253 | in every run of executions, decisions and reconciliations, each cut anywhere, a tool whose effect cannot be repeated safely and cannot be asked about starts at most as often as it was requested |
| RuntimeRuns.UnanswerableIsNeverRepeated | apps/daemon/src/tools/runtime/toolRuntime.ts:222-232 | after every run, a reconciliation of such an orphan, cut anywhere, leaves disk and approvals alone and starts nothing |
| ToolRuntimeSafety.ResultsPairWithIntents | apps/daemon/src/tools/runtime/toolEventStore.ts:320-338 | in every run of executions, approvals, reconciliations and crashes, each result names an earlier intent and no intent has two |
| ToolRuntimeSafety.AppendIsExactlyOnce | apps/daemon/src/tools/runtime/toolRuntime.ts:158-253 | end to end, one append call among any others that leave its key and target alone leaves the target with the bytes before it or those and the content once, and a completed result for it in the log, executed or synthesized, means the second |
| ToolRuntimeSafety.TransferIsExactlyOnce | apps/daemon/src/tools/runtime/toolRuntime.ts:158-253 | end to end, one copy or move call among any others that leave its key and files alone leaves its two files as before it or as after one uninterrupted copy or move, and a completed result for it in the log, executed or synthesized, means the second |
| ToolRuntimeSafety.OtherAppendsAreFriendly | apps/daemon/src/tools/fs/fsToolService.ts:192-247 | appends under other keys or without a key to other targets are among these others |
| ToolRuntimeSafety.OtherTransfersAreFriendly | apps/daemon/src/tools/fs/fsToolService.ts:279-405 | and so are copies to other targets, and moves between other files |
| ToolRuntimeSafety.AppendRecovers | apps/daemon/src/tools/runtime/toolRuntime.ts:410-442 | after any such run, an execution that passes the checks completes and the target holds the content: no crash leaves the append stuck |
| ToolRuntimeSafety.TransferCompletesExactlyWhen | apps/daemon/src/tools/runtime/toolRuntime.ts:410-442 | after any such run, an execution of the copy or move that passes the checks completes if and only if the source was there at first and the target was not or may be overwritten, and then the files are those after it |
| ToolRuntimeSafety.ReconcileKeeps | apps/daemon/src/tools/runtime/toolRuntime.ts:158-253 | pairing, exactly-once and what is hidden are kept wherever a crash cuts a reconciliation |
| ToolRuntimeSafety.HiddenIsNeverAnswered | apps/daemon/src/tools/runtime/toolRuntime.ts:158-253 | an unanswered intent with a later one behind it is never answered and never found, in any run |
| Reconciliation.NextReconcileIsQuietExactlyWhen | apps/daemon/src/tools/runtime/toolRuntime.ts:158-253 | the next reconciliation appends nothing if and only if this one found nothing, synthesized, re-executed to a terminal status past every check, or left an external call waiting before it started |
| Reconciliation.DeniedReexecutionRepeats | apps/daemon/src/tools/runtime/toolRuntime.ts:314-329 | a denied re-execution is terminal and yet repeated by the next reconciliation |
| StepEffects.LoopPartIsIterate | apps/daemon/src/agent/agentLoop.ts:91-216 | joined with the runtime, the loop's own events, planning included, are those of an iteration whose planner answers the same and whose tool answers as the runtime does |
| StepEffects.AskingNeverVerifies | apps/daemon/src/agent/agentLoop.ts:136-143 | in every run of iterations, start-ups and decisions cut anywhere, a step whose tool asks for an approval of every call is never verified and stays the next one, granted or not |
| StepEffects.UnrecordedCallRepeats | apps/daemon/src/agent/agentLoop.ts:130-145 | for any tool: whatever is left of a round that is cut before a verdict, the next iteration makes the step's call again, under the key it draws itself |
| StepEffects.RunIsEffects | apps/daemon/src/tools/runtime/toolRuntime.ts:67-121 | in every run of iterations, start-ups and decisions cut anywhere, the disk of a step that appends and always asks is that of a run of appends under granted keys and of status queries, each cut anywhere |
| StepEffects.RoundAddsExactlyWhen | apps/daemon/src/tools/runtime/toolRuntime.ts:67-121 | one round adds the content exactly when it grants a pending approval, the execution passes its checks, the append succeeds without finding its after-image in place, and the write is not cut off; uncut, exactly when it succeeds and does not find its after-image |
| StepEffects.EveryKeyCopiesOnce | apps/daemon/src/tools/runtime/toolRuntime.ts:67-121 | from any store that appends leave, in every such run the file grows by the content once for each grant that adds it, no two of these grants have the same key, and the step stays the next one |
| StepEffects.LandsOnceExactlyWhen | apps/daemon/src/agent/agentLoop.ts:252-261 | so the content lands exactly once if and only if exactly one round of the run meets the condition, which can be told before the round |
| StepEffects.AskingLeavesOrphanExactlyWhen | apps/daemon/src/tools/runtime/toolRuntime.ts:158-253 | a reconciliation whose re-execution asks leaves the orphan open if and only if the status query does not find the append applied |
| StepEffects.CrashedGrantIsHidden | apps/daemon/src/agent/agentLoop.ts:264-287 | a granted append that crashed before its write: after the loop's next iteration no run, whatever the tools, decisions and crashes, answers its intent or finds it again |
| DaemonSupervisor.Supervisor.StartDaemon | apps/mac/Sources/OperatorDockCore/Services/DaemonSupervisor.swift:124-135 | the critical section of start, with the launch that may fail |
| DaemonSupervisor.Supervisor.StopDaemon | apps/mac/Sources/OperatorDockCore/Services/DaemonSupervisor.swift:137-145 | the critical section of stop, and the process it hands on to be terminated |
| DaemonSupervisor.Supervisor.OnTermination | apps/mac/Sources/OperatorDockCore/Services/DaemonSupervisor.swift:187-195 | untracks the terminated process only if it is the tracked one, and asks for a respawn only after a crash |
| DaemonSupervisor.Supervisor.FinishCheck | apps/mac/Sources/OperatorDockCore/Services/DaemonSupervisor.swift:293-307 | frees the check and counts a failure only for the tracked pid |
| DaemonSupervisor.Supervisor.MarkUnhealthy | apps/mac/Sources/OperatorDockCore/Services/DaemonSupervisor.swift:314-324 | untracks the process with the pid and hands it on |
| SupervisorRuns.SupervisorIsSafe | apps/mac/Sources/OperatorDockCore/Services/DaemonSupervisor.swift:124-334 | in every interleaving: a live process is tracked, owed a signal by a thread, or signalled; stopped means nothing tracked and no watchdog; at most one health check is in flight |
| SupervisorRuns.EveryRunIsSafe | apps/mac/Sources/OperatorDockCore/Services/DaemonSupervisor.swift:124-334 | the same from the initial state, whatever happens |
| SupervisorRuns.OldResultsSpareOthers | apps/mac/Sources/OperatorDockCore/Services/DaemonSupervisor.swift:293-334 | a health result, verdict or kill for one process leaves tracking, failure count and signals of another alone unless it has its pid |
| SupervisorRuns.LateResultsReachExactlyTheirPid | apps/mac/Sources/OperatorDockCore/Services/DaemonSupervisor.swift:293-324 | in every interleaving from the start: a late verdict untracks the tracked process if and only if it has the judged pid, and then owes it a kill; a late health result changes its failure count if and only if it has the checked pid |
| SupervisorRuns.NewerProcessesAreSpared | apps/mac/Sources/OperatorDockCore/Services/DaemonSupervisor.swift:293-334 | in every interleaving without pid reuse, a result, verdict or kill for one process never untracks, counts against or signals another |
| SupervisorRuns.SignalledNextExactlyWhen | apps/mac/Sources/OperatorDockCore/Services/DaemonSupervisor.swift:326-334 | some event can signal a live process next if and only if a stop owes it a signal or a kill is pending for a process with its pid |
| SupervisorRuns.ReusedPidIsKilled | apps/mac/Sources/OperatorDockCore/Services/DaemonSupervisor.swift:314-334 | a run in which a reused pid lets the kill hit the tracked successor |
| SupervisorLiveness.StartLaunchesExactlyWhen | apps/mac/Sources/OperatorDockCore/Services/DaemonSupervisor.swift:124-135 | a start tracks a new live process if and only if none is tracked and the launch succeeds, and then turns the watchdog on; a running process is left alone |
| SupervisorLiveness.StopOwesASignal | apps/mac/Sources/OperatorDockCore/Services/DaemonSupervisor.swift:137-145 | a stop untracks, turns the watchdog off and owes the tracked process a signal |
| SupervisorLiveness.RespawnLaunchesExactlyWhen | apps/mac/Sources/OperatorDockCore/Services/DaemonSupervisor.swift:206-215 | a pending respawn tracks a new live process if and only if the supervisor is not stopped, nothing tracked is running and the launch succeeds; otherwise it changes nothing |
| SupervisorLiveness.CallbackRespawnsExactlyWhen | apps/mac/Sources/OperatorDockCore/Services/DaemonSupervisor.swift:187-204 | the callback of the tracked process asks for a respawn exactly after a crash without a stop, never after a clean exit |
| SupervisorLiveness.TickAsksExactlyWhen | apps/mac/Sources/OperatorDockCore/Services/DaemonSupervisor.swift:234-257 | a tick that finds nothing tracked asks for a respawn, and any other looks at the process it finds |
| SupervisorLiveness.JudgesDeadExactlyWhen | apps/mac/Sources/OperatorDockCore/Services/DaemonSupervisor.swift:259-291 | a process that was not running, or whose pid is gone, is judged dead; any other has its health checked, one check at a time |
| SupervisorLiveness.VerdictExactlyWhen | apps/mac/Sources/OperatorDockCore/Services/DaemonSupervisor.swift:293-307 | a bad result of the tracked pid is a verdict exactly when it completes the threshold of bad results in a row |
| SupervisorLiveness.StaysAttended | apps/mac/Sources/OperatorDockCore/Services/DaemonSupervisor.swift:124-334 | in every interleaving in which no tracked process exits cleanly and no launch fails: the supervisor is stopped, tracks a live process, or one of its threads is on its way to a respawn |
| SupervisorLiveness.EveryStartIsAttended | apps/mac/Sources/OperatorDockCore/Services/DaemonSupervisor.swift:124-334 | the same after every successful start, in every interleaving |
| SupervisorLiveness.CrashIsAnswered | apps/mac/Sources/OperatorDockCore/Services/DaemonSupervisor.swift:187-215 | after a crash of the tracked process, in every interleaving from the start: as long as nothing is given up so, the supervisor is stopped, tracks a live process, or does after at most two steps of its own threads, given a launch |
| SupervisorLiveness.VerdictIsAnswered | apps/mac/Sources/OperatorDockCore/Services/DaemonSupervisor.swift:314-334 | the same after an unhealthy verdict on the tracked process |
| SupervisorLiveness.TickIsAnswered | apps/mac/Sources/OperatorDockCore/Services/DaemonSupervisor.swift:234-257 | the same after a tick that finds nothing tracked |
| SupervisorLiveness.WatchdogRecovers | apps/mac/Sources/OperatorDockCore/Services/DaemonSupervisor.swift:217-334 | with the watchdog on, from every state of every interleaving that is not stopped, clean exits and failed launches included, the next tick and the supervisor's own threads lead to a live tracked process |
| Lease.LockController.Acquire | apps/daemon/src/persistence/lockController.ts:58-105 | undisturbed, takes the lock exactly when it is free or stale at the first read |
| Lease.AcquisitionIsAcquire | apps/daemon/src/persistence/lockController.ts:58-105 | the interleaved events of one daemon, undisturbed, do what the method does |
| Lease.LockController.Heartbeat | apps/daemon/src/persistence/lockController.ts:107-117 | rewrites the file only for its owner |
| Lease.LockController.Release | apps/daemon/src/persistence/lockController.ts:119-126 | removes the file only for its owner |
| Lease.BeatingHolderKeepsTheLock | apps/daemon/src/persistence/lockController.ts:107-117 | a holder that beats before every staleAfterMs has passed is never found stale and keeps the lock in every run, whatever the others do, if nobody was about to rename when it began |
| Lease.AbandonedLockIsTakenExactlyWhen | apps/daemon/src/persistence/lockController.ts:58-105 | an undisturbed acquisition takes the lock of a dead holder if and only if at least staleAfterMs has gone by since its last heartbeat |
| Lease.ReleaseFreesExactlyWhen | apps/daemon/src/persistence/lockController.ts:119-126 | a release frees the lock at once if the file names the daemon, and leaves it alone otherwise |
| Lease.AtMostOneLease | apps/daemon/src/persistence/lockController.ts:58-181 | when every rename takes away a stale file, at every time at most one daemon holds a lease younger than staleAfterMs |
| Lease.AtomicRunsRenameStale | apps/daemon/src/persistence/lockController.ts:75-86 | when every second read is directly followed by its rename, every rename of the run takes away a stale file |
| Lease.AtomicReclaimIsSafe | apps/daemon/src/persistence/lockController.ts:58-181 | so from the start, with read and rename as one step, at most one daemon holds a fresh lease after every prefix of every run |
| Lease.RenameIsSafeExactlyWhen | apps/daemon/src/persistence/lockController.ts:80-86 | after a rename, every continuation whose renames take away stale files has at most one fresh lease if and only if nobody held a fresh lease at the rename |
| Lease.StaleAgainAtRename | apps/daemon/src/persistence/lockController.ts:80-86 | nobody holding a fresh lease coincides with the file being stale at the rename, a check the code could make, unless the holder of a fresh file has died |
| Lease.LateRenameGivesTwoLeases | apps/daemon/src/persistence/lockController.ts:75-95 | without it, two daemons end up with fresh leases |
| Lease.ReclaimedCannotTouch | apps/daemon/src/persistence/lockController.ts:156-165 | a daemon whose lock was reclaimed stays without it, and its heartbeats and release leave the file alone |

## Left out

- Secret redaction, prompt-injection and shell patterns: inputs are taken as unchanged by redaction, and detection is an answer of the environment.
- JSON text, schemas and real cryptography: payloads are values, ciphers and digests are abstract as described above.
- SQLite projections, websocket publishing and their failures: the canonical log is the source of truth. Approvals are kept as a list with a pending flag.
- Concurrent operations on one task or one target, and a timed-out tool that goes on in the background: operations of a task follow each other.
- Edits of a file by others in the middle of a call; between calls they are in `Outsiders`.
- Pausing, cancelling and killing an execution, and a lock release that throws after the result.
- Torn lines in the plaintext mutation logs: one line append is one step. Directories, permissions, path safety and temporary files are not modelled; an atomic write is the rename.
- `safeId`: keys are UUIDs, so every key has a cache file of its own.
- `fs.delete`, `fs.write`, listing, search, shell and HTTP tools, except as the abstract tool of the runtime, whose answers are arbitrary.
- An order of ids is any strict weak order; which one `localeCompare` is on a given machine is not part of this model.
- The heuristic step estimate, and the `diff` payload of a recorded plan.
- The events of others between those of the loop (reconciliation, memory, context, model calls, the tool runtime, checkpoints) are arbitrary lists; an exception that one of these calls throws has the effect on the log of a crash at that point.
- In `StepEffects` the step whose copies are counted appends, and no other call of the task is open when the run starts; other steps, tools and plans are those of the lemmas that name no tool.
- A missing log file is an empty one.
- Per-criterion evidence: the source gives every criterion all evidence and marks it met, and so does the model.
- The daemon's lock acquisition inside an execution is an answer of the environment; the lock itself is module `Lease`, where checking ownership and writing are one step.
- `killForCrashTest`, the authentication token and the health URL of the supervisor.
- Lease.LockController.Acquire: states the undisturbed case; interference is in the interleaved events of the same module.
- Planner.ValidatePlan: schema parsing is a value of type `Plan`, and manifest lookup, input checks and forbidden actions of a step are one abstract judgement.
- FsToolService.FsToolService.AppendOutput: models calls with an idempotency key, which the runtime always passes; path checks and keyless appends are not in it.
- FsToolService.FsToolService.TransferOutput: models calls with an idempotency key; path checks and keyless transfers are not in it.
- ToolRuntime.ToolRuntime.RunWithRetries: a timed-out operation ends with its attempt, and pausing between attempts is not modelled.
- ToolRuntime.ToolRuntime.ExecuteParsed: pausing, a lock release that throws, and the state of the lock are not modelled.
