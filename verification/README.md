# Verified model of the workflow engine's core

A Dafny model of the parts of the engine whose correctness is not visible from any single function: the token
runtime with its implicit ownership tree, the write-ahead journal and its replication, and four smaller pieces that
share their data (live migration, startup reconciliation, claims shared by SQL replicas, the expression parser).
`dafny verify dfyconfig.toml` checks everything.

## How it is built

Code that changes state in place is a class whose methods are proved against specification functions on values; the
hard properties are lemmas about those functions.

| modules | model of |
|---|---|
| `StoreState`, `LogLaws` | the store's contents, what a journal line means, and why re-delivered lines are harmless |
| `Ordering`, `Memory` | the in-memory reference store (class `Memory`) and its sorted listings |
| `JournalState`, `Journal` | disk, snapshot, compaction, crash points (class `Journal`) |
| `Replication`, `Overflow` | sender, channel, follower as a protocol (class `Sender`); what a dropped line costs |
| `Bpmn`, `Instances`, `Engine` | process graph, instance state, and every operation of the token runtime as a function |
| `ScopeTree`, `Moves`, `Cancellation`, `Completion`, `Errors`, `ErrorEffects`, `Activities`, `Steps`, `Triggers` | the invariant and what each operation keeps and does |
| `Routing`, `Effects` | which flows are taken, what is registered, and what events and iterations do, token by token |
| `Outcomes`, `StepEffects`, `OutsideEffects`, `RunEffects` | the effect of every step and every outside call on tokens and records, told without the functions that compute it |
| `Runs` | an instance over whole runs, with the scheduler's claims |
| `Joins`, `Joiners` | parallel and inclusive joins, the reachability search; what whole runs do to the tokens waiting at a join |
| `Sweeps`, `Runtime` | the imperative runtime (class `Run`), mutual recursion and map order included |
| `Grammar`, `Precedence`, `Printer`, `Minimal`, `Parser` | the expression grammar, the language it accepts and how operators group, a precedence-aware printer and why it is minimal, the token cursor (class `Parser`) |
| `Claims` | scan-then-claim over SQL rows by several replicas (class `SqlStore`) |
| `Migration`, `Reconcile`, `Recovery` | migration (class `Migrator`), the startup repair pass and the drain after it |
| `Witnesses` | concrete inputs on the failing side of each exact condition, reached by runs of deployable processes |

The invariant `ScopeTree.Inv` of a running instance has four parts. `Core`: every token stands on an existing element,
its owner chain is the chain of tokens waiting on the scopes around it, its parent is the coordinator of its loop.
`NoStuck`: every token waiting on a scope has a token inside, and every loop's accounts add up. `Linked`: open wait
records and waiting tokens correspond one to one. `Routed`: every job and subscription of a live token names an
element its trigger can use. "In order" in the table below means this invariant.

Beside the invariant stands the effect. `StepEffects.StepsTo` and `RunEffects.Does` describe what each step and each
outside call leaves: which tokens are gone, which records are closed or new, which flows the token leaves over. They
are built from a few descriptions of instances before and after, such as `Routing.Departs`, `Outcomes.Cleared` and
`Routing.OnIncident`, and name none of the engine's functions for these operations; `RunEffects.RunEffect` says that
along every run each action does what they say. In the same way `Precedence` describes the expression language by
phrases and sets of operators, and `Memory.EarliestDue` and `Memory.LowestUnlocked` describe claims by the records.

Expressions, handlers and agents are uninterpreted: an `Oracle` holds the answers met in one step, each a value, a
failure or a BPMN error: one per flow condition, timer element and output mapping, and one for the rest, which a step
asks at most once. Map iteration order is arbitrary: methods pick any element, and where the choice shows
(which waiting token a parallel join consumes) the specification takes it from the oracle.

## What is assumed

- The graph is valid (`Bpmn.ValidGraph`). By `Bpmn.DeployableIsValid` that is what parsing gives and
  bpmn/validate.go:59 checks, and in addition that event sub-processes have no incoming flow and do not loop, and that
  element IDs are unique across scopes, which deployment does not check.
- No error thrown inside an error event sub-process matches that event sub-process's own start (`Errors.Reenters`).
  `ErrorEffects.PropagateExactly` says exactly when the engine survives without this.
- When a claimed event sub-process timer fires, its owner still stands on the enclosing sub-process
  (`Runs.OwnerStands`). engine/events.go:122-130 does not look again; `Runs.ClaimedTimerExactly` says that the
  condition is exact.
- Loop output and completion-condition expressions succeed (`Completion.LoopAnswers`), and a loop's boundary timers
  can be scheduled (`Activities.LoopStarts`). `Completion.MiChildCompletedExactly` and `Activities.StartMultiExactly`
  say that these conditions are exact.
- Store calls succeed, JSON encoding is lossless, new IDs are fresh, and a memory update with its journal lines is one
  step. A failed request has finished whatever it did.

## What the proofs found

Each of these is a failure of the code, proved with an input on which it happens and the exact condition.

- A crash in the middle of `DueJobs` loses jobs no caller received: those whose deletion was already journaled, and all
  of them once a compaction falls into the call (`JournalState.DueJobsCrash`, `JournalState.DueJobsKeepsJobsExactly`,
  `Witnesses.CrashLosesJob`).
- A torn tail is not trimmed at open: whatever is written after it is lost at the next load unless a compaction
  comes first (`JournalState.TornTailExactly`, `Witnesses.TornTailLosesRecord`).
- Between the rename and the truncation of a compaction, history comes back repeated, except for instances purged in
  the old journal or absent from it (`JournalState.MiddleWindowExactTrail`, `Witnesses.MiddleWindowRepeats`).
- After a channel overflow the forced resync can leave the follower on an old value for good
  (`Replication.OverflowDiverges`); it does not exactly if the queued lines leave alone what was dropped
  (`Overflow.OverflowExactly`).
- Claiming an external task writes back the document as scanned and can undo a write made in between
  (`Claims.ClaimUndoesWrite`; on runs `Claims.ClaimKeepsWorkExactly` and `Claims.LastTouchDecides`).
- A failing loop output or completion condition parks the coordinator after the iteration is gone, and a loop boundary
  timer that cannot be scheduled parks it before its iterations start; either leaves the loop's accounts broken
  (`Completion.MiChildCompletedExactly`, `Activities.StartMultiExactly`, `Witnesses.BadOutputBreaksLoop`,
  `Witnesses.BadTimerBreaksLoop`).
- An error caught by the event sub-process it was thrown inside can strand a scope or loop of that event sub-process
  (`ErrorEffects.PropagateExactly`, `Witnesses.ReentryStrands`).
- A timer of an event sub-process that was claimed before the enclosing sub-process ended, and fires after its owner
  has moved on, starts a token in a scope that does not exist (`Triggers.OwnerStandsExactly`,
  `Runs.ClaimedTimerExactly`, `Witnesses.LateTimerHangs`).
- Migration does not rename the loop flag of live iterations, nor the element of external tasks and agent jobs, and
  does not check that an event sub-process stays one, that a running loop fits the target's loop characteristics, or
  that jobs and subscriptions have a target (`Migration.MigrationKeepsTree`, `Migration.MigrationKeepsInvExactly`,
  `Migration.RecordsAgree`, `Witnesses.RenamedIterationBreaksTree`, `Witnesses.RenamedElementLosesExternalTask`).

## Model

| member | source | states |
|---|---|---|
| `Memory.Memory.constructor` | store/memory.go:30-45 | An empty store. |
| `Memory.Memory.Put` | store/memory.go:52-57 | The stored records are the old ones with this one under its own kind and ID; trails and counters are as before. |
| `Memory.Memory.PutInstance` | store/memory.go:123-131 | The stored instance carries the next revision, the caller gets that revision back, nothing else changes. |
| `Memory.Memory.RestoreInstance` | store/journal.go:178-185 | Replay restores an instance under the revision it was journaled with, without counting it up again. |
| `Memory.Memory.Delete` | store/memory.go:270-275 | Exactly that record goes. |
| `Memory.Memory.PurgeInstance` | store/memory.go:163-202 | After the loop over the record maps exactly the records that belong to the instance are gone (each kind by the instance it names, the instance by its ID), with its trail and its counter; definitions and blobs stay. |
| `Memory.Memory.AppendHistory` | store/memory.go:600-612 | The event is stored at the end of its trail, under its own number or the one after the counter; the counter becomes the larger of the two. |
| `Memory.Memory.DueJobs` | store/memory.go:278-301 | The jobs returned are stored and due, none twice, in the order of due time and then ID; a due job is left out only if a positive limit is reached and it comes after all returned; exactly those returned are removed. |
| `Memory.Memory.FetchAndLock` | store/memory.go:340-364 | The records returned are pending on the topic with no lock or an expired one, by ascending ID and none twice; one is left out only if a positive limit is reached and its ID is larger; exactly those returned carry the new lock (external tasks and agent jobs alike). |
| `Memory.Memory.LockEach` | store/memory.go:355-363 | The claiming loop locks exactly the given records. |
| `Memory.DueListIs` | store/memory.go:278-301 | What a store operation claims as due, in terms of the records alone: due, none twice, earliest first, and left out only behind a full limit. |
| `Memory.LockListIs` | store/memory.go:340-364 | The same for what a worker locks: available, by ascending ID, left out only behind a full limit. |
| `Memory.LockAllRelocks` | store/memory.go:355-363 | Exactly the taken records carry the new holder and expiry, and nothing else of them changes. |
| `Memory.PurgeSpares` | store/memory.go:163-202 | A purge leaves no task, job, external task, agent job, subscription or incident of the instance, not the instance, its trail or its counter, and leaves everything else as it was. |
| `Memory.LockedOnce` | store/memory.go:340-364 | A lock list names stored, available records of the topic, none of them twice. |
| `Ordering.SortedUnique` | store/memory.go:289-296 | Whatever order the record map is walked in, sorting leaves one list. |
| `Ordering.Sort` | store/memory.go:289-296 | Returns the listing sorted by rank, ties by ID, of exactly the given set. |
| `StoreState.ApplyWellFormed` | store/memory.go:600-612 | Counters and trails name the same instances, no trail is empty, each counter is the largest number in its trail, and records lie under their own kind: every line keeps this. |
| `LogLaws.FateIdempotent` | store/replicate.go:126-160 | One key: a window of puts, deletes and purges, the last depending on the record found, has on its own result the effect of nothing. |
| `LogLaws.OverwriteFixes` | store/replicate.go:126-160 | A window that puts or deletes a key fixes what is stored there, whatever was there before. |
| `LogLaws.OtherwiseFilters` | store/memory.go:163-202 | A window without put or delete of the key keeps the record or drops it, and never brings one back. |
| `LogLaws.TrailIdempotent` | store/replicate.go:140-157 | One trail: streaming a window again onto its own result leaves the trail and its counter as they are, purges inside the window included. |
| `LogLaws.SameParts` | store/memory.go:13-28 | A well-formed state is determined by its records and its trails. |
| `LogLaws.OverlapIdempotent` | store/replicate.go:122-160 | For every window and every state, streaming the window again changes nothing. |
| `LogLaws.OverlapCatchesUp` | store/replicate.go:122-160 | A stream restarted anywhere before its end brings a follower that holds all of it to the same state. |
| `LogLaws.ReplayTrail` | store/journal.go:86-164 | Plain replay appends exactly the events no later purge of the log drops, after dropping the old trail if it was purged. |
| `LogLaws.ReplayTwice` | store/journal.go:86-164 | Replaying a log over a state that already holds it gives the same records and counters, and trails holding the same events. |
| `LogLaws.ReplayTwiceExactTrail` | store/journal.go:86-164 | After that double replay a trail is unrepeated if and only if the log purged the instance or holds no event of it. |
| `JournalState.RecoverAfterWrite` | store/journal.go:246-280 | A line written to a tidy journal is the one line recovery sees in addition. |
| `JournalState.LinesMeanStep` | store/journal.go:367-605 | For each store operation, replaying the lines it journals has the operation's whole effect; where there are several, each is already part of the result. |
| `JournalState.WritingOutRestores` | store/journal.go:246-280 | Writing out the lines of a change makes disk and memory agree again, with compactions wherever the counter triggers them. |
| `JournalState.PerformDurable` | store/journal.go:367-605 | Every store operation leaves a disk that recovers to exactly the live state. |
| `JournalState.JournalRefinesMemory` | store/journal.go:86-164 | After every sequence of operations the disk recovers to what the in-memory reference store would hold, revisions and history counters included. |
| `JournalState.ReplicateDurable` | store/replicate.go:126-160 | A replicated line leaves the follower's disk and memory in agreement, and has the deduplicated effect. |
| `JournalState.CompactionCrashSafe` | store/journal.go:329-355 | Before the rename and after the truncation recovery is exact; in between, records and counters are exact and each trail holds the same events. |
| `JournalState.MiddleWindowExactTrail` | store/journal.go:329-355 | In that window a trail recovers unrepeated if and only if the old journal purged the instance or holds no event of it. |
| `Witnesses.MiddleWindowRepeats` | store/journal.go:329-355 | A journal whose one event recovers twice from the middle window. |
| `JournalState.SingleLineCrash` | store/journal.go:246-280 | Dying anywhere inside an operation that writes one line recovers exactly the state before or the state after it; only between the rename and the truncation of a compaction may events come back repeated. |
| `JournalState.TornWrites` | store/journal.go:153-157 | Half a line counts as not written; a whole line without its newline counts as written. |
| `JournalState.CrashWhileWriting` | store/journal.go:453-465 | Dying while several lines of one operation go out, compactions included, leaves each record as it was or as the operation makes it. |
| `JournalState.OldLogOverFinishedImage` | store/journal.go:329-355 | A compaction that runs before all lines of an operation are out recovers each record to its old or its finished value. |
| `JournalState.ClaimCrash` | store/journal.go:453-465 | A crash inside DueJobs or a lock call leaves each record claimed or unclaimed; none becomes anything else. |
| `JournalState.DueJobsCrash` | store/journal.go:453-465 | After `k` of the delete lines the first `k` jobs are gone, or every claimed job once a compaction fell into the call; nothing is lost if and only if `k` is 0. |
| `JournalState.DueJobsKeepsJobsExactly` | store/journal.go:453-465 | Over every disk a crash inside DueJobs can leave: no job is ever lost if and only if no job was due. |
| `Witnesses.CrashLosesJob` | store/journal.go:453-465 | A store with one due job and a crash inside DueJobs after which it is gone. |
| `JournalState.TornTailLosesLaterLines` | store/journal.go:74-81 | A torn tail is not trimmed at open: short of a compaction, everything written after it is lost at the next load, and an unterminated last line with it. |
| `JournalState.TornTailExactly` | store/journal.go:246-280 | For every sequence of operations after such an open: disk and memory agree again if and only if the counted lines reach the compaction threshold; otherwise loading gives what preceded the tail. |
| `Witnesses.TornTailLosesRecord` | store/journal.go:246-280 | A store opened over half a line that loses the next record it saves. |
| `Journal.Journal.constructor` | store/journal.go:63-81 | Opening a directory loads the recovered state and counts the lines read. |
| `Journal.Journal.Load` | store/journal.go:86-164 | The load loop gives the snapshot followed by every line up to the first unreadable one. |
| `Journal.Journal.LoadSnapshot` | store/journal.go:86-140 | Installs the snapshot's maps and recomputes each history counter from its trail. |
| `Journal.Journal.ApplyEntry` | store/journal.go:166-242 | Each line changes memory as the meaning of the line says. |
| `Journal.Journal.WriteEntry` | store/journal.go:246-280 | One line on disk, the listener told, a compaction if due; the disk states passed on the way are those of the crash analysis. |
| `Journal.Journal.CompactLocked` | store/journal.go:329-355 | Snapshot in place of the journal, passing through the two states of the crash analysis. |
| `Journal.Journal.Put` | store/journal.go:370-375 | Memory and journal as the operation's specification says, and exactly its lines to the listener. |
| `Journal.Journal.PutInstance` | store/journal.go:396-401 | As Put, with the revision the caller got. |
| `Journal.Journal.Delete` | store/journal.go:445-450 | As Put, for deletions. |
| `Journal.Journal.PurgeInstance` | store/journal.go:412-417 | As Put, for purges. |
| `Journal.Journal.AppendHistory` | store/journal.go:591-596 | The event comes back under its own number or the one after its instance's counter, and that is the one journaled. |
| `Journal.Journal.DueJobs` | store/journal.go:453-465 | The jobs returned are the earliest due, as for the in-memory store, and gone from memory; one deletion line per job, in order. |
| `Journal.Journal.FetchAndLock` | store/journal.go:483-495 | The records returned are the lowest available, as for the in-memory store, and locked in memory; one line per locked record. |
| `Journal.Journal.WriteEntries` | store/journal.go:453-465 | The lines of one operation, in order. |
| `Journal.Journal.ResetFromSnapshot` | store/replicate.go:38-118 | Memory, snapshot file and line counter become the leader's snapshot; the journal is empty; no listener hears of it. |
| `Journal.Journal.ApplyReplicated` | store/replicate.go:126-160 | History at or below the counter is skipped; any other line is applied and written verbatim; no listener hears of it. |
| `Journal.Journal.ReceiveLines` | replicate/replicate.go:244-262 | Memory, disk and line counter are those of its lines one by one, deduplicated; compactions included. |
| `Replication.LeaderLines` | store/replicate.go:20-26 | Streaming the lines of an operation onto the state before it gives the state after it. |
| `Replication.StepKeepsInv` | replicate/replicate.go:114-174 | Leader operations, queueing, batches, resyncs, deliveries and failures each keep: while needSync is false, follower plus batch plus channel is the leader. |
| `Replication.RunKeepsInv` | replicate/replicate.go:114-174 | The same over every run. |
| `Replication.ReplicationConverges` | replicate/replicate.go:114-191 | From a fresh sender over any follower, through any number of failed, half-applied or unanswered requests and resyncs: while needSync is false, streaming batch and channel to the follower gives exactly the leader, history included; with both empty they are equal. |
| `Replication.QuietLinkSettles` | replicate/replicate.go:114-174 | From every reachable state, a request in flight included however it ends, a quiet leader and a reachable follower end up equal after the sender's next flushes. |
| `Replication.ResyncReplaysChannel` | replicate/replicate.go:121-137 | A resync after an overrun replays the whole channel, lines from before the gap included, over the newer snapshot. |
| `Replication.OverflowDiverges` | replicate/replicate.go:92-137 | A witness: after one dropped line the sender believes itself in sync, holds nothing, and the follower differs. |
| `Overflow.ResyncConvergesExactly` | replicate/replicate.go:92-147 | Whatever was dropped: the forced resync makes the follower equal to the leader if and only if no line still queued changes a record or a trail of the leader. |
| `Overflow.OverflowExactly` | replicate/replicate.go:92-147 | When the lines of one operation are dropped, the resync makes the follower right if and only if the queued lines write no key the operation changed, purge no record it left there, do not purge the trail of an event it noted, and hold no surviving event of a trail it dropped. |
| `Overflow.NewValueSurvives` | store/replicate.go:126-160 | A value newer than the queued lines outlives their replay if and only if none of them writes its key and none of their purges hits it. |
| `Overflow.EmptyTrailStays` | store/replicate.go:140-157 | A purged trail stays empty under replay if and only if every queued event of it is followed by a purge. |
| `Replication.Sender.constructor` | replicate/replicate.go:64-107 | A new sender owes its follower a full snapshot. |
| `Replication.Sender.Tap` | replicate/replicate.go:92-103 | A line is queued if it fits, otherwise dropped with the overrun signal raised; the listener never blocks. |
| `Replication.Sender.Receive` | replicate/replicate.go:150-172 | The select loop takes a pending overrun or the first queued line, whichever it picks when both are ready; each is one step of the protocol. |
| `Replication.Sender.SyncSnapshot` | replicate/replicate.go:121-137 | A resync that is answered is one delivery and moves everything queued to the next batch; one that is not leaves needSync set, whatever the follower did. |
| `Replication.Sender.Flush` | replicate/replicate.go:121-147 | Whatever part of the request took effect and whether or not the reply came, a flush is a run of protocol steps; an answered one leaves the sender in sync. |
| `Routing.MoveOverDeparts` | engine/exec.go:211-248 | One token per flow, the old one over the first: each stands at its flow's target in the same scope, active, or at a resumable element parked on a job of its own; no other token, record, loop, job, incident or status changes. |
| `Routing.TakeOutgoingEffect` | engine/exec.go:174-207 | The token leaves over exactly the flows that are open, in order, or the default flow if none is; it is parked on a new incident that names it if some condition does not evaluate or no flow is left. |
| `Routing.ExclusiveEffect` | engine/exec.go:576-607 | The first flow other than the default whose condition is not simply false decides: taken if open, an incident if it does not evaluate; with none, the default flow or an incident. |
| `Routing.ForkEffect` | engine/exec.go:657-668 | A fork sends one token over every existing flow. |
| `Routing.BoundariesRegistered` | engine/activity.go:398-411 | One new ID per timer, message or signal boundary attached to the activity, in document order: a job or subscription of the token, or, for a timer that cannot be scheduled, an incident; the token is parked on the last such incident; nothing else changes. |
| `Routing.EventBasedEffect` | engine/exec.go:805-824 | The token waits for events, with one new ID per target that waits for a timer, message or signal, in the order of the flows, timers that cannot be scheduled included. |
| `Routing.EnterSubEffect` | engine/activity.go:333-346 | The scope opens with one token at the first plain start event in document order, the entering token waiting on it, after exactly one registration per message, signal or schedulable timer start of its event sub-processes, in document order; without a plain start, an incident. |
| `Effects.BoundaryFires` | engine/events.go:69-114 | Rejected if and only if the token is gone or elsewhere; interrupting: the token is at the boundary and exactly what hung from it is gone; otherwise one more token and nothing else. |
| `Effects.EventSubFires` | engine/events.go:116-145 | Rejected if and only if the owner is gone; one token starts the event sub-process in the scope the owner waits on, and if it interrupts exactly that scope's other tokens are gone. |
| `Effects.IterationCounts` | engine/multiinstance.go:100-146 | The loop is over if and only if its condition says so or nothing is left; otherwise one more is completed, an output kept if collected, and only a sequential loop has spawned, exactly the next index. |
| `Effects.LoopEndEffect` | engine/multiinstance.go:160-186 | A loop that ends loses exactly its iterations and what hangs from them, and the coordinator leaves the activity once, over its outgoing flows, or is parked on an incident if its outputs fail. |
| `Outcomes.SweepClears` | engine/exec.go:1059-1128 | Sweeping a set of tokens removes exactly these, their loop entries, jobs and subscriptions, closes exactly their wait records, cancels exactly the children they wait for, and changes nothing else. |
| `Outcomes.CompletesIs` | engine/exec.go:348-365 | A completed activity whose token is no iteration drops exactly the token's registrations and leaves over its open flows; an iteration is counted. |
| `Outcomes.CountsIs` | engine/multiinstance.go:100-146 | Counting an iteration, every answer included: the iteration is gone and counted, its output kept if collected; the loop is left, or a sequential one has exactly one new iteration numbered by those completed; output and condition failures park the coordinator. |
| `Outcomes.LoopLeftIs` | engine/multiinstance.go:160-186 | All that hangs from the coordinator is gone, at any depth, with its records; the coordinator leaves over its open flows or is parked on an incident. |
| `Outcomes.ScopeOverIs` | engine/exec.go:279-327 | After a token goes, the walk outward passes exactly the event sub-processes nobody is left in, and where it stops nothing happens if somebody is left, the process is over, or the sub-process completes. |
| `Outcomes.EscapesIs` | engine/exec.go:977-1054 | An error loose in a scope, record by record: by an event sub-process, by a boundary of the scope with its owner, coordinator or a new token, or the end of the instance. |
| `Outcomes.ErrorThrownIs` | engine/exec.go:938-962 | An activity's error is taken by its first boundary that takes the code, its loop gone with all that hangs from it, or else escapes into the scope with the token gone. |
| `StepEffects.WorksIs` | engine/activity.go:159-324 | Scripts, rules and plain services: success finishes, a plain failure is a retry job of the token while attempts are left and an incident naming it after that, an error code is thrown, nothing to run is an incident. |
| `StepEffects.ConsultsIs` | engine/agent.go:107-241 | An agent task: no budget is an incident, an external one waits on an agent job, one in place fails or is reviewed; a failed review is a failure, one that needs approval a user task. |
| `StepEffects.CatchesEventIs` | engine/exec.go:828-905 | A catch event waits in the state of its kind on one new job or subscription for its element; anything else is an incident. |
| `StepEffects.StartsLoopIs` | engine/multiinstance.go:14-97 | A loop over nothing completes; otherwise the token coordinates, its boundaries are registered, and iterations numbered from 0 start, one if sequential, else all. |
| `StepEffects.PerformsIs` | engine/activity.go:37-61 | Every kind of activity does its own kind of work, and no other. |
| `StepEffects.ActsIs` | engine/activity.go:21-61 | A loop starts; inputs that do not evaluate are an incident; otherwise the boundaries are registered, but not for iterations, and then the work is done. |
| `StepEffects.EndsIs` | engine/exec.go:484-528 | A terminate end ends the process or empties its scope; an error end consumes its token and throws its code; any other end consumes its token; then the scope may be over. |
| `StepEffects.SynchronizesIs` | engine/exec.go:611-668 | The parallel gateway, one way in or several, from any sound instance. |
| `StepEffects.GathersIs` | engine/exec.go:672-763 | The inclusive gateway, one way in or several, from any sound instance. |
| `StepEffects.WorkEffect` | engine/activity.go:159-324 | A step of a script, rule or plain service task in a sound instance: its boundaries registered, success leaves or counts, a plain failure is a retry job of the token while attempts are left and an incident after that, an error code is thrown, nothing to run is an incident. |
| `StepEffects.StepEffect` | engine/exec.go:121-163 | Every step of an active token in a sound instance has exactly the effect told for its kind of element, token by token and record by record, without the functions that compute it. |
| `Engine.Merged` | engine/exec.go:641-654 | One joining token of each other flow, chosen by map order, and never the arriving one. |
| `Engine.RegisterBoundariesParks` | engine/activity.go:398-411 | Registering boundary events moves no token and at most parks the registering one on an incident. |
| `Cancellation.CancelsExactlySubtree` | engine/events.go:87-101 | Cancelling an activity removes exactly the tokens that hang from it, through scope owners and loop coordinators, at any depth; every other token is as before. |
| `Cancellation.CancelClosesExactly` | engine/exec.go:1075-1128 | Of the wait records exactly those of the removed tokens and of the cancelled one are closed; every other is as before. |
| `Cancellation.CancelDropsEvents` | engine/exec.go:1130-1145 | Exactly the jobs and subscriptions bound to the removed tokens and the cancelled one, or referred to by them, go; the others are as before. |
| `Cancellation.CancelDropsLoops` | engine/exec.go:1075-1127 | Exactly the loop entries of the removed tokens and of the cancelled one go; the others are as before. |
| `Cancellation.SubtreeClosed` | engine/exec.go:1059-1128 | Whatever hangs from a removed token is removed too. |
| `Cancellation.KillScopeCuts` | engine/exec.go:1059-1073 | Emptying a scope leaves a sound tree in which at most the token waiting on that scope waits for nothing. |
| `Cancellation.FreedReady` | engine/events.go:90-114 | A token whose activity was cancelled stands free in a sound instance, and nothing but its subtree is missing. |
| `Sweeps.SweepTwice` | engine/exec.go:1059-1128 | Two cancellations in a row, the first releasing what it removes, are one. |
| `Sweeps.ScopePiece` | engine/exec.go:1059-1073 | Taking one more token of a scope takes everything looped under it, all of it inside the scope. |
| `Sweeps.LoopPieces` | engine/exec.go:1116-1127 | Once every iteration has gone with its scope, exactly the loop's set has gone. |
| `Sweeps.ScopeStep` | engine/exec.go:1059-1073 | In whatever order the tokens of a scope come up, each is either gone already or is released and removed with its loop, and the rest of the scope is what remains. |
| `Moves.MoveOverKeeps` | engine/exec.go:211-227 | Moving a free token over its flows, with one sibling per further flow, keeps the instance in order. |
| `Moves.TakeOutgoingKeeps` | engine/exec.go:174-207 | Taking conditional and default flows, or parking on an incident, keeps the instance in order. |
| `Moves.RouteExclusiveKeeps` | engine/exec.go:576-607 | The exclusive gateway keeps the instance in order. |
| `Moves.ForkAllKeeps` | engine/exec.go:657-668 | The parallel fork keeps the instance in order. |
| `Moves.RegisterKeeps` | engine/activity.go:398-411 | Registering waits keeps the instance in order and the token free to move unless it was parked. |
| `Moves.CatchEventKeeps` | engine/exec.go:828-843 | An intermediate catch event keeps the instance in order. |
| `Moves.RouteEventBasedKeeps` | engine/exec.go:805-824 | An event gateway keeps the instance in order. |
| `Moves.RaiseIncidentKeeps` | engine/exec.go:915-934 | Parking on an incident keeps the instance in order. |
| `Moves.EnterCallKeeps` | engine/activity.go:348-392 | A call activity keeps the instance in order while it waits for its child. |
| `Steps.RouteParallelKeeps` | engine/exec.go:611-668 | A parallel gateway keeps the instance in order, whichever waiting tokens it merges. |
| `Steps.RouteInclusiveKeeps` | engine/exec.go:672-720 | An inclusive gateway keeps the instance in order. |
| `Steps.WorkKeeps` | engine/activity.go:159-288 | Work that succeeds, fails, is retried, or throws a BPMN error keeps the instance in order. |
| `Steps.AgentTaskKeeps` | engine/agent.go:107-241 | An agent task, run in place or handed out, reviewed or not, keeps the instance in order. |
| `Steps.DispatchKeeps` | engine/activity.go:37-61 | Every kind of activity keeps the instance in order. |
| `Steps.ActivityKeeps` | engine/activity.go:21-61 | Dispatch with loops, input mapping and boundary registration first keeps the instance in order. |
| `Steps.ReachEndKeeps` | engine/exec.go:484-528 | Plain, terminate and error end events keep the instance in order. |
| `Steps.StepKeeps` | engine/exec.go:121-163 | Every step keeps: the scope tree, no scope or loop left waiting for nothing, loop accounts, wait records matching waiting tokens, and usable jobs and subscriptions; tokens never change scope or coordinator, and new iterations take new numbers. |
| `Activities.StartMultiKeeps` | engine/multiinstance.go:14-83 | Starting a loop, an empty one included, keeps the instance in order and the numbers of loops already running. |
| `Activities.StartMultiExactly` | engine/multiinstance.go:14-83 | Starting a loop leaves the instance in order if and only if its boundary timers can be scheduled whenever it has iterations. |
| `Witnesses.BadTimerBreaksLoop` | engine/multiinstance.go:14-83 | A run of a deployable process to a state whose next step starts a loop with a boundary timer that cannot be scheduled, and leaves the instance out of order. |
| `Activities.EnterSubKeeps` | engine/activity.go:333-346 | Entering a sub-process keeps the instance in order, its event sub-process registrations included. |
| `Completion.CompleteActivityKeeps` | engine/exec.go:348-365 | Completing an activity, as a loop iteration or not, keeps the instance in order. |
| `Completion.CheckScopeKeeps` | engine/exec.go:287-327 | With one scope left empty, checkScope mends it: it finds the scope busy, wakes the owner, walks on through event sub-processes, or completes the instance. |
| `Completion.ConsumeKeeps` | engine/exec.go:279-284 | Consuming a token keeps the instance in order. |
| `Completion.MiChildCompletedKeeps` | engine/multiinstance.go:100-146 | Counting an iteration keeps the loop's accounts, spawns the next iteration or ends the loop. |
| `Completion.MiChildCompletedExactly` | engine/multiinstance.go:100-146 | Counting an iteration leaves the instance in order if and only if the output and completion-condition expressions the loop asks for succeed. |
| `Witnesses.BadOutputBreaksLoop` | engine/multiinstance.go:100-146 | A run of a deployable process to a state where completing the external task of an iteration, its output expression failing, leaves the instance out of order. |
| `Completion.NextIterationKeeps` | engine/multiinstance.go:129-137 | The next sequential iteration is the one numbered by those completed, and alone. |
| `Completion.FinishMultiKeeps` | engine/multiinstance.go:160-186 | Finishing keeps the instance in order and removes every iteration and the loop entry. |
| `Errors.HandlerIsInnermost` | engine/exec.go:977-1054 | The handler found is the innermost: no deeper scope catches, an event sub-process wins over a boundary of the same scope, and none is found only if no scope catches. |
| `Errors.PropagateHandles` | engine/exec.go:977-1054 | The walk outward leaves what that one handler leaves. |
| `Outcomes.FirstHandler` | engine/exec.go:988-1012 | Among the event sub-processes of a scope the first in document order with an error start that takes the code handles it, by the first such start; codes match if equal or if the event names none. |
| `Outcomes.ErrorBoundaryIs` | engine/exec.go:938-962 | The boundary chosen is the first error boundary of the activity, in document order, that takes the code. |
| `Errors.PropagateKeeps` | engine/exec.go:977-1054 | Propagation keeps the instance in order unless an error event sub-process would catch an error thrown inside itself. |
| `Errors.ThrowErrorKeeps` | engine/exec.go:938-962 | Throwing from an activity, caught at its own boundary or further out, keeps the instance in order unless an error event sub-process would catch an error thrown inside itself. |
| `ErrorEffects.SubHandlerEffect` | engine/exec.go:985-1008 | Caught by an event sub-process: exactly the scope's tokens outside that event sub-process go, one new token starts it, and every other token is untouched. |
| `ErrorEffects.BoundaryEffect` | engine/exec.go:1010-1046 | Caught at a boundary: the scope is empty afterwards and exactly one token goes on, the owner, or the coordinator of the owner's loop with all its iterations gone, or a new token; every other token is untouched. |
| `ErrorEffects.UnhandledEffect` | engine/exec.go:1048-1054 | No handler: one incident, no tokens, terminated. |
| `ErrorEffects.OutsideUntouched` | engine/exec.go:977-1054 | A token outside the scope that catches, and outside the loop that leaves, is the same before and after. |
| `ErrorEffects.ThrowCaughtEffect` | engine/exec.go:938-962 | Caught at the failing activity's own boundary: the first boundary event in document order that catches goes on with exactly one token, the failing one, or for a loop iteration the coordinator with the loop and all its iterations gone; every other token is untouched. |
| `ErrorEffects.ThrowOutsideUntouched` | engine/exec.go:938-1054 | Wherever an activity's error is caught, a token outside the scope that catches, and outside the loop that leaves, is the same before and after. |
| `ErrorEffects.PropagateExactly` | engine/exec.go:985-1008 | Propagation leaves the instance in order if and only if no re-entered error event sub-process strands a scope that is left empty, or a loop one iteration short. |
| `ErrorEffects.ThrowLeavesShort` | engine/exec.go:938-962 | An iteration taken away by an error leaves its loop one iteration short. |
| `Witnesses.ReentryStrands` | engine/exec.go:985-1008 | A run of a deployable process to a state whose next step throws an error inside the event sub-process that catches it, and leaves a sub-process waiting for nothing. |
| `Triggers.BoundaryTriggeredKeeps` | engine/events.go:69-85 | A boundary event, interrupting or not, keeps the instance in order. |
| `Triggers.EventSubTriggeredKeeps` | engine/events.go:116-145 | An event sub-process trigger, interrupting or not, keeps the instance in order while its owner stands on the enclosing sub-process. |
| `Triggers.OwnerStandsExactly` | engine/events.go:116-145 | With the owner still there, a trigger of an event sub-process leaves the instance in order if and only if the owner still waits on the enclosing sub-process. |
| `Runs.ClaimedTimerExactly` | engine/events.go:171-195 | Firing any timer that was claimed, rescheduled or not, leaves the instance in order if and only if the owner it names, where that is an event sub-process start and the owner is still there, still waits on the enclosing sub-process. |
| `Witnesses.LateTimerHangs` | engine/events.go:116-145 | A run of a deployable process in which a timer is claimed before its sub-process ends; fired afterwards it starts a token in no scope. |
| `Triggers.HomeIs` | engine/events.go:148-168 | The search for an element's event sub-process finds the one container that holds it. |
| `Triggers.TriggeredKeeps` | engine/events.go:14-66 | Whatever a job or subscription triggers keeps the instance in order. |
| `Triggers.DeliveredKeeps` | engine/engine.go:921-957 | Delivering a message or signal, orphaned subscriptions included, keeps the instance in order. |
| `Triggers.TimerFiredKeeps` | engine/events.go:171-195 | A firing timer, rescheduled first if it repeats, keeps the instance in order. |
| `Triggers.WaitCompletedKeeps` | engine/engine.go:772-828 | Completing a user task, external task or agent job keeps the instance in order and closes the record if the call was accepted. |
| `Triggers.WaitFailedKeeps` | engine/engine.go:1006-1046 | Failing an external task or agent job, with retries left, with an error code or for good, keeps the instance in order. |
| `OutsideEffects.WaitCompletedEffect` | engine/engine.go:772-828 | A completion finds the token still parked on the record, or has no effect; a user or external task then completes its activity, leaving over exactly the open flows or counting the iteration; an approval finishes it; an agent job's answer is reviewed. |
| `OutsideEffects.WaitFailedEffect` | engine/engine.go:1006-1046 | A failure with an error code throws it; one without changes nothing while attempts are left and is an incident after that, the record closed; a stale one has no effect. |
| `OutsideEffects.ChildEndedEffect` | engine/exec.go:445-480 | A child's end finishes exactly the call activity that waits for it. |
| `OutsideEffects.ChildLostEffect` | engine/activity.go:378-390 | A child that could not be started is an incident of the call activity that waits for it. |
| `OutsideEffects.ResumedEffect` | engine/scheduler.go:83-97 | A retry or async job resumes its token only if it still waits for that job; resolving an incident resumes the token it names if that is still parked; nothing else changes. |
| `OutsideEffects.BoundaryEffects` | engine/events.go:69-114 | A boundary event, record by record: rejected if the token is gone or elsewhere; interrupting, all that hangs from the token is gone with what it waited for; otherwise one token more. |
| `OutsideEffects.EventSubEffects` | engine/events.go:116-145 | An event sub-process trigger, record by record: rejected if the owner is gone; interrupting, everything else in the scope is cleared and the record that fired is gone; one token stands at the start. |
| `OutsideEffects.CaughtEffect` | engine/events.go:27-66 | The event a token waits for, by its own element or at an event gateway, drops its registrations and takes it over its open flows, or finishes a receive task; no other token takes it. |
| `OutsideEffects.TriggeredEffect` | engine/events.go:14-66 | A fired record goes to the boundary event, event sub-process start or catch event it names. |
| `OutsideEffects.DeliveredEffect` | engine/engine.go:921-957 | A delivery does what its subscription says, and drops it if nobody waits any more. |
| `OutsideEffects.TimerFiredEffect` | engine/events.go:171-195 | A fired timer that repeats and does not interrupt is scheduled again first, and then does what its record says. |
| `OutsideEffects.StartedEffect` | engine/engine.go:563-631 | An instance starts with one token and exactly the registrations of the process's event sub-processes, in document order. |
| `OutsideEffects.TerminatedEffect` | engine/exec.go:381-441 | Termination leaves no token, open wait record, job or subscription, and changes nothing else. |
| `Triggers.ChildEndedKeeps` | engine/exec.go:445-480 | The end of a child instance keeps the parent in order. |
| `Triggers.TerminateKeeps` | engine/exec.go:381-441 | Termination leaves no token, open wait, job or subscription. |
| `Triggers.StartedInv` | engine/engine.go:563-631 | A fresh instance is in order. |
| `Bpmn.DeployableIsValid` | bpmn/validate.go:59-178 | What parsing gives and deployment checks implies all that the model asks of a process graph, up to IDs unique across scopes and event sub-processes without incoming flows or loops. |
| `Runs.NextKeeps` | engine/engine.go:634-668 | Every action on an instance (steps, deliveries, claims, timers, completions, failures, child ends, incident resolution, cancellation, suspension) keeps the invariant and the claims of the scheduler. |
| `RunEffects.ActionEffect` | engine/engine.go:634-668 | Every action on an instance in order has exactly its described effect on tokens and records, and on the scheduler's claims. |
| `RunEffects.RunEffect` | engine/engine.go:634-668 | Along every run each action does exactly what is said of it. |
| `Runs.RunKeepsInv` | engine/exec.go:32-53 | In every world of every run the invariant holds. |
| `Runs.TokensHangTogether` | engine/exec.go:252-327 | In every run path and owners run in parallel; each owner is a live token waiting on the path's element one level up; each coordinator is live, at the same element and scope; ownerless levels are event sub-processes. |
| `Runs.NoScopeStuck` | engine/exec.go:287-327 | In every run each token waiting on an embedded scope has a live token inside it. |
| `Runs.LoopBooks` | engine/multiinstance.go:14-186 | In every run a running loop has a live iteration; a parallel loop's live iterations are total minus completed, a sequential loop has one, the one after those completed; outputs number the completed; no index is live twice. |
| `Runs.EachIndexOnce` | engine/multiinstance.go:87-146 | Over the whole life of a loop each index is spawned at most once. |
| `Runs.FinishedLoopsAreGone` | engine/multiinstance.go:160-186 | In every run a loop that is over has no iteration left. |
| `Runs.ActiveExactlyWithTokens` | engine/exec.go:369-391 | In every run the instance is active exactly while it has tokens. |
| `Runs.WaitsMatchTokens` | engine/engine.go:772-1043 | In every run a wait record is open exactly when its token waits on it, and no other token does. |
| `Runs.WaitEndsOnce` | engine/engine.go:634-828 | However calls with stale reads interleave with everything else, each wait advances its token at most once. |
| `Runs.EndedIsClean` | engine/exec.go:393-441 | An ended instance has no open wait, job or subscription. |
| `Joins.ArrivalEffect` | engine/exec.go:611-654 | A join fires if and only if every other incoming flow has a token waiting in the same scope instance; firing consumes exactly one waiting token of each other flow and no token anywhere else, and forks over every flow out; an arrival that does not fire only waits. |
| `Joins.FiresWhen` | engine/exec.go:625-638 | The readiness loops come out true exactly when every incoming flow other than the arriving token's has a token waiting. |
| `Joins.SomeFlowEmpty` | engine/exec.go:625-639 | After every arrival some incoming flow has no token waiting. |
| `Joins.JoinConserves` | engine/exec.go:611-654 | For every arrival sequence, on each flow the tokens waiting are arrivals minus firings (section 13.4.1 of OMG BPMN 2.0.2). |
| `Joins.FiringsAreMinimum` | engine/exec.go:611-654 | The number of firings is the minimum over the incoming flows of the arrivals. |
| `Joiners.StepRests` | engine/exec.go:121-163 | A step changes no token waiting at a join except by merging or cancelling it, and only the stepping token may come to wait, at a join gateway. |
| `Joiners.NextRests` | engine/engine.go:634-668 | Every action on an instance leaves the tokens waiting at joins alone, unless it removes them, or is itself an arrival that waits. |
| `Joiners.RunJoinersStand` | engine/exec.go:611-763 | In every run tokens waiting at joins stand on parallel or inclusive gateways. |
| `Joiners.OtherwiseElsewhere` | engine/exec.go:611-654 | Every action of a run that is neither an arrival at a join nor takes one of its waiting tokens away leaves the join as it was. |
| `Joiners.RunIsJoinRun` | engine/exec.go:611-654 | Every run of an instance, seen from a parallel join no cancellation strikes, is an arrival sequence of that join. |
| `Joiners.RunFiringsAreMinimum` | engine/exec.go:611-654 | So in every such run the join has fired as often as its scarcest incoming flow has delivered. |
| `Joins.CanReach` | engine/exec.go:770-801 | The breadth-first search ends and is true exactly when a path of flows, extended by those of boundary events on the way, exists. |
| `Joins.Expand` | engine/exec.go:782-798 | One round of the search keeps: everything seen is reachable, and everything seen is queued or followed. |
| `Joins.EdgeIs` | engine/exec.go:782-798 | One step of the search goes along a flow out of the element or out of a boundary event attached to it, and along no other. |
| `Joins.ReadyExactly` | engine/exec.go:726-763 | The readiness test, with positions seen from the scope instance, is true exactly when nothing else can reach the gateway. |
| `Joins.InclusiveEffect` | engine/exec.go:672-763 | An inclusive join fires if and only if no other token of its scope instance, those waiting there excepted and nested ones seen at their sub-process, has such a path; then exactly the tokens waiting there go and the arriving one leaves over its open flows; otherwise it waits and nothing else changes (section 13.4.3 of OMG BPMN 2.0.2). |
| `Runtime.Run.constructor` | engine/exec.go:14-30 | The object holds the given instance. |
| `Runtime.Run.DropTokenEventWaits` | engine/exec.go:1130-1145 | The deletion loop drops exactly the token's jobs and subscriptions. |
| `Runtime.Run.ReleaseWait` | engine/exec.go:1075-1115 | Closes or drops what the token waits for, by its state. |
| `Runtime.Run.CancelWaits` | engine/exec.go:1075-1128 | The mutual recursion, in any map order, ends and leaves the instance with the token's loop swept. |
| `Runtime.Run.CancelIterations` | engine/exec.go:1116-1127 | The loop over iterations, after any number of them. |
| `Runtime.Run.CancelActivity` | engine/events.go:90-101 | The mutual recursion ends and leaves the instance with the activity's subtree swept. |
| `Runtime.Run.KillScopeTokens` | engine/exec.go:1059-1073 | In any map order the scope instance is swept, except the spared event sub-process. |
| `Runtime.Run.SpawnToken` | engine/exec.go:252-264 | One new active token under a fresh ID. |
| `Runtime.Run.RaiseIncident` | engine/exec.go:915-934 | Parks the token, if still there, on a fresh incident. |
| `Runtime.Run.MoveOver` | engine/exec.go:211-227 | Siblings for the further flows, then the token itself on the first. |
| `Runtime.Run.TakeOutgoing` | engine/exec.go:174-207 | The condition loop selects flows as specified, with the default flow or an incident otherwise. |
| `Runtime.Run.ExclusiveGateway` | engine/exec.go:576-607 | The first true flow, else the default flow, else an incident. |
| `Runtime.Run.ForkAll` | engine/exec.go:657-668 | One token per existing flow. |
| `Runtime.Run.Consume` | engine/exec.go:279-284 | Removal and scope check. |
| `Runtime.Run.CheckScope` | engine/exec.go:287-327 | The walk outward through completed scopes ends and leaves the specified instance. |
| `Runtime.Run.CompleteActivity` | engine/exec.go:348-365 | Loop counting or outgoing flows, the token's registrations dropped. |
| `Runtime.Run.MiChildCompleted` | engine/multiinstance.go:100-146 | Outputs, counters and completion condition as specified, in the source's order. |
| `Runtime.Run.AfterCount` | engine/multiinstance.go:117-146 | Ends the loop, spawns the next iteration, or keeps waiting. |
| `Runtime.Run.FinishMultiInstance` | engine/multiinstance.go:160-186 | Stragglers cancelled one by one in any order, entry dropped, coordinator moved on. |
| `Runtime.Run.CompleteInstance` | engine/exec.go:369-378 | Completed and cleaned up. |
| `Runtime.Run.CleanupInstanceRecords` | engine/exec.go:395-441 | The loop closes every open wait and drops every job and subscription. |
| `Runtime.Run.Terminate` | engine/exec.go:381-391 | Terminated, without tokens, and cleaned up. |
| `Runtime.Run.ParallelReady` | engine/exec.go:625-639 | The two loops decide whether every incoming flow has delivered in this scope instance. |
| `Runtime.Run.MergeJoining` | engine/exec.go:641-654 | In any map order, one joining token per other flow goes. |
| `Runtime.Run.ParallelGateway` | engine/exec.go:611-623 | The gateway's step for the merge the map order made. |
| `Runtime.Run.InclusiveReady` | engine/exec.go:726-747 | Decides whether any other token of the scope instance can still arrive. |
| `Runtime.Run.MergeAll` | engine/exec.go:691-703 | Every token waiting there in this scope instance goes, and no other. |
| `Runtime.Run.InclusiveGateway` | engine/exec.go:672-720 | The inclusive gateway's step. |
| `Runtime.Run.RegisterBoundaries` | engine/activity.go:398-411 | One registration per timer, message or signal boundary, in document order, or the incident of a timer that cannot be scheduled. |
| `Runtime.Run.EventBasedGateway` | engine/exec.go:805-824 | One registration per target. |
| `Runtime.Run.RegisterEventSubs` | engine/activity.go:420-482 | One registration per timer, message or signal start of an event sub-process. |
| `Runtime.Run.PropagateError` | engine/exec.go:977-1054 | The walk outward ends at the innermost handler. |
| `Runtime.Run.CatchAtBoundary` | engine/exec.go:1010-1046 | Empties the scope and lets one token go on. |
| `Runtime.Run.ThrowError` | engine/exec.go:938-962 | The activity's own boundary, else the walk. |
| `Runtime.Run.StartMultiInstance` | engine/multiinstance.go:14-83 | Entry, boundary registrations, then the first iterations. |
| `Runtime.Run.EnterSubProcess` | engine/activity.go:333-346 | Registrations and the start token of the new scope. |
| `Runtime.Run.RunActivity` | engine/activity.go:21-61 | Loops, input mapping, boundary registration, dispatch. |
| `Runtime.Run.EndEvent` | engine/exec.go:484-528 | Plain, terminate and error ends. |
| `Runtime.Run.Step` | engine/exec.go:121-163 | One step of any token, for the merge choice made. |
| `Runtime.Run.NextActive` | engine/exec.go:56-67 | The active token with the lowest ID, found in any map order. |
| `Runtime.Run.StepWell` | engine/exec.go:121-163 | A step whose evaluations meet the assumptions keeps the invariant. |
| `Runtime.Run.Drain` | engine/exec.go:32-53 | The drain loop is the run that always steps the lowest active token; it ends with none left, with the instance ended, or with the step limit's incident, and the invariant holds. |
| `Runtime.Run.BoundaryTriggered` | engine/events.go:69-85 | Rejected exactly when the token is no longer on the activity; otherwise cancels it or adds a token. |
| `Runtime.Run.EventSubprocessTriggered` | engine/events.go:116-145 | Rejected exactly when the owner is gone; otherwise the scope is swept if it interrupts, and one token starts the event sub-process. |
| `Runtime.Run.EventCaught` | engine/events.go:29-66 | Rejected exactly when the token is gone or waits elsewhere; otherwise its registrations go and it goes on from the triggered element. |
| `Runtime.Run.CompleteWait` | engine/engine.go:772-828 | Accepted exactly when the token still waits on the record. |
| `Printer.PrintParses` | expr/parser.go:91-349 | At every precedence level, a tree printed for that level parses back to it before any tokens that level does not take. |
| `Printer.PrintThenParse` | expr/parser.go:52-66 | Every tree the parser can build, printed with parentheses only where it binds looser than its place, parses back to that tree and uses the tokens up to the end marker. |
| `Printer.ExprBuilds` | expr/parser.go:91-349 | The parser builds only trees the printer covers. |
| `Printer.ParsePrintParse` | expr/parser.go:52-66 | Reprinting any accepted expression and parsing again gives the same tree. |
| `Precedence.PhraseParses` | expr/parser.go:91-349 | Every phrase of the language, written out with flat chains of operators, parses to its meaning: a chain means the tree split at the last of its loosest operators, prefixes bind tighter, member access and indexing tighter still, the conditional loosest and to the right. |
| `Precedence.ParsesExactly` | expr/parser.go:52-66 | The parser accepts exactly the spellings of phrases, and gives exactly what they mean. |
| `Precedence.TwoOperators` | expr/parser.go:114-232 | Between three atoms the operator of the later set takes its operands first, of two of one set the left one, for the six sets from ?? to * / %. |
| `Precedence.ChainReads` | expr/parser.go:114-232 | A chain of operands whose operators all bind at least as tightly as a level is read by that level as its tree, whatever follows. |
| `Minimal.FewestParentheses` | expr/parser.go:52-66 | Of all token lists that parse to a tree, its print has the fewest parentheses. |
| `Minimal.ExprPays` | expr/parser.go:91-349 | Every tree the parser builds has used at least the parentheses of its print. |
| `Parser.Parser.constructor` | expr/parser.go:52-58 | The cursor starts on the first token of a list with an end marker. |
| `Parser.Parser.Accept` | expr/parser.go:70-77 | Advances by one exactly on the wanted operator. |
| `Parser.Parser.Next` | expr/parser.go:69-69 | Reads in bounds; only past the end marker may the cursor leave the list. |
| `Parser.Parser.ParseExpr` | expr/parser.go:91-111 | Result and cursor as the grammar says, on every list with an end marker, never out of bounds, error paths included. |
| `Parser.Parser.ParseBinary` | expr/parser.go:114-232 | The same for the six left-associative levels; which operators these are is fixed by Precedence.ParsesExactly. |
| `Parser.Parser.ParseUnary` | expr/parser.go:235-250 | The same for prefix operators. |
| `Parser.Parser.ParsePostfix` | expr/parser.go:253-278 | The same for member access and indexing. |
| `Parser.Parser.ParsePrimary` | expr/parser.go:281-349 | The same for literals, names, calls, lists and parentheses. |
| `Parser.Parser.ParseList` | expr/parser.go:296-345 | The same for possibly empty lists. |
| `Parser.Parser.ParseItems` | expr/parser.go:299-345 | The same for the items of a list. |
| `Parser.Parser.Compile` | expr/parser.go:52-66 | A tree comes out if and only if the tokens before an end marker spell a phrase, and it is what the phrase means. |
| `Claims.LockHolds` | store/sqlstore.go:494-504 | After a claim, until something else writes the row, its lock column never falls below what the claim set. |
| `Claims.ClaimsAreExclusive` | store/sqlstore.go:506-542 | For every interleaving of scans and claims, the later of two successful claims of a row with no rewrite between has its clock at or past the end of the earlier lock. |
| `Claims.RunAgrees` | store/sqlstore.go:476-504 | However they interleave, claims and writes keep the tested columns in step with the stored document. |
| `Claims.ClaimKeepsWorkExactly` | store/sqlstore.go:506-542 | On every run: a successful claim keeps the work stored in the row if and only if it is what the claimer's last scan saw. |
| `Claims.CopiesAreOld` | store/sqlstore.go:506-542 | However others write and claim, what a replica has left to claim are the documents as of its scan: pending on its topic, with no lock or one that had expired. |
| `Claims.UntouchedIsKept` | store/sqlstore.go:506-542 | A claim keeps the work of a row nobody wrote, removed or claimed since the scan. |
| `Claims.LastTouchDecides` | store/sqlstore.go:506-542 | Otherwise the last to touch the row decides: a write survives if and only if it wrote the work the claimer had scanned, another replica's claim if and only if both had scanned the same work. |
| `Claims.ClaimsAloneKeepWork` | store/sqlstore.go:506-542 | Once every outstanding copy of a row is current, scans and claims of all replicas keep its work until something else writes or removes it. |
| `Claims.ClaimUndoesWrite` | store/sqlstore.go:506-542 | A run in which a claim writes back a stale copy over a newer one. |
| `Claims.TakenStaysGone` | store/sqlstore.go:418-453 | A job taken is gone until it is stored again. |
| `Claims.JobTakenOnce` | store/sqlstore.go:418-453 | Each stored job goes to at most one caller, however many replicas scanned it. |
| `Claims.SqlStore.Upsert` | store/sqlstore.go:123-139 | The row's columns are those of the document. |
| `Claims.SqlStore.TryClaim` | store/sqlstore.go:494-504 | Succeeds exactly if the row is there, pending and due, and then carries the new document and lock; otherwise nothing changes. |
| `Claims.SqlStore.LockAll` | store/sqlstore.go:506-542 | The claiming loop returns exactly candidates that were claimable when tried, locked; everything it changed and everything that was claimable is among them. |
| `Claims.SqlStore.TakeDue` | store/sqlstore.go:418-453 | Returns exactly the picked jobs its delete still found, each once. |
| `Migration.OnlyCleanRunsWrite` | engine/migrate.go:91-177 | Applied if and only if not a dry run, transforms succeed and every token has a place in the target; otherwise nothing changes. |
| `Migration.MigratableMeans` | engine/migrate.go:91-152 | The checks of one token come out well exactly if every scope around it and its element are there in the target, of the type it had and of the kind it waits for. |
| `Migration.ReportMeans` | engine/migrate.go:91-160 | A report lists an issue for exactly the tokens without a place in the target, and for every other one the move to the renamed element. |
| `Migration.DryRunForetells` | engine/migrate.go:91-177 | The dry run reports the same moves and issues as the real run, and each reported move is where the token ends up. |
| `Migration.TokensResolve` | engine/migrate.go:91-177 | Every migrated token stands on an existing element of the target, renamed level by level, of the type it had and of the kind it waits for: user task or agent, message, signal, loop. |
| `Migration.MigrationKeepsTree` | engine/migrate.go:91-177 | The scope tree survives if and only if event sub-process levels stay such, no token lands on an event sub-process, and no live iteration is renamed. |
| `Witnesses.RenamedIterationBreaksTree` | engine/migrate.go:169-177 | A run of a deployable process to a state that a migration, applied onto a deployable process, renaming the looping activity, leaves with a broken scope tree. |
| `Migration.RecordsAgree` | engine/migrate.go:169-231 | An open record agrees with its token's element afterwards if and only if it is a user task or the element was not renamed. |
| `Witnesses.RenamedElementLosesExternalTask` | engine/migrate.go:184-231 | A run of a deployable process to a state that a migration, applied onto a deployable process, leaves with an open external task naming another element than its token. |
| `Migration.MigrationKeepsLinks` | engine/migrate.go:169-235 | Open waits and waiting tokens keep corresponding. |
| `Migration.MigrationKeepsInvExactly` | engine/migrate.go:91-235 | A migration that applies keeps a running instance in order if and only if the scope tree survives, every running loop fits the target's loop characteristics, and every job and subscription lands on an element its trigger can use. |
| `Migration.Migrator.constructor` | engine/migrate.go:55-78 | The object holds the persisted instance and both graphs. |
| `Migration.Migrator.ScopeWalk` | engine/migrate.go:99-119 | The level-by-level walk decides whether the mapped path exists. |
| `Migration.Migrator.ValidateToken` | engine/migrate.go:92-152 | The checks of one token. |
| `Migration.Migrator.Validate` | engine/migrate.go:91-152 | The validation pass collects exactly the moves and the issues. |
| `Migration.Migrator.Run` | engine/migrate.go:55-248 | Validation, then the apply pass or nothing. |
| `Migration.Migrator.ApplyTokens` | engine/migrate.go:169-177 | Every token moved, in any map order. |
| `Migration.Migrator.ApplyMade` | engine/migrate.go:184-203 | Exactly the open user tasks follow their elements. |
| `Migration.Migrator.ApplyEvents` | engine/migrate.go:204-231 | Every job and subscription follows its element. |
| `Reconcile.CalmKeepsHealth` | engine/engine.go:274-344 | A repair makes no other token broken. |
| `Reconcile.RepairHeals` | engine/engine.go:285-325 | Each repair leaves a consistent instance in which the token is gone or changed and the others are untouched or sound. |
| `Reconcile.RepairMends` | engine/engine.go:285-325 | The repaired token was advanced, re-armed or given an open incident. |
| `Reconcile.RepairDoes` | engine/engine.go:285-325 | A missing child or a closed user task parks the token on a new incident; an ended child completes the activity; a lost job lets the token go on where it stands; any other token is left as it is. |
| `Reconcile.RepairCompletes` | engine/engine.go:285-325 | In an instance in order an ended child completes the activity like a living one: an iteration is counted, any other token leaves over its open flows. |
| `Reconcile.PassKeeps` | engine/engine.go:285-325 | After each repair every token already visited is sound. |
| `Reconcile.RepairPass` | engine/engine.go:274-344 | In whatever order its tokens come up, after the pass no token waits on a missing or ended child, a finished user task or a missing job; an instance in order stays so; with nothing to repair nothing changes. |
| `Reconcile.RepairKeepsInv` | engine/engine.go:285-325 | A repair keeps an instance in order that is in order already. |
| `Reconcile.RepairToken` | engine/engine.go:285-325 | One iteration of the pass. |
| `Recovery.StepEases` | engine/exec.go:121-163 | Whatever its evaluations answer, a step leaves every other token's wait as it was, and whatever starts to wait waits on something that exists, or on a call just made. |
| `Recovery.DrainStepWell` | engine/exec.go:32-53 | A step of the drain keeps: no token waits on something that will never happen. |
| `Recovery.DrainRepaired` | engine/engine.go:653-656 | The drain after the repairs leaves no token of an instance in order waiting on a missing or ended child, a finished user task or a missing job; calls it made itself are still to start. |
| `Recovery.ReconcileInstance` | engine/engine.go:274-344 | Repairs and drain together, whatever jobs, calls and call results a crash lost: no token is left waiting on something that will never happen. |

## Left out

- Replication.ReplicationConverges: runs without a channel overflow only, since the property fails after one; `Overflow.OverflowExactly` says when.
- JournalState.SingleLineCrash: allows repeated events in the middle compaction window; when they occur is `JournalState.MiddleWindowExactTrail`.
- JournalState.JournalRefinesMemory: for journals whose tail is not torn; what a torn tail does is `JournalState.TornTailExactly`.
- Runs.LoopBooks: speaks of running instances; a terminated instance keeps its loop entries.
- Runs.RunKeepsInv: lets any active token step next, a superset of the engine's order, which `Runtime.Run.Drain` models exactly.
- Joiners.RunIsJoinRun: for joins whose waiting tokens are taken away only by arrivals; a cancelled scope takes its tokens with it.
- Reconcile.RepairPass: assumes that waiting tokens and the records they name belong together; it does not assume the scope invariant, and does not restore it where it fails.
- Recovery.DrainRepaired: for instances in order after the repairs; a user task closed before the crash is repaired by the pass but puts the instance out of order before it.
- Parser.Parser.ParseBinary: the six binary levels of the source are one method with the level as a parameter.
- Runtime.Run.Step: the merge a parallel join makes is returned as a ghost choice, because it depends on map order.
- OutsideEffects.ResumedEffect: an incident can be resolved again, and then has its effect again; the engine refuses (engine/engine.go:1122).
- The sources of sequence flows and the called element and decision references deployment checks besides.
- Nested containers are a map from scope path to container rather than containers within elements.
- The nine record maps of the store are one map keyed by kind and ID; the fields no store operation reads are one number.
- IDs are numbers drawn from one counter, ranked as the strings sort; sequence numbers do not overflow.
- An instance and its wait records, jobs, subscriptions and incidents are one value; they are separate records in the store.
- Variables, input and output mappings, history event contents, metrics and logging do not influence the modelled state.
- The retry counter is a yes or no from the oracle; it is never reset after an incident (engine/activity.go:252-264).
- Aliasing of token slices and of records returned by reference: values are copied.
- Cross-instance continuations (child starts, parent notification, thrown messages and signals) appear as separate actions on each instance.
- Ending an instance cancels its child instances in the engine; here the cancelled children are only recorded.
- Requeueing of jobs whose execution failed, and start timers of definitions.
- The final flush when a sender closes; real time, HTTP and goroutine scheduling.
- The orphaned-task sweep at the end of reconciliation, and repair of external and agent waits, for which the engine has no case.
- Migration's variable transforms are a yes or no; renaming of messages, signals, task names and forms.
- The SQL store's history numbering, queries and the pending-scan filters that do not concern claims.
- The lexer: the parser starts from token lists. Numbers keep their text, and a parameter says which texts are readable.
- Evaluation of expressions, builtin functions, decision tables and forms.
- REST, streaming, authentication, secrets, telemetry, the command line and the SDK.
