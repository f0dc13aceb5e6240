# Verified model of the execution pipeline and the strategic core

This project models the parts of the system whose correctness depends on order, interleaving and history, and proves
what they keep. Run `dafny verify dfyconfig.toml` (Dafny 4.11) to check all of it.

The four parts:

1. **Execution pipeline.** Queue, idempotency store, workers, result inbox and dispatcher. `Pipeline.dfy` is a
   transition system over them: any number of workers and dispatchers, one store call per step, and an environment that
   expires leases, crashes programs and replays dead letters whenever it likes. Theorems are about every run
   (`OnceOnly`, `Attempts`, `Delivery`, `Reservations`, `Receipts`, `Rollbacks`) or every run without infrastructure
   trouble (`CleanRuns`, `Conservation`). The stores are classes whose methods are proved to be the steps
   (`ExecutionQueue`, `Idempotency`, `ResultInbox`). The worker, the dispatcher and the orchestrator are classes whose
   methods are proved to take exactly the moves that a function writes out, label by label, and these are a path of the
   transition system (`Worker`, `Dispatcher`, `Orchestrator`). `Programs` puts the two together and says exactly when a
   round continues a run without trouble.
2. **Event-sourced state.** Budget events are deltas (`Budget`, `BudgetStore`); strategic events overwrite (`Replay`).
   `LifeLoop` relates what one feedback tick changes to what its events carry, `Restart` says what a restart after any run
   of a context's loop reconstructs (ticks with feedback and without, saves, commitments, learned postures, restarts in
   between), `Learning` what the orchestrator learns of it, `Contexts`, `Collisions` and `Overcommitment` what contexts do
   to each other that are stored in one place, and `Feedback` and `Commitment` what runs of ticks keep.
3. **Allocation and arbitration.** Trajectory competition (`Competition`, over `StableSort`), reflection and rebinding
   (`Rebinding`), priority, starvation and the arbitrator (`Arbitration`, `BoundedWaiting`, and `Fairness` for the
   orchestrator's own ticks).
4. **Rate limiter and circuit breaker**, against declarative readings of the whole call history (`RateLimiter`,
   `CircuitBreaker`).

Conventions. Times are whole microseconds and floats are reals. Clock readings, new ids, adapter answers, jitter and a
dictionary's iteration order are parameters, so each result holds for all of them. An empty dictionary or a missing
value is `None`; an exception is an `ok` flag or a `Result`. Where a loop in the original mutates objects a method with a
loop mutates a class; each is tied by its `ensures` to a function, and the properties are proved about the function.

What the proofs found, where documentation or expectation says otherwise:

- Waiting is bounded exactly when at most six contexts contend: then nobody loses more than n + 4 arbitrations in a row,
  and that many losses do happen from n = 2 on; with seven or more the last context can lose for ever.
- A context's restart never loses a path or a trajectory: the only trajectory in its memory is its own, which is never
  rewritten without an event. Its live commitment never exceeds 1 either.
- It does lose what was learned. Step 9 of the orchestrator's tick writes the human's posture without an event
  (src/core/orchestration/strategic_orchestrator.py:678-686), so a restart finds the posture of the last event it replays,
  or else of the snapshot, or else the default. ARCHITECTURAL_INVARIANTS.md:31-32 asks for a state that is the same to the
  bit. A tick brings the record in line exactly when one of its events has the posture, or it saves with an event
  (`TickRecordsPosture`); a recent success alone moves the risk tolerance by a hundredth at every tick.
- It does not always succeed. Replay refuses event types outside its allow-list (`RestoreFailsIffPoisoned`), and the life
  loop records one itself when a commitment forms (`COMMITMENT_FORMED`, src/core/lifecycle/lifeloop.py:482). So a context
  with a domain that is not empty restarts to its live state exactly when the recorded posture is the live one, and no
  commitment was formed since its last save, if that save names an event of its own tick, or ever, if it does not or there
  is none. A save in a tick without feedback names none (src/core/lifecycle/lifeloop.py:398-402). With an empty domain the
  first success is refused (`NamelessContextFails`).
- Stores know a context only by its string. If another context with another domain has the same string, each finds the
  other's trajectory, can rewrite it without an event, and loses that in the next restart. With plain country, region and
  goal this is possible exactly when the domain has a slash in it.
- A snapshot id missing from the log is silently taken to mean that nothing follows it (`GapIsSilent`).
- Slots recover with time exactly when some gap between two ticks is worth a whole slot; the time of shorter gaps is
  lost. A recovery over the safety limit is skipped, and every later one is over the limit too until some other event
  moves the clock.
- The delay a rate-limited caller is told is one instant short: a call after exactly that delay, when it is more than the
  minimum, is refused again; strictly later it passes the limit that refused it.
- A backend that drops the snapshot's event id, as the file backend does, restores the live budget exactly when the
  snapshot's events do no harm a second time; without recoveries, exactly when its reservations and rollbacks cancel.
- Submitting an intent the queue has seen reserves budget for a job that is never made. Nothing stops such an order; but a
  life loop derives an intent's id from a new commitment (src/core/services/execution_binding.py:23), so a repeated id
  takes another life loop or an injected intent (src/admin/interfaces/admin_api.py:165).
- ARCHITECTURAL_INVARIANTS.md:8-9 demands a reservation for everything executed. With fail-fast off, a submission over
  the safety limit makes its job all the same and leaves no event: the event is there exactly within the limit.
- The same document (lines 14-15) wants a failed execution's budget returned. It is returned once for each application of
  an envelope that reports a failure, so a replayed dead letter that fails again, or a second delivery, returns one
  reservation twice.
- Commitment given to abandoned trajectories can come back: the competition holds the live total to 1, and rebinding in
  the same tick lifts it above exactly when what the heaviest ACTIVE trajectory stands to gain exceeds what was free plus
  the live weight it drains. From nothing stored, a tick can do that exactly when two other domains share the context's
  string.
- A second pass of the competition is not always idle: it abandons a trajectory without weight that by then ranks behind
  others that hold the whole budget, for instance one that the first pass displaced.
- A third failure that is the environment's turns a hard abandonment into a soft one.

## Model

| member | source | states |
|---|---|---|
| OnceOnly.AtMostOneSuccess | src/execution/worker/execution_worker.py:188-337 | in every run the adapter succeeds at most once per intent, with any number of workers, lease expiry, crashes and dead-letter replay |
| OnceOnly.NoCallAfterSuccess | src/execution/worker/execution_worker.py:188-297 | once an intent has succeeded, no worker is ever again in a position to call the adapter for it |
| OnceOnly.OneClaimant | src/execution/idempotency/idempotency_store.py:50-64 | at most one worker stands between `begin` answering NEW and its own `complete` or `clear_in_progress` |
| OnceOnly.DoneIsAbsorbing | src/execution/idempotency/idempotency_store.py:66-81 | no step of anybody takes a DONE record away |
| Attempts.QueueStaysSound | src/execution/queue/execution_queue.py:77-234 | in every run each queued or leased job is the one its intent's index entry names, and every replayed job has a dead-lettered parent of the version before |
| Attempts.EndedIsAbsorbing | src/execution/queue/execution_queue.py:115-234 | COMPLETED and DLQ are final; a replay makes another job |
| Attempts.AttemptsAreAccounted | src/execution/queue/execution_queue.py:86-180 | in every run attempts equal retry releases plus reclaims plus one if not queued, throttle releases cancelling their leases exactly |
| Attempts.RetriesAreBounded | src/execution/worker/execution_worker.py:312-335 | a job gets at most the policy's maximum less one retry releases in any run, and attempts exceed the maximum only by reclaims |
| Delivery.DeliveryIsAccounted | src/execution/results/execution_result_inbox.py:42-94 | leases of an envelope equal its reclaims, plus one unless pending; it is applied at most once more than it is reclaimed; a processed one was applied |
| Delivery.EnvelopesAreKept | src/execution/results/execution_result_inbox.py:42-94 | no step drops an envelope or changes what it says |
| CleanRuns.OneResultPerEndedJob | src/execution/worker/execution_worker.py:295-381 | without reclaims, crashes and replays a job has ended exactly when one worker is about to publish its result or one envelope carries it, never both |
| CleanRuns.BeginAnswersNew | src/execution/worker/execution_worker.py:188-229 | at any point of such a run a claim is answered NEW: the branches for an existing claim are never taken |
| Reservations.LedgerIsAccounted | src/core/orchestration/strategic_orchestrator.py:291-323 | in every run with new intent ids the net of reservations and rollbacks in the ledger is the sum over all jobs of what each reserved on submission less what was given back for it |
| Reservations.DuplicateSubmissionLeaks | src/core/orchestration/strategic_orchestrator.py:529-610 | a submission keeps that account exactly when its intent is new or the ledger records nothing of it |
| Receipts.SubmittedTwice | src/core/orchestration/strategic_orchestrator.py:529-610 | from every start an intent can be submitted twice: the second order is enabled, makes no job and breaks the account |
| Receipts.SubmissionIsRecordedIff | src/core/orchestration/strategic_orchestrator.py:209-232 | in every run, every submission has its event in the ledger at the end exactly when its magnitude is within the safety limit |
| Receipts.SubmittedJobStays | src/core/orchestration/strategic_orchestrator.py:597-610 | without fail-fast every submission of a new intent makes a job that stays, with its reservation, recorded or not |
| Receipts.JobWithoutReservation | src/core/orchestration/strategic_orchestrator.py:209-221 | an input: from every start without fail-fast, an approved submission over the limit makes its job with a reservation while ledger and budget stay as they were |
| Receipts.OverLimitIsReachable | src/core/orchestration/strategic_orchestrator.py:529-535 | with a limit below 205 there is such a submission: a new budget approves all it has |
| Rollbacks.RollbacksAreFailures | src/core/orchestration/strategic_orchestrator.py:316-323 | in every run a job's reservation was given back exactly as often as envelopes reporting its failure were applied |
| Rollbacks.LineageIsAccounted | src/core/orchestration/strategic_orchestrator.py:291-323 | in every run the jobs of an intent share one reservation, which is out once less the applications of their failures; a failure is applied at most once more than its envelope was reclaimed |
| Rollbacks.OneFailureGivesBackOnce | src/core/orchestration/strategic_orchestrator.py:291-323 | with one failure envelope at most for an intent, never reclaimed, its reservation is given back once at most |
| Reservations.BudgetStaysNonNegative | src/core/orchestration/strategic_orchestrator.py:414-610 | with costs not negative, energy, attention and slots stay at or above zero in every reachable state |
| Reservations.RunReserves | src/core/orchestration/strategic_orchestrator.py:597-610 | every job and every envelope of a run carries its reservation |
| Conservation.ReservationsAreConserved | src/core/orchestration/strategic_orchestrator.py:291-610 | in clean runs everything reserved is given back, or kept by SUCCESS and PARTIAL results, or in the inbox, or in a worker's hands, or held by an active job |
| Conservation.FateIsInTheInbox | src/core/orchestration/strategic_orchestrator.py:316-323 | a result is applied at most once, and its reservation goes back exactly when it was applied and is FAILED or REJECTED |
| Rollbacks.GivenBackTwice | src/core/orchestration/strategic_orchestrator.py:316-323 | an input: from every start with a worker and two dispatchers, one job's reservation can be given back twice, because an expired envelope is delivered again |
| Programs.ProgramsStayWithinTheRuns | src/execution/worker/execution_worker.py:90-114 | a program run from a reached state ends in a reached state: at most one success per intent, a sound queue, no envelope lost |
| Programs.WorkerRoundCleanIff | src/execution/worker/execution_worker.py:90-114 | the moves of a worker's round continue a run without trouble exactly when the reclaim, if due, finds nothing expired |
| Programs.DispatcherRoundCleanIff | src/execution/results/result_dispatcher_service.py:55-96 | the moves of a dispatcher's round, finished, stopped or raising, continue such a run exactly when no envelope's lease has expired |
| Programs.TickCleanIff | src/core/orchestration/strategic_orchestrator.py:414-631 | the moves of a tick continue such a run exactly when the winner's intent has no job yet |
| ExecutionWorkers.ExecutionWorker.HandleJob | src/execution/worker/execution_worker.py:116-381 | handling a job takes exactly the moves written out for it, with their times, and they are a path ending with the stores as they are; a refused job is released until the time the refusing gate names; the adapter is called exactly when nobody had claimed the intent; breaker and limiter end as they should |
| ExecutionWorkers.ExecutionWorker.PassGates | src/execution/worker/execution_worker.py:131-186 | the first gate that refuses decides, and later gates are not asked |
| ExecutionWorkers.ExecutionWorker.ClaimAndRun | src/execution/worker/execution_worker.py:188-293 | with an existing record nothing is called and the breaker hears nothing |
| ExecutionWorkers.ExecutionWorker.FinishSuccess | src/execution/worker/execution_worker.py:295-310 | complete, ack, record the success, publish: a path from the adapter's answer to the next job |
| ExecutionWorkers.ExecutionWorker.FinishEnvironmentFailure | src/execution/worker/execution_worker.py:312-353 | below the limit the claim is cleared and the job released until the retry time; at the limit cleared, dead-lettered and published; no other moves |
| ExecutionWorkers.ExecutionWorker.FinishFinalFailure | src/execution/worker/execution_worker.py:355-381 | any other failure clears the claim, acks and publishes |
| ExecutionWorkers.ExecutionWorker.LeaveToOther | src/execution/worker/execution_worker.py:200-229 | a stale claim dead-letters the job and publishes a failure, a recent one releases it until one second from now; no other moves |
| ExecutionWorkers.ExecutionWorker.RunOnce | src/execution/worker/execution_worker.py:90-114 | the moves of a round are exactly the reclaims, if due, one lease for each job of the best batch, and each job's moves in turn; breaker, limiter, inbox ids and drained transitions end as these leave them |
| Dispatching.ResultDispatcherService.RunOnce | src/execution/results/result_dispatcher_service.py:55-69 | the moves of a round are exactly the reclaims, one take for each of the oldest results, then apply and acknowledge in turn until the batch ends, the stop comes or a rollback raises; which of these is decided by the batch, and late results are logged in order |
| Dispatching.ResultDispatcherService.ApplyOne | src/execution/results/result_dispatcher_service.py:74-96 | one application is one step with the next event id, and raises exactly under fail-fast with a rollback over the limit |
| Orchestrator.StrategicOrchestrator.Tick | src/core/orchestration/strategic_orchestrator.py:414-631 | the moves of a tick are exactly: recover; the one order of the winner of the bids against the recovered budget, if there is one; persist; cut short where one raises. The winner is the arbitrator's unless denied, and starvation is updated for it, the losers and the rest |
| Orchestrator.StrategicOrchestrator.SubmitJob | src/core/orchestration/strategic_orchestrator.py:529-610 | the one move is to reserve what was approved and enqueue the job with it; it raises exactly over the limit under fail-fast, and otherwise the intent is remembered for the result |
| Orchestrator.StrategicOrchestrator.SubmitWinner | src/core/orchestration/strategic_orchestrator.py:529-610 | a winner comes to exactly one order, the blocked one or the job |
| Orchestrator.StrategicOrchestrator.ReserveAndGiveBack | src/core/orchestration/strategic_orchestrator.py:546-596 | a winner that may not act reserves and gives back at once |
| Orchestrator.StrategicOrchestrator.PostExecutionPipeline | src/core/orchestration/strategic_orchestrator.py:291-372 | feedback queued, remembered data fills gaps, failures roll back, and the budget is persisted unless the rollback raised |
| Orchestrator.StrategicOrchestrator.PopContextFeedback | src/core/orchestration/strategic_orchestrator.py:374-398 | feedback of a context comes back first in first out, and no other context's is touched |
| Orchestrator.StrategicOrchestrator.RestoreBudget | src/core/orchestration/strategic_orchestrator.py:184-207 | the two loops compute the snapshot with everything after its last event |
| Orchestrator.StrategicOrchestrator.EmitBudgetEvent | src/core/orchestration/strategic_orchestrator.py:209-232 | an event over the limit leaves no trace and raises under fail-fast; any other is recorded and applied |
| Orchestrator.StrategicOrchestrator.PersistBudget | src/core/orchestration/strategic_orchestrator.py:234-243 | the snapshot is the live budget with the id of the last event |
| Orchestrator.SuffixGrows | src/core/orchestration/strategic_orchestrator.py:193-203 | what has been read past the snapshot's event grows by each event, and is empty until that event is seen |
| Orchestrator.StrategicOrchestrator.UpdateRuntimes | src/core/orchestration/strategic_orchestrator.py:625-631 | every active context's starvation follows from whether it won and whether it bid; inactive ones keep theirs |
| ExecutionQueue.BatchIsBest | src/execution/queue/execution_queue.py:86-103 | a leased batch holds different available jobs, as many as asked for and there are, and nothing left behind comes before one taken |
| ExecutionQueue.AncestryIsFinite | src/execution/queue/execution_queue.py:192-221 | a job of version v descends from v - 1 different dead letters of its intent |
| ExecutionQueue.ActiveJobIsUnique | src/execution/queue/execution_queue.py:77-84 | two active jobs never share an intent |
| ExecutionQueue.ReplayKeepsSound | src/execution/queue/execution_queue.py:192-221 | replaying a dead letter keeps the index and the lineage right |
| ExecutionQueue.InMemoryExecutionQueue.LeaseBatch | src/execution/queue/execution_queue.py:86-103 | collecting, sorting and leasing in place gives the specified batch and queue |
| ExecutionQueue.InMemoryExecutionQueue.ReleaseJob | src/execution/queue/execution_queue.py:127-148 | only the lease holder releases, and a throttle release takes the attempt back |
| ExecutionQueue.InMemoryExecutionQueue.DeadLetter | src/execution/queue/execution_queue.py:150-162 | only the lease holder moves a job to the dead letters |
| ExecutionQueue.InMemoryExecutionQueue.ReclaimExpired | src/execution/queue/execution_queue.py:164-180 | exactly the jobs whose lease has expired go back to the queue |
| ExecutionQueue.InMemoryExecutionQueue.ReplayDeadLetter | src/execution/queue/execution_queue.py:192-221 | an active job of the intent is returned; otherwise a successor is made and indexed |
| ExecutionQueue.InMemoryExecutionQueue.ResolveDeadLetter | src/execution/queue/execution_queue.py:223-234 | only a dead letter is resolved, and only to a final label |
| Idempotency.InMemoryIdempotencyStore.BeginIntent | src/execution/idempotency/idempotency_store.py:50-64 | the first caller gets NEW and a record, later ones the record's state |
| Idempotency.InMemoryIdempotencyStore.Clear | src/execution/idempotency/idempotency_store.py:75-81 | only a record in progress is removed |
| ResultInbox.OldestArePending | src/execution/results/execution_result_inbox.py:59-70 | a lease takes different pending items in order of receipt, as many as asked for and there are, and leaves no pending item behind that was received before one it took |
| ResultInbox.InMemoryExecutionResultInbox.LeaseOldest | src/execution/results/execution_result_inbox.py:59-70 | leasing in place gives the specified items and inbox |
| ResultInbox.InMemoryExecutionResultInbox.ReclaimExpired | src/execution/results/execution_result_inbox.py:82-94 | expired leases, and only those, become pending |
| BudgetStore.RestoreEqualsLive | src/core/orchestration/strategic_orchestrator.py:184-243 | after any run of emits, persists and crashes, restoring gives the live budget, which is the fold of the whole ledger |
| BudgetStore.RestoreWithoutIdIsRightIff | src/core/persistence/budget_backend.py:62-76 | over any ledger and any snapshot of its first events, a restore that has lost the event id gives the live budget exactly when, level by level, these events change nothing a second time or later recoveries lift both outcomes to the same cap |
| BudgetStore.WithoutRecoveryRightIffBalanced | src/core/persistence/budget_backend.py:62-76 | in a ledger without recoveries that is exactly when the snapshot's reservations and rollbacks sum to nothing |
| BudgetStore.ForgettingTheEventIdDoublesDeltas | src/core/persistence/budget_backend.py:62-76 | an input: one reservation saved without its event id is restored twice over |
| Budget.EventPathMatchesRecover | src/core/services/resource_manager.py:15-50 | recovering through an event equals `recover` exactly when slots plus gain are not negative or the gain is whole |
| Budget.EventPathIsRecover | src/core/replay/budget_reducer.py:11-35 | with slots not negative the two always agree |
| Budget.RecoverySplit | src/core/services/resource_manager.py:15-35 | energy and attention do not notice how elapsed time is cut up, slots can only lose by it |
| Budget.SlotsRecoverIffWholeGap | src/core/services/resource_manager.py:15-35 | over any rising tick times, slots below the maximum come back exactly when some gap is worth a whole slot |
| Budget.TicksRecoverIffWholeGap | src/core/orchestration/strategic_orchestrator.py:414-418 | the same of the events a tick emits, when energy or attention recovers too and no recovery is over the limit |
| Budget.SlotsAloneWait | src/core/orchestration/strategic_orchestrator.py:414-418 | when slots are all that recovers, a gap worth less than a slot emits nothing and its time is kept |
| Budget.OversizedRecoveryStaysOversized | src/core/orchestration/strategic_orchestrator.py:209-219 | a recovery over the safety limit stays over it at every later time |
| Budget.ReservationIsSafeIffApproved | src/core/services/resource_manager.py:52-78 | a reservation leaves nothing below zero exactly when the cost was approved |
| Budget.ReplayConcat | src/core/replay/budget_reducer.py:11-35 | replaying two pieces of a ledger in turn is replaying them together |
| Replay.SnapshotPositionIsIrrelevant | src/core/replay/strategic_replay_engine.py:48-110 | restoring from a snapshot of any prefix, with its last event id or without one, gives the fold of the whole history |
| Replay.FoldIsOverwrite | src/core/replay/strategic_reducer.py:24-164 | folding events is overwriting each key with the last event that sets it, and fails exactly on a malformed event |
| Replay.RestoreFailsIffPoisoned | src/core/replay/strategic_replay_engine.py:92-110 | restore fails exactly when the replayed part holds a disallowed, empty or malformed event |
| Replay.GapIsSilent | src/core/replay/strategic_replay_engine.py:76-93 | a snapshot id missing from the log makes replay return the bare snapshot |
| Replay.StrategicReplayEngine.RestoreContext | src/core/replay/strategic_replay_engine.py:48-110 | the loops compute the specified restore |
| LifeLoop.EmissionFidelity | src/core/lifecycle/lifeloop.py:267-401 | folding a tick's events over the bundle before it gives the live state after it, except that silently rewritten trajectories keep their value from before rebinding; it fails exactly when the update changed a trajectory with the empty id |
| LifeLoop.SilentAreForeign | src/core/services/strategic_reflection.py:35-37 | a tick rewrites without an event only trajectories of other domains that were there before |
| LifeLoop.OwnTick | src/core/services/strategic_trajectory.py:32-82 | in a memory of its own trajectory only, a tick of a context reflects on nothing and leaves the memory as the competition left it |
| Restart.RestartKeepsMemory | src/core/lifecycle/lifeloop.py:134-145 | after any run of a context, saves, commitments, learning and restarts included, a restart that succeeds gives the live paths and trajectories, and the recorded posture |
| Restart.RestartReconstructsContextIff | src/core/lifecycle/lifeloop.py:482 | with a domain that is not empty, it gives the live state exactly when the recorded posture is the live one and no commitment was formed since the last save, if that names an event, and none ever was otherwise |
| Restart.RestartReconstructsContext | src/core/lifecycle/lifeloop.py:134-145 | so a restart always reconstructs the live state of a context that has formed no commitment and learned nothing |
| Restart.CommitmentStopsRestart | src/core/lifecycle/lifeloop.py:482 | an input: after one commitment and nothing else no restart succeeds |
| Restart.RestartLosesExactly | src/core/lifecycle/lifeloop.py:134-210 | in general, whichever contexts are registered in one place: a restart fails exactly when what it replays holds a commitment or changes the empty id, and otherwise has the recorded posture, the live paths, and exactly the trajectories not silently rewritten, and not reported since, in the part it replays |
| Restart.RestartReconstructsLiveStateIff | src/core/lifecycle/lifeloop.py:134-210 | it gives the live state exactly when nothing replayed is refused, no trajectory was lost and the recorded posture is the live one |
| Restart.LearningIsNotRecorded | src/core/orchestration/strategic_orchestrator.py:678-686 | in every run, learning changes the live posture and nothing that a restart gives |
| Restart.TickRecordsPosture | src/core/lifecycle/lifeloop.py:267-402 | a tick that can be replayed and whose save, if any, names an event leaves the recorded posture live exactly when it saves, or an event of it has a posture, or the two agreed before |
| Restart.LearnedIsForgotten | src/core/orchestration/strategic_orchestrator.py:678-686 | an input: whatever else than the default is learned about a new context's human, the next restart succeeds with the default |
| Restart.SaveRepairs | src/core/lifecycle/lifeloop.py:398-402 | after any history, a save that names an event, followed by any steps whose events carry all they change, restarts to the live state |
| Restart.EventlessSaveLoses | src/core/lifecycle/lifeloop.py:398-402 | after a save in a tick without feedback, or one that emitted nothing, a restart loses whatever was ever lost and not reported since, fails if anything in the ledger is refused, and has the posture of the ledger's last word on it, or the saved one if there is none |
| Restart.RegistrationSettles | src/core/orchestration/strategic_orchestrator.py:245-276 | a registration makes what it restored the live state, recorded posture included, which a further restart reconstructs; replaying everything then loses exactly what was lost before the save it started from |
| Learning.LearningStaysBounded | src/memory/services/learning_policy_adapter.py:11-48 | learning keeps a posture in the bounds that feedback keeps, and its mode |
| Learning.DriftOf | src/memory/services/meta_learning_resolver.py:11-43 | n ticks that each see a recent success raise the default risk tolerance by n hundredths, up to 0.9, and nothing else |
| Learning.DriftIsForgotten | src/core/orchestration/strategic_orchestrator.py:678-686 | an input for every n: after these ticks the next restart succeeds and has the risk tolerance back at one half |
| Contexts.CollidableIffSlash | src/core/domain/strategic_context.py:5-15 | with plain country, region and goal, a context shares its string with another domain exactly when its domain has a slash in it |
| Collisions.CollisionLoses | src/core/lifecycle/lifeloop.py:66-87 | an input: of two contexts with one string and two domains, one finds the other's trajectory, retries it without an event, and the next restart does not have that |
| Collisions.ContextCanLoseIff | src/core/lifecycle/lifeloop.py:66-87 | some run ends where a restart succeeds with other trajectories than the live ones exactly when another domain shares the context's string |
| Collisions.PlainContextCanLoseIff | src/core/domain/strategic_context.py:5-15 | with plain country, region and goal that is exactly when the domain has a slash in it |
| Collisions.NamelessContextFails | src/core/replay/strategic_reducer.py:24-164 | an input: with an empty domain the first success cannot be replayed |
| LifeLoop.Runtime.FeedbackTick | src/core/lifecycle/lifeloop.py:267-401 | the imperative tick reaches the specified state and records the specified events |
| LifeLoop.Runtime.IdleTick | src/core/lifecycle/lifeloop.py:398-402 | a tick without feedback saves, if it does, the live state without an event id |
| LifeLoop.Runtime.RestoreState | src/core/lifecycle/lifeloop.py:134-145 | restoring makes the replayed state the live one, or raises and changes nothing |
| Feedback.StatusReadsHistory | src/core/services/strategy_adaptation.py:52-85 | a path's status is a reading of its history since the last success: failures counted, abandoned exactly on a policy block or a third failure, and how hard |
| Feedback.ModeFollowsHealth | src/core/services/horizon_shift.py:39-99 | a flawless recent past moves the mode one step up and a ruined one a step down, never past BALANCED |
| Commitment.TicksStayBounded | src/core/services/strategy_adaptation.py:28-50 | in every run of ticks and learning, whatever the results and signals, the posture stays in its bounds and every weight in [0, 1] |
| Commitment.TickCommitment | src/core/services/strategic_trajectory.py:21-88 | over any memory, the live commitment after a tick is exactly what competition left, at most 1, plus the target's gain less the drained live weight; so at most 1 plus what abandoned trajectories carried, less what rebinding lost |
| Commitment.OwnRunsCommitAtMostOne | src/core/services/strategic_trajectory.py:21-88 | in every run of a context, saves and restarts included, the live commitment is at most 1 and every weight in [0, 1] |
| Commitment.OvercommittingNeedsThree | src/core/services/trajectory_rebinding.py:17-118 | a tick leaves more than 1 committed only with at least three trajectories in the memory, two of them of other domains |
| Overcommitment.RunsStayAmongPeers | src/core/lifecycle/lifeloop.py:66-87 | after any run, whichever contexts are registered in one place and restored: every trajectory in memory is under the domain of a context with this string, with a weight in [0, 1] |
| Overcommitment.CanOvercommitIff | src/core/services/trajectory_rebinding.py:17-118 | some run from nothing stored comes to a tick that leaves more than 1 committed exactly when two other domains share the context's string |
| Overcommitment.ThreeOvercommit | src/core/services/trajectory_rebinding.py:17-118 | an input: such a run of ticks and registrations for any three contexts with one string, in which 0.05 given up by a blocked one comes back as 0.04 on top of a full budget |
| Commitment.RebindingOvercommitsIff | src/core/services/trajectory_rebinding.py:17-118 | rebinding changes the live total by exactly the capped gain of the heaviest ACTIVE trajectory less the live weight drained, both read from the memory before it; so it exceeds 1 exactly when that gain is more than what was free plus what is drained |
| Overcommitment.AbandonedWeightReturns | src/core/services/trajectory_rebinding.py:56-94 | an input to reflection and rebinding: a memory committing exactly 1 commits 1.04 after them |
| Competition.AllocationSafe | src/core/services/trajectory_competition.py:46-151 | live weights sum to at most 1, ACTIVE stays within the mode's cap, no key is lost, no weight grows |
| Competition.LosersRankLast | src/core/services/trajectory_competition.py:92-151 | what stays ACTIVE ranks above what the cap displaced, and what receives weight above what is abandoned for lack of budget |
| Competition.LosersHaveNoHigherKey | src/core/services/trajectory_competition.py:85-151 | the same in terms of the ranking key |
| Competition.SecondPassIff | src/core/services/trajectory_competition.py:46-151 | with no weight below zero, a second pass at the same time and posture changes nothing, whatever the signals and orders, exactly when nothing without weight ranks behind trajectories that hold the whole budget by then |
| Competition.DisplacedThenAbandoned | src/core/services/trajectory_competition.py:92-151 | an input: a weightless ACTIVE trajectory is displaced by the cap in one pass and abandoned by the next |
| Competition.CompeteIsIdempotent | src/core/services/trajectory_competition.py:46-151 | with weight in every live trajectory, a second pass changes nothing, under any signals and any iteration order |
| Competition.FixedIff | src/core/services/trajectory_competition.py:68-151 | a memory within budget and cap that has not decayed is left as it is exactly when nothing in its ranking starves |
| Competition.SettledIsFixed | src/core/services/trajectory_competition.py:68-151 | so one with weight in every live trajectory always is |
| Competition.RunCompetition | src/core/services/trajectory_competition.py:25-157 | the loops compute the specified memory and diagnostics |
| Rebinding.RebindingCreatesNoCommitment | src/core/services/trajectory_rebinding.py:17-118 | after reflection the total falls by at least a fifth of each transformed source, weights stay in [0, 1], ACTIVE trajectories lose nothing |
| Rebinding.RebindAllTraced | src/core/services/trajectory_rebinding.py:54-118 | every trajectory is as it was, or at an end of a reported rebinding, or silently rewritten |
| Rebinding.ReflectReflects | src/core/services/strategic_reflection.py:16-89 | reflections name different trajectories, none ACTIVE or just updated |
| Rebinding.RunRebinding | src/core/services/trajectory_rebinding.py:17-118 | the loop computes the specified memory and rebindings |
| Rebinding.RunReflection | src/core/services/strategic_reflection.py:16-89 | the loop computes the specified reflections |
| BoundedWaiting.EveryContextWins | src/core/services/strategic_priority.py:13-62 | with n <= 6 contexts that all ask at every tick, each wins at least once in any n + 5 consecutive ticks |
| BoundedWaiting.LastContextStarves | src/core/services/strategic_priority.py:13-62 | with any number of contexts from seven on, the last can lose any number of ticks in a row |
| BoundedWaiting.BoundIsSharp | src/core/services/strategic_priority.py:13-62 | with two to six contexts, n + 4 losses in a row do happen |
| BoundedWaiting.BoundedIffAtMostSix | src/core/services/strategic_priority.py:13-62 | some number of ticks is enough for everybody, whatever the scores and risks, exactly when n <= 6 |
| Fairness.ContendedTick | src/core/orchestration/strategic_orchestrator.py:414-631 | when every context bids, the orchestrator's winner and starvation update are those of the contended tick the bound is about |
| Fairness.EveryContextWinsTicks | src/core/orchestration/strategic_orchestrator.py:414-631 | of at most six contexts that all bid, each is the orchestrator's winner within n + 5 ticks |
| Arbitration.SelectsFirstHighest | src/core/orchestration/arbitrator.py:26-37 | the winner is the first candidate of the highest priority, and nothing else is |
| StableSort.HeadIsFirstGreatest | src/core/orchestration/arbitrator.py:30-37 | a stable descending sort puts the first of the greatest in front |
| RateLimiter.VerdictIsDeclarative | src/execution/limits/rate_limiter.py:31-62 | for calls in time order, a call is admitted exactly when fewer than the maximum of all admissions so far lie in the window that ends now, overall and for its chat |
| RateLimiter.EveryWindowIsBounded | src/execution/limits/rate_limiter.py:31-47 | no closed window, wherever it starts, holds more admissions than the maximum |
| RateLimiter.RetryExact | src/execution/limits/rate_limiter.py:64-69 | with the limit full, a later call fits exactly when the oldest admission in the window has left it |
| RateLimiter.RetryAfterDelay | src/execution/limits/rate_limiter.py:31-69 | strictly after the returned delay, with no admission in between, the limit that refused a call lets it pass |
| RateLimiter.InMemorySlidingRateLimiter.AllowCall | src/execution/limits/rate_limiter.py:31-47 | trimming and appending the deques in place is the specified call |
| CircuitBreaker.OpensIffThreshold | src/execution/safety/circuit_breaker.py:90-106 | a closed circuit opens exactly when the failures since the last success or closing, within the window, reach the threshold |
| CircuitBreaker.OpenAdmitsIffCooledDown | src/execution/safety/circuit_breaker.py:56-73 | an open circuit admits exactly when the cooldown since its last opening is over |
| CircuitBreaker.OneProbeAtATime | src/execution/safety/circuit_breaker.py:56-73 | half-open, at most one probe is admitted between recorded outcomes |
| CircuitBreaker.ClosesIffEnoughSuccesses | src/execution/safety/circuit_breaker.py:75-88 | half-open, the circuit closes exactly with enough successes since it became half-open |
| CircuitBreaker.LogIsPath | src/execution/safety/circuit_breaker.py:119-137 | a key's logged transitions are a chained path from CLOSED to its current state |
| CircuitBreaker.KeysAreIndependent | src/execution/safety/circuit_breaker.py:56-106 | a key's circuit depends on that key's calls alone |
| CircuitBreaker.InMemoryCircuitBreaker.AllowCall | src/execution/safety/circuit_breaker.py:56-73 | the in-place call is the specified one |
| CircuitBreaker.InMemoryCircuitBreaker.RecordFailure | src/execution/safety/circuit_breaker.py:90-106 | recording a failure in place is the specified one |

## Left out

- Postgres stores, file ledgers and backends, JSON round trips, HTTP and Telegram clients, LLM providers, logging, observers, threads and sleeping: input and output or library code.
- Interleaving inside one handling of a job: HandleJob, RunOnce and Tick are proved as uninterrupted paths; the transition system lets any other program's steps fall between any two of theirs, which its run theorems cover.
- `tick` and `post_execution_pipeline` are single steps towards other programs, an assumption, because the orchestrator takes no lock.
- Leasing a batch is one lease per job, and handing expired leases back is one per job or envelope, in the transition system; it allows more interleavings than the locks do.
- The job object a worker holds is the queue's own object in the original; here a worker holds what never changes of it and reads the attempt count from the queue.
- Adapters, content generation, the anomaly hook, the adaptive controller's delay, projection failures, governance and the gates of the life loop are arbitrary answers; jitter and the retry delay formula are an arbitrary retry time.
- A job's creation time is the tick's clock reading; the original reads the clock again.
- New ids come from counters or are parameters required to be new, where the original draws UUIDs.
- The posture belongs to the human in the original; each context has a human of its own here. A human that is shared or replaced appears as a step that sets the posture to anything.
- Memory written into a store from outside, as simulation.py:246 does, is no step of a run; a tick's results hold for any memory.
- Jobs the control plane injects, without a reservation, are not part of the pipeline's runs.
- Diagnostics without effect on control (`updated_at` and `last_error` of a job, event reasons, rebinding reasons, telemetry, memory ingestion, upward aggregation) are not modelled.
- The inbox's and dispatcher's batch size is a natural number; the queue's may be negative and is cut as a slice is.
- The tick's routing, its tick counts and limits, counterfactuals, the collection of learning signals and cooldown bookkeeping are outside the model; which contexts are addressed, what they propose and what signals they learn from are parameters.
- A tick that raises part of the way through is no step of a context's run.
- Budget.TicksRecoverIffWholeGap: assumes that energy or attention recovers and that no recovery is over the limit; SlotsAloneWait and OversizedRecoveryStaysOversized say what happens otherwise.
- BoundedWaiting.EveryContextWins: assumes that every context bids at every tick with risk in [0, 1], a neutral memory context and an execution gate that allows; the bound does not hold without them.
- RateLimiter.VerdictIsDeclarative: assumes calls in time order; with a clock that steps back the deques are not sorted.
- Competition.CompeteIsIdempotent: assumes positive live weights; SecondPassIff says exactly when the others are left alone.
- Conservation.ReservationsAreConserved: is about runs without reclaims, crashes and replays, where one result per job holds; Reservations.LedgerIsAccounted covers all the others.
- The decision chain for autonomy and policy, the router, mock cognitive services and governance locks: finite tables or one-branch facts.
