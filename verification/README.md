# Distroplane's release-execution engine, in Dafny

Distroplane publishes release artifacts to registries whose side effects cannot be undone. Its safety
rests on an append-only journal, a reducer that folds the journal into the state of a run, and an
executor that appends events, possibly in many processes that stop at any moment. This project
models that engine and proves what it guarantees over every journal, every run and every interleaving.

## How the files fit together

- `domain.dfy`, `event.dfy`: plans, events and their validation.
- `dependency_order.dfy`, `plan.dfy`: the acyclicity check and the construction of plans.
- `reducer.dfy`: the reducer as a transition function. `reducer_in_place.dfy` runs it the way the source
  does, on mutable records in arbitrary map order, and is proved equal to it. `reducer_safety.dfy` and
  `journal_history.dfy` prove what every reducible journal guarantees.
- `payload_fields.dfy`, `transition_table.dfy`, `settlement.dfy`, `journal_shape.dfy`: what validation, the
  transition function and the state mean, stated independently of how they are computed.
- `frame.dfy`, `frame_layout.dfy`, `writer.dfy`: the checksummed log, what exactly its reader accepts, torn
  tails, short and failed writes, recovery.
- `lease.dfy`: the in-memory execution leases. `run_claim.dfy`: the claim of a plan for one run.
- `executor.dfy`: what the executor decides from a driver's answer. `executor_passes.dfy`: the loops of its
  passes. `scheduler.dfy`: executors as a machine of labelled steps on one journal, in which every append is
  a step, tasks interleave, the driver answers anything and the process may stop between any two appends.
- `scheduler_closure.dfy`, `scheduler_runs.dfy`: the machine's invariant and when a journal stays reducible.
  `stopped_reconciliation.dfy` and `stray_dispatch.dfy` have the two cases in which it does not.
- `answered_outcomes.dfy`: what is recorded as settled was answered so. `reconcile_only.dfy`: executions that
  may only reconcile.
- `executor_safety.dfy`, `retry_budget.dfy`, `justified_cancellation.dfy`: safety over runs.
  `scheduler_progress.dfy`: no deadlock. `scheduler_termination.dfy`, `batch_selection.dfy` and
  `executor_loop.dfy`: the measure, the batch, and one iteration of the loop, which always ends.
- `confluence.dfy`, `batch_confluence.dfy`: the order in which concurrent tasks append is irrelevant.
- `outcome.dfy`: the exit code and its two independent readers.

## What turned out not to hold

Two promises hold only under a condition, which the proofs give exactly.

- A journal that an executor writes stays reducible unless a process stops between RECONCILE_STARTED and
  RECONCILE_RESULT, or loses that result, and another one starts the reconciliation again: nothing clears
  the open reconciliation (internal/journal/reducer.go:193-205), so the reducer rejects the second start
  (internal/journal/reducer.go:376-378) after the writer has already appended it. An error while leases are
  acquired for a batch whose reconciliation is already started has the same effect
  (internal/executor/executor.go:318-348). `SchedulerRuns.EveryStepAdvances` states the exact condition and
  `StoppedReconciliation.OpenReconciliationsBreakJournals` exhibits a journal.
- The observer of a task records a dispatch whenever a driver reports one after its provider started; it
  does not ask whether the call is an apply call of a side-effecting operation. A driver that reports one
  elsewhere makes the journal irreducible. The provider host keeps this contract
  (internal/providerhost/driver.go:280-287). The same lemma covers it, and
  `StrayDispatch.StrayDispatchesBreakJournals` exhibits a run.

`observedAbsent` is not reset by an explicit result that arrives during a reconciliation
(internal/journal/reducer.go:333-339), so an authorization is proved to follow some absent observation of
its attempt, not the latest observation.

## Modelling decisions

- Attempt counters are 32-bit and wrap; that they never do is proved. Times are integers, 0 is the zero
  time. The event encoding and the checksum are parameters: decoding inverts encoding and the encoded length
  is bounded; the 12-byte header is concrete. Evidence carries the verdict of its validator.
- The derived state keeps maps where the source returns lists sorted by ID; lists enter where order matters.
- A driver reports the start of its provider, a dispatch and a response only while its call runs, so these
  steps need a task that is not settled. This is a hypothesis on drivers, which the observer does not check;
  the provider host is synchronous and keeps to it.
- Between two steps of the machine a process holds its decided work, its running tasks and the two key
  sets; a new process starts from the journal alone. Failed appends that wrote nothing let a task end
  without its event; failed appends that poison the writer are stopped processes. A start that the writer
  refuses, because its attempt number has wrapped, gives the lease back and ends the batch.

## Model

| member | source | states |
|---|---|---|
| `DependencyOrder.ValidateAcyclic` | internal/domain/plan.go:81-110 | Kahn's loop over any map order with its last-in-first-out queue ends, and accepts exactly the dependency relations that have a topological ranking |
| `DependencyOrder.AcyclicMeansNoCycle` | internal/protocol/messages.go:344-373 | having a ranking is the same as having only known dependencies and no dependency cycle; the protocol runs the same loop over provider plans |
| `Planning.NewPlan` | internal/domain/plan.go:14-72 | a plan is built exactly from a valid ID, versions and release, and well-formed targets and operations: valid and distinct IDs, well-formed configurations, each operation on a target with its provider, known dependencies, no cycle |
| `ReducerInPlace.Reduce` | internal/journal/reducer.go:89-428 | mutating records in any map order computes exactly the derived state, or exactly the first error, of the functional replay |
| `ReducerInPlace.MutableOperation.Take` | internal/journal/reducer.go:156-417 | each branch of the event switch changes one record as the transition function says, and refuses exactly where that function does |
| `ReducerInPlace.MutableOperation.ApplyResultInPlace` | internal/journal/reducer.go:441-454 | recording a result changes exactly the result fields and derives the need for reconciliation and the ambiguity from the new state |
| `ReducerInPlace.RefreshReadyInPlace` | internal/journal/reducer.go:492-498 | promoting planned operations one by one, in any order, equals promoting them all at once |
| `ReducerInPlace.CancelRemainingInPlace` | internal/journal/reducer.go:514-526 | cancelling the remaining operations one by one, in any order, equals cancelling them at once |
| `ReducerInPlace.AllQuiescentIn` | internal/journal/reducer.go:500-512 | true exactly when every operation is terminal, unleased and reconciled |
| `ReducerInPlace.DeriveTargets` | internal/journal/reducer.go:528-548 | the targets' states do not depend on any map order |
| `ReducerInPlace.AggregateTargetIn` | internal/journal/reducer.go:550-578 | the loop over the aggregation order finds the first state present among the target's operations |
| `PayloadFields.ValidByField` | internal/journal/event.go:184-361 | a payload is valid exactly if each field fits the event: which kinds may carry an attempt, a lease, a reason, a state, an answer or an error, and what each may be |
| `PayloadFields.EventByField` | internal/journal/event.go:131-171 | an event is valid exactly if it has the schema version, a number, a time, valid identifiers where its kind has them, the plan only at the start, and a payload whose fields fit |
| `TransitionTable.AcceptanceIsExact` | internal/journal/reducer.go:156-417 | an operation event is accepted exactly if it concerns the present attempt, the record is in a phase that allows it, nothing happens twice in one call, an undispatched side effect has no outcome but a failure, and the lease is the right one |
| `TransitionTable.FieldsAfterEvent` | internal/journal/reducer.go:156-454 | by which events, and to what, each field of a record changes: read field by field instead of event by event |
| `Settlement.StateAfterEvent` | internal/journal/event.go:363-376 | the state after each accepted event: OPERATION_PUBLISHED leaves published, OPERATION_REJECTED rejected, and so on for every kind |
| `Settlement.StatesAreReported` | internal/journal/reducer.go:326-381 | after every reducible journal an operation is published exactly if the journal reports that of its present attempt, and the same for rejected; waiting, failed and blocked operations were reported so |
| `JournalShapes.StepIsExact` | internal/journal/reducer.go:116-155 | one more event is accepted exactly if it fits the run and its operation's record accepts it |
| `JournalShapes.ReducibleJournalsAreShaped` | internal/journal/reducer.go:116-155 | reducible journals are valid, numbered and of one run; RUN_STARTED comes first and only once, nothing follows RUN_COMPLETED, only what ends something follows RUN_CANCELLED, and the state's flags say which of these happened |
| `JournalShapes.StartIsExact` | internal/journal/reducer.go:138-147 | a new run has every operation of the plan untouched, ready exactly if it depends on nothing and planned otherwise |
| `JournalShapes.CancellationIsExact` | internal/journal/reducer.go:514-526 | RUN_CANCELLED spares exactly what needs a reconciliation or is published, rejected or cancelled already |
| `JournalShapes.TargetStateIsExact` | internal/journal/reducer.go:550-578 | a target is published exactly if all its operations are, and otherwise in the worst state among them |
| `ReducerSafety.TransitionIsSound` | internal/journal/reducer.go:156-454 | every accepted event keeps the record invariant (dispatched iff running and in need of reconciliation, ambiguity implies that need, waiting implies it, budget counters ordered) and never leaves a final state or skips an attempt number |
| `ReducerSafety.ReducibleJournalsKeepInvariant` | internal/journal/reducer.go:89-428 | the global invariant holds of the state of every reducible journal |
| `ReducerSafety.StepKeepsInvariant` | internal/journal/reducer.go:116-417 | one accepted event keeps the global invariant, and nothing published is ever unpublished |
| `ReducerSafety.AttemptedOperationsHavePublishedAncestors` | internal/journal/reducer.go:228-257 | an attempted operation has every transitive ancestor published then and in every extension of the journal |
| `ReducerSafety.RefreshFacts` | internal/journal/reducer.go:492-498 | after a refresh an operation is planned only while some dependency is not published, and no publication changes |
| `ReducerSafety.CancellationIsSafe` | internal/journal/reducer.go:132-155 | after RUN_CANCELLED no attempt and no dispatch is accepted, nothing is planned, ready or blocked, what runs was dispatched, the set in need of reconciliation never grows, and the run never completes |
| `JournalHistory.ReplayHistory` | internal/journal/reducer.go:228-413 | in every reducible journal each record's attempt, dispatch, authorization and observation fields agree with the events that happened |
| `JournalHistory.AttemptsRise` | internal/journal/reducer.go:239-247 | attempt numbers of an operation strictly rise along the journal, so the 32-bit counter never wraps |
| `JournalHistory.DispatchedAtMostOnce` | internal/journal/reducer.go:285-301 | two dispatches of an operation are of different, rising attempts |
| `JournalHistory.FailedAttemptsAreOver` | internal/journal/reducer.go:285-345 | nothing of an attempt is dispatched after its failure was recorded |
| `JournalHistory.AuthorizedAtMostOnce` | internal/journal/reducer.go:382-403 | two retry authorizations of an operation are of different, rising attempts |
| `JournalHistory.AuthorizationFollowsAbsence` | internal/journal/reducer.go:382-413 | an authorization follows an error-free absent reconciliation of the same attempt, recorded after that attempt started |
| `JournalHistory.StartedBefore` | internal/journal/reducer.go:228-413 | every event that carries an attempt number follows the start of that attempt |
| `Frames.BigEndianRoundTrip` | internal/journal/frame.go:97-114 | the four length bytes decode to the length they encode |
| `Frames.BigEndianOrders` | internal/journal/frame.go:97-114 | the most significant byte comes first: the first differing byte orders two numbers |
| `Frames.EncodeFrame` | internal/journal/frame.go:97-114 | exactly the valid events of at most the maximal record size are encoded, as header and payload |
| `Frames.Read` | internal/journal/frame.go:23-78 | the reading loop computes the specified events, valid length, torn tail or error of arbitrary bytes |
| `Frames.ReadAnyPrefix` | internal/journal/frame.go:23-78 | any byte prefix of a journal reads as the events of its whole frames, torn exactly when the cut is inside a frame |
| `Frames.RereadValidPrefix` | internal/journal/frame.go:23-78 | of arbitrary bytes that are accepted, the valid prefix reads again as the same events without a torn tail |
| `Frames.ReadStopsInside` | internal/journal/frame.go:23-78 | the valid length lies within the bytes, and reaches their end exactly when no tail is torn |
| `FrameLayouts.ReadIsExact` | internal/journal/frame.go:23-78 | arbitrary bytes are frames, with the right checksums, of payloads that decode to consecutive events of one run, and one last piece; the reader returns those events and the verdict on that piece |
| `FrameLayouts.ReadDecides` | internal/journal/frame.go:23-78 | after any number of good frames a wrong magic number, length or checksum, an undecodable payload, a gap in the numbers or another run is reported as that error, and only an incomplete frame as torn |
| `FrameLayouts.AcceptedBytesAreFrames` | internal/journal/frame.go:23-78 | accepted bytes are, up to the valid length, exactly the frames of payloads that decode to the events returned |
| `JournalWriter.WriteFull` | internal/journal/writer.go:230-244 | short writes continue; it fails exactly as the script of the writes decides, with the bytes taken until then written, and succeeds with all of them |
| `JournalWriter.FullWriteOf` | internal/journal/writer.go:230-244 | a full write fails only where some write fails or takes nothing, and otherwise takes everything |
| `JournalWriter.Writer.Append` | internal/journal/writer.go:171-219 | an append succeeds exactly if the writer is open and sound, the entry is of its run, well placed, valid and encodable, and neither a write nor the sync fails; a success adds one durable event, a refusal writes nothing, a failure poisons the writer with at most a prefix of this very entry's frame behind the durable bytes |
| `JournalWriter.AttemptIsExact` | internal/journal/writer.go:171-219 | in terms of the entry and the file: when an append succeeds, when a write or the sync fails it and poisons the writer, and that a refusal changes nothing |
| `JournalWriter.CrashRecovery` | internal/journal/writer.go:171-219 | after a crash anywhere in an append the surviving bytes read as the old events or the old events plus that one |
| `JournalWriter.InterruptedWriterRecovers` | internal/journal/writer.go:171-219 | the same for any state that a writer can be in: the extra event is the one whose append failed |
| `JournalWriter.AppendCrashReopen` | internal/journal/writer.go:36-99 | an append, a crash at any cut of what it wrote, and reopening: reopening fails exactly if a torn frame survived and truncating it, or syncing that, fails; otherwise the new writer holds the old events, and this entry's event exactly if its whole frame was written and survived |
| `JournalWriter.OpenWriter` | internal/journal/writer.go:36-99 | corrupt bytes and other runs are refused unchanged; otherwise the torn tail is truncated, which fails exactly if the truncation or its sync does, and exactly the readable events are resumed |
| `JournalWriter.Writer.AuthorizeAmbiguousRetry` | internal/journal/retry.go:18-65 | the authorization is appended exactly if replaying the journal with it succeeds, and then fails only as an append does; a reducible journal stays reducible, and a failed write leaves at most a prefix of the authorization's frame |
| `JournalWriter.AuthorizationIsExact` | internal/journal/retry.go:18-65 | for an operation of a reducible journal that replay succeeds exactly if the run is neither completed nor cancelled and the operation is an npm publication that waits, ambiguous, observed absent, unleased and not being reconciled |
| `Leases.MemoryLeases.Acquire` | internal/executor/lease.go:85-139 | a lease is granted exactly for a nonempty key, valid arguments, a nonzero clock and a usable ID when no unexpired holder exists; it takes a fresh ID and ends every older handle of its key for good |
| `Leases.MemoryLease.Renew` | internal/executor/lease.go:190-229 | succeeds exactly for a live unexpired handle and then sets its expiry to a full term from now, or beyond the old expiry if that is later; handles that lost their lease never regain it |
| `Leases.MemoryLease.Release` | internal/executor/lease.go:231-264 | reports expiry exactly when the lease was lost or has run out, which is when the reducer accepts the expiry event |
| `Executor.AmbiguityIsExact` | internal/executor/executor.go:608-740 | an outcome is recorded as ambiguous exactly when a side effect was dispatched and the answer is malformed, late, cancelled, unknown or itself ambiguous |
| `Executor.ApplyOutcomeIsExact` | internal/executor/executor.go:608-652 | an apply call is recorded as published, rejected or waiting exactly if the driver returned that and a side effect was dispatched where there is one, as cancelled exactly if it was cancelled before a dispatch, and otherwise as ambiguous or failed |
| `Executor.ApplyFailureIsExact` | internal/executor/executor.go:608-652 | which failed apply calls are recorded as retryable and under which code |
| `Executor.PreparationOutcomeIsExact` | internal/executor/executor.go:586-599 | a failed preparation is recorded as cancelled, blocked or failed exactly under the stated conditions, with its code and retryability |
| `Executor.ReconcileOutcomeIsExact` | internal/executor/executor.go:654-675 | a reconciliation settles an operation exactly if the driver returned a well-formed result saying so; timeouts, failed calls and malformed results leave it waiting |
| `Executor.DecisionIsExact` | internal/executor/executor.go:677-740 | when a failed call is retried, reconciled later or given up, and under which code |
| `Executor.OutcomesAreCategorized` | internal/executor/executor.go:742-807 | every recorded outcome carries the category of its kind, state and retryability |
| `AnsweredOutcomes.SettlementsAreAnswered` | internal/executor/executor.go:608-675 | every publication and rejection that a run appends comes from the step in which a driver returned that very well-formed result |
| `AnsweredOutcomes.SettledMeansAnswered` | internal/executor/executor.go:608-675 | in a run from the empty journal an operation is published, or rejected, only if a driver returned that for its present attempt |
| `ExecutorPasses.PassPerformsPlan` | internal/executor/executor.go:236-301 | what the loop's passes append is what the machine of steps plans, in the same order |
| `ExecutorPasses.PassIsExact` | internal/executor/executor.go:809-995 | each pass appends exactly one entry, written out, for each operation that is due, in their order: a lease that has run out, an unannounced ready operation, an unleased attempt left before its dispatch, an unstarted operation below a lost dependency |
| `ExecutorPasses.ExpireJournalLeases` | internal/executor/executor.go:825-841 | appends exactly the expiries of the leases that have run out, in order, and ends with the first append that fails and its error, or successfully if none does |
| `ExecutorPasses.JournalReadyOperations` | internal/executor/executor.go:809-823 | appends exactly the announcements of the unannounced ready operations, and fails exactly with the first append that fails |
| `ExecutorPasses.RecoverUndispatched` | internal/executor/executor.go:923-947 | appends exactly one retryable failure for each attempt left before its dispatch, with the code of its stage, and fails exactly with the first append that fails |
| `ExecutorPasses.CancelBlocked` | internal/executor/executor.go:949-977 | appends exactly the cancellations below a dependency that will never be published, and fails exactly with the first append that fails |
| `ExecutorPasses.TerminalDependency` | internal/executor/executor.go:979-995 | true exactly when some dependency is unknown, rejected, cancelled or failed with no attempt left |
| `ExecutorPasses.NextLeaseExpiry` | internal/executor/executor.go:843-854 | finds the least expiry of the active leases |
| `BatchSelection.Candidates` | internal/executor/executor.go:394-437 | selects exactly the unleased operations to reconcile that were not dealt with yet, and, unless the run is cancelled or may only reconcile, the next attempts of those that are ready, blocked and not put off, or failed with attempts left; reconciliations first and each kind in the order of the IDs |
| `BatchSelection.NextBatchIsPlanned` | internal/executor/executor.go:312-316 | the next batch is no longer than the limit, with reconciliations before applications and each in the order of the IDs; its operations are distinct, and planning them gives that batch in that order |
| `BatchSelection.OrderIsLexicographic` | internal/executor/executor.go:429-434 | the order of the IDs is that of their characters: a beginning comes first, and otherwise the first difference decides |
| `BatchSelection.BatchTakesTheFirst` | internal/executor/executor.go:312-316 | a candidate that the concurrency limit leaves out comes after every candidate in the batch, and the batch is full |
| `ExecutorPasses.QuiescentForExecutor` | internal/executor/executor.go:997-1013 | true exactly when every operation is published, rejected, cancelled or failed with no attempt left, unleased and not to be reconciled |
| `SchedulerClosure.TaskMoveAccepted` | internal/executor/executor.go:464-675 | whatever its driver answers, the reducer accepts each event of a running task and leaves the record as the task relies on it |
| `SchedulerClosure.StrayDispatchRefused` | internal/executor/executor.go:104-122 | a dispatch reported outside an apply call of a side-effecting operation is refused by the reducer: the observer does not check it |
| `SchedulerRuns.EveryStepAdvances` | internal/executor/executor.go:190-462 | a step of any interleaving makes the journal irreducible exactly if it restarts an open reconciliation or dispatches outside the contract; all others keep the machine's invariant and append lawful events |
| `SchedulerRuns.ExecutorsKeepJournalReducible` | internal/executor/executor.go:190-387 | over every run from any reducible journal, with processes stopping anywhere, the journal is reducible exactly until such a step, and careful steps never take one |
| `SchedulerRuns.ReducibleJournalIsSound` | internal/executor/executor.go:212-234 | every reducible journal of the run, whoever wrote it, is a sound start; it has no open reconciliation exactly if the start is attended |
| `SchedulerRuns.ExecutorQuiescentIsQuiescent` | internal/executor/executor.go:997-1013 | the executor declares completion only where the reducer accepts RUN_COMPLETED |
| `SchedulerRuns.DoWorkAdvances` | internal/executor/executor.go:318-348 | leases, attempt starts, recoveries, announcements and cancellations decided from one snapshot are still acceptable when they are appended |
| `StoppedReconciliation.RestartBreaksJournal` | internal/executor/executor.go:405-462 | whenever a reconciliation is open in a reducible journal and its lease is over, the next executor's two appends make the journal irreducible |
| `StoppedReconciliation.OpenReconciliationsBreakJournals` | internal/journal/reducer.go:368-381 | a concrete reducible journal for which that happens: the hypothesis on open reconciliations is necessary |
| `StrayDispatch.StrayDispatchBreaksJournal` | internal/executor/executor.go:104-122 | whenever a provider runs for a reconciliation or for an operation without side effects and no dispatch is recorded, one reported dispatch makes the journal irreducible |
| `StrayDispatch.StrayDispatchesBreakJournals` | internal/journal/reducer.go:285-301 | a concrete run from the empty journal for which that happens: the contract on dispatches is necessary |
| `ExecutorSafety.NoBlindRepublish` | internal/executor/executor.go:608-710 | an attempt after a dispatched one was authorized, or the driver had answered that dispatch with an unambiguous retryable error, in a call neither late nor cancelled; after an ambiguous outcome, or a process that stopped after the dispatch, only an authorization suffices |
| `ExecutorSafety.FailuresAreAnswered` | internal/executor/executor.go:608-740 | a retryable failure that the journal of a run records after the dispatch of its attempt comes from the step in which the driver answered that way |
| `ExecutorSafety.WorkHappensUnderLeases` | internal/executor/executor.go:318-348 | every attempt start and every dispatch lies inside an active journal lease of its operation |
| `ExecutorSafety.StartsStateTheirReason` | internal/executor/executor.go:439-462 | every start that a run appends states its reason: initial for attempt 1, retry for later ones, reconcile for reconciliations |
| `ReconcileOnly.ReconcileOnlyAppliesNothing` | internal/executor/executor.go:415-417 | from the opening of a reconcile-only process on any reducible journal to its end no attempt starts, nothing is dispatched and no outcome of an attempt is recorded |
| `ReconcileOnly.ReconcileOnlyAmongOthers` | internal/executor/executor.go:415-417 | the same between the stop that opens such a process and the next stop in a run of many |
| `ExecutorSafety.RunsAreTraced` | internal/executor/executor.go:190-387 | the invariant behind both, over every run and any number of stopped processes |
| `RetryBudget.RetriesStayWithinBudget` | internal/executor/executor.go:415-428 | over all processes with one limit, the unblocked attempts never exceed the limit by more than the authorized retries, and the 32-bit difference never underflows |
| `JustifiedCancellation.CancellationsAreJustified` | internal/executor/executor.go:949-995 | in a run that was not cancelled, a cancelled operation without an attempt has a dependency chain to an attempted one that was rejected, cancelled or failed for good |
| `JustifiedCancellation.HopelessForever` | internal/executor/executor.go:979-995 | and that operation stays unpublished in every continuation |
| `SchedulerProgress.NoDeadlock` | internal/executor/executor.go:265-310 | when no pass finds work, no lease is active and the run is not cancelled, the run can be completed exactly if no operation is waiting or blocked |
| `SchedulerProgress.ExecutorNeverStopsForNothing` | internal/executor/executor.go:190-310 | the same for whatever an executor reaches from any reducible journal |
| `SchedulerProgress.PlannedIsDoomed` | internal/executor/executor.go:949-995 | planned operations above only final ones always lead to one that must be cancelled, by the ranking of the plan |
| `ExecutorLoop.EveryIterationDescends` | internal/executor/executor.go:236-386 | every iteration of the loop after which it goes on, with the passes in their order, a batch, the completion or the wait for a lease, lowers the loop's measure and keeps the invariants |
| `ExecutorLoop.TurnIsExact` | internal/executor/executor.go:236-310 | which branch an iteration takes, in terms of the records, each only when none before it applies |
| `ExecutorLoop.WaitDescends` | internal/executor/executor.go:303-308 | a wait until the next lease expiry lowers the measure: a lease that still ran has run out, unless the context ended first |
| `ExecutorLoop.PassPerforms` | internal/executor/executor.go:251-285 | an iteration whose pass found something to do performs some of it: planning and skipping alone never make an iteration |
| `ExecutorLoop.ExecutionEnds` | internal/executor/executor.go:236-386 | the iterations of one call of Execute are at most the measure of its first state |
| `ExecutorLoop.ExecuteEnds` | internal/executor/executor.go:190-386 | so Execute ends from every reducible journal of the run, within a bound that the journal's state gives |
| `ExecutorLoop.NewRunEnds` | internal/executor/executor.go:221-386 | for a new run that bound is a number of the operations and the attempt limit alone |
| `ExecutorLoop.ReturnsOnlyToWait` | internal/executor/executor.go:295-310 | without an error the loop returns from an unfinished run, unless it was cancelled or may only reconcile, only with no lease active and some operation waiting or blocked |
| `SchedulerTermination.ProductiveStepsAreBounded` | internal/executor/executor.go:311-386 | within one process the steps that decide, record or finish something are at most the measure of its start, in any order of the machine's steps |
| `Confluence.InterleavingReduces` | internal/journal/reducer.go:116-427 | an interleaving of the tasks' events is accepted exactly if each operation accepts its own, and leads to each operation's own result after one refresh |
| `Confluence.InterleavingsAgree` | internal/journal/reducer.go:116-427 | two interleavings of the same events are both accepted or both refused and reduce to the same operations and targets |
| `BatchConfluence.BatchOrderIsIrrelevant` | internal/executor/executor.go:359-386 | whatever a batch of tasks has appended, every other order of the same events of each operation would be accepted and derive the same state |
| `Outcome.StateView` | cmd/distroplane/commands.go:480-499 | the printed rows are those of the derived targets and operations |
| `Outcome.StateExit` | cmd/distroplane/commands.go:501-531 | the loop computes 6 exactly if the run is cancelled or an operation failed or was cancelled, else 5 exactly if one was rejected, else 4 exactly if the run is not completed or something is open or to be reconciled, else 0 |
| `Outcome.StateFrom` | action/summary.py:45-112 | a summary exactly for a readable report whose exit code is the expected one; it says published exactly for code 0 and an untorn journal, and each other outcome exactly under its own condition on the rows |
| `Outcome.AffectedAreFirst` | action/summary.py:62-84 | a summary lists the first five targets that are not published |
| `Outcome.PluginState` | gradle-plugin/src/main/java/io/github/aalsanie/distroplane/gradle/CliFeedback.java:165-235 | a result exactly for a readable report whose exit code is the expected one; it says published exactly for code 0 and an untorn journal, and each other outcome exactly under its own condition on the rows |
| `Outcome.ThreeProgramsAgree` | cmd/distroplane/commands.go:501-531 | for the state of every reducible journal the three programs compute one code, and it is 0 exactly if the run is completed with every operation published |
| `Outcome.ReadersAcceptReports` | action/summary.py:59-88 | within the identifier and list limits neither reader rejects the report of a started run with at least one operation |
| `RunClaim.Install` | internal/runstate/store.go:222-263 | a record is created if absent; afterwards the install succeeded exactly if the record is the given one, and no other record changes |
| `RunClaim.Catalog.ClaimRun` | internal/runstate/store.go:364-412 | an undisturbed claim succeeds exactly if no record names another run and no reservation lacks its journal, and then leaves all three records |
| `RunClaim.Catalog.ClaimEntry` | internal/runstate/store.go:337-359 | no claim exactly if both records are absent, a conflict exactly if both are readable and differ, corruption exactly if there are records but none readable, and otherwise the readable entry if it is a claim of the plan |
| `RunClaim.OneRunPerPlan` | internal/runstate/store.go:364-412 | over every interleaving and with processes stopping anywhere, all successful claims of a plan carry one identity, and at most one that saw no journal succeeds |
| `RunClaim.ClaimSurvivesDamage` | internal/runstate/store.go:337-359 | the identity of a successful claim is found again even if one of its two records is missing or unreadable |
| `RunClaim.RecordsNeverConflict` | internal/runstate/store.go:337-359 | without damage a plan has no record of a run or exactly one valid claim |

## Left out

- JSON encoding, CRC-32 and SHA-256 themselves; hashed catalog names are taken to be distinct for distinct plans.
- Locks, links, permissions, path checks and the platform variants: one writer at a time, creating a link is atomic. Of a journal file, write, sync and truncation may fail, in any order; opening, locking, seeking or inspecting it does not.
- Provider processes, HTTP and git clients, credentials and their redaction, diagnostics, configuration, installers and release scripts.
- Backoff and timers: time only advances; the jitter-free delays of defaultBackoff do not matter to any property here.
- `Execute` and `runTask` as single imperative bodies: their appends interleave with other tasks and other processes, so they are steps of the machine in `scheduler.dfy`, which allows the passes in any order; an iteration with the passes in their order is a relation on that machine in `executor_loop.dfy`.
- The branch for a previously expired lease in the batch (internal/executor/executor.go:333-338): candidates with an active journal lease are skipped before, so it is never taken.
- The renewal goroutine's timing: a task may renew its lease at any moment, with any later expiry.
- Sequence numbers are unbounded; the source's 64-bit counter is not modelled to wrap.
- `Inventory` and `Select` of the run catalog, and the text that commands print besides the state rows.
- The outcome texts of the two readers are enumerated, not spelled out; the readers' checks of JSON types are left out because a report is modelled after parsing.
- ReadersAcceptReports: covers runs with at least one operation, because both readers reject a report without operations although the command exits with 0 for it.
- WorkHappensUnderLeases: speaks of the journal's lease, not of the clock, because a task may append after its lease has run out and before that is noticed.
- CancellationsAreJustified: excludes runs that were cancelled as a whole, in which every remaining operation is cancelled without such a chain.
