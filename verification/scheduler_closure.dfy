/**
 Writer/reducer closure: whatever the driver answers, however the tasks interleave and
 wherever processes stop, the reducer accepts every event that a running task appends,
 other than a dispatch outside the driver's contract.
 */
module SchedulerClosure {
  import opened Domain
  import opened Events
  import opened Reducer
  import opened ReducerSafety
  import opened Executor
  import opened Scheduler

  // One task and its record

  /** What a running task may rely on in the journal's record of its operation. */
  predicate TaskInvariant(r: Record, t: Task) {
    && t.attempt == r.attempt && r.attempt > 0
    && r.leaseActive && r.lease == t.lease
    && (t.dispatched ==> t.started) && (t.responded ==> t.started) && (t.started ==> t.prepared)
    && (t.kind.ReconcileTask? ==> !t.dispatched)
    && (t.settled && t.kind.ApplyTask? ==> !r.reconciling)
    && (!t.settled ==>
          && r.providerStarted == t.started && r.providerResponded == t.responded
          && if t.kind.ApplyTask?
             then r.state == Running && !r.reconciling && r.dispatched == t.dispatched
             && r.reconcileRequired == t.dispatched
             else r.reconciling && r.reconcileRequired)
  }

  /** The record's state and counters are those it had. */
  predicate SameProgress(r: Record, after: Record) {
    && after.state == r.state && after.attempt == r.attempt
    && after.blockedAttempts == r.blockedAttempts && after.retryable == r.retryable
  }

  /**
   What a task writes about its operation besides leases: results only of a running attempt that
   nobody reconciles, reconciliations that end waiting, published or rejected, and nothing that
   would block or cancel a dispatched attempt.
   */
  predicate Disciplined(r: Record, e: Event, t: Task) {
    var k, p := e.entry.kind, e.entry.payload;
    && r.leaseActive
    && (LeaseKind(k) || p.attempt == r.attempt)
    && (k.ReconcileResult? ==> p.state == WaitingExternal || p.state == Published || p.state == Rejected)
    && (k.SideEffectDispatched? || ExplicitResultKind(k) || k.OperationResult? || k.OutcomeAmbiguous? ==>
          t.kind.ApplyTask? && !t.settled)
    && (k.OperationResult? ==> !r.dispatched && (p.state == Blocked || p.state == Cancelled))
    && !k.OperationReady? && !k.OperationCancelled? && !k.AttemptStarted? && !k.RetryAuthorized?
    && !k.LeaseAcquired? && !k.ReconcileStarted? && !RunLifecycle(k)
  }

  /** The event of a move is acceptable and leaves the record as the task expects it. */
  predicate MoveAccepted(r: Record, e: Event, t: Task, move: TaskMove, outcome: Outcome) {
    var next := OperationTransition(r, e, false);
    && next.Some?
    && next.value.state != Planned && !e.entry.kind.AttemptStarted?
    && (t.kind.ReconcileTask? ==> AllowedAfterRunCancellation(e.entry.kind))
    && (next.value.reconciling ==> r.reconciling && (TaskAfter(t, move, outcome).settled ==> t.settled))
    && (EndsTask(move) || TaskInvariant(next.value, TaskAfter(t, move, outcome)))
    && Disciplined(r, e, t)
    && (Terminal(r.state) ==> SameProgress(r, next.value))
  }

  predicate Carries(e: Event, outcome: Outcome) {
    e.entry.kind == outcome.report.kind && e.entry.payload == outcome.report.payload
  }

  lemma CallMoveAccepted(r: Record, e: Event, t: Task, move: TaskMove, outcome: Outcome)
    requires RecordInvariant(r) && TaskInvariant(r, t)
    requires move.ResolveCredential? || move.ProviderStarts? || move.DispatchSideEffect? || move.ProviderResponds?
    requires !BreaksContract(r.op, t, move)
    requires TaskReport(r.op, t, move) == Some(outcome) && Carries(e, outcome)
    ensures MoveAccepted(r, e, t, move, outcome)
  {
  }

  lemma ActiveRecord(r: Record, t: Task)
    requires RecordInvariant(r) && TaskInvariant(r, t)
    ensures r.state != Planned && (r.dispatched ==> r.op.sideEffecting) && (!t.settled ==> !Terminal(r.state))
  {
  }

  lemma RenewalAccepted(r: Record, e: Event, t: Task, expiresAt: int)
    requires r.state != Planned && TaskInvariant(r, t) && t.lease.expiresAt < expiresAt
    requires e.entry.kind.LeaseRenewed? && e.entry.payload.lease == Some(t.lease.(expiresAt := expiresAt))
    ensures OperationTransition(r, e, false) == Some(r.(lease := t.lease.(expiresAt := expiresAt)))
  {
  }

  lemma LeaseEndAccepted(r: Record, e: Event, t: Task)
    requires r.state != Planned && TaskInvariant(r, t)
    requires e.entry.kind.LeaseReleased? || (e.entry.kind.LeaseExpired? && t.lease.expiresAt <= e.observedAt)
    requires e.entry.payload.lease == Some(t.lease)
    ensures OperationTransition(r, e, false) == Some(r.(leaseActive := false))
  {
  }

  lemma LeaseMoveAccepted(r: Record, e: Event, t: Task, move: TaskMove, outcome: Outcome)
    requires RecordInvariant(r) && TaskInvariant(r, t)
    requires move.RenewLease? || EndsTask(move)
    requires TaskReport(r.op, t, move) == Some(outcome) && Carries(e, outcome)
    requires move.LeaseTurnsOutExpired? ==> t.lease.expiresAt <= e.observedAt
    ensures MoveAccepted(r, e, t, move, outcome)
  {
    hide OperationTransition, RecordInvariant;
    ActiveRecord(r, t);
    if move.RenewLease? { RenewalAccepted(r, e, t, move.expiresAt); } else { LeaseEndAccepted(r, e, t); }
  }

  /** What the record keeps when an attempt ends in any of its ways. */
  predicate AttemptEnded(r: Record, next: Option<Record>) {
    && next.Some? && next.value.attempt == r.attempt && next.value.state != Planned
    && next.value.leaseActive && next.value.lease == r.lease && !next.value.reconciling
  }

  lemma ExplicitReportAccepted(r: Record, e: Event, t: Task)
    requires TaskInvariant(r, t) && !t.settled && t.kind.ApplyTask? && e.entry.payload.attempt == t.attempt
    requires ExplicitResultKind(e.entry.kind)
             && (e.entry.kind.OperationFailed? || (r.op.sideEffecting ==> t.dispatched))
    ensures AttemptEnded(r, OperationTransition(r, e, false))
  {
    assert OperationTransition(r, e, false) == ExplicitResultTransition(r, e);
  }

  lemma StatedReportAccepted(r: Record, e: Event, t: Task)
    requires TaskInvariant(r, t) && !t.settled && t.kind.ApplyTask? && e.entry.payload.attempt == t.attempt
    requires e.entry.kind.OperationResult?
    requires e.entry.payload.state == Cancelled || (e.entry.payload.state == Blocked && !t.started)
    ensures AttemptEnded(r, OperationTransition(r, e, false))
  {
    assert OperationTransition(r, e, false) == StatedResultTransition(r, e.entry.payload);
  }

  /** Results that an unsettled apply task records before or after its dispatch. */
  lemma ApplyReportAccepted(r: Record, e: Event, t: Task)
    requires TaskInvariant(r, t) && !t.settled && t.kind.ApplyTask? && e.entry.payload.attempt == t.attempt
    requires EndsAttempt(Report(e.entry.kind, e.entry.payload), r.op.sideEffecting, t.started, t.dispatched)
    ensures AttemptEnded(r, OperationTransition(r, e, false))
  {
    hide ExplicitResultTransition, StatedResultTransition;
    if ExplicitResultKind(e.entry.kind) { ExplicitReportAccepted(r, e, t); }
    else if e.entry.kind.OperationResult? { StatedReportAccepted(r, e, t); }
  }

  lemma ApplyMoveAccepted(r: Record, e: Event, t: Task, move: TaskMove, outcome: Outcome)
    requires RecordInvariant(r) && TaskInvariant(r, t) && t.kind.ApplyTask?
    requires move.PreparationFails? || move.ApplyReturns?
    requires TaskReport(r.op, t, move) == Some(outcome) && Carries(e, outcome)
    ensures MoveAccepted(r, e, t, move, outcome)
  {
    hide OperationTransition, RecordInvariant, ApplyOutcome, PreparationOutcome;
    if move.ApplyReturns? {
      ApplyOutcomeEndsAttempt(r.op.sideEffecting, t.attempt, t.started, t.dispatched, move.answer);
    } else {
      PreparationOutcomeEndsAttempt(r.op.sideEffecting, t.attempt, move.contexts, move.error);
    }
    ActiveRecord(r, t);
    ApplyReportAccepted(r, e, t);
  }

  lemma ReconcileReportAccepted(r: Record, e: Event, t: Task)
    requires TaskInvariant(r, t) && !t.settled && t.kind.ReconcileTask? && e.entry.payload.attempt == t.attempt
    requires e.entry.kind.ReconcileResult? && e.entry.payload.state != Planned
    ensures AttemptEnded(r, OperationTransition(r, e, false))
  {
  }

  lemma ReconcileMoveAccepted(r: Record, e: Event, t: Task, move: TaskMove, outcome: Outcome)
    requires RecordInvariant(r) && TaskInvariant(r, t) && t.kind.ReconcileTask?
    requires move.PreparationFails? || move.ReconcileReturns?
    requires TaskReport(r.op, t, move) == Some(outcome) && Carries(e, outcome)
    ensures MoveAccepted(r, e, t, move, outcome)
  {
    hide OperationTransition, RecordInvariant;
    ActiveRecord(r, t);
    ReconcileReportAccepted(r, e, t);
  }

  /** A dispatch that breaks the contract is the one move that the reducer refuses. */
  lemma StrayDispatchRefused(r: Record, e: Event, t: Task, move: TaskMove, outcome: Outcome)
    requires RecordInvariant(r) && TaskInvariant(r, t)
    requires TaskReport(r.op, t, move) == Some(outcome) && Carries(e, outcome) && BreaksContract(r.op, t, move)
    ensures OperationTransition(r, e, false).None?
  {
  }

  lemma TaskMoveAccepted(r: Record, e: Event, t: Task, move: TaskMove, outcome: Outcome)
    requires RecordInvariant(r) && TaskInvariant(r, t) && !BreaksContract(r.op, t, move)
    requires TaskReport(r.op, t, move) == Some(outcome) && Carries(e, outcome)
    requires move.LeaseTurnsOutExpired? ==> t.lease.expiresAt <= e.observedAt
    ensures MoveAccepted(r, e, t, move, outcome)
  {
    hide MoveAccepted, RecordInvariant, TaskInvariant, Carries;
    if move.RenewLease? || EndsTask(move) { LeaseMoveAccepted(r, e, t, move, outcome); }
    else if move.PreparationFails? || move.ApplyReturns? || move.ReconcileReturns? {
      if t.kind.ApplyTask? {
        ApplyMoveAccepted(r, e, t, move, outcome);
      } else {
        ReconcileMoveAccepted(r, e, t, move, outcome);
      }
    }
    else { CallMoveAccepted(r, e, t, move, outcome); }
  }
}
