/**
 The transition function read the other way round: not what each event does, but by which events each
 field of a record changes, and what a record must satisfy for an event to be accepted.
 */
module TransitionTable {
  import opened Domain
  import opened Events
  import opened Reducer
  import opened ReducerSafety
  import opened JournalHistory
  import opened Settlement

  predicate ResultKind(kind: EventKind) {
    ExplicitResultKind(kind) || kind.OperationResult? || kind.ReconcileResult?
  }

  /** What tells one call of a driver from the next: it begins anew with an attempt or a reconciliation. */
  predicate CallFields(r: Record, e: Event, next: Record) {
    var k := e.entry.kind;
    && next.providerStarted ==
         (k.ProviderProcessStarted?
          || (r.providerStarted && !k.AttemptStarted? && !k.ReconcileStarted? && !ResultKind(k)))
    && next.providerResponded ==
         (k.ProviderResponseReceived?
          || (r.providerResponded && !k.ProviderProcessStarted? && !k.AttemptStarted? && !k.ReconcileStarted?
              && !ResultKind(k)))
    && next.dispatched == (k.SideEffectDispatched? || (r.dispatched && !k.AttemptStarted? && !ResultKind(k)))
    && next.reconciling == (k.ReconcileStarted? || (r.reconciling && !k.AttemptStarted? && !ResultKind(k)))
  }

  /** An outcome is open from the dispatch to the result that is not waiting, and uncertain until reconciled. */
  predicate OutcomeFields(r: Record, e: Event, next: Record) {
    var k := e.entry.kind;
    && next.reconcileRequired ==
         (if ResultKind(k) then next.state == WaitingExternal
          else k.SideEffectDispatched? || k.OutcomeAmbiguous?
               || (r.reconcileRequired && !k.AttemptStarted? && !k.RetryAuthorized?))
    && next.ambiguous ==
         (if ResultKind(k) then
            r.ambiguous && next.state == WaitingExternal
            && (k.ReconcileResult? || (ExplicitResultKind(k) && r.reconciling))
          else k.SideEffectDispatched? || k.OutcomeAmbiguous?
               || (r.ambiguous && !k.AttemptStarted? && !k.RetryAuthorized?))
    && next.observedAbsent ==
         (if k.ReconcileResult? then
            e.entry.payload.state == WaitingExternal && e.entry.payload.providerState == "absent"
            && e.entry.payload.errorCode == ""
          else r.observedAbsent && !k.AttemptStarted? && !k.RetryAuthorized?)
  }

  /** What a result says is kept until the next attempt or its authorization. */
  predicate AnswerFields(r: Record, e: Event, next: Record) {
    var k, p := e.entry.kind, e.entry.payload;
    var anew := k.AttemptStarted? || k.RetryAuthorized?;
    && next.retryable ==
         (if ResultKind(k) then p.retryable
          else r.retryable && !anew && !k.OperationCancelled? && !k.OutcomeAmbiguous?)
    && next.providerState == (if ResultKind(k) then p.providerState else if anew then "" else r.providerState)
    && next.evidence == (if ResultKind(k) then p.evidence else if anew then NoEvidence else r.evidence)
    && next.errorCode ==
         (if ResultKind(k) || k.OperationCancelled? || k.OutcomeAmbiguous? then p.errorCode
          else if anew then "" else r.errorCode)
  }

  /** The counters, the announcement and the lease. */
  predicate CounterFields(r: Record, e: Event, next: Record) {
    var k, p := e.entry.kind, e.entry.payload;
    && next.op == r.op
    && next.attempt == (if k.AttemptStarted? then p.attempt else r.attempt)
    && next.blockedAttempts ==
         (if k.OperationResult? && p.state == Blocked then (r.blockedAttempts + 1) % 0x1_0000_0000
          else r.blockedAttempts)
    && next.readyJournaled == (k.OperationReady? || r.readyJournaled)
    && next.leaseActive == (k.LeaseAcquired? || (r.leaseActive && !k.LeaseExpired? && !k.LeaseReleased?))
    && (!LeaseKind(k) || k.LeaseExpired? || k.LeaseReleased? ==> next.lease == r.lease)
    && (k.LeaseAcquired? ==> p.lease == Some(next.lease))
    && (k.LeaseRenewed? ==>
          p.lease.Some? && next.lease == r.lease.(expiresAt := p.lease.value.expiresAt)
          && r.lease.expiresAt < next.lease.expiresAt)
  }

  predicate AllFields(r: Record, e: Event, next: Record) {
    CallFields(r, e, next) && OutcomeFields(r, e, next) && AnswerFields(r, e, next) && CounterFields(r, e, next)
  }

  /** The effects and the conditions of the lease events. */
  predicate LeaseFields(r: Record, e: Event, next: Record) {
    var k, lease := e.entry.kind, e.entry.payload.lease;
    && lease.Some?
    && (k.LeaseAcquired? ==> !r.leaseActive && next.leaseActive && next.lease == lease.value)
    && (k.LeaseRenewed? ==>
          r.leaseActive && next.leaseActive && next.lease == r.lease.(expiresAt := lease.value.expiresAt)
          && r.lease.expiresAt < next.lease.expiresAt)
    && (k.LeaseExpired? ==> r.lease.expiresAt <= e.observedAt)
    && (k.LeaseExpired? || k.LeaseReleased? ==> r.leaseActive && !next.leaseActive && next.lease == r.lease)
    && (!k.LeaseAcquired? ==>
          lease.value.id == r.lease.id && lease.value.owner == r.lease.owner
          && lease.value.acquiredAt == r.lease.acquiredAt)
  }

  lemma LeaseTransitionFields(r: Record, e: Event)
    requires LeaseKind(e.entry.kind) && e.entry.payload.lease.Some? && LeaseTransition(r, e).Some?
    ensures LeaseFields(r, e, LeaseTransition(r, e).value)
  {
    hide Startable;
    match e.entry.kind {
      case LeaseAcquired =>
      case LeaseRenewed =>
      case LeaseExpired =>
      case _ =>
    }
  }

  lemma LeaseFieldsAfter(r: Record, e: Event, published: bool)
    requires LeaseKind(e.entry.kind) && OperationTransition(r, e, published).Some?
    ensures LeaseFields(r, e, OperationTransition(r, e, published).value)
  {
    hide LeaseTransition, ApplyResult, ExplicitResultTransition, StatedResultTransition, StartAttempt, AuthorizeRetry,
      LeaseFields;
    assert e.entry.payload.lease.Some? && OperationTransition(r, e, published) == LeaseTransition(r, e);
    LeaseTransitionFields(r, e);
  }

  lemma FieldsAfterLease(r: Record, e: Event, published: bool)
    requires LeaseKind(e.entry.kind) && OperationTransition(r, e, published).Some?
    ensures AllFields(r, e, OperationTransition(r, e, published).value)
  {
    hide OperationTransition, CallFields, OutcomeFields, AnswerFields, CounterFields;
    LeaseEffect(r, e, published);
    LeaseFieldsAfter(r, e, published);
    LeaseKeepsFields(r, e, OperationTransition(r, e, published).value);
  }

  lemma LeaseKeepsFields(r: Record, e: Event, next: Record)
    requires LeaseKind(e.entry.kind) && next == r.(leaseActive := next.leaseActive, lease := next.lease)
    requires LeaseFields(r, e, next)
    ensures CallFields(r, e, next) && OutcomeFields(r, e, next) && AnswerFields(r, e, next) && CounterFields(r, e, next)
  {
    hide LeaseFields, CallFields, OutcomeFields, AnswerFields, CounterFields;
    LeaseKeepsCall(r, e, next);
    LeaseKeepsOutcome(r, e, next);
    LeaseKeepsCounters(r, e, next);
  }

  lemma LeaseKeepsCall(r: Record, e: Event, next: Record)
    requires LeaseKind(e.entry.kind) && next == r.(leaseActive := next.leaseActive, lease := next.lease)
    ensures CallFields(r, e, next)
  {
  }

  lemma LeaseKeepsOutcome(r: Record, e: Event, next: Record)
    requires LeaseKind(e.entry.kind) && next == r.(leaseActive := next.leaseActive, lease := next.lease)
    ensures OutcomeFields(r, e, next) && AnswerFields(r, e, next)
  {
  }

  lemma LeaseKeepsCounters(r: Record, e: Event, next: Record)
    requires LeaseKind(e.entry.kind) && next == r.(leaseActive := next.leaseActive, lease := next.lease)
    requires LeaseFields(r, e, next)
    ensures CounterFields(r, e, next)
  {
  }

  lemma FieldsAfterCall(r: Record, e: Event, published: bool)
    requires var k := e.entry.kind;
      k.CredentialResolved? || k.ProviderProcessStarted? || k.SideEffectDispatched? || k.ProviderResponseReceived?
      || k.OutcomeAmbiguous? || k.ReconcileStarted?
    requires OperationTransition(r, e, published).Some?
    ensures AllFields(r, e, OperationTransition(r, e, published).value)
  {
  }

  lemma FieldsAfterSchedule(r: Record, e: Event, published: bool)
    requires var k := e.entry.kind;
      k.OperationReady? || k.OperationCancelled? || k.RetryAuthorized? || k.AttemptStarted?
    requires OperationTransition(r, e, published).Some?
    ensures AllFields(r, e, OperationTransition(r, e, published).value)
  {
  }

  lemma FieldsAfterExplicitResult(r: Record, e: Event, published: bool)
    requires ExplicitResultKind(e.entry.kind) && OperationTransition(r, e, published).Some?
    ensures AllFields(r, e, OperationTransition(r, e, published).value)
  {
    hide LeaseTransition, StatedResultTransition, StartAttempt, AuthorizeRetry, ExplicitResultState;
    assert OperationTransition(r, e, published) == ExplicitResultTransition(r, e);
    hide OperationTransition;
  }

  lemma FieldsAfterStatedResult(r: Record, e: Event, published: bool)
    requires e.entry.kind.OperationResult? || e.entry.kind.ReconcileResult?
    requires OperationTransition(r, e, published).Some?
    ensures AllFields(r, e, OperationTransition(r, e, published).value)
  {
    hide LeaseTransition, ExplicitResultTransition, StartAttempt, AuthorizeRetry, Increment32;
    IncrementIsModular(r.blockedAttempts);
  }

  lemma IncrementIsModular(x: Uint32)
    ensures Increment32(x) == (x + 1) % 0x1_0000_0000
  {
  }

  /** Every field of the record after an accepted event; its state is the subject of StateAfterEvent. */
  lemma FieldsAfterEvent(r: Record, e: Event, published: bool)
    requires OperationTransition(r, e, published).Some?
    ensures AllFields(r, e, OperationTransition(r, e, published).value)
  {
    hide OperationTransition, AllFields;
    var k := e.entry.kind;
    if LeaseKind(k) { FieldsAfterLease(r, e, published); }
    else if ExplicitResultKind(k) { FieldsAfterExplicitResult(r, e, published); }
    else if k.OperationResult? || k.ReconcileResult? { FieldsAfterStatedResult(r, e, published); }
    else if k.OperationReady? || k.OperationCancelled? || k.RetryAuthorized? || k.AttemptStarted? {
      FieldsAfterSchedule(r, e, published);
    }
    else if RunLifecycle(k) || k.UnknownKind? { OtherKindsRefused(r, e, published); }
    else { FieldsAfterCall(r, e, published); }
  }

  // What is accepted

  /** A record from which an attempt may start, with or without a lease. */
  predicate AwaitsAttempt(r: Record) {
    r.state == Ready || r.state == Blocked || (r.state == Failed && r.retryable)
  }

  /** The event concerns the attempt that it should. */
  predicate OfPresentAttempt(r: Record, e: Event) {
    CarriesAttempt(e.entry.kind) ==>
      e.entry.payload.attempt == if e.entry.kind.AttemptStarted? then (r.attempt + 1) % 0x1_0000_0000 else r.attempt
  }

  /** The record's state and its open outcome allow the event. */
  predicate InPhase(r: Record, e: Event, published: bool) {
    var k, running := e.entry.kind, r.state == Running;
    && (k.OperationReady? ==> r.state == Ready)
    && (k.OperationCancelled? ==> r.state == Planned || r.state == Ready)
    && (k.AttemptStarted? ==> AwaitsAttempt(r) && !r.reconcileRequired && published)
    && (k.SideEffectDispatched? || k.OutcomeAmbiguous? || k.OperationResult? ==> running)
    && (k.ProviderProcessStarted? || ExplicitResultKind(k) ==> running || r.reconciling)
    && (k.CredentialResolved? ==> r.reconciling || (running && !r.dispatched))
    && (k.ReconcileStarted? ==> r.reconcileRequired)
    && (k.ReconcileResult? ==> r.reconciling)
    && (k.RetryAuthorized? ==>
          && r.state == WaitingExternal && r.reconcileRequired && r.ambiguous && r.observedAbsent && !r.reconciling
          && !r.leaseActive && r.op.sideEffecting && r.op.provider.name == "npm" && r.op.kind == "publish")
  }

  /** What happens at most once in a call has not happened yet, and what it presupposes has. */
  predicate InOrder(r: Record, e: Event) {
    var k := e.entry.kind;
    && (k.OperationReady? ==> !r.readyJournaled)
    && (k.ProviderProcessStarted? ==> !r.providerStarted)
    && (k.ProviderResponseReceived? ==> r.providerStarted && !r.providerResponded)
    && (k.SideEffectDispatched? ==> r.op.sideEffecting && !r.dispatched)
    && (k.OutcomeAmbiguous? ==> r.op.sideEffecting && r.dispatched)
    && (k.ReconcileStarted? ==> !r.reconciling)
  }

  /** A side effect that was not dispatched has no outcome but a failure, a cancellation or a block. */
  predicate Credible(r: Record, e: Event) {
    var k, state := e.entry.kind, e.entry.payload.state;
    && (ExplicitResultKind(k) && !k.OperationFailed? && r.op.sideEffecting && !r.dispatched ==> r.reconciling)
    && (k.OperationResult? && r.op.sideEffecting && !r.dispatched ==>
          state == Blocked || state == Failed || state == Cancelled)
    && (k.OperationResult? && state == Blocked ==> !r.providerStarted && !r.dispatched && !r.reconcileRequired)
  }

  /** A lease is acquired by nobody else's, and renewed, released or expired only by its own events. */
  predicate LeaseAllows(r: Record, e: Event) {
    var k := e.entry.kind;
    LeaseKind(k) ==>
      && e.entry.payload.lease.Some?
      && var lease := e.entry.payload.lease.value;
      && (k.LeaseAcquired? ==> !r.leaseActive && (AwaitsAttempt(r) || r.reconcileRequired))
      && (!k.LeaseAcquired? ==>
            r.leaseActive && lease.id == r.lease.id && lease.owner == r.lease.owner
            && lease.acquiredAt == r.lease.acquiredAt)
      && (k.LeaseRenewed? ==> r.lease.expiresAt < lease.expiresAt)
      && (k.LeaseExpired? ==> r.lease.expiresAt <= e.observedAt)
  }

  predicate Accepts(r: Record, e: Event, published: bool) {
    && !RunLifecycle(e.entry.kind) && !e.entry.kind.UnknownKind?
    && OfPresentAttempt(r, e) && InPhase(r, e, published) && InOrder(r, e) && Credible(r, e) && LeaseAllows(r, e)
  }

  lemma LeaseAcceptance(r: Record, e: Event, published: bool)
    requires LeaseKind(e.entry.kind)
    ensures OperationTransition(r, e, published).Some? <==> LeaseAllows(r, e)
  {
    hide ApplyResult, ExplicitResultTransition, StatedResultTransition, StartAttempt, AuthorizeRetry;
    if e.entry.payload.lease.Some? {
      assert OperationTransition(r, e, published) == LeaseTransition(r, e);
      hide OperationTransition;
    }
  }

  lemma CallAcceptance(r: Record, e: Event, published: bool)
    requires RecordInvariant(r)
    requires var k := e.entry.kind;
      k.CredentialResolved? || k.ProviderProcessStarted? || k.SideEffectDispatched? || k.ProviderResponseReceived?
      || k.OutcomeAmbiguous? || k.ReconcileStarted?
    ensures OperationTransition(r, e, published).Some? <==> Accepts(r, e, published)
  {
  }

  lemma ScheduleAcceptance(r: Record, e: Event, published: bool)
    requires RecordInvariant(r)
    requires var k := e.entry.kind;
      k.OperationReady? || k.OperationCancelled? || k.RetryAuthorized? || k.AttemptStarted?
    ensures OperationTransition(r, e, published).Some? <==> Accepts(r, e, published)
  {
  }

  lemma ResultAcceptance(r: Record, e: Event, published: bool)
    requires RecordInvariant(r) && ResultKind(e.entry.kind)
    ensures OperationTransition(r, e, published).Some? <==> Accepts(r, e, published)
  {
    hide LeaseTransition, StartAttempt, AuthorizeRetry, ApplyResult;
  }

  /** An event is accepted exactly if it concerns the present attempt and nothing about the record speaks against it. */
  lemma AcceptanceIsExact(r: Record, e: Event, published: bool)
    requires RecordInvariant(r)
    ensures OperationTransition(r, e, published).Some? <==> Accepts(r, e, published)
  {
    hide OperationTransition, RecordInvariant;
    var k := e.entry.kind;
    if LeaseKind(k) { LeaseAcceptance(r, e, published); }
    else if ResultKind(k) { ResultAcceptance(r, e, published); }
    else if k.OperationReady? || k.OperationCancelled? || k.RetryAuthorized? || k.AttemptStarted? {
      ScheduleAcceptance(r, e, published);
    }
    else if RunLifecycle(k) || k.UnknownKind? { OtherKindsRefused(r, e, published); }
    else { CallAcceptance(r, e, published); }
  }
}
