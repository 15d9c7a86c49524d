/**
 Journal events and the validation that every entry and every replayed event
 must pass (internal/journal/event.go).
 */
module Events {
  import opened Domain

  const SCHEMA_VERSION := 2

  datatype EventKind =
    | RunStarted
    | RunCompleted
    | RunCancelled
    | OperationReady
    | LeaseAcquired
    | LeaseRenewed
    | LeaseExpired
    | LeaseReleased
    | AttemptStarted
    | CredentialResolved
    | ProviderProcessStarted
    | SideEffectDispatched
    | ProviderResponseReceived
    | OperationWaitingExternal
    | OperationPublished
    | OperationRejected
    | OperationFailed
    | OperationResult
    | OperationCancelled
    | OutcomeAmbiguous
    | ReconcileStarted
    | ReconcileResult
    | RetryAuthorized
    | UnknownKind

  datatype AttemptReason = NoReason | Initial | Retry | Reconcile | OtherReason

  datatype ResultCategory =
    | NoCategory
    | CategoryPublished
    | CategoryWaitingExternal
    | CategoryRejected
    | CategoryFailedRetryable
    | CategoryFailedPermanent
    | CategoryCancelled
    | CategoryBlocked
    | CategoryAmbiguous
    | OtherCategory

  /** JSON evidence with the verdict of the evidence validator on it. */
  datatype Evidence = NoEvidence | Json(text: string, acceptable: bool)

  /** Times are integers; 0 is the zero time that validation rejects. */
  datatype Lease = Lease(id: string, owner: string, acquiredAt: int, expiresAt: int)

  datatype Payload = Payload(
    attempt: Uint32,
    reason: AttemptReason,
    category: ResultCategory,
    credentialRef: string,
    state: NormalizedState,
    providerState: string,
    evidence: Evidence,
    errorCode: string,
    retryable: bool,
    lease: Option<Lease>)

  const EMPTY_PAYLOAD := Payload(0, NoReason, NoCategory, "", Unset, "", NoEvidence, "", false, None)

  datatype Entry = Entry(
    runId: RunID,
    planId: PlanID,
    kind: EventKind,
    operationId: OperationID,
    targetId: TargetID,
    payload: Payload)

  datatype Event = Event(schemaVersion: int, sequence: nat, entry: Entry, observedAt: int)

  predicate RunLifecycle(kind: EventKind) {
    kind.RunStarted? || kind.RunCompleted? || kind.RunCancelled?
  }

  predicate LeaseKind(kind: EventKind) {
    kind.LeaseAcquired? || kind.LeaseRenewed? || kind.LeaseExpired? || kind.LeaseReleased?
  }

  predicate ExplicitResultKind(kind: EventKind) {
    kind.OperationWaitingExternal? || kind.OperationPublished? || kind.OperationRejected? || kind.OperationFailed?
  }

  /** The state that an explicit result event stands for. */
  function ExplicitResultState(kind: EventKind): NormalizedState {
    match kind
    case OperationWaitingExternal => WaitingExternal
    case OperationPublished => Published
    case OperationRejected => Rejected
    case OperationFailed => Failed
    case _ => Unset
  }

  predicate ResultState(state: NormalizedState) {
    || state == WaitingExternal || state == Published || state == Rejected
    || state == Failed || state == Cancelled || state == Blocked
  }

  predicate ValidLease(lease: Lease) {
    && ValidText(lease.id)
    && ValidText(lease.owner)
    && lease.acquiredAt != 0
    && lease.expiresAt != 0
    && lease.acquiredAt < lease.expiresAt
  }

  /** The payload carries nothing besides its attempt number and its lease. */
  predicate OnlyAttemptOrLease(p: Payload) {
    p == EMPTY_PAYLOAD.(attempt := p.attempt, lease := p.lease)
  }

  /** The checks that depend on the event kind. */
  predicate ValidPayloadShape(p: Payload, kind: EventKind) {
    match kind
    case OperationReady => p == EMPTY_PAYLOAD
    case LeaseAcquired => p == EMPTY_PAYLOAD.(lease := p.lease) && p.lease.Some? && ValidLease(p.lease.value)
    case LeaseRenewed => p == EMPTY_PAYLOAD.(lease := p.lease) && p.lease.Some? && ValidLease(p.lease.value)
    case LeaseExpired => p == EMPTY_PAYLOAD.(lease := p.lease) && p.lease.Some? && ValidLease(p.lease.value)
    case LeaseReleased => p == EMPTY_PAYLOAD.(lease := p.lease) && p.lease.Some? && ValidLease(p.lease.value)
    case RetryAuthorized => p.attempt != 0 && p == EMPTY_PAYLOAD.(attempt := p.attempt)
    case OperationCancelled => p == EMPTY_PAYLOAD.(errorCode := p.errorCode, lease := p.lease)
    case CredentialResolved =>
      && p.attempt != 0
      && ValidIdentifier(p.credentialRef)
      && p == EMPTY_PAYLOAD.(attempt := p.attempt, credentialRef := p.credentialRef, lease := p.lease)
    case AttemptStarted =>
      p.attempt != 0 && p == EMPTY_PAYLOAD.(attempt := p.attempt, reason := p.reason, lease := p.lease)
    case ReconcileStarted =>
      p.attempt != 0 && p == EMPTY_PAYLOAD.(attempt := p.attempt, reason := p.reason, lease := p.lease)
    case ProviderProcessStarted => p.attempt != 0 && OnlyAttemptOrLease(p)
    case SideEffectDispatched => p.attempt != 0 && OnlyAttemptOrLease(p)
    case ProviderResponseReceived => p.attempt != 0 && OnlyAttemptOrLease(p)
    case OutcomeAmbiguous =>
      && p.attempt != 0
      && p == EMPTY_PAYLOAD.(attempt := p.attempt, category := p.category, errorCode := p.errorCode, lease := p.lease)
    case OperationWaitingExternal => ValidExplicitResult(p, kind)
    case OperationPublished => ValidExplicitResult(p, kind)
    case OperationRejected => ValidExplicitResult(p, kind)
    case OperationFailed => ValidExplicitResult(p, kind)
    case OperationResult => ValidStatedResult(p)
    case ReconcileResult => ValidStatedResult(p) && p.state != Blocked
    case _ => false
  }

  predicate ValidExplicitResult(p: Payload, kind: EventKind) {
    && p.reason.NoReason? && p.credentialRef == "" && p.attempt != 0 && p.state.Unset?
    && (p.retryable ==> ExplicitResultState(kind) == Failed || ExplicitResultState(kind) == WaitingExternal)
  }

  predicate ValidStatedResult(p: Payload) {
    && p.reason.NoReason? && p.credentialRef == "" && p.attempt != 0
    && ResultState(p.state)
    && (p.state == Blocked ==>
          && p.category == CategoryBlocked && p.errorCode != "" && !p.retryable
          && p.providerState == "" && p.evidence.NoEvidence?)
    && (p.retryable ==> p.state == Failed || p.state == WaitingExternal)
  }

  /** The checks after the switch, which lease events and authorizations skip. */
  predicate ValidPayloadText(p: Payload, kind: EventKind) {
    && (p.category.CategoryBlocked? ==> kind.OperationResult? && p.state == Blocked)
    && p.lease.None?
    && !p.reason.OtherReason?
    && !p.category.OtherCategory?
    && ValidOptionalText(p.providerState)
    && ValidOptionalText(p.errorCode)
    && (p.evidence.Json? ==> p.evidence.acceptable)
  }

  predicate ValidPayload(p: Payload, kind: EventKind) {
    && ValidPayloadShape(p, kind)
    && (LeaseKind(kind) || kind.RetryAuthorized? || ValidPayloadText(p, kind))
  }

  predicate ValidEntry(e: Entry) {
    && ValidIdentifier(e.runId)
    && !e.kind.UnknownKind?
    && (if e.kind.RunStarted? then ValidIdentifier(e.planId) else e.planId == "")
    && if RunLifecycle(e.kind) then
         e.operationId == "" && e.targetId == "" && e.payload == EMPTY_PAYLOAD
       else
         ValidIdentifier(e.operationId) && ValidIdentifier(e.targetId) && ValidPayload(e.payload, e.kind)
  }

  predicate ValidEvent(e: Event) {
    && e.schemaVersion == SCHEMA_VERSION
    && e.sequence != 0
    && e.observedAt != 0
    && ValidEntry(e.entry)
  }
}
