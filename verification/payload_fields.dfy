/**
 Payload validation read by field: which events may carry which field, and what it may be.
 */
module PayloadFields {
  import opened Domain
  import opened Events

  predicate CarriesResult(kind: EventKind) {
    || kind.OperationWaitingExternal? || kind.OperationPublished? || kind.OperationRejected? || kind.OperationFailed?
    || kind.OperationResult? || kind.ReconcileResult?
  }

  predicate StatesResult(kind: EventKind) {
    kind.OperationResult? || kind.ReconcileResult?
  }

  /** Every event of an attempt carries its number, and no other event carries one. */
  predicate AttemptFits(p: Payload, kind: EventKind) {
    p.attempt != 0 <==>
      !LeaseKind(kind) && !kind.OperationReady? && !kind.OperationCancelled?
  }

  /** A lease event carries a proper lease, and no other event carries one. */
  predicate LeaseFits(p: Payload, kind: EventKind) {
    && (p.lease.Some? <==> LeaseKind(kind))
    && (p.lease.Some? ==>
          && ValidText(p.lease.value.id) && ValidText(p.lease.value.owner)
          && p.lease.value.acquiredAt != 0 && p.lease.value.expiresAt != 0
          && p.lease.value.acquiredAt < p.lease.value.expiresAt)
  }

  /** Only starts give a reason, and only a resolved credential names one. */
  predicate CauseFits(p: Payload, kind: EventKind) {
    && !p.reason.OtherReason? && (!p.reason.NoReason? ==> kind.AttemptStarted? || kind.ReconcileStarted?)
    && (p.credentialRef != "" ==> kind.CredentialResolved?) && (kind.CredentialResolved? ==> ValidText(p.credentialRef))
  }

  /** Only results carry what a provider said, and only results that state it carry a state. */
  predicate AnswerFits(p: Payload, kind: EventKind) {
    && (p.state != Unset <==> StatesResult(kind))
    && (StatesResult(kind) ==> p.state != Planned && p.state != Ready && p.state != Running)
    && (kind.ReconcileResult? ==> p.state != Blocked)
    && (p.providerState != "" || p.evidence.Json? ==> CarriesResult(kind))
    && (p.providerState != "" ==> ValidText(p.providerState)) && (p.evidence.Json? ==> p.evidence.acceptable)
  }

  /** Errors belong to results, cancellations and lost outcomes; only failures and waiting are retryable. */
  predicate ErrorFits(p: Payload, kind: EventKind) {
    && (p.errorCode != "" ==> ValidText(p.errorCode))
    && (p.errorCode != "" ==> CarriesResult(kind) || kind.OperationCancelled? || kind.OutcomeAmbiguous?)
    && (p.retryable ==>
          || kind.OperationFailed? || kind.OperationWaitingExternal?
          || (StatesResult(kind) && (p.state == Failed || p.state == WaitingExternal)))
    && !p.category.OtherCategory? && (!p.category.NoCategory? ==> CarriesResult(kind) || kind.OutcomeAmbiguous?)
    && (p.category.CategoryBlocked? <==> kind.OperationResult? && p.state == Blocked)
    && (p.state == Blocked ==> p.errorCode != "" && p.providerState == "" && p.evidence.NoEvidence?)
  }

  predicate FieldsFit(p: Payload, kind: EventKind) {
    && !RunLifecycle(kind) && !kind.UnknownKind?
    && AttemptFits(p, kind) && LeaseFits(p, kind) && CauseFits(p, kind) && AnswerFits(p, kind) && ErrorFits(p, kind)
  }

  lemma BareEventFields(p: Payload, kind: EventKind)
    requires LeaseKind(kind) || kind.OperationReady? || kind.RetryAuthorized? || kind.OperationCancelled?
    ensures ValidPayload(p, kind) <==> FieldsFit(p, kind)
  {
    hide ValidText;
  }

  lemma CallEventFields(p: Payload, kind: EventKind)
    requires || kind.CredentialResolved? || kind.AttemptStarted? || kind.ReconcileStarted?
             || kind.ProviderProcessStarted?
             || kind.SideEffectDispatched? || kind.ProviderResponseReceived? || kind.OutcomeAmbiguous?
    ensures ValidPayload(p, kind) <==> FieldsFit(p, kind)
  {
    hide ValidText;
  }

  lemma ResultEventFields(p: Payload, kind: EventKind)
    requires CarriesResult(kind)
    ensures ValidPayload(p, kind) <==> FieldsFit(p, kind)
  {
    hide ValidText;
  }

  /** A payload is valid exactly if each of its fields fits the kind of its event. */
  lemma ValidByField(p: Payload, kind: EventKind)
    ensures ValidPayload(p, kind) <==> FieldsFit(p, kind)
  {
    hide ValidPayload, FieldsFit;
    if LeaseKind(kind) || kind.OperationReady? || kind.RetryAuthorized? || kind.OperationCancelled? {
      BareEventFields(p, kind);
    } else if CarriesResult(kind) {
      ResultEventFields(p, kind);
    } else if RunLifecycle(kind) || kind.UnknownKind? {
      RunEventFields(p, kind);
    } else {
      CallEventFields(p, kind);
    }
  }

  lemma RunEventFields(p: Payload, kind: EventKind)
    requires RunLifecycle(kind) || kind.UnknownKind?
    ensures !ValidPayload(p, kind) && !FieldsFit(p, kind)
  {
  }

  /** Only RUN_STARTED names the plan, and events of the run as a whole carry nothing else. */
  predicate HeadingFits(e: Entry) {
    && ValidText(e.runId) && !e.kind.UnknownKind?
    && (e.planId != "" ==> e.kind.RunStarted?) && (e.kind.RunStarted? ==> ValidText(e.planId))
    && (e.operationId != "" <==> !RunLifecycle(e.kind)) && (e.targetId != "" <==> !RunLifecycle(e.kind))
    && (e.operationId != "" ==> ValidText(e.operationId)) && (e.targetId != "" ==> ValidText(e.targetId))
  }

  /** An event is valid exactly if it has the schema, a number, a time and a heading, and its payload fits. */
  lemma EventByField(e: Event)
    ensures ValidEvent(e) <==>
              && e.schemaVersion == 2 && e.sequence != 0 && e.observedAt != 0 && HeadingFits(e.entry)
              && if RunLifecycle(e.entry.kind) then e.entry.payload == EMPTY_PAYLOAD
                 else FieldsFit(e.entry.payload, e.entry.kind)
  {
    ValidByField(e.entry.payload, e.entry.kind);
    assert !ValidText("");
    hide ValidPayload, FieldsFit, ValidText;
  }
}
