/**
 What every accepted event preserves: the invariant of the reducer's records and
 the safety properties that follow from it for every reducible journal.
 */
module ReducerSafety {
  import opened Domain
  import opened Events
  import opened Reducer

  predicate NeverStarted(state: NormalizedState) {
    state == Planned || state == Ready || state == Cancelled
  }

  /** What holds of one record after any sequence of accepted events. */
  predicate RecordInvariant(r: Record) {
    && r.state != Unset
    && (r.dispatched <==> r.state == Running && r.reconcileRequired)
    && (r.dispatched ==> r.op.sideEffecting)
    && (r.ambiguous ==> r.reconcileRequired)
    && (r.reconciling ==> r.reconcileRequired)
    && (r.state == WaitingExternal ==> r.reconcileRequired)
    && (r.reconcileRequired ==> r.state == WaitingExternal || r.state == Running)
    && (r.retryable ==> r.state == Failed || r.state == WaitingExternal)
    && (!NeverStarted(r.state) ==> r.attempt > 0)
    && (r.state == Planned ==> r.attempt == 0)
    && (r.observedAbsent ==> r.attempt > 0)
    && r.blockedAttempts <= r.attempt
    && (r.state == Running ==> r.blockedAttempts < r.attempt)
  }

  /** After RUN_CANCELLED nothing waits to be attempted, and what still runs was dispatched. */
  predicate CancelledInvariant(r: Record) {
    && r.state != Planned && r.state != Ready && r.state != Blocked
    && (r.state == Running ==> r.dispatched)
  }

  predicate Absorbing(state: NormalizedState) {
    state == Published || state == Rejected || state == Cancelled
  }

  /** The record has left the planned state other than by cancellation, or was ever attempted. */
  predicate Released(r: Record) {
    (r.state != Planned && r.state != Cancelled) || r.attempt > 0
  }

  ghost predicate ReleasedHavePublishedDependencies(records: Records) {
    forall id :: id in records && Released(records[id]) ==> DependenciesPublished(records[id].op, records)
  }

  /** A planned operation still waits for some dependency. */
  ghost predicate ExactFrontier(records: Records) {
    forall id :: id in records && records[id].state == Planned ==> !DependenciesPublished(records[id].op, records)
  }

  ghost predicate RecordsOf(plan: Plan, records: Records) {
    && records.Keys == plan.operations.Keys
    && forall id :: id in records ==> records[id].op == plan.operations[id]
  }

  ghost predicate RecordInvariants(records: Records) {
    forall id :: id in records ==> RecordInvariant(records[id])
  }

  ghost predicate CancelledInvariants(records: Records) {
    forall id :: id in records ==> CancelledInvariant(records[id])
  }

  ghost predicate Invariant(plan: Plan, st: RunState) {
    && RecordsOf(plan, st.records)
    && RecordInvariants(st.records)
    && ReleasedHavePublishedDependencies(st.records)
    && (st.started ==> ExactFrontier(st.records))
    && (st.cancelled ==> st.started && CancelledInvariants(st.records))
    && (st.completed ==> st.started && !st.cancelled && AllQuiescent(st.records))
    && (!st.started ==> st.records == InitialState(plan).records)
    && st.next >= 1
  }

  // One record

  /** What validation guarantees about a payload that starts an attempt or carries a result. */
  predicate Meaningful(p: Payload, kind: EventKind) {
    && (kind.AttemptStarted? ==> p.attempt != 0)
    && (kind.OperationResult? || kind.ReconcileResult? ==>
          ResultState(p.state) && (p.retryable ==> p.state == Failed || p.state == WaitingExternal))
    && (kind.ReconcileResult? ==> p.state != Blocked)
    && (ExplicitResultKind(kind) && p.retryable ==> kind.OperationFailed? || kind.OperationWaitingExternal?)
  }

  lemma ValidIsMeaningful(e: Event)
    requires ValidEvent(e)
    ensures Meaningful(e.entry.payload, e.entry.kind)
  {
  }

  /**
   A sound transition keeps the record's invariant and its operation, never leaves a final state,
   never returns to planned, raises the attempt counter only by starting the next attempt, and after
   a run cancellation keeps the cancelled invariant without creating new need for reconciliation.
   */
  predicate SoundTransition(r: Record, after: Record, kind: EventKind, dependenciesPublished: bool) {
    && RecordInvariant(after) && after.op == r.op
    && (Absorbing(r.state) ==> after.state == r.state)
    && (after.state == Planned ==> r.state == Planned)
    && (after.attempt == r.attempt || (after.attempt == r.attempt + 1 && kind.AttemptStarted?))
    && (Released(after) ==> Released(r) || dependenciesPublished)
    && (!Refreshes(kind) ==> (after.state == Published <==> r.state == Published))
    && (CancelledInvariant(r) && AllowedAfterRunCancellation(kind) ==>
          CancelledInvariant(after) && (after.reconcileRequired ==> r.reconcileRequired))
  }

  /** A lease event changes the lease and nothing else. */
  lemma LeaseEffect(r: Record, e: Event, published: bool)
    requires LeaseKind(e.entry.kind) && OperationTransition(r, e, published).Some?
    ensures var next := OperationTransition(r, e, published).value;
      next == r.(leaseActive := next.leaseActive, lease := next.lease)
  {
    hide LeaseTransition, ApplyResult, ExplicitResultTransition, StatedResultTransition, StartAttempt, AuthorizeRetry;
    assert OperationTransition(r, e, published) == LeaseTransition(r, e);
    LeaseChange(r, e);
  }

  /** Only the lease differs. */
  predicate LeaseOnly(r: Record, next: Record) {
    next == r.(leaseActive := next.leaseActive, lease := next.lease)
  }

  lemma AcquisitionChange(r: Record, e: Event)
    requires e.entry.payload.lease.Some? && e.entry.kind.LeaseAcquired? && LeaseTransition(r, e).Some?
    ensures LeaseOnly(r, LeaseTransition(r, e).value)
  {
    hide Startable;
    assert LeaseTransition(r, e) == Some(r.(leaseActive := true, lease := e.entry.payload.lease.value));
    hide LeaseTransition;
  }

  lemma RenewalChange(r: Record, e: Event)
    requires e.entry.payload.lease.Some? && e.entry.kind.LeaseRenewed? && LeaseTransition(r, e).Some?
    ensures LeaseOnly(r, LeaseTransition(r, e).value)
  {
    hide LeaseMatches;
    assert LeaseTransition(r, e) == Some(r.(lease := r.lease.(expiresAt := e.entry.payload.lease.value.expiresAt)));
    hide LeaseTransition;
  }

  lemma EndChange(r: Record, e: Event)
    requires e.entry.payload.lease.Some? && !e.entry.kind.LeaseAcquired? && !e.entry.kind.LeaseRenewed?
    requires LeaseTransition(r, e).Some?
    ensures LeaseOnly(r, LeaseTransition(r, e).value)
  {
    hide LeaseMatches;
    assert LeaseTransition(r, e) == Some(r.(leaseActive := false));
    hide LeaseTransition;
  }

  lemma LeaseChange(r: Record, e: Event)
    requires e.entry.payload.lease.Some? && LeaseTransition(r, e).Some?
    ensures LeaseOnly(r, LeaseTransition(r, e).value)
  {
    hide LeaseTransition, LeaseOnly;
    if e.entry.kind.LeaseAcquired? { AcquisitionChange(r, e); }
    else if e.entry.kind.LeaseRenewed? { RenewalChange(r, e); }
    else { EndChange(r, e); }
  }

  /** The kinds of event that the calls of an attempt leave behind before its result. */
  predicate CallKind(k: EventKind) {
    k.CredentialResolved? || k.ProviderProcessStarted? || k.SideEffectDispatched? || k.ProviderResponseReceived?
    || k.OutcomeAmbiguous? || k.ReconcileStarted?
  }

  /** A call event leaves the operation's state, counters and lease alone. */
  predicate CallLeaves(r: Record, next: Record) {
    && next.op == r.op && next.state == r.state && next.attempt == r.attempt
    && next.blockedAttempts == r.blockedAttempts
    && next.readyJournaled == r.readyJournaled && next.leaseActive == r.leaseActive && next.lease == r.lease
    && (next.retryable ==> r.retryable)
  }

  lemma CredentialLeaves(r: Record, e: Event, published: bool)
    requires e.entry.kind.CredentialResolved? && OperationTransition(r, e, published).Some?
    ensures CallLeaves(r, OperationTransition(r, e, published).value)
  {
  }

  lemma StartLeaves(r: Record, e: Event, published: bool)
    requires e.entry.kind.ProviderProcessStarted? && OperationTransition(r, e, published).Some?
    ensures CallLeaves(r, OperationTransition(r, e, published).value)
  {
  }

  lemma DispatchLeaves(r: Record, e: Event, published: bool)
    requires e.entry.kind.SideEffectDispatched? && OperationTransition(r, e, published).Some?
    ensures CallLeaves(r, OperationTransition(r, e, published).value)
  {
  }

  lemma ResponseLeaves(r: Record, e: Event, published: bool)
    requires e.entry.kind.ProviderResponseReceived? && OperationTransition(r, e, published).Some?
    ensures CallLeaves(r, OperationTransition(r, e, published).value)
  {
  }

  lemma AmbiguityLeaves(r: Record, e: Event, published: bool)
    requires e.entry.kind.OutcomeAmbiguous? && OperationTransition(r, e, published).Some?
    ensures CallLeaves(r, OperationTransition(r, e, published).value)
  {
  }

  lemma ReconciliationLeaves(r: Record, e: Event, published: bool)
    requires e.entry.kind.ReconcileStarted? && OperationTransition(r, e, published).Some?
    ensures CallLeaves(r, OperationTransition(r, e, published).value)
  {
  }

  lemma CallEffect(r: Record, e: Event, published: bool)
    requires CallKind(e.entry.kind) && OperationTransition(r, e, published).Some?
    ensures CallLeaves(r, OperationTransition(r, e, published).value)
  {
    hide OperationTransition, CallLeaves;
    var k := e.entry.kind;
    if k.CredentialResolved? { CredentialLeaves(r, e, published); }
    else if k.ProviderProcessStarted? { StartLeaves(r, e, published); }
    else if k.SideEffectDispatched? { DispatchLeaves(r, e, published); }
    else if k.ProviderResponseReceived? { ResponseLeaves(r, e, published); }
    else if k.OutcomeAmbiguous? { AmbiguityLeaves(r, e, published); }
    else { ReconciliationLeaves(r, e, published); }
  }

  lemma LeaseIsSound(r: Record, e: Event)
    requires RecordInvariant(r) && LeaseKind(e.entry.kind) && OperationTransition(r, e, false).Some?
    ensures SoundTransition(r, OperationTransition(r, e, false).value, e.entry.kind, false)
  {
    hide OperationTransition;
    LeaseEffect(r, e, false);
  }

  lemma CallIsSound(r: Record, e: Event)
    requires RecordInvariant(r) && OperationTransition(r, e, false).Some?
    requires var k := e.entry.kind;
      k.CredentialResolved? || k.ProviderProcessStarted? || k.SideEffectDispatched? || k.ProviderResponseReceived?
      || k.OutcomeAmbiguous? || k.ReconcileStarted?
    ensures SoundTransition(r, OperationTransition(r, e, false).value, e.entry.kind, false)
  {
  }

  lemma ScheduleIsSound(r: Record, e: Event)
    requires RecordInvariant(r) && OperationTransition(r, e, false).Some?
    requires var k := e.entry.kind; k.OperationReady? || k.OperationCancelled? || k.RetryAuthorized?
    ensures SoundTransition(r, OperationTransition(r, e, false).value, e.entry.kind, false)
  {
  }

  lemma AttemptIsSound(r: Record, e: Event, dependenciesPublished: bool)
    requires RecordInvariant(r) && e.entry.kind.AttemptStarted? && e.entry.payload.attempt != 0
    requires OperationTransition(r, e, dependenciesPublished).Some?
    ensures SoundTransition(r, OperationTransition(r, e, dependenciesPublished).value, e.entry.kind,
                            dependenciesPublished)
  {
  }

  lemma ApplyResultIsSound(r: Record, p: Payload, state: NormalizedState, kind: EventKind, preserve: bool)
    requires RecordInvariant(r) && Refreshes(kind)
    requires ResultState(state) && (p.retryable ==> state == Failed || state == WaitingExternal)
    requires (r.state == Running || r.reconcileRequired) && (CancelledInvariant(r) ==> state != Blocked)
    requires AllowedAfterRunCancellation(kind) && CancelledInvariant(r) ==> r.reconcileRequired
    ensures SoundTransition(r, ApplyResult(r, p, state, preserve), kind, false)
  {
  }

  lemma ResultIsSound(r: Record, e: Event)
    requires RecordInvariant(r) && Meaningful(e.entry.payload, e.entry.kind) && OperationTransition(r, e, false).Some?
    requires ExplicitResultKind(e.entry.kind) || e.entry.kind.ReconcileResult?
    ensures SoundTransition(r, OperationTransition(r, e, false).value, e.entry.kind, false)
  {
    var p := e.entry.payload;
    if e.entry.kind.ReconcileResult? {
      ApplyResultIsSound(r, p, p.state, e.entry.kind, true);
    } else {
      ApplyResultIsSound(r, p, ExplicitResultState(e.entry.kind), e.entry.kind, r.reconciling);
    }
  }

  lemma StatedResultIsSound(r: Record, e: Event)
    requires RecordInvariant(r) && Meaningful(e.entry.payload, e.entry.kind) && OperationTransition(r, e, false).Some?
    requires e.entry.kind.OperationResult?
    ensures SoundTransition(r, OperationTransition(r, e, false).value, e.entry.kind, false)
  {
  }

  lemma TransitionIsSound(r: Record, e: Event, dependenciesPublished: bool)
    requires RecordInvariant(r) && Meaningful(e.entry.payload, e.entry.kind)
    requires OperationTransition(r, e, dependenciesPublished).Some?
    ensures SoundTransition(r, OperationTransition(r, e, dependenciesPublished).value, e.entry.kind,
                            dependenciesPublished)
  {
    var k := e.entry.kind;
    if k.AttemptStarted? { AttemptIsSound(r, e, dependenciesPublished); }
    else if LeaseKind(k) { LeaseIsSound(r, e); }
    else if k.OperationReady? || k.OperationCancelled? || k.RetryAuthorized? { ScheduleIsSound(r, e); }
    else if ExplicitResultKind(k) || k.ReconcileResult? { ResultIsSound(r, e); }
    else if k.OperationResult? { StatedResultIsSound(r, e); }
    else { CallIsSound(r, e); }
  }

  // The whole state

  /** Nothing that was published in the first map is unpublished in the second. */
  ghost predicate PublishedPersists(before: Records, after: Records) {
    forall id :: id in before && before[id].state == Published ==> id in after && after[id].state == Published
  }

  lemma DependenciesStayPublished(op: Operation, before: Records, after: Records)
    requires PublishedPersists(before, after) && DependenciesPublished(op, before)
    ensures DependenciesPublished(op, after)
  {
  }

  lemma RefreshRecordFacts(r: Record, records: Records)
    ensures var after := RefreshRecord(r, records);
      && after.op == r.op && (after.state == Published <==> r.state == Published)
      && (RecordInvariant(r) ==> RecordInvariant(after))
      && (CancelledInvariant(r) ==> after == r)
      && (Released(after) ==> Released(r) || DependenciesPublished(r.op, records))
      && (after.state == Planned ==> !DependenciesPublished(r.op, records))
  {
    hide DependenciesPublished;
    if RefreshRecord(r, records) != r { PromotedFacts(r); }
    hide RecordInvariant, CancelledInvariant, Released;
  }

  lemma PromotedFacts(r: Record)
    requires r.state == Planned
    ensures !CancelledInvariant(r) && (RecordInvariant(r) ==> RecordInvariant(r.(state := Ready)))
  {
  }

  /** A refresh promotes exactly the planned operations whose dependencies are published, and nothing else. */
  lemma RefreshFacts(records: Records)
    ensures RefreshReady(records).Keys == records.Keys
    ensures forall id :: id in records ==> RefreshReady(records)[id].op == records[id].op
    ensures PublishedPersists(records, RefreshReady(records)) && PublishedPersists(RefreshReady(records), records)
    ensures ExactFrontier(RefreshReady(records))
    ensures RecordInvariants(records) ==> RecordInvariants(RefreshReady(records))
    ensures ReleasedHavePublishedDependencies(records) ==> ReleasedHavePublishedDependencies(RefreshReady(records))
    ensures CancelledInvariants(records) ==> CancelledInvariants(RefreshReady(records))
  {
    hide RecordInvariant, CancelledInvariant, Released, RefreshRecord;
    var after := RefreshReady(records);
    forall id | id in records
      ensures after[id].op == records[id].op && (after[id].state == Published <==> records[id].state == Published)
      ensures RecordInvariant(records[id]) ==> RecordInvariant(after[id])
      ensures CancelledInvariant(records[id]) ==> after[id] == records[id]
      ensures Released(after[id]) ==> Released(records[id]) || DependenciesPublished(records[id].op, records)
      ensures after[id].state == Planned ==> !DependenciesPublished(records[id].op, records)
    {
      RefreshRecordFacts(records[id], records);
    }
    assert PublishedPersists(records, after) && PublishedPersists(after, records);
    forall id | id in records
      ensures DependenciesPublished(records[id].op, records) <==> DependenciesPublished(records[id].op, after)
    {
    }
    hide DependenciesPublished;
  }

  /** What a replacement of one record needs to know of its successor. */
  predicate Succeeds(r: Record, after: Record, kind: EventKind, dependenciesPublished: bool) {
    && after.op == r.op
    && (r.state == Published ==> after.state == Published)
    && (after.state == Planned ==> r.state == Planned)
    && (Released(after) ==> Released(r) || dependenciesPublished)
    && (!Refreshes(kind) ==> (after.state == Published <==> r.state == Published))
  }

  lemma SoundSucceeds(r: Record, after: Record, kind: EventKind, dependenciesPublished: bool)
    requires SoundTransition(r, after, kind, dependenciesPublished)
    ensures Succeeds(r, after, kind, dependenciesPublished) && RecordInvariant(after)
    ensures CancelledInvariant(r) && AllowedAfterRunCancellation(kind) ==> CancelledInvariant(after)
  {
    hide RecordInvariant, CancelledInvariant, Released;
  }

  lemma ReplaceKeepsFrontier(records: Records, id: OperationID, after: Record, kind: EventKind)
    requires id in records && Succeeds(records[id], after, kind, DependenciesPublished(records[id].op, records))
    requires !Refreshes(kind) && ExactFrontier(records)
    ensures ExactFrontier(records[id := after])
  {
    hide DependenciesPublished, Released;
    var next := records[id := after];
    assert PublishedPersists(next, records);
    forall j | j in next && next[j].state == Planned ensures !DependenciesPublished(next[j].op, next) {
      if DependenciesPublished(next[j].op, next) { DependenciesStayPublished(next[j].op, next, records); }
    }
  }

  lemma ReplaceKeepsRelease(records: Records, id: OperationID, after: Record, kind: EventKind)
    requires id in records && Succeeds(records[id], after, kind, DependenciesPublished(records[id].op, records))
    requires ReleasedHavePublishedDependencies(records)
    ensures ReleasedHavePublishedDependencies(records[id := after]) && PublishedPersists(records, records[id := after])
  {
    hide DependenciesPublished, Released;
    var next := records[id := after];
    assert PublishedPersists(records, next);
    forall j | j in next && Released(next[j]) ensures DependenciesPublished(next[j].op, next) {
      DependenciesStayPublished(records[j].op, records, next);
    }
  }

  /** Replacing one record by a sound successor keeps the invariants; the frontier needs a refresh after results. */
  lemma ReplaceRecord(records: Records, id: OperationID, after: Record, kind: EventKind)
    requires RecordInvariants(records) && ReleasedHavePublishedDependencies(records) && id in records
    requires SoundTransition(records[id], after, kind, DependenciesPublished(records[id].op, records))
    ensures var next := records[id := after];
      && RecordInvariants(next) && ReleasedHavePublishedDependencies(next)
      && PublishedPersists(records, next)
      && (!Refreshes(kind) && ExactFrontier(records) ==> ExactFrontier(next))
      && (CancelledInvariants(records) && AllowedAfterRunCancellation(kind) ==> CancelledInvariants(next))
  {
    hide RecordInvariant, CancelledInvariant, DependenciesPublished, SoundTransition, Succeeds, ExactFrontier,
      ReleasedHavePublishedDependencies, PublishedPersists;
    SoundSucceeds(records[id], after, kind, DependenciesPublished(records[id].op, records));
    ReplaceKeepsRelease(records, id, after, kind);
    if !Refreshes(kind) && ExactFrontier(records) { ReplaceKeepsFrontier(records, id, after, kind); }
  }

  /** The same for the records that an operation event leaves, which includes the refresh after results. */
  lemma UpdateKeepsInvariants(records: Records, id: OperationID, after: Record, kind: EventKind)
    requires RecordInvariants(records) && ReleasedHavePublishedDependencies(records) && ExactFrontier(records)
    requires id in records
    requires SoundTransition(records[id], after, kind, DependenciesPublished(records[id].op, records))
    ensures var next := UpdateRecords(records, id, after, Refreshes(kind));
      && next.Keys == records.Keys && (forall j :: j in records ==> next[j].op == records[j].op)
      && RecordInvariants(next) && ReleasedHavePublishedDependencies(next) && ExactFrontier(next)
      && PublishedPersists(records, next)
      && (CancelledInvariants(records) && AllowedAfterRunCancellation(kind) ==> CancelledInvariants(next))
  {
    hide RecordInvariants, CancelledInvariants, DependenciesPublished, SoundTransition, ExactFrontier, RefreshReady,
      ReleasedHavePublishedDependencies, PublishedPersists, Refreshes, AllowedAfterRunCancellation;
    var replaced := records[id := after];
    ReplaceRecord(records, id, after, kind);
    SoundKeepsOperation(records[id], after, kind, DependenciesPublished(records[id].op, records));
    if Refreshes(kind) {
      RefreshFacts(replaced);
      PersistsTwice(records, replaced, RefreshReady(replaced));
    }
  }

  lemma SoundKeepsOperation(r: Record, after: Record, kind: EventKind, dependenciesPublished: bool)
    requires SoundTransition(r, after, kind, dependenciesPublished)
    ensures after.op == r.op
  {
    hide RecordInvariant, CancelledInvariant;
  }

  lemma PersistsTwice(a: Records, b: Records, c: Records)
    requires PublishedPersists(a, b) && PublishedPersists(b, c)
    ensures PublishedPersists(a, c)
  {
  }

  lemma OperationStepKeepsInvariant(plan: Plan, st: RunState, e: Event)
    requires Invariant(plan, st) && Meaningful(e.entry.payload, e.entry.kind)
    requires st.started && !st.completed && (st.cancelled ==> AllowedAfterRunCancellation(e.entry.kind))
    requires OperationStep(st, e).Ok?
    ensures Invariant(plan, OperationStep(st, e).value)
    ensures PublishedPersists(st.records, OperationStep(st, e).value.records)
  {
    hide OperationTransition, RecordInvariant, CancelledInvariant, SoundTransition;
    var id := e.entry.operationId;
    var published := DependenciesPublished(st.records[id].op, st.records);
    TransitionIsSound(st.records[id], e, published);
    UpdateKeepsInvariants(st.records, id, OperationTransition(st.records[id], e, published).value, e.entry.kind);
  }

  /** A run cancellation touches a record's state, retryability and error code, or nothing. */
  lemma CancelShape(r: Record)
    ensures CancelRecord(r) == r
            || CancelRecord(r) == r.(state := Cancelled, retryable := false, errorCode := "RUN_CANCELLED")
  {
  }

  lemma CancelRecordFacts(r: Record)
    requires RecordInvariant(r)
    ensures RecordInvariant(CancelRecord(r)) && CancelledInvariant(CancelRecord(r))
    ensures CancelRecord(r).op == r.op && (Released(CancelRecord(r)) ==> Released(r))
            && CancelRecord(r).state != Planned
    ensures r.state == Published ==> CancelRecord(r) == r
  {
    if r.reconcileRequired || !CancelledWithRun(r.state) { KeptByCancellation(r); } else { CancelledIsSound(r); }
    hide RecordInvariant, CancelledInvariant, Released;
  }

  lemma KeptByCancellation(r: Record)
    requires RecordInvariant(r) && (r.reconcileRequired || !CancelledWithRun(r.state))
    ensures CancelledInvariant(r) && r.state != Planned
  {
  }

  lemma CancelledIsSound(r: Record)
    requires RecordInvariant(r) && !r.reconcileRequired && CancelledWithRun(r.state)
    ensures var after := r.(state := Cancelled, retryable := false, errorCode := "RUN_CANCELLED");
      RecordInvariant(after) && CancelledInvariant(after) && (Released(after) ==> Released(r))
  {
  }

  lemma CancelFacts(records: Records)
    requires RecordInvariants(records) && ReleasedHavePublishedDependencies(records)
    ensures RecordInvariants(CancelRemaining(records)) && CancelledInvariants(CancelRemaining(records))
    ensures ReleasedHavePublishedDependencies(CancelRemaining(records)) && ExactFrontier(CancelRemaining(records))
    ensures PublishedPersists(records, CancelRemaining(records)) && CancelRemaining(records).Keys == records.Keys
    ensures forall id :: id in records ==> CancelRemaining(records)[id].op == records[id].op
  {
    hide RecordInvariant, CancelledInvariant, Released, CancelRecord, DependenciesPublished;
    var after := CancelRemaining(records);
    forall id | id in records
      ensures RecordInvariant(after[id]) && CancelledInvariant(after[id]) && after[id].op == records[id].op
      ensures after[id].state != Planned && (Released(after[id]) ==> Released(records[id]))
      ensures records[id].state == Published ==> after[id] == records[id]
    {
      CancelRecordFacts(records[id]);
    }
    forall id | id in after && Released(after[id]) ensures DependenciesPublished(after[id].op, after) {
      DependenciesStayPublished(records[id].op, records, after);
    }
  }

  /** Every accepted event keeps the invariant. */
  lemma StepKeepsInvariant(plan: Plan, st: RunState, e: Event)
    requires Invariant(plan, st) && Step(plan.id, st, e).Ok?
    ensures Invariant(plan, Step(plan.id, st, e).value)
    ensures PublishedPersists(st.records, Step(plan.id, st, e).value.records)
  {
    hide OperationStep, ValidEvent, RecordInvariant, CancelledInvariant, RefreshReady, CancelRemaining, AllQuiescent,
      Quiescent, DependenciesPublished;
    ValidIsMeaningful(e);
    var admitted := st.(runId := e.entry.runId, next := st.next + 1);
    if e.entry.kind.RunStarted? {
      RefreshFacts(st.records);
    } else if e.entry.kind.RunCancelled? {
      CancelFacts(st.records);
    } else if !e.entry.kind.RunCompleted? {
      OperationStepKeepsInvariant(plan, admitted, e);
    }
  }

  lemma InitialInvariant(plan: Plan)
    ensures Invariant(plan, InitialState(plan))
  {
  }

  lemma {:induction false} ReplayFromKeepsInvariant(plan: Plan, st: RunState, events: seq<Event>)
    requires Invariant(plan, st) && ReplayFrom(plan.id, st, events).Ok?
    ensures Invariant(plan, ReplayFrom(plan.id, st, events).value)
    ensures PublishedPersists(st.records, ReplayFrom(plan.id, st, events).value.records)
    decreases |events|
  {
    if events != [] {
      var front := events[..|events| - 1];
      ReplayFromKeepsInvariant(plan, st, front);
      StepKeepsInvariant(plan, ReplayFrom(plan.id, st, front).value, events[|events| - 1]);
    }
  }

  /** The global invariant: it holds of the state of every reducible journal. */
  lemma ReducibleJournalsKeepInvariant(plan: Plan, events: seq<Event>)
    requires Reducible(plan, events)
    ensures Invariant(plan, Replay(plan, events).value)
  {
    InitialInvariant(plan);
    ReplayFromKeepsInvariant(plan, InitialState(plan), events);
  }

  lemma {:induction false} ReplaySplits(planId: PlanID, st: RunState, before: seq<Event>, after: seq<Event>)
    requires ReplayFrom(planId, st, before + after).Ok?
    ensures ReplayFrom(planId, st, before).Ok?
    ensures ReplayFrom(planId, ReplayFrom(planId, st, before).value, after) == ReplayFrom(planId, st, before + after)
    decreases |after|
  {
    if after == [] {
      assert before + after == before;
    } else {
      var last := |after| - 1;
      assert (before + after)[..|before + after| - 1] == before + after[..last];
      ReplaySplits(planId, st, before, after[..last]);
    }
  }

  /** The state of a journal counts its events and knows its run. */
  lemma {:induction false} ReplayCounts(plan: Plan, journal: seq<Event>, st: RunState)
    requires Replay(plan, journal) == Ok(st)
    ensures st.next == |journal| + 1 && (st.started <==> journal != [])
    ensures journal == [] ==> st == InitialState(plan)
    ensures journal != [] ==> st.runId == journal[0].entry.runId && ValidIdentifier(st.runId) && st.runId != ""
    decreases |journal|
  {
    hide OperationTransition, AllQuiescent, ValidEvent, ValidIdentifier;
    if journal != [] {
      var front, e := journal[..|journal| - 1], journal[|journal| - 1];
      ReplayCounts(plan, front, ReplayFrom(plan.id, InitialState(plan), front).value);
      assert front != [] ==> front[0] == journal[0];
      NamesItsRun(e);
    }
  }

  lemma NamesItsRun(e: Event)
    requires ValidEvent(e)
    ensures e.entry.runId != "" && ValidIdentifier(e.entry.runId)
  {
    hide ValidPayload;
  }

  // Transitive dependency safety

  /** A chain of operations in which each one depends on the next. */
  ghost predicate DependencyChain(plan: Plan, chain: seq<OperationID>) {
    && (forall i :: 0 <= i < |chain| ==> chain[i] in plan.operations)
    && (forall i, j :: 0 <= i && j == i + 1 && j < |chain| ==> chain[j] in plan.operations[chain[i]].dependencies)
  }

  lemma {:induction false} AncestorsPublished(plan: Plan, st: RunState, chain: seq<OperationID>)
    requires Invariant(plan, st) && DependencyChain(plan, chain) && |chain| >= 2
    requires Released(st.records[chain[0]])
    ensures st.records[chain[|chain| - 1]].state == Published
  {
    hide RecordInvariants, CancelledInvariants, ExactFrontier, AllQuiescent, InitialState;
    assert chain[1] in plan.operations[chain[0]].dependencies;
    assert st.records[chain[1]].state == Published;
    if |chain| > 2 { AncestorsPublished(plan, st, chain[1..]); }
  }

  /**
   An operation that was ever attempted has every transitive ancestor published at that point of the
   journal, and the ancestors stay published in every extension of it.
   */
  lemma AttemptedOperationsHavePublishedAncestors(plan: Plan, before: seq<Event>, after: seq<Event>,
                                                  chain: seq<OperationID>, now: RunState, later: RunState)
    requires Replay(plan, before) == Ok(now) && Replay(plan, before + after) == Ok(later)
    requires DependencyChain(plan, chain) && |chain| >= 2
    requires chain[0] in now.records && now.records[chain[0]].attempt > 0
    ensures var ancestor := chain[|chain| - 1];
      && ancestor in now.records && now.records[ancestor].state == Published
      && ancestor in later.records && later.records[ancestor].state == Published
  {
    ReplaySplits(plan.id, InitialState(plan), before, after);
    ReducibleJournalsKeepInvariant(plan, before);
    AncestorsPublished(plan, now, chain);
    ReplayFromKeepsInvariant(plan, now, after);
  }

  // Cancellation safety

  /** The operations that still need reconciliation. */
  ghost function Unreconciled(records: Records): set<OperationID> {
    set id | id in records && records[id].reconcileRequired
  }

  lemma UpdateCreatesNoWork(records: Records, id: OperationID, after: Record, refresh: bool)
    requires id in records && (after.reconcileRequired ==> records[id].reconcileRequired)
    ensures Unreconciled(UpdateRecords(records, id, after, refresh)) <= Unreconciled(records)
  {
  }

  lemma SoundAfterCancellation(r: Record, after: Record, kind: EventKind, published: bool)
    requires SoundTransition(r, after, kind, published) && CancelledInvariant(r) && AllowedAfterRunCancellation(kind)
    ensures after.reconcileRequired ==> r.reconcileRequired
  {
    hide RecordInvariant, CancelledInvariant;
  }

  lemma CancelledStepCreatesNoWork(plan: Plan, st: RunState, e: Event, after: RunState)
    requires Invariant(plan, st) && st.cancelled && Step(plan.id, st, e) == Ok(after)
    ensures after.cancelled && Unreconciled(after.records) <= Unreconciled(st.records)
    ensures !e.entry.kind.AttemptStarted? && !e.entry.kind.SideEffectDispatched?
  {
    hide OperationTransition, ValidEvent, RecordInvariant, CancelledInvariant, SoundTransition, ExactFrontier,
      UpdateRecords, ReleasedHavePublishedDependencies, AllQuiescent, CancelRemaining, RefreshReady;
    ValidIsMeaningful(e);
    var id := e.entry.operationId;
    var r := st.records[id];
    var published := DependenciesPublished(r.op, st.records);
    TransitionIsSound(r, e, published);
    SoundAfterCancellation(r, OperationTransition(r, e, published).value, e.entry.kind, published);
    UpdateCreatesNoWork(st.records, id, OperationTransition(r, e, published).value, Refreshes(e.entry.kind));
  }

  /**
   After RUN_CANCELLED no attempt and no dispatch is ever accepted, nothing is planned, ready or
   blocked, whatever runs was dispatched, and the set that needs reconciliation never grows.
   */
  lemma {:induction false} CancellationIsSafe(plan: Plan, st: RunState, events: seq<Event>, after: RunState)
    requires Invariant(plan, st) && st.cancelled && ReplayFrom(plan.id, st, events) == Ok(after)
    ensures Invariant(plan, after) && after.cancelled && !after.completed && CancelledInvariants(after.records)
    ensures Unreconciled(after.records) <= Unreconciled(st.records)
    ensures forall e :: e in events ==> !e.entry.kind.AttemptStarted? && !e.entry.kind.SideEffectDispatched?
    decreases |events|
  {
    hide Step;
    if events != [] {
      var front, e := events[..|events| - 1], events[|events| - 1];
      var middle := ReplayFrom(plan.id, st, front).value;
      CancellationIsSafe(plan, st, front, middle);
      StepKeepsInvariant(plan, middle, e);
      CancelledStepCreatesNoWork(plan, middle, e, after);
      assert events == front + [e];
    }
  }
}
