/**
 What the states of operations mean: an operation is published, rejected, failed, waiting or blocked
 only by an event of its present attempt that says so, and what was published or rejected stays so.
 */
module Settlement {
  import opened Domain
  import opened Events
  import opened Reducer
  import opened ReducerSafety
  import opened JournalHistory
  import opened Planning

  // One event

  lemma StateAfterExplicitResult(r: Record, e: Event, published: bool)
    requires ExplicitResultKind(e.entry.kind) && OperationTransition(r, e, published).Some?
    ensures var next, k := OperationTransition(r, e, published).value.state, e.entry.kind;
      && (k.OperationPublished? ==> next == Published)
      && (k.OperationRejected? ==> next == Rejected)
      && (k.OperationWaitingExternal? ==> next == WaitingExternal)
      && (k.OperationFailed? ==> next == Failed)
  {
    hide LeaseTransition, StatedResultTransition, StartAttempt, AuthorizeRetry, ApplyResult;
    assert OperationTransition(r, e, published) == ExplicitResultTransition(r, e);
    hide OperationTransition;
    ExplicitResultShape(r, e);
  }

  lemma ExplicitResultShape(r: Record, e: Event)
    requires ExplicitResultTransition(r, e).Some?
    ensures ExplicitResultTransition(r, e).value.state == ExplicitResultState(e.entry.kind)
  {
    hide ExplicitResultState;
  }

  lemma StateAfterStatedResult(r: Record, e: Event, published: bool)
    requires (e.entry.kind.OperationResult? || e.entry.kind.ReconcileResult?)
    requires OperationTransition(r, e, published).Some?
    ensures OperationTransition(r, e, published).value.state == e.entry.payload.state
  {
    hide LeaseTransition, ExplicitResultTransition, StartAttempt, AuthorizeRetry, ObservesAbsence;
  }

  lemma StateAfterCall(r: Record, e: Event, published: bool)
    requires var k := e.entry.kind;
      k.CredentialResolved? || k.ProviderProcessStarted? || k.SideEffectDispatched? || k.ProviderResponseReceived?
      || k.OutcomeAmbiguous? || k.ReconcileStarted?
    requires OperationTransition(r, e, published).Some?
    ensures OperationTransition(r, e, published).value.state == r.state
  {
  }

  lemma StateAfterSchedule(r: Record, e: Event, published: bool)
    requires var k := e.entry.kind;
      k.OperationReady? || k.OperationCancelled? || k.RetryAuthorized? || k.AttemptStarted?
    requires OperationTransition(r, e, published).Some?
    ensures var next, k := OperationTransition(r, e, published).value.state, e.entry.kind;
      && (k.OperationReady? ==> next == r.state)
      && (k.OperationCancelled? ==> next == Cancelled)
      && (k.RetryAuthorized? ==> next == Ready)
      && (k.AttemptStarted? ==> next == Running)
  {
  }

  lemma OtherKindsRefused(r: Record, e: Event, published: bool)
    requires RunLifecycle(e.entry.kind) || e.entry.kind.UnknownKind?
    ensures OperationTransition(r, e, published).None?
  {
  }

  /** The state that an accepted event leaves its operation in. */
  lemma StateAfterEvent(r: Record, e: Event, published: bool)
    requires OperationTransition(r, e, published).Some?
    ensures OperationTransition(r, e, published).value.state
            == match e.entry.kind
               case OperationPublished => Published
               case OperationRejected => Rejected
               case OperationWaitingExternal => WaitingExternal
               case OperationFailed => Failed
               case OperationResult => e.entry.payload.state
               case ReconcileResult => e.entry.payload.state
               case AttemptStarted => Running
               case OperationCancelled => Cancelled
               case RetryAuthorized => Ready
               case _ => r.state
  {
    hide OperationTransition;
    var k := e.entry.kind;
    if ExplicitResultKind(k) { StateAfterExplicitResult(r, e, published); }
    else if k.OperationResult? || k.ReconcileResult? { StateAfterStatedResult(r, e, published); }
    else if LeaseKind(k) { LeaseEffect(r, e, published); }
    else if k.OperationReady? || k.OperationCancelled? || k.RetryAuthorized? || k.AttemptStarted? {
      StateAfterSchedule(r, e, published);
    }
    else if RunLifecycle(k) || k.UnknownKind? { OtherKindsRefused(r, e, published); }
    else { StateAfterCall(r, e, published); }
  }

  // Whole journals

  /** The event says that the operation's attempt has come to the state. */
  predicate Reports(e: Event, id: OperationID, attempt: int, state: NormalizedState) {
    var k := e.entry.kind;
    && e.entry.operationId == id && e.entry.payload.attempt == attempt
    && (|| (k.OperationPublished? && state == Published)
        || (k.OperationRejected? && state == Rejected)
        || (k.OperationWaitingExternal? && state == WaitingExternal)
        || (k.OperationFailed? && state == Failed)
        || ((k.OperationResult? || k.ReconcileResult?) && e.entry.payload.state == state))
  }

  ghost predicate Reported(events: seq<Event>, id: OperationID, attempt: int, state: NormalizedState) {
    exists e :: e in events && Reports(e, id, attempt, state)
  }

  predicate Settles(state: NormalizedState) {
    state == Published || state == Rejected
  }

  /** The record's state is what the journal reports of its present attempt. */
  ghost predicate ReportedState(events: seq<Event>, id: OperationID, r: Record) {
    && (Settles(r.state) || r.state == WaitingExternal || r.state == Failed || r.state == Blocked ==>
          Reported(events, id, r.attempt, r.state))
    && (Reported(events, id, r.attempt, Published) ==> r.state == Published)
    && (Reported(events, id, r.attempt, Rejected) ==> r.state == Rejected)
  }

  lemma ReportedExtends(events: seq<Event>, e: Event, id: OperationID, attempt: int, state: NormalizedState)
    ensures Reported(events + [e], id, attempt, state) <==>
              Reported(events, id, attempt, state) || Reports(e, id, attempt, state)
  {
    if Reported(events, id, attempt, state) {
      var past :| past in events && Reports(past, id, attempt, state);
      assert past in events + [e];
    }
    if Reports(e, id, attempt, state) { assert e in events + [e]; }
  }

  /** Nothing is reported yet of an attempt that follows all earlier ones. */
  lemma NewAttemptUnreported(events: seq<Event>, id: OperationID, r: Record, attempt: int, state: NormalizedState)
    requires AttemptsBounded(events, id, r) && attempt > r.attempt
    ensures !Reported(events, id, attempt, state)
  {
  }

  lemma StrangerReports(events: seq<Event>, e: Event, id: OperationID, r: Record, next: Record)
    requires ReportedState(events, id, r) && RecordInvariant(r) && e.entry.operationId != id
    requires next == r || (r.state == Planned && next == r.(state := Ready)) || next == CancelRecord(r)
    ensures ReportedState(events + [e], id, next)
  {
    CancelShape(r);
    ReportedExtends(events, e, id, r.attempt, Published);
    ReportedExtends(events, e, id, r.attempt, Rejected);
    ReportedExtends(events, e, id, r.attempt, r.state);
    hide Reported;
  }

  lemma OwnReports(events: seq<Event>, e: Event, r: Record, published: bool)
    requires var id := e.entry.operationId; ReportedState(events, id, r) && AttemptsBounded(events, id, r)
    requires RecordInvariant(r) && Meaningful(e.entry.payload, e.entry.kind)
    requires OperationTransition(r, e, published).Some?
    ensures ReportedState(events + [e], e.entry.operationId, OperationTransition(r, e, published).value)
  {
    hide OperationTransition, RecordInvariant, Meaningful, Reported, AttemptsBounded;
    var id, next := e.entry.operationId, OperationTransition(r, e, published).value;
    StateAfterEvent(r, e, published);
    TransitionIsSound(r, e, published);
    TransitionHistory(r, e, published);
    ReportedExtends(events, e, id, next.attempt, Published);
    ReportedExtends(events, e, id, next.attempt, Rejected);
    ReportedExtends(events, e, id, next.attempt, next.state);
    if e.entry.kind.AttemptStarted? {
      NewAttemptUnreported(events, id, r, next.attempt, Published);
      NewAttemptUnreported(events, id, r, next.attempt, Rejected);
    }
  }

  ghost predicate ReportedStates(events: seq<Event>, records: Records) {
    forall id :: id in records ==> ReportedState(events, id, records[id])
  }

  lemma OperationStepReports(events: seq<Event>, st: RunState, e: Event, after: RunState)
    requires ReportedStates(events, st.records) && History(events, st.records) && RecordInvariants(st.records)
    requires Meaningful(e.entry.payload, e.entry.kind) && OperationStep(st, e) == Ok(after)
    ensures ReportedStates(events + [e], after.records)
  {
    hide OperationTransition, OperationStep, RecordInvariant, Meaningful, ReportedState, AttemptsBounded;
    OperationStepShape(st, e, after);
    var id := e.entry.operationId;
    var r := st.records[id];
    var published := DependenciesPublished(r.op, st.records);
    assert RecordHistory(events, id, r);
    TransitionHistory(r, e, published);
    RefreshedIfPlanned(r, OperationTransition(r, e, published).value, e);
    OwnReports(events, e, r, published);
    forall j | j in after.records && j != id ensures ReportedState(events + [e], j, after.records[j]) {
      StrangerReports(events, e, j, st.records[j], after.records[j]);
    }
  }

  lemma StepReports(plan: Plan, events: seq<Event>, st: RunState, e: Event, after: RunState)
    requires ReportedStates(events, st.records) && History(events, st.records) && Invariant(plan, st)
    requires Step(plan.id, st, e) == Ok(after) && forall id :: id in plan.operations ==> id != ""
    ensures ReportedStates(events + [e], after.records)
  {
    hide OperationStep, ValidEvent, RecordInvariant, CancelledInvariant, RecordHistory, CancelRecord, ReportedState;
    ValidIsMeaningful(e);
    ValidCarriesAttempt(e);
    if RunLifecycle(e.entry.kind) {
      forall id | id in after.records ensures ReportedState(events + [e], id, after.records[id]) {
        StrangerReports(events, e, id, st.records[id], after.records[id]);
      }
    } else {
      OperationStepReports(events, st.(runId := e.entry.runId, next := st.next + 1), e, after);
    }
  }

  lemma {:induction false} ReplayReports(plan: Plan, events: seq<Event>, st: RunState)
    requires GoodPlan(plan) && Replay(plan, events) == Ok(st)
    ensures ReportedStates(events, st.records)
    decreases |events|
  {
    hide Step, GoodPlan, ReportedState, Invariant;
    if events == [] {
      NothingReported(plan);
    } else {
      var front, e := events[..|events| - 1], events[|events| - 1];
      var middle := ReplayFrom(plan.id, InitialState(plan), front).value;
      ReplayReports(plan, front, middle);
      ReplayHistory(plan, front, middle);
      NonEmptyIds(plan);
      StepReports(plan, front, middle, e, st);
      assert front + [e] == events;
    }
  }

  lemma NothingReported(plan: Plan)
    ensures ReportedStates([], InitialState(plan).records)
  {
  }

  /**
   After every reducible journal an operation is published exactly if the journal holds an OPERATION_PUBLISHED
   of its present attempt, or a result of that attempt with the state published; and likewise rejected.
   An operation that waits, has failed or is blocked was reported so for its present attempt.
   */
  lemma StatesAreReported(plan: Plan, events: seq<Event>, st: RunState, id: OperationID)
    requires GoodPlan(plan) && Replay(plan, events) == Ok(st) && id in st.records
    ensures var r := st.records[id];
      && (r.state == Published <==> Reported(events, id, r.attempt, Published))
      && (r.state == Rejected <==> Reported(events, id, r.attempt, Rejected))
      && (r.state == WaitingExternal || r.state == Failed || r.state == Blocked ==>
            Reported(events, id, r.attempt, r.state))
  {
    hide Reported, Replay, GoodPlan;
    ReplayReports(plan, events, st);
    assert ReportedState(events, id, st.records[id]);
  }
}
