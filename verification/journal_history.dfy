/**
 What the order of events in a reducible journal guarantees: attempts rise, each
 attempt is dispatched at most once, and a retry is authorized at most once, after
 an absent observation of the very attempt that it authorizes.
 */
module JournalHistory {
  import opened Domain
  import opened Events
  import opened Reducer
  import opened ReducerSafety
  import opened Planning

  /** The event has this kind and concerns this attempt of this operation. */
  predicate Concerns(e: Event, kind: EventKind, id: OperationID, attempt: int) {
    e.entry.kind == kind && e.entry.operationId == id && e.entry.payload.attempt == attempt
  }

  /** The kinds whose payload must carry an attempt number. */
  predicate CarriesAttempt(kind: EventKind) {
    && !RunLifecycle(kind) && !LeaseKind(kind)
    && !kind.OperationReady? && !kind.OperationCancelled? && !kind.UnknownKind?
  }

  predicate AbsentResult(e: Event, id: OperationID, attempt: int) {
    Concerns(e, ReconcileResult, id, attempt) && ObservesAbsence(e.entry.payload)
  }

  ghost predicate Happened(events: seq<Event>, kind: EventKind, id: OperationID, attempt: int) {
    exists e :: e in events && Concerns(e, kind, id, attempt)
  }

  ghost predicate ObservedAbsent(events: seq<Event>, id: OperationID, attempt: int) {
    exists e :: e in events && AbsentResult(e, id, attempt)
  }

  ghost predicate AttemptsBounded(events: seq<Event>, id: OperationID, r: Record) {
    forall e :: e in events && e.entry.operationId == id && CarriesAttempt(e.entry.kind) ==>
      0 < e.entry.payload.attempt <= r.attempt
  }

  /** What the past events say about the present record of one operation. */
  ghost predicate RecordHistory(events: seq<Event>, id: OperationID, r: Record) {
    && AttemptsBounded(events, id, r)
    && (r.attempt > 0 ==> Happened(events, AttemptStarted, id, r.attempt))
    && (Happened(events, SideEffectDispatched, id, r.attempt) && r.state == Running ==> r.dispatched)
    && (r.dispatched ==> Happened(events, SideEffectDispatched, id, r.attempt))
    && (Happened(events, OperationFailed, id, r.attempt) ==> r.state != Running)
    && (Happened(events, RetryAuthorized, id, r.attempt) ==> r.state == Ready || r.state == Cancelled)
    && (r.state == Ready && r.attempt > 0 ==> Happened(events, RetryAuthorized, id, r.attempt))
    && (r.observedAbsent ==> ObservedAbsent(events, id, r.attempt))
  }

  ghost predicate History(events: seq<Event>, records: Records) {
    forall id :: id in records ==> RecordHistory(events, id, records[id])
  }

  // Extending the journal by one event

  lemma HappenedExtends(events: seq<Event>, e: Event, kind: EventKind, id: OperationID, attempt: int)
    ensures Happened(events + [e], kind, id, attempt)
            <==> Happened(events, kind, id, attempt) || Concerns(e, kind, id, attempt)
  {
    if Happened(events, kind, id, attempt) {
      var past :| past in events && Concerns(past, kind, id, attempt);
      assert past in events + [e];
    }
    if Concerns(e, kind, id, attempt) { assert e in events + [e]; }
  }

  lemma ObservedAbsentExtends(events: seq<Event>, e: Event, id: OperationID, attempt: int)
    ensures ObservedAbsent(events + [e], id, attempt)
            <==> ObservedAbsent(events, id, attempt) || AbsentResult(e, id, attempt)
  {
    if ObservedAbsent(events, id, attempt) {
      var past :| past in events && AbsentResult(past, id, attempt);
      assert past in events + [e];
    }
    if AbsentResult(e, id, attempt) { assert e in events + [e]; }
  }

  /** An event about another operation, and a refresh or a run cancellation, leave an operation's history intact. */
  lemma UnaffectedHistory(events: seq<Event>, e: Event, id: OperationID, r: Record, after: Record)
    requires RecordHistory(events, id, r) && (r.state == Planned ==> r.attempt == 0)
    requires e.entry.operationId != id
    requires after == r || (r.state == Planned && after == r.(state := Ready)) || after == CancelRecord(r)
    ensures RecordHistory(events + [e], id, after)
  {
    StrangerHistory(events, e, id, r);
    hide RecordHistory, CancelRecord;
    if after != r {
      if r.state == Planned && after == r.(state := Ready) { PromotedHistory(events + [e], id, r); }
      else {
        CancelShape(r);
        CancelledHistory(events + [e], id, r);
      }
    }
  }

  /** An event of another operation adds nothing to an operation's history. */
  lemma StrangerHistory(events: seq<Event>, e: Event, id: OperationID, r: Record)
    requires RecordHistory(events, id, r) && e.entry.operationId != id
    ensures RecordHistory(events + [e], id, r)
  {
    HistoryExtends(events, e, id, r.attempt);
    hide ObservedAbsent, Happened;
  }

  lemma PromotedHistory(events: seq<Event>, id: OperationID, r: Record)
    requires RecordHistory(events, id, r) && r.state == Planned && r.attempt == 0
    ensures RecordHistory(events, id, r.(state := Ready))
  {
    hide ObservedAbsent, Happened;
    assert AttemptsBounded(events, id, r.(state := Ready));
    hide AttemptsBounded;
  }

  lemma CancelledHistory(events: seq<Event>, id: OperationID, r: Record)
    requires RecordHistory(events, id, r)
    ensures RecordHistory(events, id, r.(state := Cancelled, retryable := false, errorCode := "RUN_CANCELLED"))
  {
    hide ObservedAbsent, Happened;
    assert AttemptsBounded(events, id, r.(state := Cancelled, retryable := false, errorCode := "RUN_CANCELLED"));
    hide AttemptsBounded;
  }

  /** How an accepted event relates the attempt, dispatch, authorization and observation fields of a record. */
  predicate HistoryTransition(r: Record, after: Record, e: Event) {
    var k, attempt := e.entry.kind, e.entry.payload.attempt;
    && (k.AttemptStarted? ==> attempt == after.attempt == r.attempt + 1 && after.state == Running
                              && !after.dispatched && !after.observedAbsent)
    && (!k.AttemptStarted? ==>
          && after.attempt == r.attempt
          && (CarriesAttempt(k) ==> attempt == r.attempt)
          && (after.state == Running ==> r.state == Running)
          && (r.state == Running && after.state == Running && r.dispatched ==> after.dispatched)
          && (after.dispatched ==> r.dispatched || k.SideEffectDispatched?)
          && (r.state == Ready ==> after.state == Ready || after.state == Cancelled)
          && (r.state == Cancelled ==> after.state == Cancelled)
          && (after.state == Ready ==> r.state == Ready || k.RetryAuthorized?)
          && (after.observedAbsent ==> r.observedAbsent || (k.ReconcileResult? && ObservesAbsence(e.entry.payload))))
    && (k.SideEffectDispatched? ==> r.state == Running && !r.dispatched && after.dispatched)
    && (k.OperationFailed? ==> after.state == Failed)
    && (k.RetryAuthorized? ==> r.state == WaitingExternal && r.observedAbsent && after.state == Ready)
    && (Refreshes(k) ==> after.state != Planned)
  }

  lemma HistoryOfLease(r: Record, e: Event)
    requires RecordInvariant(r) && LeaseKind(e.entry.kind) && OperationTransition(r, e, false).Some?
    ensures HistoryTransition(r, OperationTransition(r, e, false).value, e)
  {
    hide OperationTransition, RecordInvariant;
    LeaseEffect(r, e, false);
  }

  lemma HistoryOfCall(r: Record, e: Event)
    requires RecordInvariant(r) && OperationTransition(r, e, false).Some?
    requires var k := e.entry.kind;
      k.CredentialResolved? || k.ProviderProcessStarted? || k.SideEffectDispatched? || k.ProviderResponseReceived?
      || k.OutcomeAmbiguous? || k.ReconcileStarted?
    ensures HistoryTransition(r, OperationTransition(r, e, false).value, e)
  {
  }

  lemma HistoryOfSchedule(r: Record, e: Event, published: bool)
    requires RecordInvariant(r) && Meaningful(e.entry.payload, e.entry.kind)
             && OperationTransition(r, e, published).Some?
    requires var k := e.entry.kind;
      k.OperationReady? || k.OperationCancelled? || k.RetryAuthorized? || k.AttemptStarted?
    ensures HistoryTransition(r, OperationTransition(r, e, published).value, e)
  {
  }

  lemma HistoryOfExplicitResult(r: Record, e: Event)
    requires RecordInvariant(r) && OperationTransition(r, e, false).Some? && ExplicitResultKind(e.entry.kind)
    ensures HistoryTransition(r, OperationTransition(r, e, false).value, e)
  {
    var state := ExplicitResultState(e.entry.kind);
    assert state != Running && state != Ready && state != Planned;
    assert OperationTransition(r, e, false) == ExplicitResultTransition(r, e);
    hide OperationTransition, LeaseTransition, StatedResultTransition;
    assert ExplicitResultTransition(r, e) == Some(ApplyResult(r, e.entry.payload, state, r.reconciling));
    hide ExplicitResultTransition;
  }

  lemma HistoryOfReconcileResult(r: Record, e: Event)
    requires RecordInvariant(r) && Meaningful(e.entry.payload, e.entry.kind) && OperationTransition(r, e, false).Some?
    requires e.entry.kind.ReconcileResult?
    ensures HistoryTransition(r, OperationTransition(r, e, false).value, e)
  {
  }

  lemma HistoryOfStatedResult(r: Record, e: Event)
    requires RecordInvariant(r) && Meaningful(e.entry.payload, e.entry.kind) && OperationTransition(r, e, false).Some?
    requires e.entry.kind.OperationResult?
    ensures HistoryTransition(r, OperationTransition(r, e, false).value, e)
  {
  }

  lemma TransitionHistory(r: Record, e: Event, published: bool)
    requires RecordInvariant(r) && Meaningful(e.entry.payload, e.entry.kind)
             && OperationTransition(r, e, published).Some?
    ensures HistoryTransition(r, OperationTransition(r, e, published).value, e)
  {
    hide RecordInvariant, Meaningful, HistoryTransition;
    var k := e.entry.kind;
    if LeaseKind(k) { HistoryOfLease(r, e); }
    else if k.OperationReady? || k.OperationCancelled? || k.RetryAuthorized? || k.AttemptStarted? {
      HistoryOfSchedule(r, e, published);
    }
    else if ExplicitResultKind(k) { HistoryOfExplicitResult(r, e); }
    else if k.ReconcileResult? { HistoryOfReconcileResult(r, e); }
    else if k.OperationResult? { HistoryOfStatedResult(r, e); }
    else { HistoryOfCall(r, e); }
  }

  lemma HistoryExtends(events: seq<Event>, e: Event, id: OperationID, attempt: int)
    ensures Happened(events + [e], AttemptStarted, id, attempt)
            <==> Happened(events, AttemptStarted, id, attempt) || Concerns(e, AttemptStarted, id, attempt)
    ensures Happened(events + [e], SideEffectDispatched, id, attempt)
            <==> Happened(events, SideEffectDispatched, id, attempt) || Concerns(e, SideEffectDispatched, id, attempt)
    ensures Happened(events + [e], OperationFailed, id, attempt)
            <==> Happened(events, OperationFailed, id, attempt) || Concerns(e, OperationFailed, id, attempt)
    ensures Happened(events + [e], RetryAuthorized, id, attempt)
            <==> Happened(events, RetryAuthorized, id, attempt) || Concerns(e, RetryAuthorized, id, attempt)
    ensures ObservedAbsent(events + [e], id, attempt)
            <==> ObservedAbsent(events, id, attempt) || AbsentResult(e, id, attempt)
  {
    hide Happened, ObservedAbsent, Concerns;
    HappenedExtends(events, e, AttemptStarted, id, attempt);
    HappenedExtends(events, e, SideEffectDispatched, id, attempt);
    HappenedExtends(events, e, OperationFailed, id, attempt);
    HappenedExtends(events, e, RetryAuthorized, id, attempt);
    ObservedAbsentExtends(events, e, id, attempt);
  }

  /** Nothing is known yet of an attempt that follows all earlier ones. */
  lemma NewAttemptUnseen(events: seq<Event>, id: OperationID, r: Record, attempt: Uint32)
    requires RecordHistory(events, id, r) && attempt > r.attempt
    ensures !Happened(events, SideEffectDispatched, id, attempt) && !Happened(events, RetryAuthorized, id, attempt)
    ensures !Happened(events, OperationFailed, id, attempt)
  {
  }

  lemma NewAttemptBounds(events: seq<Event>, e: Event, r: Record, after: Record)
    requires AttemptsBounded(events, e.entry.operationId, r) && r.attempt < after.attempt == e.entry.payload.attempt
    ensures AttemptsBounded(events + [e], e.entry.operationId, after)
  {
  }

  lemma NewAttemptHistory(events: seq<Event>, e: Event, r: Record, after: Record)
    requires var id := e.entry.operationId; RecordHistory(events, id, r)
    requires e.entry.kind.AttemptStarted? && HistoryTransition(r, after, e) && after.attempt > 0
    ensures RecordHistory(events + [e], e.entry.operationId, after)
  {
    var id := e.entry.operationId;
    NewAttemptUnseen(events, id, r, after.attempt);
    NewAttemptBounds(events, e, r, after);
    HistoryExtends(events, e, id, after.attempt);
    hide ObservedAbsent, Happened, AttemptsBounded;
  }

  lemma SameAttemptHistory(events: seq<Event>, e: Event, r: Record, after: Record)
    requires var id := e.entry.operationId; RecordHistory(events, id, r)
    requires !e.entry.kind.AttemptStarted? && HistoryTransition(r, after, e)
    requires r.state == Planned ==> r.attempt == 0
    requires CarriesAttempt(e.entry.kind) ==> e.entry.payload.attempt > 0
    ensures RecordHistory(events + [e], e.entry.operationId, after)
  {
    HistoryExtends(events, e, e.entry.operationId, after.attempt);
    hide ObservedAbsent, Happened;
  }

  lemma OwnHistory(events: seq<Event>, e: Event, r: Record, after: Record)
    requires var id := e.entry.operationId; RecordHistory(events, id, r)
    requires RecordInvariant(r) && RecordInvariant(after) && HistoryTransition(r, after, e)
    requires CarriesAttempt(e.entry.kind) ==> e.entry.payload.attempt > 0
    ensures RecordHistory(events + [e], e.entry.operationId, after)
  {
    PlannedUnattempted(r);
    if e.entry.kind.AttemptStarted? {
      NewAttemptHistory(events, e, r, after);
    } else {
      SameAttemptHistory(events, e, r, after);
    }
    hide RecordHistory, HistoryTransition, RecordInvariant;
  }

  lemma ValidCarriesAttempt(e: Event)
    requires ValidEvent(e)
    ensures CarriesAttempt(e.entry.kind) ==> e.entry.payload.attempt > 0
    ensures RunLifecycle(e.entry.kind) ==> e.entry.operationId == ""
    ensures e.entry.operationId == "" ==> RunLifecycle(e.entry.kind)
  {
  }

  /** What an accepted operation event does to the records: its own changes, others are at most promoted. */
  lemma OperationStepShape(st: RunState, e: Event, after: RunState)
    requires OperationStep(st, e) == Ok(after)
    ensures var id := e.entry.operationId;
      && id in st.records && after.records.Keys == st.records.Keys
      && var r := st.records[id];
         var next := OperationTransition(r, e, DependenciesPublished(r.op, st.records));
      && next.Some?
      && (next.value.state != Planned || !Refreshes(e.entry.kind) ==> after.records[id] == next.value)
      && forall j :: j in st.records && j != id ==>
           after.records[j] == st.records[j]
           || (st.records[j].state == Planned && after.records[j] == st.records[j].(state := Ready))
  {
    hide OperationTransition;
  }

  lemma RefreshedIfPlanned(r: Record, next: Record, e: Event)
    requires HistoryTransition(r, next, e)
    ensures next.state != Planned || !Refreshes(e.entry.kind)
  {
  }

  lemma HistoryOfOperationStep(events: seq<Event>, st: RunState, e: Event, after: RunState)
    requires History(events, st.records) && RecordInvariants(st.records) && RecordInvariants(after.records)
    requires Meaningful(e.entry.payload, e.entry.kind) && (CarriesAttempt(e.entry.kind) ==> e.entry.payload.attempt > 0)
    requires OperationStep(st, e) == Ok(after)
    ensures History(events + [e], after.records)
  {
    hide OperationTransition, OperationStep, RecordInvariant, Meaningful, RecordHistory;
    OperationStepShape(st, e, after);
    var id := e.entry.operationId;
    var r := st.records[id];
    var published := DependenciesPublished(r.op, st.records);
    TransitionHistory(r, e, published);
    var next := OperationTransition(r, e, published).value;
    RefreshedIfPlanned(r, next, e);
    OwnHistory(events, e, r, next);
    forall j | j in after.records && j != id ensures RecordHistory(events + [e], j, after.records[j]) {
      PlannedUnattempted(st.records[j]);
      UnaffectedHistory(events, e, j, st.records[j], after.records[j]);
    }
  }

  lemma HistoryOfStep(plan: Plan, events: seq<Event>, st: RunState, e: Event, after: RunState)
    requires History(events, st.records) && Invariant(plan, st) && Step(plan.id, st, e) == Ok(after)
    requires forall id :: id in plan.operations ==> id != ""
    ensures History(events + [e], after.records)
  {
    hide OperationStep, ValidEvent, RecordInvariant, CancelledInvariant, RecordHistory, CancelRecord, CarriesAttempt;
    StepKeepsInvariant(plan, st, e);
    ValidIsMeaningful(e);
    ValidCarriesAttempt(e);
    if RunLifecycle(e.entry.kind) {
      forall id | id in after.records ensures RecordHistory(events + [e], id, after.records[id]) {
        PlannedUnattempted(st.records[id]);
        UnaffectedHistory(events, e, id, st.records[id], after.records[id]);
      }
    } else {
      HistoryOfOperationStep(events, st.(runId := e.entry.runId, next := st.next + 1), e, after);
    }
  }

  lemma PlannedUnattempted(r: Record)
    requires RecordInvariant(r)
    ensures r.state == Planned ==> r.attempt == 0
  {
  }

  lemma {:induction false} ReplayHistory(plan: Plan, events: seq<Event>, st: RunState)
    requires GoodPlan(plan) && Replay(plan, events) == Ok(st)
    ensures Invariant(plan, st) && History(events, st.records)
    decreases |events|
  {
    hide Step, RecordHistory;
    if events == [] {
      InitialInvariant(plan);
      InitialHistory(plan);
    } else {
      var front, e := events[..|events| - 1], events[|events| - 1];
      var middle := ReplayFrom(plan.id, InitialState(plan), front).value;
      ReplayHistory(plan, front, middle);
      NonEmptyIds(plan);
      StepKeepsInvariant(plan, middle, e);
      HistoryOfStep(plan, front, middle, e, st);
      assert front + [e] == events;
    }
  }

  lemma InitialHistory(plan: Plan)
    ensures History([], InitialState(plan).records)
  {
  }

  lemma NonEmptyIds(plan: Plan)
    requires GoodPlan(plan)
    ensures forall id :: id in plan.operations ==> id != ""
  {
  }

  /** The states around one event of a reducible journal, and what the event did to its operation. */
  lemma AcceptedAt(plan: Plan, events: seq<Event>, i: nat) returns (before: RunState)
    requires GoodPlan(plan) && Reducible(plan, events) && i < |events| && CarriesAttempt(events[i].entry.kind)
    ensures Replay(plan, events[..i]) == Ok(before) && History(events[..i], before.records)
    ensures var e := events[i];
      && e.entry.operationId in before.records && e.entry.payload.attempt > 0
      && RecordInvariant(before.records[e.entry.operationId])
      && exists after :: HistoryTransition(before.records[e.entry.operationId], after, e)
  {
    hide OperationStep, OperationTransition, ValidEvent, RecordHistory, RecordInvariant, HistoryTransition, Meaningful;
    var e := events[i];
    assert events == events[..i + 1] + events[i + 1..];
    ReplaySplits(plan.id, InitialState(plan), events[..i + 1], events[i + 1..]);
    assert events[..i + 1][..i] == events[..i];
    before := Replay(plan, events[..i]).value;
    ReplayHistory(plan, events[..i], before);
    ValidIsMeaningful(e);
    ValidCarriesAttempt(e);
    var st := before.(runId := e.entry.runId, next := before.next + 1);
    OperationStepShape(st, e, OperationStep(st, e).value);
    var r := before.records[e.entry.operationId];
    TransitionHistory(r, e, DependenciesPublished(r.op, before.records));
  }

  /** Later attempts of an operation have larger numbers: the 32-bit counter never wraps in an accepted journal. */
  lemma AttemptsRise(plan: Plan, events: seq<Event>, i: nat, j: nat)
    requires GoodPlan(plan) && Reducible(plan, events) && i < j < |events|
    requires events[i].entry.kind == events[j].entry.kind == AttemptStarted
    requires events[i].entry.operationId == events[j].entry.operationId
    ensures events[i].entry.payload.attempt < events[j].entry.payload.attempt
  {
    hide ReplayFrom, GoodPlan, RecordInvariant, InitialState;
    var before := AcceptedAt(plan, events, j);
    assert events[i] in events[..j];
    assert RecordHistory(events[..j], events[j].entry.operationId, before.records[events[j].entry.operationId]);
  }

  /** One attempt is dispatched at most once. */
  lemma DispatchedAtMostOnce(plan: Plan, events: seq<Event>, i: nat, j: nat)
    requires GoodPlan(plan) && Reducible(plan, events) && i < j < |events|
    requires events[i].entry.kind == events[j].entry.kind == SideEffectDispatched
    requires events[i].entry.operationId == events[j].entry.operationId
    ensures events[i].entry.payload.attempt < events[j].entry.payload.attempt
  {
    hide ReplayFrom, GoodPlan, RecordInvariant, InitialState;
    var before := AcceptedAt(plan, events, j);
    var id := events[j].entry.operationId;
    assert events[i] in events[..j];
    assert RecordHistory(events[..j], id, before.records[id]);
    assert Concerns(events[i], SideEffectDispatched, id, events[i].entry.payload.attempt);
  }

  lemma FailureIsPast(events: seq<Event>, id: OperationID, r: Record, failure: Event)
    requires RecordHistory(events, id, r) && failure in events
    requires failure.entry.kind == OperationFailed && failure.entry.operationId == id
    ensures failure.entry.payload.attempt <= r.attempt
    ensures r.state == Running ==> failure.entry.payload.attempt < r.attempt
  {
    assert Concerns(failure, OperationFailed, id, failure.entry.payload.attempt);
  }

  /** Nothing of an attempt is dispatched after its failure. */
  lemma FailedAttemptsAreOver(plan: Plan, events: seq<Event>, i: nat, j: nat)
    requires GoodPlan(plan) && Reducible(plan, events) && i < j < |events|
    requires events[i].entry.kind == OperationFailed && events[j].entry.kind == SideEffectDispatched
    requires events[i].entry.operationId == events[j].entry.operationId
    ensures events[i].entry.payload.attempt < events[j].entry.payload.attempt
  {
    hide ReplayFrom, GoodPlan, RecordInvariant, InitialState, RecordHistory;
    var before := AcceptedAt(plan, events, j);
    var id := events[j].entry.operationId;
    assert events[i] in events[..j];
    FailureIsPast(events[..j], id, before.records[id], events[i]);
  }

  lemma AuthorizedAtMostOnce(plan: Plan, events: seq<Event>, i: nat, j: nat)
    requires GoodPlan(plan) && Reducible(plan, events) && i < j < |events|
    requires events[i].entry.kind == events[j].entry.kind == RetryAuthorized
    requires events[i].entry.operationId == events[j].entry.operationId
    ensures events[i].entry.payload.attempt < events[j].entry.payload.attempt
  {
    hide ReplayFrom, GoodPlan, RecordInvariant, InitialState;
    var before := AcceptedAt(plan, events, j);
    var id := events[j].entry.operationId;
    assert events[i] in events[..j];
    assert RecordHistory(events[..j], id, before.records[id]);
    assert Concerns(events[i], RetryAuthorized, id, events[i].entry.payload.attempt);
  }

  /** Every event of an attempt comes after the start of that attempt. */
  lemma StartedBefore(plan: Plan, events: seq<Event>, i: nat) returns (start: nat)
    requires GoodPlan(plan) && Reducible(plan, events) && i < |events|
    requires CarriesAttempt(events[i].entry.kind) && !events[i].entry.kind.AttemptStarted?
    ensures start < i
    ensures Concerns(events[start], AttemptStarted, events[i].entry.operationId, events[i].entry.payload.attempt)
  {
    hide ReplayFrom, GoodPlan, RecordInvariant, InitialState;
    var before := AcceptedAt(plan, events, i);
    var id := events[i].entry.operationId;
    assert RecordHistory(events[..i], id, before.records[id]);
    var e :| e in events[..i] && Concerns(e, AttemptStarted, id, before.records[id].attempt);
    start :| 0 <= start < i && events[start] == e;
  }

  lemma AbsenceBefore(plan: Plan, events: seq<Event>, i: nat) returns (observed: nat)
    requires GoodPlan(plan) && Reducible(plan, events) && i < |events| && events[i].entry.kind.RetryAuthorized?
    ensures observed < i && AbsentResult(events[observed], events[i].entry.operationId, events[i].entry.payload.attempt)
  {
    hide ReplayFrom, GoodPlan, RecordInvariant, InitialState;
    var before := AcceptedAt(plan, events, i);
    var id := events[i].entry.operationId;
    assert RecordHistory(events[..i], id, before.records[id]);
    var e :| e in events[..i] && AbsentResult(e, id, before.records[id].attempt);
    observed :| 0 <= observed < i && events[observed] == e;
  }

  /**
   A retry is authorized only after an error-free observation of absence that was recorded for the
   same attempt, after that attempt started.
   */
  lemma AuthorizationFollowsAbsence(plan: Plan, events: seq<Event>, i: nat) returns (start: nat, observed: nat)
    requires GoodPlan(plan) && Reducible(plan, events) && i < |events| && events[i].entry.kind.RetryAuthorized?
    ensures start < observed < i
    ensures var id, attempt := events[i].entry.operationId, events[i].entry.payload.attempt;
      Concerns(events[start], AttemptStarted, id, attempt) && AbsentResult(events[observed], id, attempt)
  {
    hide ReplayFrom, GoodPlan, RecordInvariant, InitialState;
    observed := AbsenceBefore(plan, events, i);
    start := StartedBefore(plan, events, observed);
  }
}
