/**
 The shape of every journal that the reducer accepts, the conditions under which it accepts one more
 event, and what its state says of the run as a whole and of its targets.
 */
module JournalShapes {
  import opened Domain
  import opened Events
  import opened Reducer
  import opened ReducerSafety
  import opened TransitionTable

  // One more event

  /** The kinds that may follow the cancellation of a run: they end what was begun. */
  predicate EndsWhatBegan(kind: EventKind) {
    || kind.LeaseAcquired? || kind.LeaseRenewed? || kind.LeaseExpired? || kind.LeaseReleased?
    || kind.OperationWaitingExternal? || kind.OperationPublished? || kind.OperationRejected? || kind.OperationFailed?
    || kind.CredentialResolved? || kind.ProviderProcessStarted? || kind.ProviderResponseReceived?
    || kind.ReconcileStarted? || kind.ReconcileResult?
  }

  predicate Finished(r: Record) {
    && !r.reconcileRequired && !r.leaseActive
    && (r.state == Published || r.state == Rejected || r.state == Failed || r.state == Cancelled)
  }

  /** The event fits the run as a whole. */
  predicate Fits(planId: PlanID, st: RunState, e: Event) {
    var k := e.entry.kind;
    && ValidEvent(e) && e.sequence == st.next && (st.runId != "" ==> e.entry.runId == st.runId)
    && !st.completed && (st.started <==> !k.RunStarted?)
    && (st.cancelled ==> EndsWhatBegan(k))
    && (k.RunStarted? ==> e.entry.planId == planId)
    && (k.RunCompleted? ==> forall id | id in st.records :: Finished(st.records[id]))
  }

  lemma OperationStepIsExact(st: RunState, e: Event)
    requires !RunLifecycle(e.entry.kind) && RecordInvariants(st.records)
    ensures OperationStep(st, e).Ok? <==>
              var id := e.entry.operationId;
              && id in st.records && e.entry.targetId == st.records[id].op.target
              && Accepts(st.records[id], e, DependenciesPublished(st.records[id].op, st.records))
  {
    hide OperationTransition, Accepts, RecordInvariant, UpdateRecords, DependenciesPublished;
    var id := e.entry.operationId;
    if id in st.records {
      AcceptanceIsExact(st.records[id], e, DependenciesPublished(st.records[id].op, st.records));
    }
  }

  /** The checks that are made of a run event besides its admission. */
  predicate RunEventFits(planId: PlanID, st: RunState, e: Event) {
    var k := e.entry.kind;
    && (k.RunStarted? ==> !st.started && e.entry.planId == planId)
    && (k.RunCompleted? ==> AllQuiescent(st.records))
  }

  lemma AdmissionIsExact(planId: PlanID, st: RunState, e: Event)
    requires st.completed ==> st.started
    ensures Fits(planId, st, e) <==> Admission(st, e) == None && RunEventFits(planId, st, e)
  {
    hide ValidEvent;
  }

  /** The next event is accepted exactly if it fits the run and, if it concerns an operation, its record accepts it. */
  lemma StepIsExact(plan: Plan, st: RunState, e: Event)
    requires Invariant(plan, st)
    ensures Step(plan.id, st, e).Ok? <==>
              && Fits(plan.id, st, e)
              && (!RunLifecycle(e.entry.kind) ==>
                    var id := e.entry.operationId;
                    && id in st.records && e.entry.targetId == st.records[id].op.target
                    && Accepts(st.records[id], e, DependenciesPublished(st.records[id].op, st.records)))
  {
    hide ValidEvent, OperationStep, Accepts, RecordInvariant, CancelledInvariant, DependenciesPublished, Fits,
      AllQuiescent, Admission;
    AdmissionIsExact(plan.id, st, e);
    var admitted := st.(runId := e.entry.runId, next := st.next + 1);
    if !RunLifecycle(e.entry.kind) { OperationStepIsExact(admitted, e); }
  }

  // Whole journals

  /** An event in its place: valid, numbered, of the run, and about an operation of the plan or the run as a whole. */
  predicate InPlace(plan: Plan, events: seq<Event>, i: nat)
    requires i < |events|
  {
    var e := events[i];
    && ValidEvent(e) && e.sequence == i + 1 && e.entry.runId == events[0].entry.runId
    && (e.entry.kind.RunStarted? <==> i == 0)
    && (e.entry.kind.RunStarted? ==> e.entry.planId == plan.id)
    && (!RunLifecycle(e.entry.kind) ==>
          e.entry.operationId in plan.operations && e.entry.targetId == plan.operations[e.entry.operationId].target)
  }

  /** Nothing follows the completion, and only what ends something follows the cancellation. */
  predicate InSequence(before: Event, after: Event) {
    !before.entry.kind.RunCompleted? && (before.entry.kind.RunCancelled? ==> EndsWhatBegan(after.entry.kind))
  }

  ghost predicate Shaped(plan: Plan, events: seq<Event>) {
    && (forall i :: 0 <= i < |events| ==> InPlace(plan, events, i))
    && (forall i, j :: 0 <= i < j < |events| ==> InSequence(events[i], events[j]))
  }

  ghost predicate Contains(events: seq<Event>, kind: EventKind) {
    exists i :: 0 <= i < |events| && events[i].entry.kind == kind
  }

  /** What the state says of the run is what the journal contains. */
  ghost predicate Tells(events: seq<Event>, st: RunState) {
    && (st.started <==> events != []) && (events != [] ==> st.runId == events[0].entry.runId)
    && (st.completed <==> Contains(events, RunCompleted)) && (st.cancelled <==> Contains(events, RunCancelled))
  }

  lemma FlagsAfterStep(planId: PlanID, st: RunState, e: Event, after: RunState)
    requires Step(planId, st, e) == Ok(after)
    ensures after.completed == (st.completed || e.entry.kind.RunCompleted?)
    ensures after.cancelled == (st.cancelled || e.entry.kind.RunCancelled?)
    ensures after.started == (st.started || e.entry.kind.RunStarted?)
  {
    hide ValidEvent, OperationTransition, DependenciesPublished, AllQuiescent;
  }

  lemma ContainsMore(events: seq<Event>, e: Event, kind: EventKind)
    ensures Contains(events + [e], kind) <==> Contains(events, kind) || e.entry.kind == kind
  {
    var more := events + [e];
    assert more[|events|] == e;
    if Contains(events, kind) {
      var i :| 0 <= i < |events| && events[i].entry.kind == kind;
      assert more[i].entry.kind == kind;
    }
  }

  lemma StepShapes(plan: Plan, events: seq<Event>, st: RunState, e: Event, after: RunState)
    requires Invariant(plan, st) && Shaped(plan, events) && Tells(events, st) && st.next == |events| + 1
    requires Step(plan.id, st, e) == Ok(after)
    requires events != [] ==> st.runId != ""
    ensures Shaped(plan, events + [e])
  {
    hide ValidEvent, Accepts, Invariant, Step, DependenciesPublished, Fits, Tells;
    StepIsExact(plan, st, e);
    RecordsArePlanned(plan, st);
    hide InPlace, InSequence;
    var more := events + [e];
    LastInPlace(plan, events, st, e);
    forall i | 0 <= i < |events| ensures InPlace(plan, more, i) {
      assert InPlace(plan, events, i);
      SamePlace(plan, events, e, i);
    }
    forall i | 0 <= i < |events| ensures InSequence(events[i], e) { FollowsAll(plan.id, events, st, e, i); }
    forall i, j | 0 <= i < j < |more| ensures InSequence(more[i], more[j]) {
      if j < |events| { assert InSequence(events[i], events[j]); }
    }
  }

  lemma SamePlace(plan: Plan, events: seq<Event>, e: Event, i: nat)
    requires i < |events| && InPlace(plan, events, i)
    ensures InPlace(plan, events + [e], i)
  {
    hide ValidEvent;
  }

  lemma LastInPlace(plan: Plan, events: seq<Event>, st: RunState, e: Event)
    requires Tells(events, st) && st.next == |events| + 1 && Fits(plan.id, st, e) && (events != [] ==> st.runId != "")
    requires !RunLifecycle(e.entry.kind) ==>
               e.entry.operationId in plan.operations && e.entry.targetId == plan.operations[e.entry.operationId].target
    ensures InPlace(plan, events + [e], |events|)
  {
    hide ValidEvent, Contains;
  }

  lemma FollowsAll(planId: PlanID, events: seq<Event>, st: RunState, e: Event, i: nat)
    requires Tells(events, st) && Fits(planId, st, e) && i < |events|
    ensures InSequence(events[i], e)
  {
    hide ValidEvent;
  }

  lemma RecordsArePlanned(plan: Plan, st: RunState)
    requires Invariant(plan, st)
    ensures st.records.Keys == plan.operations.Keys
    ensures forall id :: id in st.records ==> st.records[id].op == plan.operations[id]
  {
  }

  /**
   Every reducible journal is valid event by event, numbered from one, of one run and one plan, begins with
   its only RUN_STARTED and ends with its RUN_COMPLETED if it has one; after RUN_CANCELLED it only ends what
   was begun. The state says completed and cancelled exactly if the journal does.
   */
  lemma {:induction false} ReducibleJournalsAreShaped(plan: Plan, events: seq<Event>, st: RunState)
    requires Replay(plan, events) == Ok(st)
    ensures Shaped(plan, events) && Tells(events, st)
    decreases |events|
  {
    hide Step, Shaped, Invariant, Contains;
    ReplayCounts(plan, events, st);
    if events == [] {
      NothingContained();
    } else {
      var front, e := events[..|events| - 1], events[|events| - 1];
      var middle := ReplayFrom(plan.id, InitialState(plan), front).value;
      ReducibleJournalsAreShaped(plan, front, middle);
      ReducibleJournalsKeepInvariant(plan, front);
      ReplayCounts(plan, front, middle);
      StepShapes(plan, front, middle, e, st);
      FlagsAfterStep(plan.id, middle, e, st);
      ContainsMore(front, e, RunCompleted);
      ContainsMore(front, e, RunCancelled);
      assert front + [e] == events;
    }
  }

  lemma NothingContained()
    ensures forall kind :: !Contains([], kind)
    ensures forall plan :: Shaped(plan, [])
  {
  }

  // The start and the cancellation of a run

  /** A new run begins with untouched operations, ready exactly if they depend on nothing. */
  lemma StartIsExact(plan: Plan, e: Event, id: OperationID)
    requires Step(plan.id, InitialState(plan), e).Ok? && id in plan.operations
    ensures e.entry.kind.RunStarted?
    ensures var after, op := Step(plan.id, InitialState(plan), e).value.records, plan.operations[id];
      && after.Keys == plan.operations.Keys && after[id].op == op
      && after[id].state == (if op.dependencies == [] then Ready else Planned)
      && after[id].attempt == 0 && after[id].blockedAttempts == 0
      && !after[id].readyJournaled && !after[id].leaseActive && !after[id].providerStarted
      && !after[id].providerResponded && !after[id].reconcileRequired && !after[id].ambiguous
      && !after[id].retryable && !after[id].observedAbsent && !after[id].dispatched && !after[id].reconciling
      && after[id].providerState == "" && after[id].evidence.NoEvidence? && after[id].errorCode == ""
  {
    hide ValidEvent;
    var op := plan.operations[id];
    if op.dependencies != [] { assert op.dependencies[0] in op.dependencies; }
  }

  /**
   RUN_CANCELLED leaves alone exactly what needs a reconciliation or is published, rejected or cancelled
   already, and cancels everything else.
   */
  lemma CancellationIsExact(plan: Plan, st: RunState, e: Event, id: OperationID)
    requires Invariant(plan, st) && e.entry.kind.RunCancelled? && Step(plan.id, st, e).Ok? && id in st.records
    ensures var r, after := st.records[id], Step(plan.id, st, e).value.records;
      && id in after
      && if r.reconcileRequired || r.state == Published || r.state == Rejected || r.state == Cancelled
         then after[id] == r
         else after[id] == r.(state := Cancelled, retryable := false, errorCode := "RUN_CANCELLED")
  {
    hide ValidEvent, OperationStep, RecordInvariant, CancelRecord, ReleasedHavePublishedDependencies, ExactFrontier,
      CancelledInvariants, AllQuiescent;
    assert RecordInvariant(st.records[id]);
    RecordCancellation(st.records[id]);
  }

  lemma RecordCancellation(r: Record)
    requires RecordInvariant(r)
    ensures CancelRecord(r)
            == if r.reconcileRequired || r.state == Published || r.state == Rejected || r.state == Cancelled then r
               else r.(state := Cancelled, retryable := false, errorCode := "RUN_CANCELLED")
  {
  }

  // Targets

  /** Some operation of the target has the state. */
  ghost predicate Has(records: Records, target: TargetID, state: NormalizedState) {
    exists id :: id in records && records[id].op.target == target && records[id].state == state
  }

  /**
   A target is published exactly if all its operations are; otherwise the worst state among them decides,
   from rejected over failed, cancelled, blocked, waiting, running and ready to planned.
   */
  lemma TargetStateIsExact(records: Records, target: TargetID)
    requires RecordInvariants(records)
    ensures var all := forall id :: id in records && records[id].op.target == target ==> records[id].state == Published;
      AggregateTarget(records, target)
      == if all then Published
         else if Has(records, target, Rejected) then Rejected
         else if Has(records, target, Failed) then Failed
         else if Has(records, target, Cancelled) then Cancelled
         else if Has(records, target, Blocked) then Blocked
         else if Has(records, target, WaitingExternal) then WaitingExternal
         else if Has(records, target, Running) then Running
         else if Has(records, target, Ready) then Ready
         else Planned
  {
    hide RecordInvariants, FirstPresent;
    SameMeaning(records, target);
    hide TargetHas, Has;
    var last := [Ready, Planned];
    var waiting := [WaitingExternal, Running] + last;
    FirstOf(records, target, Rejected, [Failed, Cancelled, Blocked] + waiting);
    FirstOf(records, target, Failed, [Cancelled, Blocked] + waiting);
    FirstOf(records, target, Cancelled, [Blocked] + waiting);
    FirstOf(records, target, Blocked, waiting);
    FirstOf(records, target, WaitingExternal, [Running] + last);
    FirstOf(records, target, Running, last);
    FirstOf(records, target, Ready, [Planned]);
    FirstOf(records, target, Planned, []);
    assert AGGREGATION_ORDER == [Rejected] + ([Failed, Cancelled, Blocked] + waiting);
    assert [Failed, Cancelled, Blocked] + waiting == [Failed] + ([Cancelled, Blocked] + waiting);
    assert [Cancelled, Blocked] + waiting == [Cancelled] + ([Blocked] + waiting);
    assert waiting == [WaitingExternal] + ([Running] + last);
    assert last == [Ready] + [Planned] && [Planned] + [] == [Planned];
  }

  lemma FirstOf(records: Records, target: TargetID, state: NormalizedState, rest: seq<NormalizedState>)
    ensures FirstPresent(records, target, [state] + rest)
            == if TargetHas(records, target, state) then state else FirstPresent(records, target, rest)
    ensures FirstPresent(records, target, []) == Planned
  {
    hide TargetHas;
    assert ([state] + rest)[1..] == rest;
  }

  lemma SameMeaning(records: Records, target: TargetID)
    ensures forall state :: TargetHas(records, target, state) == Has(records, target, state)
  {
  }
}
