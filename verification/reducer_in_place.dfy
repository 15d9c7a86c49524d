/**
 The reducer the way the source runs it: a map of records that are mutated in
 place, event by event. Reduce is proved to compute Derive(Replay(...)).
 */
module ReducerInPlace {
  import opened Domain
  import opened Events
  import opened Reducer

  /** The mutable record of one operation. */
  class MutableOperation {
    const op: Operation
    var state: NormalizedState
    var attempt: Uint32
    var blockedAttempts: Uint32
    var readyJournaled: bool
    var leaseActive: bool
    var lease: Lease
    var providerStarted: bool
    var providerResponded: bool
    var reconcileRequired: bool
    var ambiguous: bool
    var retryable: bool
    var providerState: string
    var evidence: Evidence
    var errorCode: string
    var observedAbsent: bool
    var dispatched: bool
    var reconciling: bool

    function View(): Record
      reads this
    {
      Record(op, state, attempt, blockedAttempts, readyJournaled, leaseActive, lease, providerStarted,
             providerResponded, reconcileRequired, ambiguous, retryable, providerState, evidence, errorCode,
             observedAbsent, dispatched, reconciling)
    }

    constructor (op: Operation)
      ensures View() == NewRecord(op)
    {
      this.op, state, attempt, blockedAttempts, readyJournaled := op, Planned, 0, 0, false;
      leaseActive, lease, providerStarted, providerResponded := false, NO_LEASE, false, false;
      reconcileRequired, ambiguous, retryable := false, false, false;
      providerState, evidence, errorCode := "", NoEvidence, "";
      observedAbsent, dispatched, reconciling := false, false, false;
    }

    // Assignments to groups of fields

    method SetLease(lease: Lease)
      modifies this`leaseActive, this`lease
      ensures View() == old(View()).(leaseActive := true, lease := lease)
    {
      leaseActive, this.lease := true, lease;
    }

    method ClearCall()
      modifies this`dispatched, this`reconciling, this`providerStarted, this`providerResponded
      ensures View() == old(View()).(dispatched := false, reconciling := false, providerStarted := false,
                                     providerResponded := false)
    {
      dispatched, reconciling, providerStarted, providerResponded := false, false, false, false;
    }

    method SetOutcome(providerState: string, evidence: Evidence, errorCode: string)
      modifies this`providerState, this`evidence, this`errorCode
      ensures View() == old(View()).(providerState := providerState, evidence := evidence, errorCode := errorCode)
    {
      this.providerState, this.evidence, this.errorCode := providerState, evidence, errorCode;
    }

    method SetNeeds(reconcile: bool, ambiguous: bool, retryable: bool)
      modifies this`reconcileRequired, this`ambiguous, this`retryable
      ensures View() == old(View()).(reconcileRequired := reconcile, ambiguous := ambiguous, retryable := retryable)
    {
      reconcileRequired, this.ambiguous, this.retryable := reconcile, ambiguous, retryable;
    }

    method SetState(state: NormalizedState)
      modifies this`state
      ensures View() == old(View()).(state := state)
    {
      this.state := state;
    }

    method SetObservedAbsent(observed: bool)
      modifies this`observedAbsent
      ensures View() == old(View()).(observedAbsent := observed)
    {
      observedAbsent := observed;
    }

    method SetAttempt(number: Uint32)
      modifies this`attempt
      ensures View() == old(View()).(attempt := number)
    {
      attempt := number;
    }

    method StartCall(reconcile: bool)
      modifies this`providerStarted, this`providerResponded, this`reconciling
      ensures View() == if reconcile then
                old(View()).(reconciling := true, providerStarted := false, providerResponded := false)
                        else old(View()).(providerStarted := true, providerResponded := false)
    {
      if reconcile { reconciling := true; }
      providerStarted, providerResponded := !reconcile, false;
    }

    method Dispatch()
      modifies this`dispatched, this`reconcileRequired, this`ambiguous
      ensures View() == old(View()).(dispatched := true, reconcileRequired := true, ambiguous := true)
    {
      dispatched, reconcileRequired, ambiguous := true, true, true;
    }

    method LoseOutcome(code: string)
      modifies this`reconcileRequired, this`ambiguous, this`retryable, this`errorCode
      ensures View() == old(View()).(reconcileRequired := true, ambiguous := true, retryable := false,
                                     errorCode := code)
    {
      reconcileRequired, ambiguous, retryable, errorCode := true, true, false, code;
    }

    method Cancel(code: string)
      modifies this`state, this`retryable, this`errorCode
      ensures View() == old(View()).(state := Cancelled, retryable := false, errorCode := code)
    {
      state, retryable, errorCode := Cancelled, false, code;
    }

    method ClearAttempt(number: Uint32)
      modifies this
      ensures View() == StartAttempt(old(View()), number)
    {
      hide View;
      SetState(Running);
      SetAttempt(number);
      ClearCall();
      SetNeeds(false, false, false);
      SetOutcome("", NoEvidence, "");
      SetObservedAbsent(false);
    }

    method GrantRetry()
      modifies this
      ensures View() == AuthorizeRetry(old(View()))
    {
      hide View;
      SetObservedAbsent(false);
      SetState(Ready);
      SetNeeds(false, false, false);
      SetOutcome("", NoEvidence, "");
    }

    /** refreshReady and cancelRemaining on one record. */
    method Promote(dependenciesPublished: bool)
      modifies this`state
      ensures View() == if old(View()).state == Planned && dependenciesPublished then old(View()).(state := Ready)
              else old(View())
    {
      if state == Planned && dependenciesPublished { state := Ready; }
    }

    method CancelWithRun()
      modifies this`state, this`retryable, this`errorCode
      ensures View() == CancelRecord(old(View()))
    {
      if !reconcileRequired && CancelledWithRun(state) { Cancel("RUN_CANCELLED"); }
    }

    // The branches of the event switch

    method RecordResult(p: Payload, result: NormalizedState, ambiguous: bool)
      modifies this
      ensures View() == old(View()).(
                state := result, providerState := p.providerState, evidence := p.evidence, errorCode := p.errorCode,
                retryable := p.retryable, dispatched := false, reconciling := false, providerStarted := false,
                providerResponded := false, reconcileRequired := result == WaitingExternal,
                ambiguous := ambiguous)
    {
      hide View;
      SetState(result);
      SetOutcome(p.providerState, p.evidence, p.errorCode);
      ClearCall();
      SetNeeds(result == WaitingExternal, ambiguous, p.retryable);
    }

    method ApplyResultInPlace(p: Payload, result: NormalizedState, preserveAmbiguous: bool)
      modifies this
      ensures View() == ApplyResult(old(View()), p, result, preserveAmbiguous)
    {
      RecordResult(p, result, preserveAmbiguous && ambiguous && result == WaitingExternal);
    }

    method AcquireLease(lease: Lease) returns (ok: bool)
      modifies this
      ensures ok == (!old(View()).leaseActive && (Startable(old(View())) || old(View()).reconcileRequired))
      ensures View() == if ok then old(View()).(leaseActive := true, lease := lease) else old(View())
    {
      if leaseActive { return false; }
      if state != Ready && state != Blocked && !(state == Failed && retryable)
         && !reconcileRequired { return false; }
      SetLease(lease);
      ok := true;
    }

    method RenewLease(lease: Lease) returns (ok: bool)
      modifies this
      ensures ok == (LeaseMatches(old(View()), lease) && old(View()).lease.expiresAt < lease.expiresAt)
      ensures View() == if ok then old(View()).(lease := old(View()).lease.(expiresAt := lease.expiresAt))
              else old(View())
    {
      if !leaseActive || this.lease.id != lease.id || this.lease.owner != lease.owner
         || this.lease.acquiredAt != lease.acquiredAt { return false; }
      if lease.expiresAt <= this.lease.expiresAt { return false; }
      this.lease := this.lease.(expiresAt := lease.expiresAt);
      ok := true;
    }

    method EndLease(lease: Lease, expired: bool, observedAt: int) returns (ok: bool)
      modifies this
      ensures ok == (LeaseMatches(old(View()), lease) && (expired ==> old(View()).lease.expiresAt <= observedAt))
      ensures View() == if ok then old(View()).(leaseActive := false) else old(View())
    {
      if !leaseActive || this.lease.id != lease.id || this.lease.owner != lease.owner
         || this.lease.acquiredAt != lease.acquiredAt { return false; }
      if expired && observedAt < this.lease.expiresAt { return false; }
      leaseActive := false;
      ok := true;
    }

    method HandleLease(e: Event) returns (ok: bool)
      requires LeaseKind(e.entry.kind)
      modifies this
      ensures match OperationTransition(old(View()), e, false)
              case Some(r) => ok && View() == r
              case None => !ok && View() == old(View())
    {
      if e.entry.payload.lease.None? { return false; }
      var lease := e.entry.payload.lease.value;
      if e.entry.kind.LeaseAcquired? {
        ok := AcquireLease(lease);
      } else if e.entry.kind.LeaseRenewed? {
        ok := RenewLease(lease);
      } else {
        ok := EndLease(lease, e.entry.kind.LeaseExpired?, e.observedAt);
      }
    }

    method BeginAttempt(p: Payload, dependenciesPublished: bool) returns (ok: bool)
      modifies this
      ensures ok == (Startable(old(View())) && !old(View()).reconcileRequired
                     && p.attempt == Increment32(old(View()).attempt) && dependenciesPublished)
      ensures View() == if ok then StartAttempt(old(View()), p.attempt) else old(View())
    {
      if state != Ready && state != Blocked && !(state == Failed && retryable) {
        return false;
      }
      if reconcileRequired { return false; }
      if p.attempt != Increment32(attempt) { return false; }
      if !dependenciesPublished { return false; }
      ClearAttempt(p.attempt);
      ok := true;
    }

    method ExplicitResult(e: Event) returns (ok: bool)
      modifies this
      ensures match ExplicitResultTransition(old(View()), e)
              case Some(r) => ok && View() == r
              case None => !ok && View() == old(View())
    {
      var p := e.entry.payload;
      var result := ExplicitResultState(e.entry.kind);
      if reconciling {
        if !reconcileRequired || p.attempt != attempt { return false; }
        ApplyResultInPlace(p, result, true);
        return true;
      }
      if state != Running || p.attempt != attempt { return false; }
      if op.sideEffecting && !dispatched && result != Failed { return false; }
      ApplyResultInPlace(p, result, false);
      ok := true;
    }

    /** A refusal may leave the blocked counter already incremented: Reduce discards the record then. */
    method StatedResult(p: Payload) returns (ok: bool)
      modifies this
      ensures match StatedResultTransition(old(View()), p)
              case Some(r) => ok && View() == r
              case None => !ok
    {
      if state != Running || p.attempt != attempt { return false; }
      if p.state == Blocked {
        if providerStarted || dispatched || reconcileRequired { return false; }
        blockedAttempts := Increment32(blockedAttempts);
      }
      if op.sideEffecting && !dispatched
         && p.state != Blocked && p.state != Failed && p.state != Cancelled { return false; }
      ApplyResultInPlace(p, p.state, false);
      ok := true;
    }

    method Authorize(p: Payload) returns (ok: bool)
      modifies this
      ensures ok == (RetryAuthorizable(old(View())) && p.attempt == old(View()).attempt)
      ensures View() == if ok then AuthorizeRetry(old(View())) else old(View())
    {
      if !op.sideEffecting || op.provider.name != "npm" || op.kind != "publish" ||
         state != WaitingExternal || !reconcileRequired || !ambiguous ||
         !observedAbsent || reconciling || leaseActive || p.attempt != attempt {
        return false;
      }
      GrantRetry();
      ok := true;
    }

    /** The branches for the dispatch of a side effect and for its loss. */
    method HandleSideEffect(e: Event) returns (ok: bool)
      requires e.entry.kind.SideEffectDispatched? || e.entry.kind.OutcomeAmbiguous?
      modifies this
      ensures match OperationTransition(old(View()), e, false)
              case Some(r) => ok && View() == r
              case None => !ok && View() == old(View())
    {
      if e.entry.payload.attempt != attempt { return false; }
      if e.entry.kind.SideEffectDispatched? {
        if !op.sideEffecting || state != Running || dispatched { return false; }
        Dispatch();
      } else {
        if !op.sideEffecting || !dispatched || state != Running { return false; }
        LoseOutcome(e.entry.payload.errorCode);
      }
      ok := true;
    }

    /** The branches for provider calls of a started attempt. */
    method HandleCall(e: Event) returns (ok: bool)
      requires var k := e.entry.kind;
        k.CredentialResolved? || k.ProviderProcessStarted? || k.ProviderResponseReceived? || k.ReconcileStarted?
      modifies this
      ensures match OperationTransition(old(View()), e, false)
              case Some(r) => ok && View() == r
              case None => !ok && View() == old(View())
    {
      var kind := e.entry.kind;
      if e.entry.payload.attempt != attempt { return false; }
      if kind.CredentialResolved? {
        if reconciling { return true; }
        if state != Running || dispatched { return false; }
      } else if kind.ProviderProcessStarted? {
        if state != Running && !reconciling { return false; }
        if providerStarted { return false; }
        StartCall(false);
      } else if kind.ProviderResponseReceived? {
        if !providerStarted || providerResponded { return false; }
        providerResponded := true;
      } else {
        if !reconcileRequired || reconciling { return false; }
        StartCall(true);
      }
      ok := true;
    }

    /** The branches that schedule, cancel or authorize. */
    method HandleSchedule(e: Event) returns (ok: bool)
      requires e.entry.kind in {OperationReady, OperationCancelled, RetryAuthorized}
      modifies this
      ensures match OperationTransition(old(View()), e, false)
              case Some(r) => ok && View() == r
              case None => !ok && View() == old(View())
    {
      if e.entry.kind.OperationReady? {
        if state != Ready || readyJournaled { return false; }
        readyJournaled := true;
        ok := true;
      } else if e.entry.kind.OperationCancelled? {
        if state != Planned && state != Ready { return false; }
        Cancel(e.entry.payload.errorCode);
        ok := true;
      } else {
        ok := Authorize(e.entry.payload);
      }
    }

    method HandleReconcileResult(p: Payload) returns (ok: bool)
      modifies this
      ensures ok == (old(View()).reconcileRequired && old(View()).reconciling && p.attempt == old(View()).attempt)
      ensures View() == if ok then ApplyResult(old(View()), p, p.state, true).(observedAbsent := ObservesAbsence(p))
                        else old(View())
    {
      if !reconcileRequired || !reconciling || p.attempt != attempt { return false; }
      ApplyResultInPlace(p, p.state, true);
      observedAbsent := ObservesAbsence(p);
      ok := true;
    }

    /** The branch of the event switch that concerns this record alone. */
    method Take(e: Event, dependenciesPublished: bool) returns (ok: bool)
      modifies this
      ensures match OperationTransition(old(View()), e, dependenciesPublished)
              case Some(r) => ok && View() == r
              case None => !ok
    {
      var p := e.entry.payload;
      match e.entry.kind
      case OperationReady => ok := HandleSchedule(e);
      case OperationCancelled => ok := HandleSchedule(e);
      case RetryAuthorized => ok := HandleSchedule(e);
      case LeaseAcquired => ok := HandleLease(e);
      case LeaseRenewed => ok := HandleLease(e);
      case LeaseExpired => ok := HandleLease(e);
      case LeaseReleased => ok := HandleLease(e);
      case AttemptStarted => ok := BeginAttempt(p, dependenciesPublished);
      case CredentialResolved => ok := HandleCall(e);
      case ProviderProcessStarted => ok := HandleCall(e);
      case SideEffectDispatched => ok := HandleSideEffect(e);
      case ProviderResponseReceived => ok := HandleCall(e);
      case OutcomeAmbiguous => ok := HandleSideEffect(e);
      case ReconcileStarted => ok := HandleCall(e);
      case OperationWaitingExternal => ok := ExplicitResult(e);
      case OperationPublished => ok := ExplicitResult(e);
      case OperationRejected => ok := ExplicitResult(e);
      case OperationFailed => ok := ExplicitResult(e);
      case OperationResult => ok := StatedResult(p);
      case ReconcileResult => ok := HandleReconcileResult(p);
      case _ => ok := false;
    }
  }

  type OperationMap = map<OperationID, MutableOperation>

  /** Distinct operations own distinct records. */
  ghost predicate Separate(operations: OperationMap) {
    forall a, b :: a in operations && b in operations && a != b ==> operations[a] != operations[b]
  }

  ghost function Views(operations: OperationMap): Records
    reads operations.Values
  {
    map id | id in operations :: operations[id].View()
  }

  method DependenciesPublishedIn(op: Operation, operations: OperationMap) returns (published: bool)
    ensures published == DependenciesPublished(op, Views(operations))
  {
    hide MutableOperation.View;
    for i := 0 to |op.dependencies|
      invariant forall d :: d in op.dependencies[..i] ==> d in operations && operations[d].View().state == Published
    {
      var d := op.dependencies[i];
      if d !in operations || operations[d].View().state != Published {
        assert d in op.dependencies;
        return false;
      }
    }
    assert op.dependencies[..|op.dependencies|] == op.dependencies;
    published := true;
  }

  /**
   A pass over the records in an arbitrary map order. A record made ready earlier in the
   pass cannot influence a later one, so the result is the simultaneous RefreshReady.
   */
  method RefreshReadyInPlace(operations: OperationMap)
    requires Separate(operations)
    modifies operations.Values
    ensures Views(operations) == old(RefreshReady(Views(operations)))
  {
    hide MutableOperation.View, RefreshRecord;
    ghost var before := Views(operations);
    var pending := operations.Keys;
    while pending != {}
      invariant pending <= operations.Keys
      invariant forall id :: id in operations ==>
        operations[id].View() == if id in pending then before[id] else RefreshRecord(before[id], before)
      decreases pending
    {
      var id :| id in pending;
      PromoteOne(operations, id, before);
      pending := pending - {id};
    }
  }

  /** One turn of the pass: the record is as before the pass, the others are as before it or refreshed. */
  method PromoteOne(operations: OperationMap, id: OperationID, ghost before: Records)
    requires Separate(operations) && id in operations && before.Keys == operations.Keys
    requires forall j :: j in operations ==>
               operations[j].View() == before[j] || operations[j].View() == RefreshRecord(before[j], before)
    requires operations[id].View() == before[id]
    modifies operations[id]
    ensures operations[id].View() == RefreshRecord(before[id], before)
  {
    hide MutableOperation.View, DependenciesPublished;
    var operation := operations[id];
    var published := DependenciesPublishedIn(operation.View().op, operations);
    RefreshKeepsPublished(before, Views(operations), operation.View().op);
    operation.Promote(published);
  }

  /** Whether dependencies are published does not change while a refresh is under way. */
  lemma RefreshKeepsPublished(before: Records, now: Records, op: Operation)
    requires now.Keys == before.Keys
    requires forall id :: id in before ==> now[id] == before[id] || now[id] == RefreshRecord(before[id], before)
    ensures DependenciesPublished(op, now) == DependenciesPublished(op, before)
  {
    assert forall id :: id in before ==> (now[id].state == Published <==> before[id].state == Published);
  }

  method CancelRemainingInPlace(operations: OperationMap)
    requires Separate(operations)
    modifies operations.Values
    ensures Views(operations) == old(CancelRemaining(Views(operations)))
  {
    hide MutableOperation.View;
    ghost var before := Views(operations);
    var pending := operations.Keys;
    while pending != {}
      invariant pending <= operations.Keys
      invariant forall id :: id in operations ==>
        operations[id].View() == if id in pending then before[id] else CancelRecord(before[id])
      decreases pending
    {
      var id :| id in pending;
      var operation := operations[id];
      operation.CancelWithRun();
      pending := pending - {id};
    }
  }

  method AllQuiescentIn(operations: OperationMap) returns (quiescent: bool)
    ensures quiescent == AllQuiescent(Views(operations))
  {
    hide MutableOperation.View;
    var pending := operations.Keys;
    while pending != {}
      invariant pending <= operations.Keys
      invariant forall id :: id in operations && id !in pending ==> Quiescent(operations[id].View())
      decreases pending
    {
      var id :| id in pending;
      var record := operations[id].View();
      if record.reconcileRequired || record.leaseActive || !Terminal(record.state) {
        assert !Quiescent(Views(operations)[id]);
        return false;
      }
      pending := pending - {id};
    }
    quiescent := true;
  }

  method NewOperations(plan: Plan) returns (operations: OperationMap)
    ensures Separate(operations) && fresh(operations.Values)
    ensures operations.Keys == plan.operations.Keys
    ensures Views(operations) == InitialState(plan).records
  {
    hide MutableOperation.View;
    operations := map[];
    var pending := plan.operations.Keys;
    while pending != {}
      invariant pending <= plan.operations.Keys && operations.Keys == plan.operations.Keys - pending
      invariant Separate(operations)
      invariant forall id :: id in operations ==> fresh(operations[id])
      invariant forall id :: id in operations ==> operations[id].View() == NewRecord(plan.operations[id])
      decreases pending
    {
      var id :| id in pending;
      var operation := new MutableOperation(plan.operations[id]);
      assert operation !in operations.Values;
      operations := operations[id := operation];
      pending := pending - {id};
    }
  }

  /** The branch of the event switch for an event that names an operation. */
  method OperationStepInPlace(operations: OperationMap, e: Event) returns (error: Option<ReduceError>)
    requires Separate(operations)
    requires !RunLifecycle(e.entry.kind)
    modifies operations.Values
    ensures forall st: RunState :: st.records == old(Views(operations)) ==>
              match OperationStep(st, e)
              case Ok(after) => error == None && Views(operations) == after.records
              case Err(refusal) => error == Some(refusal)
  {
    hide MutableOperation.View;
    var id := e.entry.operationId;
    if id !in operations { return Some(UnknownOperation); }
    var operation := operations[id];
    if e.entry.targetId != operation.View().op.target { return Some(TargetMismatch); }
    ghost var before := Views(operations);
    var published := DependenciesPublishedIn(operation.View().op, operations);
    var ok := operation.Take(e, published);
    if !ok { return Some(RefusedTransition); }
    assert Views(operations) == before[id := operation.View()];
    if Refreshes(e.entry.kind) {
      RefreshReadyInPlace(operations);
    }
    error := None;
  }

  /** One turn of the event loop, after the admission checks. */
  method RunStepInPlace(planId: PlanID, operations: OperationMap, ghost st: RunState, e: Event,
                        wasStarted: bool, wasCompleted: bool, wasCancelled: bool)
    returns (error: Option<ReduceError>, started: bool, completed: bool, cancelled: bool)
    requires Separate(operations) && st.records == Views(operations)
    requires st.started == wasStarted && st.completed == wasCompleted && st.cancelled == wasCancelled
    modifies operations.Values
    ensures match RunStep(planId, st, e)
            case Err(refusal) => error == Some(refusal)
            case Ok(after) =>
              && error == None && after.records == Views(operations)
              && after == st.(started := started, completed := completed, cancelled := cancelled,
                              records := after.records)
  {
    started, completed, cancelled := wasStarted, wasCompleted, wasCancelled;
    error := None;
    if e.entry.kind.RunStarted? {
      if started { error := Some(AlreadyStarted); return; }
      if e.entry.planId != planId { error := Some(PlanMismatch); return; }
      started := true;
      RefreshReadyInPlace(operations);
    } else if e.entry.kind.RunCompleted? {
      var quiescent := AllQuiescentIn(operations);
      if !quiescent { error := Some(NotQuiescent); return; }
      completed := true;
    } else if e.entry.kind.RunCancelled? {
      cancelled := true;
      CancelRemainingInPlace(operations);
    } else {
      error := OperationStepInPlace(operations, e);
    }
  }

  /** The IDs of a target's operations, in an arbitrary order. */
  method OperationsOfTarget(operations: OperationMap, target: TargetID) returns (ids: seq<OperationID>)
    ensures forall id :: id in ids <==> id in operations && operations[id].View().op.target == target
  {
    hide MutableOperation.View;
    ids := [];
    var pending := operations.Keys;
    while pending != {}
      invariant pending <= operations.Keys
      invariant forall id :: id in ids <==>
        id in operations && id !in pending && operations[id].View().op.target == target
      decreases pending
    {
      var id :| id in pending;
      if operations[id].View().op.target == target { ids := ids + [id]; }
      pending := pending - {id};
    }
  }

  /** Which states occur among the listed operations, and whether published is the only one. */
  method ScanStates(ids: seq<OperationID>, operations: OperationMap)
    returns (allPublished: bool, seen: set<NormalizedState>)
    requires forall id :: id in ids ==> id in operations
    ensures allPublished == forall id :: id in ids ==> operations[id].View().state == Published
    ensures forall s :: s in seen <==> exists id :: id in ids && operations[id].View().state == s
  {
    hide MutableOperation.View;
    allPublished, seen := true, {};
    for i := 0 to |ids|
      invariant allPublished == forall id :: id in ids[..i] ==> operations[id].View().state == Published
      invariant forall s :: s in seen <==> exists id :: id in ids[..i] && operations[id].View().state == s
    {
      assert ids[..i + 1] == ids[..i] + [ids[i]];
      var current := operations[ids[i]].View().state;
      seen := seen + {current};
      if current != Published { allPublished := false; }
    }
    assert ids[..|ids|] == ids;
  }

  /** The listed operations are those of the target, so their states are the target's. */
  lemma ScannedTarget(ids: seq<OperationID>, records: Records, target: TargetID, allPublished: bool,
                      seen: set<NormalizedState>)
    requires forall id :: id in ids <==> id in records && records[id].op.target == target
    requires allPublished == forall id :: id in ids ==> records[id].state == Published
    requires forall s :: s in seen <==> exists id :: id in ids && records[id].state == s
    ensures allPublished == TargetPublished(records, target)
    ensures forall s :: s in seen <==> TargetHas(records, target, s)
  {
    forall s ensures s in seen <==> TargetHas(records, target, s) {
      if s in seen {
        var id :| id in ids && records[id].state == s;
        assert id in records && records[id].op.target == target && records[id].state == s;
      }
    }
  }

  method AggregateTargetIn(ids: seq<OperationID>, operations: OperationMap, target: TargetID)
    returns (state: NormalizedState)
    requires forall id :: id in ids <==> id in operations && operations[id].View().op.target == target
    ensures state == AggregateTarget(Views(operations), target)
  {
    hide MutableOperation.View;
    var allPublished, seen := ScanStates(ids, operations);
    ghost var records := Views(operations);
    ScannedTarget(ids, records, target, allPublished, seen);
    hide Views, TargetHas, TargetPublished;
    if allPublished { return Published; }
    for i := 0 to |AGGREGATION_ORDER|
      invariant FirstPresent(records, target, AGGREGATION_ORDER)
                == FirstPresent(records, target, AGGREGATION_ORDER[i..])
    {
      if AGGREGATION_ORDER[i] in seen { return AGGREGATION_ORDER[i]; }
    }
    state := Planned;
  }

  method DeriveTargets(ids: set<TargetID>, started: bool, operations: OperationMap)
    returns (targets: map<TargetID, TargetState>)
    ensures targets == DeriveTargetMap(ids, started, Views(operations))
  {
    targets := map[];
    ghost var expected := DeriveTargetMap(ids, started, Views(operations));
    var pending := ids;
    while pending != {}
      invariant pending <= ids && targets.Keys == ids - pending
      invariant forall t :: t in targets ==> targets[t] == expected[t]
      decreases pending
    {
      var target :| target in pending;
      var derived := DeriveOneTarget(started, operations, target);
      assert derived == expected[target];
      targets := targets[target := derived];
      pending := pending - {target};
    }
  }

  method TargetFlags(ids: seq<OperationID>, operations: OperationMap) returns (reconcileRequired: bool, ambiguous: bool)
    requires forall id :: id in ids ==> id in operations
    ensures reconcileRequired == exists id :: id in ids && operations[id].View().reconcileRequired
    ensures ambiguous == exists id :: id in ids && operations[id].View().ambiguous
  {
    hide MutableOperation.View;
    reconcileRequired, ambiguous := false, false;
    for i := 0 to |ids|
      invariant reconcileRequired == exists id :: id in ids[..i] && operations[id].View().reconcileRequired
      invariant ambiguous == exists id :: id in ids[..i] && operations[id].View().ambiguous
    {
      assert ids[..i + 1] == ids[..i] + [ids[i]];
      var record := operations[ids[i]].View();
      reconcileRequired, ambiguous := reconcileRequired || record.reconcileRequired, ambiguous || record.ambiguous;
    }
    assert ids[..|ids|] == ids;
  }

  method DeriveOneTarget(started: bool, operations: OperationMap, target: TargetID) returns (derived: TargetState)
    ensures derived == DeriveTarget(started, Views(operations), target)
  {
    hide MutableOperation.View, AggregateTarget;
    var ids := OperationsOfTarget(operations, target);
    var state := Planned;
    if started {
      if |ids| == 0 {
        EmptyTarget(Views(operations), target);
        state := Published;
      } else {
        state := AggregateTargetIn(ids, operations, target);
      }
    }
    var reconcileRequired, ambiguous := TargetFlags(ids, operations);
    ghost var records := Views(operations);
    assert forall id :: id in records && records[id].op.target == target <==> id in ids;
    derived := TargetState(state, reconcileRequired, ambiguous);
  }

  lemma EmptyTarget(records: Records, target: TargetID)
    requires forall id :: id in records ==> records[id].op.target != target
    ensures AggregateTarget(records, target) == Published
  {
  }

  method Snapshot(operations: OperationMap) returns (records: Records)
    ensures records == Views(operations)
  {
    records := map id | id in operations :: operations[id].View();
  }

  /** Reduce, with its mutable records and its flags: it computes the derived state of the replayed journal. */
  method Reduce(plan: Plan, events: seq<Event>) returns (result: Result<DerivedState, ReduceError>)
    ensures match Replay(plan, events)
            case Err(error) => result == Err(error)
            case Ok(st) => result == Ok(Derive(plan, st))
  {
    if !ValidIdentifier(plan.id) { return Err(InvalidPlan); }
    var operations := NewOperations(plan);
    var runId := "";
    var started, completed, cancelled := false, false, false;
    var expected := 1;
    ghost var st := InitialState(plan);
    for i := 0 to |events|
      invariant Separate(operations) && fresh(operations.Values) && operations.Keys == plan.operations.Keys
      invariant ReplayFrom(plan.id, InitialState(plan), events[..i]) == Ok(st)
      invariant st == RunState(runId, started, completed, cancelled, expected, Views(operations))
    {
      var e := events[i];
      ReplayExtends(plan.id, InitialState(plan), events, i);
      if !ValidEvent(e) { return Err(InvalidEvent); }
      if e.sequence != expected { return Err(BadSequence); }
      expected := expected + 1;
      if runId != "" && e.entry.runId != runId { return Err(MultipleRuns); }
      runId := e.entry.runId;
      if !started && !e.entry.kind.RunStarted? { return Err(FirstEventNotStart); }
      if completed { return Err(AfterTerminalEvent); }
      if cancelled && !AllowedAfterRunCancellation(e.entry.kind) { return Err(AfterRunCancellation); }
      ghost var admitted := st.(runId := runId, next := expected);
      var error: Option<ReduceError>;
      error, started, completed, cancelled :=
        RunStepInPlace(plan.id, operations, admitted, e, started, completed, cancelled);
      if error.Some? { return Err(error.value); }
      st := RunStep(plan.id, admitted, e).value;
    }
    assert events[..|events|] == events;
    var targets := DeriveTargets(TargetIDs(plan), started, operations);
    var records := Snapshot(operations);
    result := Ok(DerivedState(runId, started, completed, cancelled, records, targets));
  }

  /** A prefix that fails makes the whole journal fail with the same error; one that succeeds takes one more step. */
  lemma ReplayExtends(planId: PlanID, st: RunState, events: seq<Event>, i: nat)
    requires i < |events| && ReplayFrom(planId, st, events[..i]).Ok?
    ensures ReplayFrom(planId, st, events[..i + 1])
            == Step(planId, ReplayFrom(planId, st, events[..i]).value, events[i])
    ensures ReplayFrom(planId, st, events[..i + 1]).Err? ==>
              ReplayFrom(planId, st, events) == ReplayFrom(planId, st, events[..i + 1])
  {
    assert events[..i + 1][..i] == events[..i];
    if ReplayFrom(planId, st, events[..i + 1]).Err? {
      FailurePersists(planId, st, events, i + 1);
    }
  }

  lemma {:induction false} FailurePersists(planId: PlanID, st: RunState, events: seq<Event>, i: nat)
    requires i <= |events| && ReplayFrom(planId, st, events[..i]).Err?
    ensures ReplayFrom(planId, st, events) == ReplayFrom(planId, st, events[..i])
    decreases |events|
  {
    if i == |events| {
      assert events[..i] == events;
    } else {
      var shorter := events[..|events| - 1];
      assert shorter[..i] == events[..i];
      FailurePersists(planId, st, shorter, i);
    }
  }
}
