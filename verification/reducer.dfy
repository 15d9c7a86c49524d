/**
 The reducer as a function: one event takes one run state to the next, and a
 journal is replayed from the empty state (internal/journal/reducer.go).
 ReducerInPlace mutates records the way the source does and is proved equal to
 these functions; the other modules prove what they guarantee.
 */
module Reducer {
  import opened Domain
  import opened Events

  /** One operation's record, including the fields that the derived state hides. */
  datatype Record = Record(
    op: Operation,
    state: NormalizedState,
    attempt: Uint32,
    blockedAttempts: Uint32,
    readyJournaled: bool,
    leaseActive: bool,
    lease: Lease,
    providerStarted: bool,
    providerResponded: bool,
    reconcileRequired: bool,
    ambiguous: bool,
    retryable: bool,
    providerState: string,
    evidence: Evidence,
    errorCode: string,
    observedAbsent: bool,
    dispatched: bool,
    reconciling: bool)

  type Records = map<OperationID, Record>

  datatype RunState = RunState(
    runId: RunID,
    started: bool,
    completed: bool,
    cancelled: bool,
    next: nat,
    records: Records)

  datatype ReduceError =
    | InvalidPlan
    | InvalidEvent
    | BadSequence
    | MultipleRuns
    | FirstEventNotStart
    | AfterTerminalEvent
    | AfterRunCancellation
    | AlreadyStarted
    | PlanMismatch
    | NotQuiescent
    | UnknownOperation
    | TargetMismatch
    | RefusedTransition

  const NO_LEASE := Lease("", "", 0, 0)

  function NewRecord(op: Operation): Record {
    Record(op, Planned, 0, 0, false, false, NO_LEASE, false, false, false, false, false, "", NoEvidence, "",
           false, false, false)
  }

  function InitialState(plan: Plan): RunState {
    RunState("", false, false, false, 1, map id | id in plan.operations :: NewRecord(plan.operations[id]))
  }

  predicate DependenciesPublished(op: Operation, records: Records) {
    forall d | d in op.dependencies :: d in records && records[d].state == Published
  }

  function RefreshRecord(r: Record, records: Records): Record {
    if r.state == Planned && DependenciesPublished(r.op, records) then r.(state := Ready) else r
  }

  /** Every planned operation whose dependencies are all published becomes ready. */
  function RefreshReady(records: Records): Records {
    map id | id in records :: RefreshRecord(records[id], records)
  }

  predicate Terminal(state: NormalizedState) {
    state == Published || state == Rejected || state == Failed || state == Cancelled
  }

  predicate Quiescent(r: Record) {
    !r.reconcileRequired && !r.leaseActive && Terminal(r.state)
  }

  predicate AllQuiescent(records: Records) {
    forall id | id in records :: Quiescent(records[id])
  }

  predicate CancelledWithRun(state: NormalizedState) {
    state == Planned || state == Ready || state == Running || state == Failed || state == Blocked
  }

  function CancelRecord(r: Record): Record {
    if !r.reconcileRequired && CancelledWithRun(r.state)
    then r.(state := Cancelled, retryable := false, errorCode := "RUN_CANCELLED")
    else r
  }

  function CancelRemaining(records: Records): Records {
    map id | id in records :: CancelRecord(records[id])
  }

  predicate AllowedAfterRunCancellation(kind: EventKind) {
    || LeaseKind(kind)
    || ExplicitResultKind(kind)
    || kind.CredentialResolved? || kind.ProviderProcessStarted? || kind.ProviderResponseReceived?
    || kind.ReconcileStarted? || kind.ReconcileResult?
  }

  predicate Startable(r: Record) {
    r.state == Ready || r.state == Blocked || (r.state == Failed && r.retryable)
  }

  predicate LeaseMatches(r: Record, lease: Lease) {
    && r.leaseActive
    && r.lease.id == lease.id
    && r.lease.owner == lease.owner
    && r.lease.acquiredAt == lease.acquiredAt
  }

  function ApplyResult(r: Record, p: Payload, state: NormalizedState, preserveAmbiguous: bool): Record {
    var reconcileRequired := state == WaitingExternal;
    r.(state := state,
       providerState := p.providerState,
       evidence := p.evidence,
       errorCode := p.errorCode,
       retryable := p.retryable,
       dispatched := false,
       reconciling := false,
       providerStarted := false,
       providerResponded := false,
       reconcileRequired := reconcileRequired,
       ambiguous := preserveAmbiguous && r.ambiguous && reconcileRequired)
  }

  function StartAttempt(r: Record, attempt: Uint32): Record {
    r.(state := Running,
       attempt := attempt,
       dispatched := false,
       reconciling := false,
       providerStarted := false,
       providerResponded := false,
       reconcileRequired := false,
       ambiguous := false,
       retryable := false,
       providerState := "",
       evidence := NoEvidence,
       errorCode := "",
       observedAbsent := false)
  }

  predicate RetryAuthorizable(r: Record) {
    && r.op.sideEffecting && r.op.provider.name == "npm" && r.op.kind == "publish"
    && r.state == WaitingExternal && r.reconcileRequired && r.ambiguous && r.observedAbsent
    && !r.reconciling && !r.leaseActive
  }

  function AuthorizeRetry(r: Record): Record {
    r.(observedAbsent := false,
       state := Ready,
       retryable := false,
       reconcileRequired := false,
       ambiguous := false,
       providerState := "",
       evidence := NoEvidence,
       errorCode := "")
  }

  predicate ObservesAbsence(p: Payload) {
    p.state == WaitingExternal && p.providerState == "absent" && p.errorCode == ""
  }

  function LeaseTransition(r: Record, e: Event): Option<Record>
    requires e.entry.payload.lease.Some?
  {
    var lease := e.entry.payload.lease.value;
    match e.entry.kind
    case LeaseAcquired =>
      if !r.leaseActive && (Startable(r) || r.reconcileRequired)
      then Some(r.(leaseActive := true, lease := lease)) else None
    case LeaseRenewed =>
      if LeaseMatches(r, lease) && r.lease.expiresAt < lease.expiresAt
      then Some(r.(lease := r.lease.(expiresAt := lease.expiresAt))) else None
    case LeaseExpired =>
      if LeaseMatches(r, lease) && r.lease.expiresAt <= e.observedAt
      then Some(r.(leaseActive := false)) else None
    case _ =>
      if LeaseMatches(r, lease) then Some(r.(leaseActive := false)) else None
  }

  function ExplicitResultTransition(r: Record, e: Event): Option<Record> {
    var p := e.entry.payload;
    var state := ExplicitResultState(e.entry.kind);
    if r.reconciling then
      if r.reconcileRequired && p.attempt == r.attempt then Some(ApplyResult(r, p, state, true)) else None
    else if r.state != Running || p.attempt != r.attempt then None
    else if r.op.sideEffecting && !r.dispatched && state != Failed then None
    else Some(ApplyResult(r, p, state, false))
  }

  function StatedResultTransition(r: Record, p: Payload): Option<Record> {
    if r.state != Running || p.attempt != r.attempt then None
    else if p.state == Blocked && (r.providerStarted || r.dispatched || r.reconcileRequired) then None
    else if r.op.sideEffecting && !r.dispatched && p.state != Blocked && p.state != Failed && p.state != Cancelled then
              None
    else
      var counted :=
        if p.state == Blocked then r.(blockedAttempts := Increment32(r.blockedAttempts)) else r;
      Some(ApplyResult(counted, p, p.state, false))
  }

  /** What an event does to the record of the operation that it names, if it is acceptable there. */
  function OperationTransition(r: Record, e: Event, dependenciesPublished: bool): Option<Record> {
    var p := e.entry.payload;
    match e.entry.kind
    case OperationReady =>
      if r.state == Ready && !r.readyJournaled then Some(r.(readyJournaled := true)) else None
    case LeaseAcquired => if p.lease.Some? then LeaseTransition(r, e) else None
    case LeaseRenewed => if p.lease.Some? then LeaseTransition(r, e) else None
    case LeaseExpired => if p.lease.Some? then LeaseTransition(r, e) else None
    case LeaseReleased => if p.lease.Some? then LeaseTransition(r, e) else None
    case OperationCancelled =>
      if r.state == Planned || r.state == Ready
      then Some(r.(state := Cancelled, retryable := false, errorCode := p.errorCode)) else None
    case AttemptStarted =>
      if Startable(r) && !r.reconcileRequired && p.attempt == Increment32(r.attempt) && dependenciesPublished
      then Some(StartAttempt(r, p.attempt)) else None
    case CredentialResolved =>
      if p.attempt == r.attempt && (r.reconciling || (r.state == Running && !r.dispatched)) then Some(r) else None
    case ProviderProcessStarted =>
      if p.attempt == r.attempt && (r.state == Running || r.reconciling) && !r.providerStarted
      then Some(r.(providerStarted := true, providerResponded := false)) else None
    case SideEffectDispatched =>
      if r.op.sideEffecting && r.state == Running && p.attempt == r.attempt && !r.dispatched
      then Some(r.(dispatched := true, reconcileRequired := true, ambiguous := true)) else None
    case ProviderResponseReceived =>
      if p.attempt == r.attempt && r.providerStarted && !r.providerResponded
      then Some(r.(providerResponded := true)) else None
    case OutcomeAmbiguous =>
      if r.op.sideEffecting && r.dispatched && r.state == Running && p.attempt == r.attempt
      then Some(r.(reconcileRequired := true, ambiguous := true, retryable := false, errorCode := p.errorCode))
      else None
    case OperationWaitingExternal => ExplicitResultTransition(r, e)
    case OperationPublished => ExplicitResultTransition(r, e)
    case OperationRejected => ExplicitResultTransition(r, e)
    case OperationFailed => ExplicitResultTransition(r, e)
    case OperationResult => StatedResultTransition(r, p)
    case ReconcileStarted =>
      if r.reconcileRequired && p.attempt == r.attempt && !r.reconciling
      then Some(r.(reconciling := true, providerStarted := false, providerResponded := false)) else None
    case RetryAuthorized =>
      if RetryAuthorizable(r) && p.attempt == r.attempt then Some(AuthorizeRetry(r)) else None
    case ReconcileResult =>
      if r.reconcileRequired && r.reconciling && p.attempt == r.attempt
      then Some(ApplyResult(r, p, p.state, true).(observedAbsent := ObservesAbsence(p))) else None
    case _ => None
  }

  /** The event kinds after which the reducer looks for newly ready operations. */
  predicate Refreshes(kind: EventKind) {
    kind.OperationCancelled? || ExplicitResultKind(kind) || kind.OperationResult? || kind.ReconcileResult?
  }

  function UpdateRecords(records: Records, id: OperationID, r: Record, refresh: bool): Records {
    if refresh then RefreshReady(records[id := r]) else records[id := r]
  }

  function OperationStep(st: RunState, e: Event): Result<RunState, ReduceError> {
    var id := e.entry.operationId;
    if id !in st.records then Err(UnknownOperation)
    else if e.entry.targetId != st.records[id].op.target then Err(TargetMismatch)
    else
      match OperationTransition(st.records[id], e, DependenciesPublished(st.records[id].op, st.records))
      case None => Err(RefusedTransition)
      case Some(r) => Ok(st.(records := UpdateRecords(st.records, id, r, Refreshes(e.entry.kind))))
  }

  function RunStep(planId: PlanID, st: RunState, e: Event): Result<RunState, ReduceError> {
    match e.entry.kind
    case RunStarted =>
      if st.started then Err(AlreadyStarted)
      else if e.entry.planId != planId then Err(PlanMismatch)
      else Ok(st.(started := true, records := RefreshReady(st.records)))
    case RunCompleted =>
      if AllQuiescent(st.records) then Ok(st.(completed := true)) else Err(NotQuiescent)
    case RunCancelled => Ok(st.(cancelled := true, records := CancelRemaining(st.records)))
    case _ => OperationStep(st, e)
  }

  /** The checks that come before the event's own transition, in the source's order. */
  function Admission(st: RunState, e: Event): Option<ReduceError> {
    if !ValidEvent(e) then Some(InvalidEvent)
    else if e.sequence != st.next then Some(BadSequence)
    else if st.runId != "" && e.entry.runId != st.runId then Some(MultipleRuns)
    else if !st.started && !e.entry.kind.RunStarted? then Some(FirstEventNotStart)
    else if st.completed then Some(AfterTerminalEvent)
    else if st.cancelled && !AllowedAfterRunCancellation(e.entry.kind) then Some(AfterRunCancellation)
    else None
  }

  function Step(planId: PlanID, st: RunState, e: Event): Result<RunState, ReduceError> {
    match Admission(st, e)
    case Some(error) => Err(error)
    case None => RunStep(planId, st.(runId := e.entry.runId, next := st.next + 1), e)
  }

  function ReplayFrom(planId: PlanID, st: RunState, events: seq<Event>): Result<RunState, ReduceError>
    decreases |events|
  {
    if events == [] then Ok(st)
    else
      match ReplayFrom(planId, st, events[..|events| - 1])
      case Err(error) => Err(error)
      case Ok(last) => Step(planId, last, events[|events| - 1])
  }

  /** The state that a journal reduces to, or the error of its first unacceptable event. */
  function Replay(plan: Plan, events: seq<Event>): Result<RunState, ReduceError> {
    if !ValidIdentifier(plan.id) then Err(InvalidPlan)
    else ReplayFrom(plan.id, InitialState(plan), events)
  }

  predicate Reducible(plan: Plan, events: seq<Event>) {
    Replay(plan, events).Ok?
  }

  // Derived state

  datatype TargetState = TargetState(state: NormalizedState, reconcileRequired: bool, ambiguous: bool)

  datatype DerivedState = DerivedState(
    runId: RunID,
    started: bool,
    completed: bool,
    cancelled: bool,
    operations: Records,
    targets: map<TargetID, TargetState>)

  /** The states of a target's operations, in the order in which they decide the target's state. */
  const AGGREGATION_ORDER := [Rejected, Failed, Cancelled, Blocked, WaitingExternal, Running, Ready, Planned]

  ghost predicate TargetHas(records: Records, target: TargetID, state: NormalizedState) {
    exists id :: id in records && records[id].op.target == target && records[id].state == state
  }

  ghost predicate TargetPublished(records: Records, target: TargetID) {
    forall id :: id in records && records[id].op.target == target ==> records[id].state == Published
  }

  ghost function FirstPresent(records: Records, target: TargetID, order: seq<NormalizedState>): NormalizedState {
    if order == [] then Planned
    else if TargetHas(records, target, order[0]) then order[0]
    else FirstPresent(records, target, order[1..])
  }

  ghost function AggregateTarget(records: Records, target: TargetID): NormalizedState {
    if TargetPublished(records, target) then Published else FirstPresent(records, target, AGGREGATION_ORDER)
  }

  ghost function DeriveTarget(started: bool, records: Records, target: TargetID): TargetState {
    TargetState(
      if started then AggregateTarget(records, target) else Planned,
      exists id :: id in records && records[id].op.target == target && records[id].reconcileRequired,
      exists id :: id in records && records[id].op.target == target && records[id].ambiguous)
  }

  function TargetIDs(plan: Plan): set<TargetID> {
    (set t | t in plan.targets) + (set id | id in plan.operations :: plan.operations[id].target)
  }

  ghost function DeriveTargetMap(ids: set<TargetID>, started: bool, records: Records): map<TargetID, TargetState> {
    map t | t in ids :: DeriveTarget(started, records, t)
  }

  ghost function Derive(plan: Plan, st: RunState): DerivedState {
    DerivedState(
      st.runId, st.started, st.completed, st.cancelled, st.records,
      DeriveTargetMap(TargetIDs(plan), st.started, st.records))
  }
}
