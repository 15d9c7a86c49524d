/**
 Executors at work on one journal, as a machine of labelled steps. Every append is a
 step of its own, the tasks of a batch interleave freely, the driver answers anything,
 and the process may stop between any two appends; what a new process sees is the
 journal alone (internal/executor/executor.go).
 */
module Scheduler {
  import opened Domain
  import opened Events
  import opened Reducer
  import opened Executor

  datatype Config = Config(plan: Plan, runId: RunID, maxAttempts: Uint32)

  datatype TaskKind = ApplyTask | ReconcileTask

  /** A running task: its attempt, its lease handle's state and what its observer has recorded. */
  datatype Task = Task(
    kind: TaskKind,
    attempt: Uint32,
    lease: Lease,
    wasAmbiguous: bool,
    prepared: bool,
    started: bool,
    dispatched: bool,
    responded: bool,
    settled: bool,
    deferred: bool)

  /** Work decided from one snapshot of the state and appended item by item. */
  datatype Work =
    | ExpireWork(id: OperationID, lease: Lease)
    | ReadyWork(id: OperationID)
    | RecoverWork(id: OperationID, attempt: Uint32, code: string)
    | CancelWork(id: OperationID)
    | LaunchWork(id: OperationID, kind: TaskKind, attempt: Uint32, wasAmbiguous: bool)
    | StartWork(id: OperationID, kind: TaskKind, attempt: Uint32, wasAmbiguous: bool, lease: Lease)

  type Key = (OperationID, Uint32)

  /**
   The journal with the state it reduces to, and the executor's volatile part. broken is set by the
   first append that the reducer rejects; lost collects the attempts whose process stopped after dispatch.
   */
  datatype World = World(
    journal: seq<Event>,
    st: RunState,
    broken: bool,
    clock: int,
    pending: seq<Work>,
    tasks: map<OperationID, Task>,
    reconciled: set<Key>,
    deferred: set<Key>,
    failed: bool,
    reconcileOnly: bool,
    lost: set<Key>)

  function InitialWorld(cfg: Config): World {
    World([], InitialState(cfg.plan), false, 1, [], map[], {}, {}, false, false, {})
  }

  predicate Idle(w: World) {
    w.pending == [] && w.tasks == map[]
  }

  // Appending

  function RunEntry(cfg: Config, kind: EventKind): Entry {
    Entry(cfg.runId, if kind.RunStarted? then cfg.plan.id else "", kind, "", "", EMPTY_PAYLOAD)
  }

  function OperationEntry(cfg: Config, op: Operation, kind: EventKind, payload: Payload): Entry {
    Entry(cfg.runId, "", kind, op.id, op.target, payload)
  }

  function NextEvent(w: World, entry: Entry, now: int): Event {
    Event(SCHEMA_VERSION, |w.journal| + 1, entry, now)
  }

  /** The writer validates the entry, not the transition: what the reducer rejects is written all the same. */
  function Append(cfg: Config, w: World, entry: Entry, now: int): Option<World> {
    var e := NextEvent(w, entry, now);
    if w.broken || now < w.clock || !ValidEvent(e) then None
    else
      match Step(cfg.plan.id, w.st, e)
      case Ok(st) => Some(w.(journal := w.journal + [e], st := st, clock := now))
      case Err(_) => Some(w.(journal := w.journal + [e], broken := true, clock := now))
  }

  function AppendOperation(cfg: Config, w: World, id: OperationID, kind: EventKind, payload: Payload,
                           now: int): Option<World> {
    if id !in cfg.plan.operations then None
    else Append(cfg, w, OperationEntry(cfg, cfg.plan.operations[id], kind, payload), now)
  }

  function LeasePayload(lease: Lease): Payload {
    EMPTY_PAYLOAD.(lease := Some(lease))
  }

  function AttemptPayload(attempt: Uint32): Payload {
    EMPTY_PAYLOAD.(attempt := attempt)
  }

  // What the loop decides from the reduced state

  /** The attempts that count against the retry budget. */
  function Used(r: Record): Uint32 {
    Subtract32(r.attempt, r.blockedAttempts)
  }

  predicate LeaseRanOut(r: Record, now: int) {
    r.leaseActive && r.lease.expiresAt != 0 && r.lease.expiresAt <= now
  }

  predicate ReadyUnjournaled(r: Record) {
    r.state == Ready && !r.readyJournaled
  }

  /** An attempt that a stopped process left running before its side effect was dispatched. */
  predicate Interrupted(r: Record) {
    r.state == Running && !r.reconcileRequired && !r.leaseActive
  }

  function InterruptionCode(r: Record): string {
    if !r.providerStarted then "INTERRUPTED_BEFORE_PROVIDER"
    else if r.op.sideEffecting then "INTERRUPTED_BEFORE_DISPATCH"
    else "PROVIDER_INTERRUPTED"
  }

  predicate Exhausted(cfg: Config, r: Record) {
    r.state == Failed && (!r.retryable || Used(r) >= cfg.maxAttempts)
  }

  /** A state that a dependency keeps without ever being published. */
  predicate TerminalUnpublished(cfg: Config, r: Record) {
    r.state == Rejected || r.state == Cancelled || Exhausted(cfg, r)
  }

  predicate HasTerminalUnpublishedDependency(cfg: Config, op: Operation, records: Records) {
    exists d | d in op.dependencies :: d !in records || TerminalUnpublished(cfg, records[d])
  }

  predicate Doomed(cfg: Config, r: Record, records: Records) {
    (r.state == Planned || r.state == Ready) && HasTerminalUnpublishedDependency(cfg, r.op, records)
  }

  predicate ReconcileCandidate(w: World, id: OperationID, r: Record) {
    && !r.leaseActive && r.reconcileRequired
    && (id, r.attempt) !in w.reconciled && (id, r.attempt) !in w.deferred
  }

  predicate Applicable(cfg: Config, r: Record) {
    || r.state == Ready
    || r.state == Blocked
    || (r.state == Failed && r.retryable && Used(r) < cfg.maxAttempts)
  }

  predicate ApplyCandidate(cfg: Config, w: World, id: OperationID, r: Record) {
    && !r.leaseActive && !r.reconcileRequired
    && !w.st.cancelled && !w.reconcileOnly
    && (r.state == Blocked ==> (id, r.attempt) !in w.deferred)
    && Applicable(cfg, r)
  }

  predicate ExecutorQuiescent(cfg: Config, records: Records) {
    forall id | id in records ::
      var r := records[id];
      && !r.reconcileRequired && !r.leaseActive
      && (r.state == Published || r.state == Rejected || r.state == Cancelled || Exhausted(cfg, r))
  }

  // The work lists, each over some enumeration of the operations

  /** The passes of the loop, in the order in which one iteration tries them. */
  datatype Phase = Expiry | Readiness | Recovery | Cancellation | Batch

  predicate SkippedAfterCancellation(phase: Phase) {
    phase.Readiness? || phase.Recovery? || phase.Cancellation?
  }

  /** What a pass decides about one operation. */
  function Decide(cfg: Config, w: World, phase: Phase, id: OperationID, now: int): Option<Work>
    requires id in w.st.records
  {
    var r := w.st.records[id];
    match phase
    case Expiry => if LeaseRanOut(r, now) then Some(ExpireWork(id, r.lease)) else None
    case Readiness => if ReadyUnjournaled(r) then Some(ReadyWork(id)) else None
    case Recovery => if Interrupted(r) then Some(RecoverWork(id, r.attempt, InterruptionCode(r))) else None
    case Cancellation => if Doomed(cfg, r, w.st.records) then Some(CancelWork(id)) else None
    case Batch =>
      if ReconcileCandidate(w, id, r) then Some(LaunchWork(id, ReconcileTask, r.attempt, r.ambiguous))
      else if ApplyCandidate(cfg, w, id, r) then Some(LaunchWork(id, ApplyTask, Increment32(r.attempt), r.ambiguous))
      else None
  }

  /** A pass over the named operations; a batch is any selection of the candidates, in any order. */
  function WorkList(cfg: Config, w: World, phase: Phase, ids: seq<OperationID>, now: int): seq<Work> {
    if ids == [] then []
    else
      var rest := WorkList(cfg, w, phase, ids[1..], now);
      var work := if ids[0] in w.st.records then Decide(cfg, w, phase, ids[0], now) else None;
      if work.Some? then [work.value] + rest else rest
  }

  // Labels

  datatype TaskMove =
    | ResolveCredential(ref: string)
    | PreparationFails(contexts: Contexts, error: CallError)
    | ProviderStarts
    | DispatchSideEffect
    | ProviderResponds
    | ApplyReturns(answer: Answer)
    | ReconcileReturns(answer: Answer)
    | RenewLease(expiresAt: int)
    | ReleaseLease
    | LeaseTurnsOutExpired

  datatype Label =
    | BeginRun
    | CancelRun
    | CompleteRun
    | PlanPass(phase: Phase, ids: seq<OperationID>)
    | DoWork(lease: Lease)
    | SkipLaunch
    | AbandonStart(expired: bool)
    | Wait
    | MoveTask(id: OperationID, move: TaskMove)
    | RefuseOutcome(id: OperationID)
    | StopProcess(reconcileOnly: bool)
    | AuthorizeRetryOf(id: OperationID)

  predicate DistinctIds(ids: seq<OperationID>) {
    forall i, j | 0 <= i < j < |ids| :: ids[i] != ids[j]
  }

  /**
   The event that a task's move records, if the move is possible. A driver reports a start, a dispatch or a
   response only while its call runs, hence of an unsettled task: the provider host is synchronous.
   */
  function TaskReport(op: Operation, t: Task, move: TaskMove): Option<Outcome> {
    match move
    case ResolveCredential(ref) =>
      if t.started || t.settled then None
      else Some(Outcome(Report(CredentialResolved, AttemptPayload(t.attempt).(credentialRef := ref)), false, false))
    case PreparationFails(contexts, error) =>
      if t.prepared || t.settled then None
      else if t.kind.ApplyTask? then Some(PreparationOutcome(op.sideEffecting, t.attempt, contexts, error))
      else Some(ReconcileOutcome(t.attempt, t.wasAmbiguous, CallFailed(contexts, error)))
    case ProviderStarts =>
      if t.started || t.settled then None
      else Some(Outcome(Report(ProviderProcessStarted, AttemptPayload(t.attempt)), false, false))
    case DispatchSideEffect =>
      if !t.started || t.dispatched || t.settled then None
      else Some(Outcome(Report(SideEffectDispatched, AttemptPayload(t.attempt)), false, false))
    case ProviderResponds =>
      if !t.started || t.responded || t.settled then None
      else Some(Outcome(Report(ProviderResponseReceived, AttemptPayload(t.attempt)), false, false))
    case ApplyReturns(answer) =>
      if t.settled || !t.kind.ApplyTask? then None
      else Some(ApplyOutcome(op.sideEffecting, t.attempt, t.started, t.dispatched, answer))
    case ReconcileReturns(answer) =>
      if t.settled || !t.kind.ReconcileTask? then None
      else Some(ReconcileOutcome(t.attempt, t.wasAmbiguous, answer))
    case RenewLease(expiresAt) =>
      if expiresAt <= t.lease.expiresAt then None
      else Some(Outcome(Report(LeaseRenewed, LeasePayload(t.lease.(expiresAt := expiresAt))), false, false))
    case ReleaseLease =>
      if !t.settled then None else Some(Outcome(Report(LeaseReleased, LeasePayload(t.lease)), false, false))
    case LeaseTurnsOutExpired =>
      if !t.settled then None else Some(Outcome(Report(LeaseExpired, LeasePayload(t.lease)), false, true))
  }

  function TaskAfter(t: Task, move: TaskMove, outcome: Outcome): Task {
    match move
    case ResolveCredential(_) => t.(prepared := true)
    case ProviderStarts => t.(prepared := true, started := true)
    case DispatchSideEffect => t.(dispatched := true)
    case ProviderResponds => t.(responded := true)
    case RenewLease(expiresAt) => t.(lease := t.lease.(expiresAt := expiresAt))
    case ReleaseLease => t
    case LeaseTurnsOutExpired => t
    case _ => t.(settled := true, deferred := outcome.deferred)
  }

  /** A driver reports a dispatch only within an apply call of a side-effecting operation; the observer does not ask. */
  predicate BreaksContract(op: Operation, t: Task, move: TaskMove) {
    move.DispatchSideEffect? && (!t.kind.ApplyTask? || !op.sideEffecting)
  }

  predicate EndsTask(move: TaskMove) {
    move.ReleaseLease? || move.LeaseTurnsOutExpired?
  }

  /** The tasks and the key sets after a move; the sets are read only between batches. */
  function AfterMove(w: World, id: OperationID, t: Task, move: TaskMove, outcome: Outcome): World {
    var failed := w.failed || outcome.failed;
    if EndsTask(move) then
      var key := (id, t.attempt);
      w.(tasks := w.tasks - {id}, failed := failed,
         reconciled := if t.kind.ReconcileTask? then w.reconciled + {key} else w.reconciled,
         deferred := if t.deferred then w.deferred + {key} else w.deferred)
    else
      w.(tasks := w.tasks[id := TaskAfter(t, move, outcome)], failed := failed)
  }

  function PerformMove(cfg: Config, w: World, id: OperationID, move: TaskMove, now: int): Option<World> {
    if w.pending != [] || id !in w.tasks || id !in cfg.plan.operations then None
    else if move.LeaseTurnsOutExpired? && now < w.tasks[id].lease.expiresAt then None
    else
      var t := w.tasks[id];
      match TaskReport(cfg.plan.operations[id], t, move)
      case None => None
      case Some(outcome) =>
        match AppendOperation(cfg, w, id, outcome.report.kind, outcome.report.payload, now)
        case None => None
        case Some(appended) => Some(AfterMove(appended, id, t, move, outcome))
  }

  /** The event that a piece of work appends; lease is the one acquired for a launch. */
  function WorkReport(work: Work, lease: Lease): Report {
    match work
    case ExpireWork(_, held) => Report(LeaseExpired, LeasePayload(held))
    case ReadyWork(_) => Report(OperationReady, EMPTY_PAYLOAD)
    case RecoverWork(_, attempt, code) => ResultReport(attempt, Failed, "", NoEvidence, code, true)
    case CancelWork(_) => Report(OperationCancelled, EMPTY_PAYLOAD.(errorCode := "DEPENDENCY_TERMINAL"))
    case LaunchWork(_, _, _, _) => Report(LeaseAcquired, LeasePayload(lease))
    case StartWork(_, kind, attempt, _, _) =>
      if kind.ApplyTask? then
        Report(AttemptStarted, AttemptPayload(attempt).(reason := if attempt == 1 then Initial else Retry))
      else Report(ReconcileStarted, AttemptPayload(attempt).(reason := Reconcile))
  }

  function NewTask(work: Work): Task
    requires work.StartWork?
  {
    Task(work.kind, work.attempt, work.lease, work.wasAmbiguous, false, false, false, false, false, false)
  }

  /** A launch is followed at once by its start, and a start leaves a running task. */
  function AfterWork(w: World, work: Work, lease: Lease): World {
    match work
    case LaunchWork(id, kind, attempt, wasAmbiguous) =>
      w.(pending := [StartWork(id, kind, attempt, wasAmbiguous, lease)] + w.pending)
    case StartWork(id, _, _, _, _) => w.(tasks := w.tasks[id := NewTask(work)])
    case _ => w
  }

  /** Appends the next piece of decided work. */
  function PerformWork(cfg: Config, w: World, lease: Lease, now: int): Option<World>
    requires w.pending != []
  {
    var work := w.pending[0];
    var report := WorkReport(work, lease);
    match AppendOperation(cfg, w.(pending := w.pending[1..]), work.id, report.kind, report.payload, now)
    case None => None
    case Some(appended) => Some(AfterWork(appended, work, lease))
  }

  /**
   The writer refuses a start whose attempt number has wrapped; the executor gives the lease back and
   returns the error, and with it the rest of the batch.
   */
  function PerformAbandon(cfg: Config, w: World, expired: bool, now: int): Option<World>
    requires w.pending != [] && w.pending[0].StartWork?
  {
    var work := w.pending[0];
    var start := WorkReport(work, work.lease);
    if work.id !in cfg.plan.operations
       || ValidEntry(OperationEntry(cfg, cfg.plan.operations[work.id], start.kind, start.payload))
       || (expired && now < work.lease.expiresAt)
    then None
    else
      match AppendOperation(cfg, w.(pending := [], tasks := map[]), work.id,
                            if expired then LeaseExpired else LeaseReleased, LeasePayload(work.lease), now)
      case None => None
      case Some(appended) => Some(appended.(failed := true))
  }

  /** The dispatched attempts whose outcome a stopping process leaves open. */
  function OpenAttempts(records: Records): set<Key> {
    set id | id in records && records[id].dispatched :: (id, records[id].attempt)
  }

  function Perform(cfg: Config, w: World, step: Label, now: int): Option<World> {
    if w.broken then None
    else
      match step
      case BeginRun => if w.journal != [] then None else Append(cfg, w, RunEntry(cfg, RunStarted), now)
      case CancelRun =>
        if !Idle(w) || w.failed || !w.st.started || w.st.completed || w.st.cancelled then None
        else Append(cfg, w, RunEntry(cfg, RunCancelled), now)
      case CompleteRun =>
        if !Idle(w) || w.failed || !w.st.started || w.st.completed || w.st.cancelled
           || !ExecutorQuiescent(cfg, w.st.records)
        then None
        else Append(cfg, w, RunEntry(cfg, RunCompleted), now)
      case PlanPass(phase, ids) =>
        if !Schedules(w) || !DistinctIds(ids) || now < w.clock || (w.st.cancelled && SkippedAfterCancellation(phase))
        then None
        else Some(w.(pending := WorkList(cfg, w, phase, ids, now), clock := now))
      case DoWork(lease) => if w.pending == [] then None else PerformWork(cfg, w, lease, now)
      case SkipLaunch =>
        if w.pending == [] || !w.pending[0].LaunchWork? then None else Some(w.(pending := w.pending[1..]))
      case AbandonStart(expired) =>
        if w.pending == [] || !w.pending[0].StartWork? then None else PerformAbandon(cfg, w, expired, now)
      case Wait => if !Schedules(w) || now < w.clock then None else Some(w.(clock := now))
      case MoveTask(id, move) => PerformMove(cfg, w, id, move, now)
      case RefuseOutcome(id) =>
        if w.pending != [] || id !in w.tasks || w.tasks[id].settled then None
        else Some(w.(tasks := w.tasks[id := w.tasks[id].(settled := true)], failed := true))
      case StopProcess(reconcileOnly) =>
        Some(w.(pending := [], tasks := map[], reconciled := {}, deferred := {}, failed := false,
                reconcileOnly := reconcileOnly, lost := w.lost + OpenAttempts(w.st.records)))
      case AuthorizeRetryOf(id) =>
        if !Idle(w) || id !in w.st.records || id !in cfg.plan.operations || !RetryAuthorizable(w.st.records[id])
           || !w.st.started || w.st.completed || w.st.cancelled then None
        else AppendOperation(cfg, w, id, RetryAuthorized, AttemptPayload(w.st.records[id].attempt), now)
  }

  /** The executor is at the top of its loop on an unfinished run. */
  predicate Schedules(w: World) {
    Idle(w) && !w.failed && w.st.started && !w.st.completed
  }
}
