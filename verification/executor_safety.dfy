/**
 What executors guarantee over every run, with any number of stopped processes: no blind
 republish, and work only under a lease.
 */
module ExecutorSafety {
  import opened Domain
  import opened Events
  import opened Reducer
  import opened ReducerSafety
  import opened JournalHistory
  import opened Executor
  import opened Planning
  import opened Scheduler
  import opened SchedulerClosure
  import opened SchedulerRuns

  // One written event, record by record

  /** The event e of operation id turned record r into next. */
  ghost predicate Turned(cfg: Config, w: World, after: World, e: Event, r: Record, next: Record) {
    var id := e.entry.operationId;
    && !RunLifecycle(e.entry.kind) && id in w.st.records && r == w.st.records[id]
    && Changed(w.st.records, after.st.records, id, next)
    && OperationTransition(r, e, DependenciesPublished(r.op, w.st.records)) == Some(next)
    && HistoryTransition(r, next, e) && Meaningful(e.entry.payload, e.entry.kind)
    && LawfulOperationEvent(cfg, w, r, e)
    && SameRun(w.st, after.st)
  }

  /** What an event of the run as a whole does to one record. */
  predicate RunTurned(cancelled: bool, r: Record, next: Record) {
    next == r || (r.state == Planned && next == r.(state := Ready)) || (cancelled && next == CancelRecord(r))
  }

  lemma OperationEventTurns(cfg: Config, w: World, after: World)
    requires Sound(cfg, w) && Written(cfg, w, after) && !RunLifecycle(LastEvent(after).entry.kind)
    ensures var e := LastEvent(after);
      && e.entry.operationId in w.st.records && after.st.records.Keys == w.st.records.Keys
      && Turned(cfg, w, after, e, w.st.records[e.entry.operationId], after.st.records[e.entry.operationId])
  {
    hide OperationTransition, ValidEvent, DependenciesPublished, RecordInvariant, HistoryTransition,
      Meaningful, LawfulOperationEvent, Sound;
    var e := LastEvent(after);
    ValidIsMeaningful(e);
    var st := w.st.(runId := e.entry.runId, next := w.st.next + 1);
    assert OperationStep(st, e) == Ok(after.st);
    OperationStepShape(st, e, after.st);
    var r := w.st.records[e.entry.operationId];
    SoundRecord(cfg, w, e.entry.operationId);
    TransitionHistory(r, e, DependenciesPublished(r.op, w.st.records));
    RefreshedIfPlanned(r, OperationTransition(r, e, DependenciesPublished(r.op, w.st.records)).value, e);
  }

  lemma SoundRecord(cfg: Config, w: World, id: OperationID)
    requires Sound(cfg, w) && id in w.st.records
    ensures RecordInvariant(w.st.records[id])
  {
    hide RecordInvariant, GoodPlan, WorkSound, TaskSound, Replay;
  }

  lemma RunEventTurns(cfg: Config, w: World, after: World)
    requires Sound(cfg, w) && Written(cfg, w, after) && RunLifecycle(LastEvent(after).entry.kind)
    ensures LastEvent(after).entry.operationId == "" && after.st.started && (w.st.cancelled ==> after.st.cancelled)
    ensures after.st.records.Keys == w.st.records.Keys
    ensures forall id :: id in w.st.records ==> RunTurned(after.st.cancelled, w.st.records[id], after.st.records[id])
  {
    hide OperationStep, ValidEvent, GoodPlan, DependenciesPublished, Invariant, CancelRecord, WorkSound, TaskSound,
      Replay;
    ValidCarriesAttempt(LastEvent(after));
  }

  // Tasks and stopped processes

  predicate EndsApplication(kind: EventKind) {
    ExplicitResultKind(kind) || kind.OperationResult? || kind.OutcomeAmbiguous?
  }

  /** An operation begins to be applied only when its attempt starts, and no longer is once an outcome is recorded. */
  ghost predicate WrittenFootprint(w: World, after: World, e: Event) {
    && after.lost == w.lost
    && forall id :: Applying(after, id) ==>
         if id == e.entry.operationId then
              !EndsApplication(e.entry.kind) && (Applying(w, id) || e.entry.kind.AttemptStarted?)
         else Applying(w, id)
  }

  ghost predicate SilentFootprint(w: World, after: World) {
    && after.journal == w.journal && after.st == w.st
    && (forall id :: Applying(after, id) ==> Applying(w, id))
    && (after.lost == w.lost || (after.lost == w.lost + OpenAttempts(w.st.records) && after.tasks == map[]))
  }

  lemma AppendChangesJournal(cfg: Config, w: World, entry: Entry, now: int, after: World)
    requires Append(cfg, w, entry, now) == Some(after)
    ensures after == w.(journal := after.journal, st := after.st, clock := now, broken := after.broken)
    ensures after.journal == w.journal + [NextEvent(w, entry, now)]
  {
    hide Step, ValidEvent;
  }

  lemma MoveFootprint(cfg: Config, w: World, id: OperationID, move: TaskMove, now: int, after: World)
    requires w.pending == [] && PerformMove(cfg, w, id, move, now) == Some(after) && id in cfg.plan.operations
    requires cfg.plan.operations[id].id == id
    ensures after.journal != [] && WrittenFootprint(w, after, LastEvent(after))
    ensures |after.journal| == |w.journal| + 1
  {
    hide Append, ApplyOutcome, PreparationOutcome, ReconcileOutcome, DecideFailure;
    var op := cfg.plan.operations[id];
    var t := w.tasks[id];
    var outcome := TaskReport(op, t, move).value;
    var appended := AppendOperation(cfg, w, id, outcome.report.kind, outcome.report.payload, now).value;
    AppendChangesJournal(cfg, w, OperationEntry(cfg, op, outcome.report.kind, outcome.report.payload), now, appended);
    if t.kind.ReconcileTask? && !EndsTask(move) { assert !Applying(after, id); }
  }

  lemma WorkFootprint(cfg: Config, w: World, lease: Lease, now: int, after: World)
    requires w.pending != [] && PerformWork(cfg, w, lease, now) == Some(after)
    requires w.pending[0].id in cfg.plan.operations && cfg.plan.operations[w.pending[0].id].id == w.pending[0].id
    requires w.pending[0].id !in w.tasks
    ensures after.journal != [] && WrittenFootprint(w, after, LastEvent(after))
    ensures |after.journal| == |w.journal| + 1
  {
    hide Append;
    var work := w.pending[0];
    var report := WorkReport(work, lease);
    var rest := w.(pending := w.pending[1..]);
    var appended := AppendOperation(cfg, rest, work.id, report.kind, report.payload, now).value;
    AppendChangesJournal(cfg, rest, OperationEntry(cfg, cfg.plan.operations[work.id], report.kind, report.payload), now,
                         appended);
  }

  lemma AbandonFootprint(cfg: Config, w: World, expired: bool, now: int, after: World)
    requires w.pending != [] && w.pending[0].StartWork? && PerformAbandon(cfg, w, expired, now) == Some(after)
    ensures after.journal != [] && WrittenFootprint(w, after, LastEvent(after))
    ensures |after.journal| == |w.journal| + 1
  {
    hide Append, WorkReport, ValidEntry;
    var work, rest := w.pending[0], w.(pending := [], tasks := map[]);
    var kind := if expired then LeaseExpired else LeaseReleased;
    var appended := AppendOperation(cfg, rest, work.id, kind, LeasePayload(work.lease), now).value;
    AppendChangesJournal(cfg, rest, OperationEntry(cfg, cfg.plan.operations[work.id], kind, LeasePayload(work.lease)),
                         now, appended);
  }

  lemma StepFootprint(cfg: Config, w: World, step: Label, now: int, after: World)
    requires Sound(cfg, w) && Perform(cfg, w, step, now) == Some(after)
    ensures SilentFootprint(w, after)
            || (|after.journal| == |w.journal| + 1 && after.journal != []
                && WrittenFootprint(w, after, LastEvent(after)))
  {
    hide Append, Sound, WorkList, PerformMove, PerformWork, PerformAbandon, ExecutorQuiescent, RetryAuthorizable,
      OpenAttempts;
    match step {
      case MoveTask(id, move) =>
        MovesNeedNoPendingWork(cfg, w, id, move, now);
        KnownOperation(cfg, w, id);
        MoveFootprint(cfg, w, id, move, now, after);
      case DoWork(lease) =>
        TakeWork(cfg, w);
        KnownOperation(cfg, w, w.pending[0].id);
        WorkFootprint(cfg, w, lease, now, after);
      case BeginRun => AppendChangesJournal(cfg, w, RunEntry(cfg, RunStarted), now, after);
      case CancelRun => AppendChangesJournal(cfg, w, RunEntry(cfg, RunCancelled), now, after);
      case CompleteRun => AppendChangesJournal(cfg, w, RunEntry(cfg, RunCompleted), now, after);
      case AuthorizeRetryOf(id) =>
        AppendChangesJournal(cfg, w, OperationEntry(cfg, cfg.plan.operations[id], RetryAuthorized,
                                                    AttemptPayload(w.st.records[id].attempt)), now, after);
      case AbandonStart(expired) => AbandonFootprint(cfg, w, expired, now, after);
      case Wait =>
      case PlanPass(_, _) =>
      case SkipLaunch =>
      case RefuseOutcome(id) =>
      case StopProcess(_) =>
    }
  }

  lemma KnownOperation(cfg: Config, w: World, id: OperationID)
    requires Sound(cfg, w) && (id in w.tasks || id in w.st.records)
    ensures id in cfg.plan.operations && cfg.plan.operations[id].id == id
  {
  }

  lemma MovesNeedNoPendingWork(cfg: Config, w: World, id: OperationID, move: TaskMove, now: int)
    requires PerformMove(cfg, w, id, move, now).Some?
    ensures w.pending == [] && id in w.tasks
  {
  }

  /** A step that breaks nothing either appends nothing or appends one lawful event. */
  lemma StepCases(cfg: Config, w: World, step: Label, now: int, after: World)
    requires Sound(cfg, w) && Perform(cfg, w, step, now) == Some(after) && !after.broken
    ensures Sound(cfg, after)
    ensures SilentFootprint(w, after) || (Written(cfg, w, after) && WrittenFootprint(w, after, LastEvent(after)))
  {
    hide Perform, Sound, WrittenFootprint, Lawful, Step, ValidEvent;
    EveryStepAdvances(cfg, w, step, now, after);
    StepFootprint(cfg, w, step, now, after);
  }

  // No blind republish

  predicate RetryableFailure(e: Event, id: OperationID, attempt: int) {
    Concerns(e, OperationFailed, id, attempt) && e.entry.payload.retryable
  }

  ghost predicate FailedRetryably(events: seq<Event>, id: OperationID, attempt: int) {
    exists e :: e in events && RetryableFailure(e, id, attempt)
  }

  /** The attempt ended ambiguously, or its process stopped after the dispatch. */
  ghost predicate Unresolved(events: seq<Event>, lost: set<Key>, id: OperationID, attempt: Uint32) {
    (id, attempt) in lost || Happened(events, OutcomeAmbiguous, id, attempt)
  }

  /** What the journal has seen of the present attempt of an operation. */
  ghost predicate Traced(events: seq<Event>, lost: set<Key>, id: OperationID, r: Record, applying: bool) {
    && (r.state == Failed && r.retryable ==> FailedRetryably(events, id, r.attempt))
    && (r.state == Blocked ==> !Happened(events, SideEffectDispatched, id, r.attempt))
    && (Unresolved(events, lost, id, r.attempt) ==>
          && r.state != Failed && r.state != Blocked
          && r.attempt > 0
          && (r.state == Running ==> r.dispatched && !applying))
    && (forall attempt :: (id, attempt) in lost ==> attempt <= r.attempt)
  }

  ghost predicate AllTraced(w: World) {
    forall id :: id in w.st.records ==> Traced(w.journal, w.lost, id, w.st.records[id], Applying(w, id))
  }

  lemma FailedRetryablyExtends(events: seq<Event>, e: Event, id: OperationID, attempt: int)
    ensures FailedRetryably(events + [e], id, attempt)
            <==> FailedRetryably(events, id, attempt) || RetryableFailure(e, id, attempt)
  {
    if FailedRetryably(events, id, attempt) {
      var past :| past in events && RetryableFailure(past, id, attempt);
      assert past in events + [e];
    }
    if RetryableFailure(e, id, attempt) { assert e in events + [e]; }
  }

  lemma RunTurnedFacts(cancelled: bool, r: Record, next: Record)
    requires RunTurned(cancelled, r, next)
    ensures next.attempt == r.attempt && next.blockedAttempts == r.blockedAttempts && next.op == r.op
    ensures next.state == Failed || next.state == Blocked || next.state == Running || next.state == Planned ==>
              next == r
    ensures next.state == Ready ==> r.state == Ready || r.state == Planned
  {
    hide CancelRecord;
    if next != r {
      if r.state == Planned && next == r.(state := Ready) { }
      else {
        assert next == CancelRecord(r);
        CancelShape(r);
      }
    }
  }

  /** Events of other operations and of the run leave the trace of an operation intact. */
  lemma OtherTraced(events: seq<Event>, lost: set<Key>, e: Event, id: OperationID, r: Record, next: Record,
                    applying: bool, applies: bool)
    requires Traced(events, lost, id, r, applying) && e.entry.operationId != id && (applies ==> applying)
    requires RunTurned(true, r, next)
    ensures Traced(events + [e], lost, id, next, applies)
  {
    RunTurnedFacts(true, r, next);
    hide RunTurned;
    FailedRetryablyExtends(events, e, id, r.attempt);
    HappenedExtends(events, e, SideEffectDispatched, id, r.attempt);
    HappenedExtends(events, e, OutcomeAmbiguous, id, r.attempt);
    hide Happened, FailedRetryably;
  }

  /** What a lawful event does to the facts that the trace is about. */
  predicate TraceTransition(r: Record, next: Record, e: Event, applying: bool) {
    var k := e.entry.kind;
    && (next.state == Failed && next.retryable && !(r.state == Failed && r.retryable) ==>
          k.OperationFailed? && e.entry.payload.retryable)
    && (next.state == Blocked && r.state != Blocked ==> k.OperationResult? && r.state == Running && !r.dispatched)
    && (next.state == Failed && r.state != Failed ==> r.state == Running && (applying || !r.dispatched))
    && (next.state == Blocked && r.state != Blocked ==> r.state == Running && (applying || !r.dispatched))
    && (next.state == Failed || next.state == Blocked ==> !k.SideEffectDispatched? && !k.OutcomeAmbiguous?)
    && (k.OutcomeAmbiguous? ==>
        r.state == Running && applying && r.dispatched && next.state == Running && next.dispatched)
    && (k.SideEffectDispatched? ==> applying)
  }

  lemma LeaseTrace(r: Record, next: Record, e: Event)
    requires LeaseKind(e.entry.kind) && OperationTransition(r, e, false) == Some(next)
    ensures TraceTransition(r, next, e, false)
  {
    hide OperationTransition;
    LeaseEffect(r, e, false);
  }

  lemma ExplicitTrace(r: Record, next: Record, e: Event, applying: bool)
    requires ExplicitResultKind(e.entry.kind) && OperationTransition(r, e, false) == Some(next)
    requires Meaningful(e.entry.payload, e.entry.kind)
    requires r.state == Running && (applying || (e.entry.kind.OperationFailed? && !r.dispatched))
    ensures TraceTransition(r, next, e, applying)
  {
    assert next.state == ExplicitResultState(e.entry.kind) && next.retryable == e.entry.payload.retryable;
  }

  lemma StatedTrace(r: Record, next: Record, e: Event, applying: bool)
    requires e.entry.kind.OperationResult? || e.entry.kind.ReconcileResult?
    requires RecordInvariant(r) && OperationTransition(r, e, false) == Some(next)
    requires e.entry.kind.OperationResult? ==>
               applying && (e.entry.payload.state == Blocked || e.entry.payload.state == Cancelled)
    requires e.entry.kind.ReconcileResult? ==> e.entry.payload.state != Blocked && e.entry.payload.state != Failed
    ensures TraceTransition(r, next, e, applying)
  {
    assert next.state == e.entry.payload.state;
  }

  lemma ScheduleTrace(r: Record, next: Record, e: Event, applying: bool, published: bool)
    requires var k := e.entry.kind;
      k.OperationReady? || k.OperationCancelled? || k.RetryAuthorized? || k.AttemptStarted?
    requires OperationTransition(r, e, published) == Some(next)
    ensures TraceTransition(r, next, e, applying)
  {
    assert next.state == Ready || next.state == Cancelled || next.state == Running;
  }

  lemma CallTrace(r: Record, next: Record, e: Event, applying: bool)
    requires var k := e.entry.kind;
      k.CredentialResolved? || k.ProviderProcessStarted? || k.SideEffectDispatched? || k.ProviderResponseReceived?
      || k.OutcomeAmbiguous? || k.ReconcileStarted?
    requires RecordInvariant(r) && OperationTransition(r, e, false) == Some(next)
    requires e.entry.kind.SideEffectDispatched? || e.entry.kind.OutcomeAmbiguous? ==> applying
    ensures TraceTransition(r, next, e, applying)
  {
    hide RecordInvariant;
    assert next.state == r.state && (next.retryable ==> r.retryable);
    assert e.entry.kind.OutcomeAmbiguous? ==> r.state == Running && r.dispatched && next.dispatched;
  }

  lemma LawfulTrace(cfg: Config, w: World, r: Record, next: Record, e: Event, published: bool)
    requires RecordInvariant(r) && Meaningful(e.entry.payload, e.entry.kind)
    requires OperationTransition(r, e, published) == Some(next) && LawfulOperationEvent(cfg, w, r, e)
    ensures TraceTransition(r, next, e, Applying(w, e.entry.operationId))
  {
    hide OperationTransition, RecordInvariant, TraceTransition, HasTerminalUnpublishedDependency, Applicable, Applying,
      Increment32, Doomed;
    var k, applying := e.entry.kind, Applying(w, e.entry.operationId);
    if !k.AttemptStarted? { IndifferentToDependencies(r, e, published); }
    if LeaseKind(k) { LeaseTrace(r, next, e); WeakerTrace(r, next, e, applying); }
    else if ExplicitResultKind(k) { InterruptedUndispatched(r); ExplicitTrace(r, next, e, applying); }
    else if k.OperationResult? || k.ReconcileResult? { StatedTrace(r, next, e, applying); }
    else if k.OperationReady? || k.OperationCancelled? || k.RetryAuthorized? || k.AttemptStarted? {
      ScheduleTrace(r, next, e, applying, published);
    }
    else {
      AcceptedKinds(r, e, published);
      CallTrace(r, next, e, applying);
    }
  }

  lemma AcceptedKinds(r: Record, e: Event, published: bool)
    requires OperationTransition(r, e, published).Some?
    ensures !RunLifecycle(e.entry.kind) && !e.entry.kind.UnknownKind?
  {
    hide LeaseTransition, ExplicitResultTransition, StatedResultTransition, ApplyResult;
  }

  lemma WeakerTrace(r: Record, next: Record, e: Event, applying: bool)
    requires TraceTransition(r, next, e, false)
    ensures TraceTransition(r, next, e, applying)
  {
  }

  lemma InterruptedUndispatched(r: Record)
    requires RecordInvariant(r)
    ensures Interrupted(r) ==> !r.dispatched
  {
  }

  lemma NewAttemptTraced(events: seq<Event>, lost: set<Key>, e: Event, r: Record, next: Record, applying: bool,
                         applies: bool)
    requires var id := e.entry.operationId; Traced(events, lost, id, r, applying) && RecordHistory(events, id, r)
    requires e.entry.kind.AttemptStarted? && HistoryTransition(r, next, e)
    ensures Traced(events + [e], lost, e.entry.operationId, next, applies)
  {
    var id := e.entry.operationId;
    HappenedExtends(events, e, OutcomeAmbiguous, id, next.attempt);
    assert !Happened(events, OutcomeAmbiguous, id, next.attempt);
    hide FailedRetryably, Happened, RecordHistory;
  }

  lemma SameAttemptTraced(events: seq<Event>, lost: set<Key>, e: Event, r: Record, next: Record, applying: bool,
                          applies: bool)
    requires var id := e.entry.operationId; Traced(events, lost, id, r, applying) && RecordHistory(events, id, r)
    requires !e.entry.kind.AttemptStarted? && HistoryTransition(r, next, e) && TraceTransition(r, next, e, applying)
    requires RecordInvariant(r)
    requires applies ==> !EndsApplication(e.entry.kind) && applying
    ensures Traced(events + [e], lost, e.entry.operationId, next, applies)
  {
    var id := e.entry.operationId;
    FailedRetryablyExtends(events, e, id, next.attempt);
    HappenedExtends(events, e, SideEffectDispatched, id, next.attempt);
    HappenedExtends(events, e, OutcomeAmbiguous, id, next.attempt);
    hide Happened, FailedRetryably, AttemptsBounded;
  }

  lemma OwnTraced(events: seq<Event>, lost: set<Key>, e: Event, r: Record, next: Record, applying: bool, applies: bool)
    requires var id := e.entry.operationId; Traced(events, lost, id, r, applying) && RecordHistory(events, id, r)
    requires HistoryTransition(r, next, e) && TraceTransition(r, next, e, applying)
    requires RecordInvariant(r) && RecordInvariant(next)
    requires applies ==> !EndsApplication(e.entry.kind) && (applying || e.entry.kind.AttemptStarted?)
    ensures Traced(events + [e], lost, e.entry.operationId, next, applies)
  {
    hide Traced, RecordHistory, HistoryTransition, TraceTransition, RecordInvariant, EndsApplication;
    if e.entry.kind.AttemptStarted? { NewAttemptTraced(events, lost, e, r, next, applying, applies); }
    else { SameAttemptTraced(events, lost, e, r, next, applying, applies); }
  }

  lemma WrittenKeepsTrace(cfg: Config, w: World, after: World)
    requires Sound(cfg, w) && Sound(cfg, after) && Written(cfg, w, after) && after.journal != []
    requires WrittenFootprint(w, after, LastEvent(after)) && AllTraced(w)
    ensures AllTraced(after)
  {
    hide Sound, Written, Traced, Turned, RunTurned, Applying, LawfulOperationEvent, OperationTransition,
      HistoryTransition, Meaningful;
    var e := LastEvent(after);
    WrittenExtends(cfg, w, after);
    if RunLifecycle(e.entry.kind) {
      RunEventTurns(cfg, w, after);
      forall id | id in after.st.records
        ensures Traced(after.journal, after.lost, id, after.st.records[id], Applying(after, id))
      {
        KnownOperation(cfg, after, id);
        KnownIdentifier(cfg, after, id);
        WeakerTurn(after.st.cancelled, w.st.records[id], after.st.records[id]);
        OtherTraced(w.journal, w.lost, e, id, w.st.records[id], after.st.records[id], Applying(w, id),
                    Applying(after, id));
      }
    } else {
      OperationEventTurns(cfg, w, after);
      forall id | id in after.st.records
        ensures Traced(after.journal, after.lost, id, after.st.records[id], Applying(after, id))
      {
        if id == e.entry.operationId {
          TurnedIsTraced(cfg, w, after, e);
        } else {
          ChangedTurn(cfg, w, after, id);
          OtherTraced(w.journal, w.lost, e, id, w.st.records[id], after.st.records[id], Applying(w, id),
                      Applying(after, id));
        }
      }
    }
  }

  lemma WrittenExtends(cfg: Config, w: World, after: World)
    requires Written(cfg, w, after)
    ensures after.journal != [] && after.journal == w.journal + [LastEvent(after)] && Lawful(cfg, w, LastEvent(after))
  {
    hide Step, ValidEvent, Lawful;
  }

  lemma KnownIdentifier(cfg: Config, w: World, id: OperationID)
    requires Sound(cfg, w) && id in w.st.records
    ensures id != ""
  {
    assert id in cfg.plan.operations;
    NonEmptyIds(cfg.plan);
  }

  lemma WeakerTurn(cancelled: bool, r: Record, next: Record)
    requires RunTurned(cancelled, r, next)
    ensures RunTurned(true, r, next)
  {
  }

  lemma ChangedTurn(cfg: Config, w: World, after: World, id: OperationID)
    requires LastEvent.requires(after) && LastEvent(after).entry.operationId in w.st.records
    requires LastEvent(after).entry.operationId in after.st.records
    requires var e := LastEvent(after);
      Turned(cfg, w, after, e, w.st.records[e.entry.operationId], after.st.records[e.entry.operationId])
    requires id in w.st.records && id != LastEvent(after).entry.operationId && id in after.st.records
    ensures RunTurned(true, w.st.records[id], after.st.records[id])
  {
    hide OperationTransition, HistoryTransition, LawfulOperationEvent, Meaningful, DependenciesPublished;
  }

  /** The record of an operation that the last event does not name. */
  lemma OtherRecordTurns(cfg: Config, w: World, after: World, id: OperationID)
    requires Sound(cfg, w) && Written(cfg, w, after) && id in w.st.records && id in after.st.records
             && after.journal != []
    requires RunLifecycle(LastEvent(after).entry.kind) || id != LastEvent(after).entry.operationId
    ensures RunTurned(true, w.st.records[id], after.st.records[id]) && id != LastEvent(after).entry.operationId
  {
    hide Sound, Written, Turned, RunTurned, LastEvent;
    if RunLifecycle(LastEvent(after).entry.kind) {
      RunEventTurns(cfg, w, after);
      WeakerTurn(after.st.cancelled, w.st.records[id], after.st.records[id]);
      KnownIdentifier(cfg, w, id);
    } else {
      OperationEventTurns(cfg, w, after);
      ChangedTurn(cfg, w, after, id);
    }
  }

  lemma TurnedOwn(cfg: Config, w: World, after: World, e: Event)
    requires e.entry.operationId in w.st.records && e.entry.operationId in after.st.records
    requires Turned(cfg, w, after, e, w.st.records[e.entry.operationId], after.st.records[e.entry.operationId])
    ensures var r, next := w.st.records[e.entry.operationId], after.st.records[e.entry.operationId];
      && OperationTransition(r, e, DependenciesPublished(r.op, w.st.records)) == Some(next)
      && HistoryTransition(r, next, e) && Meaningful(e.entry.payload, e.entry.kind)
      && LawfulOperationEvent(cfg, w, r, e)
      && SameRun(w.st, after.st)
  {
    hide OperationTransition, HistoryTransition, LawfulOperationEvent, Meaningful, DependenciesPublished;
  }

  lemma SameOperations(cfg: Config, w: World, after: World)
    requires Sound(cfg, w) && Sound(cfg, after)
    ensures w.st.records.Keys == after.st.records.Keys == cfg.plan.operations.Keys
  {
  }

  /** The histories and the invariants of the records of a sound world. */
  lemma SoundHistory(cfg: Config, w: World)
    requires Sound(cfg, w)
    ensures History(w.journal, w.st.records) && RecordInvariants(w.st.records)
  {
    hide RecordInvariant, GoodPlan, WorkSound, TaskSound, RecordHistory;
    ReplayHistory(cfg.plan, w.journal, w.st);
  }

  lemma TurnedIsTraced(cfg: Config, w: World, after: World, e: Event)
    requires Sound(cfg, w) && Sound(cfg, after) && after.journal == w.journal + [e] && WrittenFootprint(w, after, e)
             && AllTraced(w)
    requires e.entry.operationId in w.st.records && e.entry.operationId in after.st.records
    requires Turned(cfg, w, after, e, w.st.records[e.entry.operationId], after.st.records[e.entry.operationId])
    ensures var id := e.entry.operationId;
      Traced(after.journal, after.lost, id, after.st.records[id], Applying(after, id))
  {
    hide Sound, Traced, LawfulOperationEvent, OperationTransition, HistoryTransition, RecordInvariant, Meaningful,
      RecordHistory, TraceTransition, Applying, DependenciesPublished, EndsApplication;
    var id := e.entry.operationId;
    var r, next := w.st.records[id], after.st.records[id];
    SoundHistory(cfg, w);
    SoundHistory(cfg, after);
    LawfulTrace(cfg, w, r, next, e, DependenciesPublished(r.op, w.st.records));
    OwnTraced(w.journal, w.lost, e, r, next, Applying(w, id), Applying(after, id));
  }

  lemma SilentKeepsTrace(cfg: Config, w: World, after: World)
    requires Sound(cfg, w) && SilentFootprint(w, after) && AllTraced(w)
    ensures AllTraced(after)
  {
    SoundHistory(cfg, w);
    hide Sound, Applying, Traced, RecordHistory, RecordInvariant, OpenAttempts;
    if after.lost != w.lost { NobodyApplies(after); }
    forall id | id in after.st.records
      ensures Traced(after.journal, after.lost, id, after.st.records[id], Applying(after, id))
    {
      assert RecordInvariant(w.st.records[id]);
      StopKeepsTrace(w.journal, w.lost, w.st.records, id, Applying(w, id), Applying(after, id), after.lost);
    }
  }

  lemma StopKeepsTrace(events: seq<Event>, lost: set<Key>, records: Records, id: OperationID, applying: bool,
                       applies: bool, lostAfter: set<Key>)
    requires id in records && RecordInvariant(records[id]) && Traced(events, lost, id, records[id], applying)
    requires applies ==> applying
    requires lostAfter == lost || (lostAfter == lost + OpenAttempts(records) && !applies)
    ensures Traced(events, lostAfter, id, records[id], applies)
  {
    hide Happened, FailedRetryably;
  }

  lemma NobodyApplies(w: World)
    requires w.tasks == map[]
    ensures forall id :: !Applying(w, id)
  {
  }

  // Why each attempt was allowed to start

  /**
   An attempt after a dispatched one is the retry of a known retryable failure or was authorized;
   after an ambiguous outcome, or a process that stopped after the dispatch, only an authorization will do.
   */
  ghost predicate Justified(events: seq<Event>, lost: set<Key>, i: nat)
    requires i < |events|
  {
    var e, before := events[i], events[..i];
    var id, previous := e.entry.operationId, e.entry.payload.attempt - 1;
    e.entry.kind.AttemptStarted? && previous > 0 ==>
      && (Happened(before, SideEffectDispatched, id, previous) ==>
            FailedRetryably(before, id, previous) || Happened(before, RetryAuthorized, id, previous))
      && (Unresolved(before, lost, id, previous) ==> Happened(before, RetryAuthorized, id, previous))
  }

  /**
   An attempt starts, and a side effect is dispatched, only while the journal shows an active lease of
   the operation.
   */
  ghost predicate Covered(plan: Plan, events: seq<Event>, i: nat)
    requires i < |events|
  {
    var e := events[i];
    e.entry.kind.AttemptStarted? || e.entry.kind.SideEffectDispatched? ==>
      var before := Replay(plan, events[..i]);
      before.Ok? && e.entry.operationId in before.value.records && before.value.records[e.entry.operationId].leaseActive
  }

  ghost predicate AllJustified(plan: Plan, w: World) {
    forall i :: 0 <= i < |w.journal| ==> Justified(w.journal, w.lost, i) && Covered(plan, w.journal, i)
  }

  lemma ApplicableIsJustified(cfg: Config, events: seq<Event>, lost: set<Key>, id: OperationID, r: Record,
                              applying: bool)
    requires Applicable(cfg, r) && Traced(events, lost, id, r, applying) && RecordHistory(events, id, r)
             && r.attempt > 0
    ensures Happened(events, SideEffectDispatched, id, r.attempt) ==>
              FailedRetryably(events, id, r.attempt) || Happened(events, RetryAuthorized, id, r.attempt)
    ensures Unresolved(events, lost, id, r.attempt) ==> Happened(events, RetryAuthorized, id, r.attempt)
  {
    hide Happened, FailedRetryably, AttemptsBounded;
  }

  lemma WrittenIsJustified(cfg: Config, w: World, after: World)
    requires Sound(cfg, w) && Written(cfg, w, after) && AllTraced(w) && AllJustified(cfg.plan, w)
             && after.lost == w.lost
    ensures AllJustified(cfg.plan, after)
  {
    hide Sound, Written, LawfulOperationEvent, Traced, RecordHistory, Happened, FailedRetryably, Unresolved,
      RecordInvariant;
    WrittenExtends(cfg, w, after);
    SoundHistory(cfg, w);
    assert Replay(cfg.plan, w.journal) == Ok(w.st) by { SoundReplay(cfg, w); }
    var e := LastEvent(after);
    forall i | 0 <= i < |after.journal|
      ensures Justified(after.journal, after.lost, i) && Covered(cfg.plan, after.journal, i)
    {
      if i < |w.journal| {
        assert after.journal[..i] == w.journal[..i];
        assert Justified(w.journal, w.lost, i) && Covered(cfg.plan, w.journal, i);
      } else {
        assert after.journal[..i] == w.journal;
        if e.entry.kind.AttemptStarted? || e.entry.kind.SideEffectDispatched? {
          var r := w.st.records[e.entry.operationId];
          LawfulStart(cfg, w, r, e);
          if e.entry.kind.AttemptStarted? && e.entry.payload.attempt > 1 && r.attempt > 0 {
            ApplicableIsJustified(cfg, w.journal, w.lost, e.entry.operationId, r, Applying(w, e.entry.operationId));
          }
        }
      }
    }
  }

  lemma SoundReplay(cfg: Config, w: World)
    requires Sound(cfg, w)
    ensures Replay(cfg.plan, w.journal) == Ok(w.st) && Invariant(cfg.plan, w.st)
  {
  }

  lemma LawfulStart(cfg: Config, w: World, r: Record, e: Event)
    requires LawfulOperationEvent(cfg, w, r, e) && (e.entry.kind.AttemptStarted? || e.entry.kind.SideEffectDispatched?)
    ensures r.leaseActive
    ensures e.entry.kind.AttemptStarted? ==>
              Applicable(cfg, r) && (e.entry.payload.attempt > 1 ==> e.entry.payload.attempt == r.attempt + 1)
  {
    hide Doomed, Applicable;
  }

  lemma SilentIsJustified(cfg: Config, w: World, after: World)
    requires Sound(cfg, w) && SilentFootprint(w, after) && AllJustified(cfg.plan, w)
    ensures AllJustified(cfg.plan, after)
  {
    SoundHistory(cfg, w);
    hide Sound, Applying, Covered, Justified, RecordHistory, RecordInvariant, OpenAttempts;
    forall i | 0 <= i < |after.journal|
      ensures Justified(after.journal, after.lost, i) && Covered(cfg.plan, after.journal, i)
    {
      assert Justified(w.journal, w.lost, i) && Covered(cfg.plan, w.journal, i);
      StopKeepsJustification(w.journal, w.lost, w.st.records, i);
    }
  }

  /** A stopping process leaves open only present attempts, which no other attempt has followed. */
  lemma StopKeepsJustification(events: seq<Event>, lost: set<Key>, records: Records, i: nat)
    requires i < |events| && History(events, records) && Justified(events, lost, i)
    ensures Justified(events, lost + OpenAttempts(records), i)
  {
    var e := events[i];
    var id := e.entry.operationId;
    if e.entry.kind.AttemptStarted? && id in records {
      assert RecordHistory(events, id, records[id]);
      assert e in events && e.entry.payload.attempt <= records[id].attempt;
    }
    hide RecordHistory, Happened, FailedRetryably;
  }

  lemma {:induction false} RunsAreTraced(cfg: Config, steps: seq<(Label, int)>, w: World)
    requires GoodPlan(cfg.plan) && Configured(cfg) && Run(cfg, InitialWorld(cfg), steps) == Some(w) && !w.broken
    ensures Sound(cfg, w) && AllTraced(w) && AllJustified(cfg.plan, w)
    decreases |steps|
  {
    hide Perform, Sound, AllTraced, AllJustified, GoodPlan, Written, WrittenFootprint, SilentFootprint;
    InitialWorldSound(cfg);
    if steps == [] {
      InitiallyTraced(cfg);
    } else {
      var front, last := steps[..|steps| - 1], steps[|steps| - 1];
      var before := Run(cfg, InitialWorld(cfg), front).value;
      BrokenWorldsStop(cfg, before, last.0, last.1);
      RunsAreTraced(cfg, front, before);
      StepCases(cfg, before, last.0, last.1, w);
      if SilentFootprint(before, w) {
        SilentKeepsTrace(cfg, before, w);
        SilentIsJustified(cfg, before, w);
      } else {
        WrittenExtends(cfg, before, w);
        WrittenKeepsTrace(cfg, before, w);
        assert w.lost == before.lost by { LostUnchanged(before, w); }
        WrittenIsJustified(cfg, before, w);
      }
    }
  }

  lemma LostUnchanged(w: World, after: World)
    requires after.journal != [] && WrittenFootprint(w, after, LastEvent(after))
    ensures after.lost == w.lost
  {
  }

  lemma InitiallyTraced(cfg: Config)
    ensures AllTraced(InitialWorld(cfg)) && AllJustified(cfg.plan, InitialWorld(cfg))
  {
  }

  // Which failures are retried after a dispatch

  /** The step is the answer of an apply call: an unambiguous retryable error. */
  predicate AnswersRetryably(step: Label, id: OperationID) {
    step.MoveTask? && step.id == id && step.move.ApplyReturns? && KnownRetryable(step.move.answer)
  }

  lemma MoveRecordsFailure(r: Record, t: Task, move: TaskMove, outcome: Outcome)
    requires TaskInvariant(r, t) && RecordInvariant(r) && r.dispatched && TaskReport(r.op, t, move) == Some(outcome)
    requires outcome.report.kind == OperationFailed && outcome.report.payload.retryable
    ensures move.ApplyReturns? && KnownRetryable(move.answer)
  {
    hide ApplyOutcome, PreparationOutcome, ReconcileOutcome, KnownRetryable;
    match move {
      case PreparationFails(contexts, error) =>
        assert t.kind.ReconcileTask?;
        ReconcilesOnly(t, CallFailed(contexts, error));
      case ApplyReturns(answer) => RetryableFailureIsKnown(t.attempt, t.started, answer);
      case ReconcileReturns(answer) => ReconcilesOnly(t, answer);
      case _ =>
    }
  }

  lemma ReconcilesOnly(t: Task, answer: Answer)
    ensures ReconcileOutcome(t.attempt, t.wasAmbiguous, answer).report.kind == ReconcileResult
  {
  }

  /** What a step of a task appends is what the task reports. */
  lemma MoveReports(cfg: Config, w: World, id: OperationID, move: TaskMove, now: int, after: World)
    requires PerformMove(cfg, w, id, move, now) == Some(after)
    requires id in cfg.plan.operations && cfg.plan.operations[id].id == id
    ensures id in w.tasks && after.journal != [] && |after.journal| == |w.journal| + 1
    ensures var outcome := TaskReport(cfg.plan.operations[id], w.tasks[id], move);
      && outcome.Some? && Carries(LastEvent(after), outcome.value) && LastEvent(after).entry.operationId == id
  {
    hide Append, TaskReport;
    var op, t := cfg.plan.operations[id], w.tasks[id];
    var report := TaskReport(op, t, move).value.report;
    AppendChangesJournal(cfg, w, OperationEntry(cfg, op, report.kind, report.payload), now,
                         AppendOperation(cfg, w, id, report.kind, report.payload, now).value);
  }

  lemma WorkReports(cfg: Config, w: World, lease: Lease, now: int, after: World)
    requires w.pending != [] && PerformWork(cfg, w, lease, now) == Some(after)
    requires w.pending[0].id in cfg.plan.operations && cfg.plan.operations[w.pending[0].id].id == w.pending[0].id
    ensures after.journal != [] && LastEvent(after).entry.operationId == w.pending[0].id
    ensures LastEvent(after).entry.kind == WorkReport(w.pending[0], lease).kind
  {
    hide Append, WorkReport;
    var work, rest := w.pending[0], w.(pending := w.pending[1..]);
    var report := WorkReport(work, lease);
    AppendChangesJournal(cfg, rest, OperationEntry(cfg, cfg.plan.operations[work.id], report.kind, report.payload), now,
                         AppendOperation(cfg, rest, work.id, report.kind, report.payload, now).value);
  }

  /** Only tasks and decided work append anything but run, lease and authorization events. */
  lemma OthersRecordNoOutcome(cfg: Config, w: World, step: Label, now: int, after: World)
    requires Perform(cfg, w, step, now) == Some(after) && !step.MoveTask? && !step.DoWork? && after.journal != w.journal
    ensures after.journal != []
    ensures var k := LastEvent(after).entry.kind; RunLifecycle(k) || LeaseKind(k) || k.RetryAuthorized?
  {
    hide Append, WorkList, ExecutorQuiescent, RetryAuthorizable, OpenAttempts, ValidEntry, WorkReport;
    match step {
      case BeginRun => AppendChangesJournal(cfg, w, RunEntry(cfg, RunStarted), now, after);
      case CancelRun => AppendChangesJournal(cfg, w, RunEntry(cfg, RunCancelled), now, after);
      case CompleteRun => AppendChangesJournal(cfg, w, RunEntry(cfg, RunCompleted), now, after);
      case AuthorizeRetryOf(id) =>
        AppendChangesJournal(cfg, w, OperationEntry(cfg, cfg.plan.operations[id], RetryAuthorized,
                                                    AttemptPayload(w.st.records[id].attempt)), now, after);
      case AbandonStart(expired) =>
        var work, rest := w.pending[0], w.(pending := [], tasks := map[]);
        var kind := if expired then LeaseExpired else LeaseReleased;
        var appended := AppendOperation(cfg, rest, work.id, kind, LeasePayload(work.lease), now).value;
        AppendChangesJournal(cfg, rest, OperationEntry(cfg, cfg.plan.operations[work.id], kind,
                                                       LeasePayload(work.lease)), now, appended);
      case _ =>
    }
  }

  /** The attempt that a lawful event concerns is the present one, and it runs if the event is a failure. */
  lemma FailingAttempt(cfg: Config, w: World, e: Event)
    requires Sound(cfg, w) && Lawful(cfg, w, e) && e.entry.kind == OperationFailed
    requires Happened(w.journal, SideEffectDispatched, e.entry.operationId, e.entry.payload.attempt)
    ensures e.entry.operationId in w.st.records
    ensures var r := w.st.records[e.entry.operationId]; RecordInvariant(r) && r.dispatched && !Interrupted(r)
  {
    hide Sound, Happened, Interrupted, Applying, RecordInvariant;
    SoundHistory(cfg, w);
    var id := e.entry.operationId;
    var r := w.st.records[id];
    assert RecordHistory(w.journal, id, r) && RecordInvariant(r);
    InterruptedUndispatched(r);
  }

  lemma RunningTask(cfg: Config, w: World, id: OperationID)
    requires Sound(cfg, w) && id in w.tasks
    ensures id in w.st.records && TaskInvariant(w.st.records[id], w.tasks[id])
    ensures id in cfg.plan.operations && cfg.plan.operations[id].id == id
            && w.st.records[id].op == cfg.plan.operations[id]
  {
    hide TaskInvariant, RecordInvariant, Replay, WorkSound;
    assert TaskSound(w.st.records, id, w.tasks[id], w.st.cancelled);
  }

  /** A retryable failure of a dispatched attempt is recorded only from an unambiguous retryable error. */
  lemma FailureIsAnswered(cfg: Config, w: World, step: Label, now: int, after: World)
    requires Sound(cfg, w) && Perform(cfg, w, step, now) == Some(after) && Written(cfg, w, after)
    requires LastEvent(after).entry.kind == OperationFailed && LastEvent(after).entry.payload.retryable
    requires Happened(w.journal, SideEffectDispatched, LastEvent(after).entry.operationId,
                      LastEvent(after).entry.payload.attempt)
    ensures AnswersRetryably(step, LastEvent(after).entry.operationId)
  {
    hide Sound, Written, Happened, PerformMove, PerformWork, TaskReport, WorkReport, TaskInvariant, RecordInvariant,
      KnownRetryable, Lawful, Interrupted, WorkSound;
    WrittenExtends(cfg, w, after);
    var e := LastEvent(after);
    FailingAttempt(cfg, w, e);
    match step {
      case MoveTask(id, move) =>
        MovesNeedNoPendingWork(cfg, w, id, move, now);
        RunningTask(cfg, w, id);
        MoveReports(cfg, w, id, move, now, after);
        MoveRecordsFailure(w.st.records[id], w.tasks[id], move,
                           TaskReport(w.st.records[id].op, w.tasks[id], move).value);
      case DoWork(lease) =>
        TakeWork(cfg, w);
        KnownOperation(cfg, w, w.pending[0].id);
        WorkReports(cfg, w, lease, now, after);
        RecoversInterrupted(cfg, w.st.records, w.clock, w.pending[0], lease);
      case _ => OthersRecordNoOutcome(cfg, w, step, now, after);
    }
  }

  lemma RecoversInterrupted(cfg: Config, records: Records, clock: int, work: Work, lease: Lease)
    requires WorkSound(cfg, records, clock, work) && WorkReport(work, lease).kind == OperationFailed
    ensures Interrupted(records[work.id])
  {
    hide Doomed, Interrupted, LeaseRanOut;
  }

  /** Step k of a run leads from one sound world to the next and appends event j. */
  ghost predicate AppendsAt(cfg: Config, start: World, steps: seq<(Label, int)>, k: nat, v: World, after: World,
                            j: nat) {
    && k < |steps| && Run(cfg, start, steps[..k]) == Some(v) && Sound(cfg, v)
    && Perform(cfg, v, steps[k].0, steps[k].1) == Some(after) && !after.broken
    && Written(cfg, v, after) && |v.journal| == j && after.journal != []
  }

  /** Every event that a run appends is appended by one of its steps. */
  lemma {:induction false} EventsAreAppended(cfg: Config, start: World, steps: seq<(Label, int)>, w: World, j: nat)
    returns (k: nat, v: World, after: World)
    requires Sound(cfg, start) && Run(cfg, start, steps) == Some(w) && !w.broken && |start.journal| <= j < |w.journal|
    ensures AppendsAt(cfg, start, steps, k, v, after, j)
    ensures v.journal == w.journal[..j] && LastEvent(after) == w.journal[j]
    decreases |steps|
  {
    hide Perform, Sound, Written, WrittenFootprint;
    assert steps != [];
    var front, last := steps[..|steps| - 1], steps[|steps| - 1];
    var before := Run(cfg, start, front).value;
    BrokenWorldsStop(cfg, before, last.0, last.1);
    ExecutorsKeepJournalReducible(cfg, start, front, before);
    StepCases(cfg, before, last.0, last.1, w);
    if !SilentFootprint(before, w) { WrittenExtends(cfg, before, w); }
    if j < |before.journal| {
      assert w.journal[..j] == before.journal[..j];
      k, v, after := EventsAreAppended(cfg, start, front, before, j);
      assert steps[..k] == front[..k];
    } else {
      assert w.journal[..j] == before.journal;
      k, v, after := |front|, before, w;
      assert steps[..k] == front;
    }
  }

  /** Step k of the run answers retryably and appends event j. */
  ghost predicate AnsweredBy(cfg: Config, steps: seq<(Label, int)>, k: nat, j: nat, id: OperationID) {
    && k < |steps| && AnswersRetryably(steps[k].0, id)
    && Run(cfg, InitialWorld(cfg), steps[..k]).Some? && |Run(cfg, InitialWorld(cfg), steps[..k]).value.journal| == j
  }

  lemma FailuresAreAnswered(cfg: Config, steps: seq<(Label, int)>, w: World, j: nat) returns (k: nat)
    requires GoodPlan(cfg.plan) && Configured(cfg) && Run(cfg, InitialWorld(cfg), steps) == Some(w) && !w.broken
    requires j < |w.journal| && w.journal[j].entry.kind == OperationFailed && w.journal[j].entry.payload.retryable
    requires var entry := w.journal[j].entry;
      Happened(w.journal[..j], SideEffectDispatched, entry.operationId, entry.payload.attempt)
    ensures AnsweredBy(cfg, steps, k, j, w.journal[j].entry.operationId)
  {
    hide Perform, Sound, GoodPlan, Happened, AnswersRetryably, Written, Run, LastEvent;
    InitialWorldSound(cfg);
    var v, after;
    k, v, after := EventsAreAppended(cfg, InitialWorld(cfg), steps, w, j);
    FailureIsAnswered(cfg, v, steps[k].0, steps[k].1, after);
  }

  /** The attempt failed after its dispatch with an unambiguous retryable error of its driver. */
  ghost predicate FailedKnowingly(cfg: Config, steps: seq<(Label, int)>, events: seq<Event>, id: OperationID,
                                  attempt: int) {
    exists j: nat, k: nat ::
      && j < |events| && RetryableFailure(events[j], id, attempt)
      && Happened(events[..j], SideEffectDispatched, id, attempt) && AnsweredBy(cfg, steps, k, j, id)
  }

  lemma FailureFollowsDispatch(plan: Plan, journal: seq<Event>, i: nat, id: OperationID, attempt: int) returns (j: nat)
    requires GoodPlan(plan) && Reducible(plan, journal) && i <= |journal|
    requires Happened(journal[..i], SideEffectDispatched, id, attempt) && FailedRetryably(journal[..i], id, attempt)
    ensures j < i && RetryableFailure(journal[j], id, attempt)
    ensures Happened(journal[..j], SideEffectDispatched, id, attempt)
  {
    hide GoodPlan, Reducible;
    var events := journal[..i];
    var failure :| failure in events && RetryableFailure(failure, id, attempt);
    var dispatch :| dispatch in events && Concerns(dispatch, SideEffectDispatched, id, attempt);
    var d: nat :| d < |events| && events[d] == dispatch;
    j :| 0 <= j < |events| && events[j] == failure;
    if j < d { FailedAttemptsAreOver(plan, journal, j, d); }
    assert dispatch == journal[..j][d];
  }

  lemma DispatchedFailureIsKnown(cfg: Config, steps: seq<(Label, int)>, w: World, i: nat, id: OperationID, attempt: int)
    requires GoodPlan(cfg.plan) && Configured(cfg) && Run(cfg, InitialWorld(cfg), steps) == Some(w) && !w.broken
    requires i <= |w.journal| && Reducible(cfg.plan, w.journal)
    requires Happened(w.journal[..i], SideEffectDispatched, id, attempt) && FailedRetryably(w.journal[..i], id, attempt)
    ensures FailedKnowingly(cfg, steps, w.journal[..i], id, attempt)
  {
    hide Run, GoodPlan, AnsweredBy, Reducible, Happened, FailedRetryably;
    var j := FailureFollowsDispatch(cfg.plan, w.journal, i, id, attempt);
    var events := w.journal[..i];
    assert events[..j] == w.journal[..j] && events[j] == w.journal[j];
    var k := FailuresAreAnswered(cfg, steps, w, j);
  }

  /**
   No blind republish: in the journal of every run, over any number of stopped processes, an attempt
   that follows a dispatched one was authorized, or retries a failure that the driver answered after the
   dispatch with an unambiguous retryable error; and it was authorized whenever the outcome was ambiguous
   or the process stopped after the dispatch.
   */
  lemma NoBlindRepublish(cfg: Config, steps: seq<(Label, int)>, w: World, i: nat)
    requires GoodPlan(cfg.plan) && Configured(cfg) && Run(cfg, InitialWorld(cfg), steps) == Some(w) && !w.broken
    requires i < |w.journal| && w.journal[i].entry.kind.AttemptStarted? && w.journal[i].entry.payload.attempt > 1
    ensures var before, id := w.journal[..i], w.journal[i].entry.operationId;
      var previous := w.journal[i].entry.payload.attempt - 1;
      && (Happened(before, SideEffectDispatched, id, previous) ==>
            FailedKnowingly(cfg, steps, before, id, previous) || Happened(before, RetryAuthorized, id, previous))
      && ((id, previous) in w.lost || Happened(before, OutcomeAmbiguous, id, previous) ==>
            Happened(before, RetryAuthorized, id, previous))
  {
    hide Run, Sound, AllTraced, Happened, FailedRetryably, GoodPlan, FailedKnowingly;
    RunsAreTraced(cfg, steps, w);
    assert Justified(w.journal, w.lost, i);
    SoundReplay(cfg, w);
    var before, id, previous := w.journal[..i], w.journal[i].entry.operationId, w.journal[i].entry.payload.attempt - 1;
    if Happened(before, SideEffectDispatched, id, previous) && FailedRetryably(before, id, previous) {
      DispatchedFailureIsKnown(cfg, steps, w, i, id, previous);
    }
  }

  /** Every attempt starts and every side effect is dispatched under an active journal lease of the operation. */
  lemma WorkHappensUnderLeases(cfg: Config, steps: seq<(Label, int)>, w: World, i: nat) returns (before: RunState)
    requires GoodPlan(cfg.plan) && Configured(cfg) && Run(cfg, InitialWorld(cfg), steps) == Some(w) && !w.broken
    requires i < |w.journal|
    requires w.journal[i].entry.kind.AttemptStarted? || w.journal[i].entry.kind.SideEffectDispatched?
    ensures Replay(cfg.plan, w.journal[..i]) == Ok(before)
    ensures var id := w.journal[i].entry.operationId; id in before.records && before.records[id].leaseActive
  {
    hide Run, Sound, AllTraced, GoodPlan, Replay;
    RunsAreTraced(cfg, steps, w);
    assert Covered(cfg.plan, w.journal, i);
    before := Replay(cfg.plan, w.journal[..i]).value;
  }

  // Why attempts and reconciliations start

  /** The first attempt is the initial one, all others are retries, and a reconciliation says that it is one. */
  predicate StatesReason(entry: Entry) {
    && (entry.kind.AttemptStarted? ==>
          (entry.payload.attempt == 1 ==> entry.payload.reason == Initial)
          && (entry.payload.attempt != 1 ==> entry.payload.reason == Retry))
    && (entry.kind.ReconcileStarted? ==> entry.payload.reason == Reconcile)
  }

  lemma WorkStatesReason(cfg: Config, w: World, lease: Lease, now: int, after: World)
    requires Sound(cfg, w) && w.pending != [] && PerformWork(cfg, w, lease, now) == Some(after) && after.journal != []
    ensures StatesReason(LastEvent(after).entry)
  {
    hide Sound, Append, WorkSound;
    TakeWork(cfg, w);
    KnownOperation(cfg, w, w.pending[0].id);
    var work, rest := w.pending[0], w.(pending := w.pending[1..]);
    var report := WorkReport(work, lease);
    AppendChangesJournal(cfg, rest, OperationEntry(cfg, cfg.plan.operations[work.id], report.kind, report.payload), now,
                         AppendOperation(cfg, rest, work.id, report.kind, report.payload, now).value);
  }

  lemma MovesStartNothing(op: Operation, t: Task, move: TaskMove, outcome: Outcome)
    requires TaskReport(op, t, move) == Some(outcome)
    ensures !outcome.report.kind.AttemptStarted? && !outcome.report.kind.ReconcileStarted?
  {
    hide DecideFailure, ClassifyCallError, ValidResult;
  }

  /** Every start that a run appends states its reason. */
  lemma StartsStateTheirReason(cfg: Config, start: World, steps: seq<(Label, int)>, w: World, j: nat)
    requires Sound(cfg, start) && Run(cfg, start, steps) == Some(w) && !w.broken && |start.journal| <= j < |w.journal|
    ensures StatesReason(w.journal[j].entry)
  {
    hide Perform, Sound, Written, Run, LastEvent, StatesReason;
    var k, v, after := EventsAreAppended(cfg, start, steps, w, j);
    StepStatesReason(cfg, v, steps[k].0, steps[k].1, after);
  }

  lemma StepStatesReason(cfg: Config, w: World, step: Label, now: int, after: World)
    requires Sound(cfg, w) && Perform(cfg, w, step, now) == Some(after) && Written(cfg, w, after) && after.journal != []
    ensures StatesReason(LastEvent(after).entry)
  {
    hide Sound, Written, PerformMove, PerformWork, PerformAbandon, Append, AppendOperation, WorkList, ExecutorQuiescent,
      RetryAuthorizable, OpenAttempts, WorkReport, TaskReport, TaskInvariant, LastEvent;
    WrittenExtends(cfg, w, after);
    match step {
      case MoveTask(id, move) =>
        RunningTaskOf(cfg, w, id, move, now);
        MoveReports(cfg, w, id, move, now, after);
        MovesStartNothing(cfg.plan.operations[id], w.tasks[id], move,
                          TaskReport(cfg.plan.operations[id], w.tasks[id], move).value);
      case DoWork(lease) => WorkStatesReason(cfg, w, lease, now, after);
      case _ => OthersRecordNoOutcome(cfg, w, step, now, after);
    }
  }

  lemma RunningTaskOf(cfg: Config, w: World, id: OperationID, move: TaskMove, now: int)
    requires Sound(cfg, w) && PerformMove(cfg, w, id, move, now).Some?
    ensures id in w.tasks && id in cfg.plan.operations && cfg.plan.operations[id].id == id
  {
    hide Sound, PerformMove, TaskInvariant;
    MovesNeedNoPendingWork(cfg, w, id, move, now);
    RunningTask(cfg, w, id);
  }
}
