/**
 Progress of the executor's loop: it never stops for nothing, and it cannot go on for ever.
 */
module SchedulerProgress {
  import opened Domain
  import opened Events
  import opened Reducer
  import opened ReducerSafety
  import opened JournalHistory
  import opened Executor
  import opened DependencyOrder
  import opened Planning
  import opened Scheduler
  import opened SchedulerClosure
  import opened SchedulerRuns
  import opened ExecutorSafety

  // The keys that the loop remembers between batches

  /** The attempt will not be reconciled again by this process. */
  predicate Settled(w: World, id: OperationID, attempt: Uint32) {
    || (id, attempt) in w.reconciled
    || (id, attempt) in w.deferred
    || (id in w.tasks && (w.tasks[id].kind.ReconcileTask? || w.tasks[id].deferred))
  }

  /** The attempt was blocked in this process, which does not try again. */
  predicate BlockedHere(w: World, id: OperationID, attempt: Uint32) {
    (id, attempt) in w.deferred || (id in w.tasks && w.tasks[id].deferred)
  }

  predicate KeySound(w: World, key: Key) {
    && key.0 in w.st.records
    && key.1 <= w.st.records[key.0].attempt
    && (key.1 == w.st.records[key.0].attempt && !w.failed ==> w.st.records[key.0].state != Running)
  }

  /** A task that has settled for good left its operation not running. */
  predicate TaskKeySound(w: World, id: OperationID) {
    && id in w.tasks && id in w.st.records
    && (w.tasks[id].deferred ==> w.tasks[id].settled)
    && (w.tasks[id].settled && (w.tasks[id].kind.ReconcileTask? || w.tasks[id].deferred) && !w.failed ==>
          w.st.records[id].state != Running)
  }

  /**
   Planned starts are of attempts that this process has not dealt with; only the head of the list may be
   one about to start.
   */
  predicate WorkKeySound(w: World, work: Work) {
    work.LaunchWork? || work.StartWork? ==>
      && work.id in w.st.records
      && (work.kind.ReconcileTask? ==>
          (work.id, work.attempt) !in w.reconciled && (work.id, work.attempt) !in w.deferred)
      && (work.kind.ApplyTask? && w.st.records[work.id].state == Blocked ==>
            (work.id, w.st.records[work.id].attempt) !in w.deferred)
  }

  ghost predicate KeysSound(w: World) {
    && (forall key :: key in w.reconciled || key in w.deferred ==> KeySound(w, key))
    && (forall id :: id in w.tasks ==> TaskKeySound(w, id))
    && (forall x :: x in w.pending ==> WorkKeySound(w, x))
    && (forall i :: 1 <= i < |w.pending| ==> !w.pending[i].StartWork?)
    && (w.failed ==> w.pending == [])
  }

  // No deadlock

  /** None of the loop's passes finds anything to do. */
  ghost predicate NothingToDo(cfg: Config, w: World, now: int) {
    forall phase, id :: id in w.st.records ==> Decide(cfg, w, phase, id, now).None?
  }

  /** What the state of an operation is when no pass finds work on it. */
  lemma IdleRecord(cfg: Config, w: World, id: OperationID, now: int)
    requires KeysSound(w) && !w.failed && !w.st.cancelled && !w.reconcileOnly && NothingToDo(cfg, w, now)
    requires id in w.st.records && RecordInvariant(w.st.records[id]) && !w.st.records[id].leaseActive
    requires w.st.records[id].state != WaitingExternal && w.st.records[id].state != Blocked
    ensures var r := w.st.records[id];
      && !r.reconcileRequired
      && (r.state == Planned || r.state == Published || TerminalUnpublished(cfg, r))
      && !Doomed(cfg, r, w.st.records)
  {
    var r := w.st.records[id];
    assert Decide(cfg, w, Batch, id, now).None? && Decide(cfg, w, Recovery, id, now).None?
      && Decide(cfg, w, Cancellation, id, now).None?;
    var key := (id, r.attempt);
    assert key in w.reconciled || key in w.deferred ==> KeySound(w, key);
  }

  /** A planned operation of least rank depends on something that ended unpublished. */
  lemma {:induction false} PlannedIsDoomed(cfg: Config, records: Records, rank: map<OperationID, nat>, id: OperationID)
    requires RecordsOf(cfg.plan, records) && ExactFrontier(records)
             && Ranking(DependencyGraph(cfg.plan.operations), rank)
    requires forall j :: j in records ==>
               records[j].state == Planned || records[j].state == Published || TerminalUnpublished(cfg, records[j])
    requires id in records && records[id].state == Planned
    ensures exists doomed :: doomed in records && Doomed(cfg, records[doomed], records)
    decreases rank[id]
  {
    hide TerminalUnpublished;
    var op := records[id].op;
    assert !DependenciesPublished(op, records);
    var d :| d in op.dependencies && !(d in records && records[d].state == Published);
    assert d in DependencyGraph(cfg.plan.operations)[id];
    assert d in DependencyGraph(cfg.plan.operations) && rank[d] < rank[id];
    if records[d].state == Planned { PlannedIsDoomed(cfg, records, rank, d); }
    else { assert Doomed(cfg, records[id], records); }
  }

  /**
   No deadlock: when the loop finds nothing to do, in a run that was not cancelled and with no active
   lease, either the run can be completed or some operation waits for the outside world.
   */
  lemma NoDeadlock(cfg: Config, w: World, now: int)
    requires Sound(cfg, w) && KeysSound(w) && Schedules(w)
    requires !w.st.cancelled && !w.reconcileOnly && NothingToDo(cfg, w, now)
    requires forall id :: id in w.st.records ==> !w.st.records[id].leaseActive
    ensures ExecutorQuiescent(cfg, w.st.records)
            <==> !exists id ::
                    id in w.st.records
                    && (w.st.records[id].state == WaitingExternal || w.st.records[id].state == Blocked)
  {
    hide Sound, KeysSound, NothingToDo, ExecutorQuiescent, TerminalUnpublished;
    if forall id :: id in w.st.records ==>
         w.st.records[id].state != WaitingExternal && w.st.records[id].state != Blocked {
      NobodyWaits(cfg, w, now);
    } else {
      QuiescentWaitsForNothing(cfg, w.st.records);
    }
  }

  lemma QuiescentWaitsForNothing(cfg: Config, records: Records)
    ensures ExecutorQuiescent(cfg, records) ==>
              forall id :: id in records ==> records[id].state != WaitingExternal && records[id].state != Blocked
  {
    hide Used;
  }

  lemma NobodyWaits(cfg: Config, w: World, now: int)
    requires Sound(cfg, w) && KeysSound(w) && Schedules(w)
    requires !w.st.cancelled && !w.reconcileOnly && NothingToDo(cfg, w, now)
    requires forall id :: id in w.st.records ==>
               !w.st.records[id].leaseActive && w.st.records[id].state != WaitingExternal
               && w.st.records[id].state != Blocked
    ensures ExecutorQuiescent(cfg, w.st.records)
  {
    SoundReplay(cfg, w);
    SoundCore(cfg, w);
    hide Sound, KeysSound, NothingToDo, ExecutorQuiescent, TerminalUnpublished, Invariant, Replay;
    IdleRecordsAreFinal(cfg, w, now);
    AllFinalIsQuiescent(cfg, w.st.records);
  }

  lemma IdleRecordsAreFinal(cfg: Config, w: World, now: int)
    requires Invariant(cfg.plan, w.st) && w.st.started && GoodPlan(cfg.plan) && KeysSound(w) && !w.failed
    requires !w.st.cancelled && !w.reconcileOnly && NothingToDo(cfg, w, now)
    requires forall id :: id in w.st.records ==>
               !w.st.records[id].leaseActive && w.st.records[id].state != WaitingExternal
               && w.st.records[id].state != Blocked
    ensures forall id :: id in w.st.records ==>
              !w.st.records[id].reconcileRequired
              && (w.st.records[id].state == Published || TerminalUnpublished(cfg, w.st.records[id]))
  {
    hide KeysSound, TerminalUnpublished, Doomed, RecordInvariant, NothingToDo, DependenciesPublished;
    var records := w.st.records;
    var rank :| Ranking(DependencyGraph(cfg.plan.operations), rank);
    forall id | id in records
      ensures !records[id].reconcileRequired && !Doomed(cfg, records[id], records)
      ensures records[id].state == Planned || records[id].state == Published || TerminalUnpublished(cfg, records[id])
    {
      assert RecordInvariant(records[id]);
      IdleRecord(cfg, w, id, now);
    }
    forall id | id in records ensures records[id].state != Planned {
      if records[id].state == Planned { PlannedIsDoomed(cfg, records, rank, id); }
    }
  }

  lemma AllFinalIsQuiescent(cfg: Config, records: Records)
    requires forall id :: id in records ==>
               !records[id].reconcileRequired && !records[id].leaseActive
               && (records[id].state == Published || TerminalUnpublished(cfg, records[id]))
    ensures ExecutorQuiescent(cfg, records)
  {
  }

  // The keys stay sound

  /** What a move records when it defers its operation, or when it ends a reconciliation. */
  predicate SettlesState(t: Task, move: TaskMove, outcome: Outcome, next: Record) {
    var after := TaskAfter(t, move, outcome);
    && (after.deferred ==> after.settled)
    && (after.settled && !t.settled && (t.kind.ReconcileTask? || after.deferred) ==> next.state != Running)
    && (t.settled ==> after.settled == t.settled && after.deferred == t.deferred)
    && (!t.settled && !after.settled ==> after.deferred == t.deferred)
    && after.kind == t.kind
  }

  lemma DeferringOutcomes(sideEffecting: bool, attempt: Uint32, started: bool, dispatched: bool, answer: Answer,
                          contexts: Contexts, error: CallError)
    ensures var outcome := ApplyOutcome(sideEffecting, attempt, started, dispatched, answer);
      outcome.deferred ==> outcome.report.kind == OperationWaitingExternal
    ensures var outcome := PreparationOutcome(sideEffecting, attempt, contexts, error);
      outcome.deferred ==> outcome.report.kind == OperationResult && outcome.report.payload.state == Blocked
  {
    hide DecideFailure;
  }

  lemma ReconcileOutcomes(attempt: Uint32, wasAmbiguous: bool, answer: Answer)
    ensures var report := ReconcileOutcome(attempt, wasAmbiguous, answer).report;
      report.kind.ReconcileResult? && report.payload.state != Running
    ensures !ReconcileOutcome(attempt, wasAmbiguous, answer).deferred
  {
  }

  lemma ResultStates(r: Record, e: Event)
    requires OperationTransition(r, e, false).Some?
    ensures var next, k := OperationTransition(r, e, false).value, e.entry.kind;
      && (k.OperationWaitingExternal? ==> next.state == WaitingExternal)
      && (k.OperationResult? || k.ReconcileResult? ==> next.state == e.entry.payload.state)
  {
    hide LeaseTransition;
  }

  lemma MoveSettles(r: Record, e: Event, t: Task, move: TaskMove, outcome: Outcome)
    requires TaskReport(r.op, t, move) == Some(outcome) && Carries(e, outcome) && OperationTransition(r, e, false).Some?
    requires t.deferred ==> t.settled
    ensures SettlesState(t, move, outcome, OperationTransition(r, e, false).value)
  {
    hide OperationTransition, ApplyOutcome, PreparationOutcome, ReconcileOutcome;
    ResultStates(r, e);
    match move {
      case ApplyReturns(answer) =>
        DeferringOutcomes(r.op.sideEffecting, t.attempt, t.started, t.dispatched, answer, Contexts(false, Active),
                          CallError(false, false, None));
      case PreparationFails(contexts, error) =>
        DeferringOutcomes(r.op.sideEffecting, t.attempt, t.started, t.dispatched, CallFailed(contexts, error), contexts,
                          error);
        ReconcileOutcomes(t.attempt, t.wasAmbiguous, CallFailed(contexts, error));
      case ReconcileReturns(answer) => ReconcileOutcomes(t.attempt, t.wasAmbiguous, answer);
      case ResolveCredential(_) =>
      case ProviderStarts =>
      case DispatchSideEffect =>
      case ProviderResponds =>
      case RenewLease(_) =>
      case ReleaseLease =>
      case LeaseTurnsOutExpired =>
    }
  }

  /** Attempt counters never fall, and an operation runs again only in a new attempt. */
  predicate RunsOnlyAnew(r: Record, next: Record) {
    && r.attempt <= next.attempt
    && (next.state == Running && next.attempt == r.attempt ==> r.state == Running)
  }

  lemma HistoryRunsAnew(r: Record, next: Record, e: Event)
    requires HistoryTransition(r, next, e)
    ensures RunsOnlyAnew(r, next)
  {
  }

  lemma RecordsRunAnew(cfg: Config, w: World, after: World)
    requires Sound(cfg, w) && Sound(cfg, after)
    requires Written(cfg, w, after) || after.st == w.st
    ensures forall id :: id in w.st.records ==>
              id in after.st.records && RunsOnlyAnew(w.st.records[id], after.st.records[id])
  {
    hide Sound, Turned, RunTurned, HistoryTransition, RunLifecycle, Lawful, Extends;
    SameOperations(cfg, w, after);
    if after.st != w.st {
      WrittenExtends(cfg, w, after);
      var e := LastEvent(after);
      if RunLifecycle(e.entry.kind) { RunEventTurns(cfg, w, after); } else { OperationEventTurns(cfg, w, after); }
      forall id | id in w.st.records ensures RunsOnlyAnew(w.st.records[id], after.st.records[id]) {
        if RunLifecycle(e.entry.kind) {
          RunTurnedFacts(after.st.cancelled, w.st.records[id], after.st.records[id]);
        } else if id == e.entry.operationId {
          TurnedOwn(cfg, w, after, e);
          HistoryRunsAnew(w.st.records[id], after.st.records[id], e);
        } else {
          ChangedTurn(cfg, w, after, id);
          RunTurnedFacts(true, w.st.records[id], after.st.records[id]);
        }
      }
    }
  }

  /** What a task's move does to the keys, the tasks and the failure flag. */
  ghost predicate MoveShape(w: World, after: World, id: OperationID, t: Task, move: TaskMove, outcome: Outcome,
                            next: Record) {
    && id in w.tasks && t == w.tasks[id] && w.pending == [] && after.pending == []
    && id in after.st.records && after.st.records[id] == next
    && after.failed == (w.failed || outcome.failed)
    && (EndsTask(move) ==> t.settled)
    && if EndsTask(move) then
         && after.tasks == w.tasks - {id}
         && after.reconciled == (if t.kind.ReconcileTask? then w.reconciled + {(id, t.attempt)} else w.reconciled)
         && after.deferred == (if t.deferred then w.deferred + {(id, t.attempt)} else w.deferred)
       else
         && after.tasks == w.tasks[id := TaskAfter(t, move, outcome)]
         && after.reconciled == w.reconciled && after.deferred == w.deferred
  }

  lemma KeySoundPersists(w: World, after: World, key: Key)
    requires KeySound(w, key) && (w.failed ==> after.failed)
    requires key.0 in after.st.records && RunsOnlyAnew(w.st.records[key.0], after.st.records[key.0])
    ensures KeySound(after, key)
  {
  }

  lemma TaskKeySoundPersists(w: World, after: World, id: OperationID)
    requires TaskKeySound(w, id) && (w.failed ==> after.failed)
    requires id in after.tasks && after.tasks[id] == w.tasks[id]
    requires id in after.st.records && after.st.records[id].attempt == w.st.records[id].attempt
    requires RunsOnlyAnew(w.st.records[id], after.st.records[id])
    ensures TaskKeySound(after, id)
  {
  }

  ghost predicate RecordsRun(w: World, after: World) {
    forall id :: id in w.st.records ==> id in after.st.records && RunsOnlyAnew(w.st.records[id], after.st.records[id])
  }

  ghost predicate OthersKeepAttempts(w: World, after: World, id: OperationID) {
    forall j :: j in w.st.records && j != id ==>
      j in after.st.records && after.st.records[j].attempt == w.st.records[j].attempt
  }

  lemma MoveKeepsKeys(w: World, after: World, id: OperationID, t: Task, move: TaskMove, outcome: Outcome, next: Record)
    requires KeysSound(w) && MoveShape(w, after, id, t, move, outcome, next) && SettlesState(t, move, outcome, next)
    requires RecordsRun(w, after) && OthersKeepAttempts(w, after, id)
    requires t.attempt == w.st.records[id].attempt == next.attempt
    ensures KeysSound(after)
  {
    assert TaskKeySound(w, id);
    forall key | key in after.reconciled || key in after.deferred ensures KeySound(after, key) {
      if key in w.reconciled || key in w.deferred { KeySoundPersists(w, after, key); }
    }
    forall j | j in after.tasks ensures TaskKeySound(after, j) {
      if j != id {
        assert TaskKeySound(w, j);
        TaskKeySoundPersists(w, after, j);
      }
    }
  }

  lemma MovePieces(cfg: Config, w: World, id: OperationID, move: TaskMove, now: int, after: World)
    returns (outcome: Outcome)
    requires Sound(cfg, w) && Perform(cfg, w, MoveTask(id, move), now) == Some(after)
    ensures id in w.tasks && id in w.st.records && TaskReport(w.st.records[id].op, w.tasks[id], move) == Some(outcome)
    ensures after.journal != [] && Carries(LastEvent(after), outcome) && LastEvent(after).entry.operationId == id
    ensures move.LeaseTurnsOutExpired? ==> w.tasks[id].lease.expiresAt <= LastEvent(after).observedAt
    ensures w.pending == [] && after.pending == [] && after.failed == (w.failed || outcome.failed)
    ensures if EndsTask(move) then
        && w.tasks[id].settled
        && after.tasks == w.tasks - {id}
        && after.reconciled == (if w.tasks[id].kind.ReconcileTask? then w.reconciled + {(id, w.tasks[id].attempt)}
                                else w.reconciled)
        && after.deferred == (if w.tasks[id].deferred then w.deferred + {(id, w.tasks[id].attempt)} else w.deferred)
      else
        && after.tasks == w.tasks[id := TaskAfter(w.tasks[id], move, outcome)]
        && after.reconciled == w.reconciled && after.deferred == w.deferred
  {
    hide Sound, TaskReport, TaskAfter, Append;
    KnownOperation(cfg, w, id);
    OperationKnown(cfg, w, id);
    var op := cfg.plan.operations[id];
    outcome := TaskReport(op, w.tasks[id], move).value;
    var report := outcome.report;
    var appended := AppendOperation(cfg, w, id, report.kind, report.payload, now).value;
    AppendChangesJournal(cfg, w, OperationEntry(cfg, op, report.kind, report.payload), now, appended);
    if EndsTask(move) { EndingTasksAreSettled(op, w.tasks[id], move); }
  }

  lemma OperationKnown(cfg: Config, w: World, id: OperationID)
    requires Sound(cfg, w) && id in cfg.plan.operations
    ensures id in w.st.records && w.st.records[id].op == cfg.plan.operations[id]
  {
  }

  /** Everything that one move of a task does. */
  lemma MoveFacts(cfg: Config, w: World, id: OperationID, move: TaskMove, now: int, after: World)
    returns (outcome: Outcome)
    requires Sound(cfg, w) && KeysSound(w) && Perform(cfg, w, MoveTask(id, move), now) == Some(after) && !after.broken
    ensures Sound(cfg, after) && Written(cfg, w, after) && after.journal != []
    ensures id in w.tasks && id in w.st.records && id in after.st.records
    ensures MoveShape(w, after, id, w.tasks[id], move, outcome, after.st.records[id])
    ensures SettlesState(w.tasks[id], move, outcome, after.st.records[id])
    ensures TaskReport(w.st.records[id].op, w.tasks[id], move) == Some(outcome)
    ensures var e, r, t := LastEvent(after), w.st.records[id], w.tasks[id];
      && e.entry.operationId == id && Carries(e, outcome)
      && Turned(cfg, w, after, e, r, after.st.records[id])
      && TaskInvariant(r, t) && MoveAccepted(r, e, t, move, outcome)
      && OperationTransition(r, e, false) == Some(after.st.records[id])
  {
    hide Perform, Sound, TaskReport, TaskAfter, Turned, Lawful, LawfulOperationEvent, MoveAccepted, TaskInvariant,
      OperationTransition, SettlesState, Extends, RecordInvariant;
    outcome := MovePieces(cfg, w, id, move, now, after);
    MoveTaskAdvances(cfg, w, id, move, now, after);
    WrittenExtends(cfg, w, after);
    SoundTask(cfg, w, id);
    var e, r, t := LastEvent(after), w.st.records[id], w.tasks[id];
    TaskMoveAccepted(r, e, t, move, outcome);
    AcceptedIsNoStart(r, e, t, move, outcome);
    OperationEventTurns(cfg, w, after);
    TurnedOwn(cfg, w, after, e);
    IndifferentToDependencies(r, e, DependenciesPublished(r.op, w.st.records));
    assert t.deferred ==> t.settled by { assert TaskKeySound(w, id); }
    MoveSettles(r, e, t, move, outcome);
  }

  lemma AcceptedIsNoStart(r: Record, e: Event, t: Task, move: TaskMove, outcome: Outcome)
    requires MoveAccepted(r, e, t, move, outcome)
    ensures !e.entry.kind.AttemptStarted? && !RunLifecycle(e.entry.kind)
  {
    hide OperationTransition, TaskInvariant;
  }

  lemma SoundTask(cfg: Config, w: World, id: OperationID)
    requires Sound(cfg, w) && id in w.tasks
    ensures TaskSound(w.st.records, id, w.tasks[id], w.st.cancelled)
    ensures id in w.st.records && TaskInvariant(w.st.records[id], w.tasks[id]) && RecordInvariant(w.st.records[id])
  {
    hide TaskInvariant, RecordInvariant, WorkSound;
    assert TaskSound(w.st.records, id, w.tasks[id], w.st.cancelled);
  }

  lemma MoveTaskKeepsKeys(cfg: Config, w: World, id: OperationID, move: TaskMove, now: int, after: World)
    requires Sound(cfg, w) && KeysSound(w) && Perform(cfg, w, MoveTask(id, move), now) == Some(after) && !after.broken
    ensures KeysSound(after)
  {
    hide Perform, Sound, KeysSound, Turned, MoveAccepted, OperationTransition, SettlesState, MoveShape, Written;
    var outcome := MoveFacts(cfg, w, id, move, now, after);
    var e := LastEvent(after);
    RecordsRunAnew(cfg, w, after);
    TurnedOwn(cfg, w, after, e);
    MoveKeepsAttempts(cfg, w, after, e, move, outcome);
    MoveKeepsKeys(w, after, id, w.tasks[id], move, outcome, after.st.records[id]);
  }

  lemma MoveKeepsAttempts(cfg: Config, w: World, after: World, e: Event, move: TaskMove, outcome: Outcome)
    requires e.entry.operationId in w.st.records && e.entry.operationId in after.st.records
             && e.entry.operationId in w.tasks
    requires var id := e.entry.operationId;
      Turned(cfg, w, after, e, w.st.records[id], after.st.records[id])
      && TaskInvariant(w.st.records[id], w.tasks[id]) && MoveAccepted(w.st.records[id], e, w.tasks[id], move, outcome)
    ensures OthersKeepAttempts(w, after, e.entry.operationId)
    ensures var id := e.entry.operationId;
      w.tasks[id].attempt == w.st.records[id].attempt == after.st.records[id].attempt
  {
    hide OperationTransition, LawfulOperationEvent, Meaningful, DependenciesPublished;
  }

  lemma {:induction false} PassKeys(cfg: Config, w: World, phase: Phase, ids: seq<OperationID>, now: int)
    ensures var list := WorkList(cfg, w, phase, ids, now);
      forall x :: x in list ==> WorkKeySound(w, x) && !x.StartWork?
  {
    if ids != [] { PassKeys(cfg, w, phase, ids[1..], now); }
    hide Doomed, Interrupted, LeaseRanOut, ReadyUnjournaled, Applicable;
  }

  lemma PlanPassKeepsKeys(cfg: Config, w: World, phase: Phase, ids: seq<OperationID>, now: int, after: World)
    requires KeysSound(w) && Perform(cfg, w, PlanPass(phase, ids), now) == Some(after)
    ensures KeysSound(after)
  {
    hide WorkList;
    PassKeys(cfg, w, phase, ids, now);
    forall x | x in after.pending ensures WorkKeySound(after, x) { assert WorkKeySound(w, x); }
  }

  /** What a piece of work leaves besides the records. */
  lemma WorkPieces(cfg: Config, w: World, lease: Lease, now: int, after: World)
    requires Sound(cfg, w) && Perform(cfg, w, DoWork(lease), now) == Some(after)
    ensures w.pending != [] && after.journal != []
    ensures var work := w.pending[0];
      && LastEvent(after).entry.operationId == work.id
      && LastEvent(after).entry.kind == WorkReport(work, lease).kind
      && LastEvent(after).entry.payload == WorkReport(work, lease).payload
      && after.pending == (if work.LaunchWork? then
                             [StartWork(work.id, work.kind, work.attempt, work.wasAmbiguous, lease)] else [])
                          + w.pending[1..]
      && after.tasks == (if work.StartWork? then w.tasks[work.id := NewTask(work)] else w.tasks)
      && after.reconciled == w.reconciled && after.deferred == w.deferred && after.failed == w.failed
  {
    hide Sound, WorkReport, Append, NewTask;
    TakeWork(cfg, w);
    var work := w.pending[0];
    KnownOperation(cfg, w, work.id);
    var report := WorkReport(work, lease);
    var rest := w.(pending := w.pending[1..]);
    var appended := AppendOperation(cfg, rest, work.id, report.kind, report.payload, now).value;
    AppendChangesJournal(cfg, rest, OperationEntry(cfg, cfg.plan.operations[work.id], report.kind, report.payload), now,
                         appended);
  }

  /** Other operations are blocked only if they were, in the same attempt. */
  ghost predicate BlockedBefore(w: World, after: World, id: OperationID) {
    forall j :: j in w.st.records && j != id && j in after.st.records && after.st.records[j].state == Blocked ==>
      w.st.records[j].state == Blocked && w.st.records[j].attempt == after.st.records[j].attempt
  }

  /** Everything that one piece of work does. */
  lemma WorkFacts(cfg: Config, w: World, lease: Lease, now: int, after: World)
    requires Sound(cfg, w) && Perform(cfg, w, DoWork(lease), now) == Some(after) && !after.broken
    ensures Sound(cfg, after) && Written(cfg, w, after) && w.pending != [] && after.journal != []
    ensures var work, e := w.pending[0], LastEvent(after);
      && work.id in w.st.records && work.id in after.st.records && work.id !in w.tasks
      && e.entry.operationId == work.id && RecordInvariant(w.st.records[work.id])
      && Turned(cfg, w, after, e, w.st.records[work.id], after.st.records[work.id])
      && WorkSound(cfg, w.st.records, w.clock, work)
      && WorkDone(cfg, w.st.records[work.id], after.st.records[work.id], work, lease)
  {
    hide Perform, Sound, Turned, Lawful, LawfulOperationEvent, TaskInvariant, OperationTransition, Extends,
      RecordInvariant, WorkSound, WorkReport, DependenciesPublished, WorkDone, ValidEvent, Core, WorkOfCancelledRun;
    WorkPieces(cfg, w, lease, now, after);
    TakeWork(cfg, w);
    DoWorkAdvances(cfg, w, lease, now, after);
    assert Written(cfg, w, after) by { GrownIsWritten(cfg, w, lease, now, after); }
    WrittenExtends(cfg, w, after);
    var work, e := w.pending[0], LastEvent(after);
    SoundCore(cfg, w);
    SoundHistory(cfg, w);
    SameOperations(cfg, w, after);
    ExtensionIsValid(cfg, w, after, e);
    WorkAccepted(cfg, w, work, e, lease);
    assert !RunLifecycle(e.entry.kind) by { WorkConcernsOperation(work, lease); }
    OperationEventTurns(cfg, w, after);
    TurnedOwn(cfg, w, after, e);
  }

  lemma WorkConcernsOperation(work: Work, lease: Lease)
    ensures !RunLifecycle(WorkReport(work, lease).kind)
  {
  }

  lemma SoundCore(cfg: Config, w: World)
    requires Sound(cfg, w)
    ensures Core(cfg, w)
  {
  }

  lemma ExtensionIsValid(cfg: Config, w: World, after: World, e: Event)
    requires Extends(cfg, w, after, e)
    ensures ValidEvent(e) && w.clock <= e.observedAt
  {
  }

  lemma GrownIsWritten(cfg: Config, w: World, lease: Lease, now: int, after: World)
    requires Sound(cfg, w) && Perform(cfg, w, DoWork(lease), now) == Some(after) && Advances(cfg, w, after)
    ensures Written(cfg, w, after)
  {
    hide Sound, Written, WorkReport, Append;
    TakeWork(cfg, w);
    KnownOperation(cfg, w, w.pending[0].id);
    WorkFootprint(cfg, w, lease, now, after);
  }

  lemma WorkBlocksNobody(w: World, after: World, id: OperationID)
    requires id in after.st.records && Changed(w.st.records, after.st.records, id, after.st.records[id])
    ensures BlockedBefore(w, after, id)
  {
  }

  lemma WorkKeyPersists(w: World, after: World, id: OperationID, x: Work)
    requires WorkKeySound(w, x) && x.id != id && BlockedBefore(w, after, id) && RecordsRun(w, after)
    requires after.reconciled == w.reconciled && after.deferred == w.deferred && x.id in w.st.records
    ensures WorkKeySound(after, x)
  {
  }

  lemma StartKeySound(w: World, after: World, work: Work, lease: Lease)
    requires WorkKeySound(w, work) && work.LaunchWork? && work.id in w.st.records && work.id in after.st.records
    requires after.reconciled == w.reconciled && after.deferred == w.deferred
    requires SameProgress(w.st.records[work.id], after.st.records[work.id])
    ensures WorkKeySound(after, StartWork(work.id, work.kind, work.attempt, work.wasAmbiguous, lease))
  {
  }

  /** Acquiring a lease changes nothing else. */
  lemma LaunchTurns(r: Record, e: Event, published: bool)
    requires e.entry.kind.LeaseAcquired? && OperationTransition(r, e, published).Some?
    ensures OperationTransition(r, e, published).value == r.(leaseActive := true, lease := e.entry.payload.lease.value)
  {
  }

  /**
   What performing a piece of work means for the keys: only its own operation, its task and the head of
   the list change.
   */
  ghost predicate KeyShape(w: World, after: World, lease: Lease) {
    && w.pending != []
    && var work := w.pending[0];
    && work.id in w.st.records && work.id in after.st.records && work.id !in w.tasks
    && Changed(w.st.records, after.st.records, work.id, after.st.records[work.id])
    && RecordsRun(w, after)
    && after.pending == (if work.LaunchWork? then
                           [StartWork(work.id, work.kind, work.attempt, work.wasAmbiguous, lease)] else [])
                        + w.pending[1..]
    && after.tasks == (if work.StartWork? then w.tasks[work.id := NewTask(work)] else w.tasks)
    && after.reconciled == w.reconciled && after.deferred == w.deferred && after.failed == w.failed
    && (work.LaunchWork? ==> SameProgress(w.st.records[work.id], after.st.records[work.id]))
    && (forall x :: x in w.pending[1..] ==> x in w.pending && x.id != work.id && x.id in w.st.records)
  }

  lemma DoWorkShape(cfg: Config, w: World, lease: Lease, now: int, after: World)
    requires Sound(cfg, w) && Perform(cfg, w, DoWork(lease), now) == Some(after) && !after.broken
    ensures KeyShape(w, after, lease)
  {
    hide Perform, Sound, Turned, Written, OperationTransition, WorkDone, WorkSound, DependenciesPublished,
      LawfulOperationEvent, HistoryTransition, Meaningful, RecordInvariant, RunsOnlyAnew, Changed, WorkReport, NewTask;
    WorkPieces(cfg, w, lease, now, after);
    WorkFacts(cfg, w, lease, now, after);
    RecordsRunAnew(cfg, w, after);
    var work, e := w.pending[0], LastEvent(after);
    TurnedOwn(cfg, w, after, e);
    TurnedChanges(cfg, w, after, e);
    TailDistinctOf(cfg, w);
    forall x | x in w.pending[1..] ensures x.id in w.st.records { SoundWorkIsKnown(cfg, w, x); }
    var r := w.st.records[work.id];
    if work.LaunchWork? { LaunchKeepsProgress(r, e, work, lease, DependenciesPublished(r.op, w.st.records)); }
  }

  lemma LaunchKeepsProgress(r: Record, e: Event, work: Work, lease: Lease, published: bool)
    requires work.LaunchWork? && e.entry.kind == WorkReport(work, lease).kind
             && OperationTransition(r, e, published).Some?
    ensures SameProgress(r, OperationTransition(r, e, published).value)
  {
    hide OperationTransition;
    LaunchTurns(r, e, published);
  }

  lemma PendingKeysAfterWork(w: World, after: World, lease: Lease)
    requires KeysSound(w) && KeyShape(w, after, lease)
    ensures forall x :: x in after.pending ==> WorkKeySound(after, x)
  {
    hide WorkKeySound, KeySound, TaskKeySound, BlockedBefore, RunsOnlyAnew;
    var work := w.pending[0];
    assert work in w.pending;
    WorkBlocksNobody(w, after, work.id);
    forall x | x in after.pending ensures WorkKeySound(after, x) {
      if x in w.pending[1..] { WorkKeyPersists(w, after, work.id, x); } else { StartKeySound(w, after, work, lease); }
    }
  }

  lemma TaskKeysAfterWork(w: World, after: World, lease: Lease)
    requires KeysSound(w) && KeyShape(w, after, lease)
    ensures forall id :: id in after.tasks ==> TaskKeySound(after, id)
  {
    hide WorkKeySound, KeySound, TaskKeySound, RunsOnlyAnew, Changed, NewTask;
    var work := w.pending[0];
    forall id | id in after.tasks ensures TaskKeySound(after, id) {
      if id in w.tasks { OtherTaskKeySound(w, after, work.id, id); } else { NewTaskKeySound(after, id, work); }
    }
  }

  lemma KeysAfterWork(w: World, after: World, lease: Lease)
    requires KeysSound(w) && KeyShape(w, after, lease)
    ensures forall key :: key in after.reconciled || key in after.deferred ==> KeySound(after, key)
  {
    hide WorkKeySound, KeySound, TaskKeySound, RunsOnlyAnew, Changed, NewTask;
    forall key | key in after.reconciled || key in after.deferred ensures KeySound(after, key) {
      assert KeySound(w, key);
      KnownKey(w, key);
      KeySoundPersists(w, after, key);
    }
  }

  lemma DoWorkKeepsKeys(cfg: Config, w: World, lease: Lease, now: int, after: World)
    requires Sound(cfg, w) && KeysSound(w) && Perform(cfg, w, DoWork(lease), now) == Some(after) && !after.broken
    ensures KeysSound(after)
  {
    hide Perform, Sound, WorkKeySound, KeySound, TaskKeySound, Changed, RecordsRun, NewTask, SameProgress;
    DoWorkShape(cfg, w, lease, now, after);
    KeysAfterWork(w, after, lease);
    TaskKeysAfterWork(w, after, lease);
    PendingKeysAfterWork(w, after, lease);
  }

  lemma TailDistinctOf(cfg: Config, w: World)
    requires Sound(cfg, w) && w.pending != []
    ensures forall x :: x in w.pending[1..] ==> x in w.pending && x.id != w.pending[0].id
  {
    TailDistinct(w.pending);
  }

  lemma KnownKey(w: World, key: Key)
    requires KeySound(w, key)
    ensures key.0 in w.st.records
  {
  }

  lemma SoundWorkIsKnown(cfg: Config, w: World, x: Work)
    requires Sound(cfg, w) && x in w.pending
    ensures x.id in w.st.records
  {
    hide Core, TasksSound;
    SoundWorkKnown(cfg, w.st.records, w.clock, x);
  }

  lemma TurnedChanges(cfg: Config, w: World, after: World, e: Event)
    requires e.entry.operationId in w.st.records && e.entry.operationId in after.st.records
    requires Turned(cfg, w, after, e, w.st.records[e.entry.operationId], after.st.records[e.entry.operationId])
    ensures Changed(w.st.records, after.st.records, e.entry.operationId, after.st.records[e.entry.operationId])
  {
    hide OperationTransition, LawfulOperationEvent, HistoryTransition, Meaningful;
  }

  lemma OtherTaskKeySound(w: World, after: World, changed: OperationID, id: OperationID)
    requires TaskKeySound(w, id) && id != changed && id in after.tasks && after.tasks[id] == w.tasks[id]
    requires changed in after.st.records && after.failed == w.failed && RecordsRun(w, after)
    requires Changed(w.st.records, after.st.records, changed, after.st.records[changed])
    ensures TaskKeySound(after, id)
  {
  }

  lemma NewTaskKeySound(after: World, id: OperationID, work: Work)
    requires work.StartWork? && id in after.st.records && id in after.tasks && after.tasks[id] == NewTask(work)
    ensures TaskKeySound(after, id)
  {
  }

  lemma OtherStepsKeepKeys(cfg: Config, w: World, step: Label, now: int, after: World)
    requires Sound(cfg, w) && Sound(cfg, after) && KeysSound(w) && Perform(cfg, w, step, now) == Some(after)
    requires step.BeginRun? || step.CancelRun? || step.CompleteRun? || step.AuthorizeRetryOf?
    requires RecordsRun(w, after)
    ensures KeysSound(after)
  {
    hide Sound, Step, ValidEvent, RetryAuthorizable, ExecutorQuiescent, RunsOnlyAnew, KeySound;
    assert w.tasks == map[] && w.pending == [] && after.tasks == w.tasks && after.pending == []
           && after.failed == w.failed
      && after.reconciled == w.reconciled
      && after.deferred == w.deferred by { RunStepsTouchNothing(cfg, w, step, now, after); }
    forall key | key in after.reconciled || key in after.deferred ensures KeySound(after, key) {
      assert KeySound(w, key);
      KnownKey(w, key);
      KeySoundPersists(w, after, key);
    }
  }

  lemma RunStepsTouchNothing(cfg: Config, w: World, step: Label, now: int, after: World)
    requires Sound(cfg, w) && Perform(cfg, w, step, now) == Some(after)
    requires step.BeginRun? || step.CancelRun? || step.CompleteRun? || step.AuthorizeRetryOf?
    ensures w.tasks == map[] && w.pending == [] && after.tasks == w.tasks && after.pending == []
            && after.failed == w.failed
    ensures after.reconciled == w.reconciled && after.deferred == w.deferred
  {
    hide Step, ValidEvent, RetryAuthorizable, ExecutorQuiescent, Sound;
    if step.BeginRun? { JournalDecidesStart(cfg, w); }
  }

  lemma SilentStepsKeepKeys(cfg: Config, w: World, step: Label, now: int, after: World)
    requires Sound(cfg, w) && KeysSound(w) && Perform(cfg, w, step, now) == Some(after)
    requires step.SkipLaunch? || step.RefuseOutcome? || step.StopProcess? || step.Wait?
    ensures KeysSound(after)
  {
    hide Sound, OpenAttempts;
    if step.SkipLaunch? || step.Wait? {
      forall x | x in after.pending ensures WorkKeySound(after, x) { assert WorkKeySound(w, x); }
      forall key | key in after.reconciled || key in after.deferred
        ensures KeySound(after, key)
      {
        assert KeySound(w, key);
      }
    } else if step.RefuseOutcome? {
      SoundTask(cfg, w, step.id);
      forall key | key in after.reconciled || key in after.deferred
        ensures KeySound(after, key)
      {
        assert KeySound(w, key);
      }
      forall id | id in after.tasks ensures TaskKeySound(after, id) { assert TaskKeySound(w, id); }
    }
  }

  lemma AbandonKeepsKeys(cfg: Config, w: World, expired: bool, now: int, after: World)
    requires KeysSound(w) && Perform(cfg, w, AbandonStart(expired), now) == Some(after) && RecordsRun(w, after)
    ensures KeysSound(after)
  {
    hide AppendOperation, KeySound, WorkReport, ValidEntry, RunsOnlyAnew;
    var work, rest := w.pending[0], w.(pending := [], tasks := map[]);
    var kind := if expired then LeaseExpired else LeaseReleased;
    var appended := AppendOperation(cfg, rest, work.id, kind, LeasePayload(work.lease), now).value;
    assert appended == rest.(journal := appended.journal, st := appended.st, clock := now,
                             broken := appended.broken) by {
      AppendTouchesJournal(cfg, rest, work.id, kind, LeasePayload(work.lease), now, appended);
    }
    forall key | key in after.reconciled || key in after.deferred ensures KeySound(after, key) {
      assert KeySound(w, key);
      KnownKey(w, key);
      KeySoundPersists(w, after, key);
    }
  }

  lemma AppendTouchesJournal(cfg: Config, w: World, id: OperationID, kind: EventKind, payload: Payload, now: int,
                             after: World)
    requires AppendOperation(cfg, w, id, kind, payload, now) == Some(after)
    ensures after == w.(journal := after.journal, st := after.st, clock := now, broken := after.broken)
  {
    hide Append;
    AppendChangesJournal(cfg, w, OperationEntry(cfg, cfg.plan.operations[id], kind, payload), now, after);
  }

  lemma EveryStepKeepsKeys(cfg: Config, w: World, step: Label, now: int, after: World)
    requires Sound(cfg, w) && KeysSound(w) && Perform(cfg, w, step, now) == Some(after) && !after.broken
    ensures Sound(cfg, after) && KeysSound(after)
  {
    hide Perform, Sound, KeysSound, Written, WrittenFootprint;
    StepCases(cfg, w, step, now, after);
    RecordsRunAnew(cfg, w, after);
    if step.AbandonStart? { AbandonKeepsKeys(cfg, w, step.expired, now, after); }
    else if step.DoWork? { DoWorkKeepsKeys(cfg, w, step.lease, now, after); }
    else if step.MoveTask? { MoveTaskKeepsKeys(cfg, w, step.id, step.move, now, after); }
    else if step.PlanPass? { PlanPassKeepsKeys(cfg, w, step.phase, step.ids, now, after); }
    else if step.SkipLaunch? || step.RefuseOutcome? || step.StopProcess? || step.Wait? {
      SilentStepsKeepKeys(cfg, w, step, now, after);
    }
    else { OtherStepsKeepKeys(cfg, w, step, now, after); }
  }

  lemma {:induction false} RunsKeepKeys(cfg: Config, start: World, steps: seq<(Label, int)>, w: World)
    requires Sound(cfg, start) && KeysSound(start) && Run(cfg, start, steps) == Some(w) && !w.broken
    ensures Sound(cfg, w) && KeysSound(w)
    decreases |steps|
  {
    hide Perform, Sound, KeysSound;
    if steps != [] {
      var front, last := steps[..|steps| - 1], steps[|steps| - 1];
      var before := Run(cfg, start, front).value;
      BrokenWorldsStop(cfg, before, last.0, last.1);
      RunsKeepKeys(cfg, start, front, before);
      EveryStepKeepsKeys(cfg, before, last.0, last.1, w);
    }
  }

  /**
   An executor that opened any reducible journal of its run stops, with the run not cancelled and no
   lease active, only if the run can be completed or some operation waits for the outside world, and
   then not both.
   */
  lemma ExecutorNeverStopsForNothing(cfg: Config, journal: seq<Event>, st: RunState, clock: int,
                                     steps: seq<(Label, int)>, w: World, now: int)
    requires GoodPlan(cfg.plan) && Configured(cfg) && Replay(cfg.plan, journal) == Ok(st) && clock >= 1
    requires journal == [] || st.runId == cfg.runId
    requires Run(cfg, OpenedWorld(journal, st, clock, false), steps) == Some(w) && !w.broken && Schedules(w)
    requires !w.st.cancelled && !w.reconcileOnly && NothingToDo(cfg, w, now)
    requires forall id :: id in w.st.records ==> !w.st.records[id].leaseActive
    ensures ExecutorQuiescent(cfg, w.st.records)
            <==> !exists id ::
                    id in w.st.records
                    && (w.st.records[id].state == WaitingExternal || w.st.records[id].state == Blocked)
  {
    hide Run, Sound, GoodPlan, ExecutorQuiescent, NothingToDo, Replay;
    ReducibleJournalIsSound(cfg, journal, st, clock, false);
    RunsKeepKeys(cfg, OpenedWorld(journal, st, clock, false), steps, w);
    NoDeadlock(cfg, w, now);
  }
}
