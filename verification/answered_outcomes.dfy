/**
 What a run records as settled was answered so: every publication and every rejection in a journal
 comes from the step in which a driver returned that very result.
 */
module AnsweredOutcomes {
  import opened Domain
  import opened Events
  import opened Reducer
  import opened Planning
  import opened Executor
  import opened Scheduler
  import opened SchedulerClosure
  import opened SchedulerRuns
  import opened ExecutorSafety
  import opened Settlement

  /** The step is the answer to an apply call or a reconciliation: a well-formed result of that state. */
  predicate AnswersWith(step: Label, id: OperationID, state: NormalizedState) {
    && step.MoveTask? && step.id == id
    && (step.move.ApplyReturns? || step.move.ReconcileReturns?) && Answers(step.move.answer, state)
  }

  /** The event carries that result. */
  predicate CarriesAnswer(e: Event, step: Label)
    requires step.MoveTask? && (step.move.ApplyReturns? || step.move.ReconcileReturns?) && step.move.answer.Returned?
  {
    RecordsResult(e.entry.payload, step.move.answer.result)
    && (step.move.ReconcileReturns? <==> e.entry.kind.ReconcileResult?)
  }

  /** Among the reports of a task only the answers settle anything. */
  lemma TaskSettles(op: Operation, t: Task, move: TaskMove, outcome: Outcome, e: Event, state: NormalizedState)
    requires TaskReport(op, t, move) == Some(outcome) && Carries(e, outcome) && Settles(state)
    requires Reports(e, e.entry.operationId, e.entry.payload.attempt, state)
    ensures (move.ApplyReturns? || move.ReconcileReturns?) && Answers(move.answer, state)
    ensures CarriesAnswer(e, MoveTask(e.entry.operationId, move))
    ensures move.ApplyReturns? && op.sideEffecting ==> t.dispatched
  {
    hide ApplyOutcome, PreparationOutcome, ReconcileOutcome, RecordsResult, RecordsError, ValidResult;
    match move {
      case ApplyReturns(answer) => ApplyOutcomeIsExact(op.sideEffecting, t.attempt, t.started, t.dispatched, answer);
      case ReconcileReturns(answer) => ReconcileOutcomeIsExact(t.attempt, t.wasAmbiguous, answer);
      case PreparationFails(contexts, error) =>
        if t.kind.ApplyTask? { PreparationOutcomeIsExact(op.sideEffecting, t.attempt, contexts, error); }
        else { ReconcileOutcomeIsExact(t.attempt, t.wasAmbiguous, CallFailed(contexts, error)); }
      case _ =>
    }
  }

  lemma WorkSettlesNothing(work: Work, lease: Lease)
    ensures var k := WorkReport(work, lease).kind;
      !k.OperationPublished? && !k.OperationRejected? && !k.OperationResult? && !k.ReconcileResult?
  {
  }

  lemma MoveIsAnswer(cfg: Config, w: World, id: OperationID, move: TaskMove, now: int, after: World,
                     state: NormalizedState)
    requires Sound(cfg, w) && PerformMove(cfg, w, id, move, now) == Some(after) && Settles(state) && after.journal != []
    requires var e := LastEvent(after); Reports(e, e.entry.operationId, e.entry.payload.attempt, state)
    ensures LastEvent(after).entry.operationId == id
    ensures AnswersWith(MoveTask(id, move), id, state) && CarriesAnswer(LastEvent(after), MoveTask(id, move))
    ensures id in w.tasks && id in w.st.records
    ensures move.ApplyReturns? && w.st.records[id].op.sideEffecting ==> w.tasks[id].dispatched
  {
    hide Sound, PerformMove, TaskReport, TaskInvariant, RecordsResult, Answers, LastEvent;
    MovesNeedNoPendingWork(cfg, w, id, move, now);
    RunningTask(cfg, w, id);
    MoveReports(cfg, w, id, move, now, after);
    var op := w.st.records[id].op;
    TaskSettles(op, w.tasks[id], move, TaskReport(op, w.tasks[id], move).value, LastEvent(after), state);
  }

  lemma WorkIsNoAnswer(cfg: Config, w: World, lease: Lease, now: int, after: World, state: NormalizedState)
    requires Sound(cfg, w) && w.pending != [] && PerformWork(cfg, w, lease, now) == Some(after) && after.journal != []
    ensures var e := LastEvent(after);
      Settles(state) ==> !Reports(e, e.entry.operationId, e.entry.payload.attempt, state)
  {
    hide Sound, PerformWork, WorkReport, WorkSound, LastEvent;
    TakeWork(cfg, w);
    KnownOperation(cfg, w, w.pending[0].id);
    WorkReports(cfg, w, lease, now, after);
    WorkSettlesNothing(w.pending[0], lease);
  }

  /** One step that appends a settlement is the answer that the settlement repeats. */
  lemma SettlementIsAnswered(cfg: Config, w: World, step: Label, now: int, after: World, state: NormalizedState)
    requires Sound(cfg, w) && Perform(cfg, w, step, now) == Some(after) && Written(cfg, w, after) && Settles(state)
    requires after.journal != []
    requires var e := LastEvent(after); Reports(e, e.entry.operationId, e.entry.payload.attempt, state)
    ensures AnswersWith(step, LastEvent(after).entry.operationId, state) && CarriesAnswer(LastEvent(after), step)
    ensures step.move.ApplyReturns? ==>
              step.id in w.tasks && step.id in w.st.records
              && (w.st.records[step.id].op.sideEffecting ==> w.tasks[step.id].dispatched)
  {
    hide Sound, Written, PerformMove, PerformWork, PerformAbandon, Append, AppendOperation, WorkList, ExecutorQuiescent,
      RetryAuthorizable, OpenAttempts, WorkReport, CarriesAnswer, AnswersWith, WorkSound, LastEvent;
    WrittenExtends(cfg, w, after);
    match step {
      case MoveTask(id, move) => MoveIsAnswer(cfg, w, id, move, now, after, state);
      case DoWork(lease) => WorkIsNoAnswer(cfg, w, lease, now, after, state);
      case _ => OthersRecordNoOutcome(cfg, w, step, now, after);
    }
  }

  /** Step k of a run is the answer that settles event j, given when the journal held the events before j. */
  ghost predicate SettledBy(cfg: Config, start: World, steps: seq<(Label, int)>, k: nat, journal: seq<Event>, j: nat,
                            state: NormalizedState) {
    && k < |steps| && j < |journal| && AnswersWith(steps[k].0, journal[j].entry.operationId, state)
    && CarriesAnswer(journal[j], steps[k].0)
    && Run(cfg, start, steps[..k]).Some? && Run(cfg, start, steps[..k]).value.journal == journal[..j]
  }

  /**
   Every publication and every rejection that a run appends, by an apply call or by a reconciliation, is
   appended by the step in which the driver returned that well-formed result.
   */
  lemma SettlementsAreAnswered(cfg: Config, start: World, steps: seq<(Label, int)>, w: World, j: nat,
                               state: NormalizedState)
    returns (k: nat)
    requires Sound(cfg, start) && Run(cfg, start, steps) == Some(w) && !w.broken && |start.journal| <= j < |w.journal|
    requires Settles(state)
    requires var e := w.journal[j]; Reports(e, e.entry.operationId, e.entry.payload.attempt, state)
    ensures SettledBy(cfg, start, steps, k, w.journal, j, state)
  {
    hide Perform, Sound, Written, Run, LastEvent, Reports, CarriesAnswer, AnswersWith;
    var v, after;
    k, v, after := EventsAreAppended(cfg, start, steps, w, j);
    SettlementIsAnswered(cfg, v, steps[k].0, steps[k].1, after, state);
  }

  lemma ReportIndex(events: seq<Event>, id: OperationID, attempt: int, state: NormalizedState) returns (j: nat)
    requires Reported(events, id, attempt, state)
    ensures j < |events| && Reports(events[j], id, attempt, state)
    ensures events[j].entry.operationId == id && events[j].entry.payload.attempt == attempt
  {
    var e :| e in events && Reports(e, id, attempt, state);
    j :| 0 <= j < |events| && events[j] == e;
  }

  /**
   So in a run from the empty journal an operation is published, or rejected, only if a driver returned
   that result for its present attempt.
   */
  lemma SettledMeansAnswered(cfg: Config, steps: seq<(Label, int)>, w: World, id: OperationID) returns (j: nat, k: nat)
    requires GoodPlan(cfg.plan) && Configured(cfg) && Run(cfg, InitialWorld(cfg), steps) == Some(w) && !w.broken
    requires id in w.st.records && Settles(w.st.records[id].state)
    ensures var r := w.st.records[id];
      && SettledBy(cfg, InitialWorld(cfg), steps, k, w.journal, j, r.state)
      && w.journal[j].entry.operationId == id && w.journal[j].entry.payload.attempt == r.attempt
  {
    hide Run, Sound, GoodPlan, SettledBy, Reported, Reports;
    InitialWorldSound(cfg);
    ExecutorsKeepJournalReducible(cfg, InitialWorld(cfg), steps, w);
    SoundReplay(cfg, w);
    var r := w.st.records[id];
    StatesAreReported(cfg.plan, w.journal, w.st, id);
    j := ReportIndex(w.journal, id, r.attempt, r.state);
    k := SettlementsAreAnswered(cfg, InitialWorld(cfg), steps, w, j, r.state);
  }
}
