/**
 The measure behind the end of the executor's loop: over the attempts, reconciliations, leases and
 announcements that are left. It falls with every productive step of a process; that every iteration
 of the loop takes such a step, or waits, is proved in executor_loop.dfy.
 */
module SchedulerTermination {
  import opened Domain
  import opened Events
  import opened Reducer
  import opened ReducerSafety
  import opened JournalHistory
  import opened Executor
  import opened Scheduler
  import opened SchedulerClosure
  import opened SchedulerRuns
  import opened ExecutorSafety
  import opened RetryBudget
  import opened SchedulerProgress

  // What is left to do for one operation

  function Left(maxAttempts: Uint32, r: Record): nat {
    if r.attempt - r.blockedAttempts < maxAttempts then maxAttempts - (r.attempt - r.blockedAttempts) else 0
  }

  function AtLeastOne(n: nat): nat {
    if n == 0 then 1 else n
  }

  /** The attempts that this process may still start. */
  function AttemptsLeft(maxAttempts: Uint32, r: Record, blockedHere: bool): nat {
    if r.state == Planned || r.state == Ready || (r.state == Blocked && !blockedHere) then
         AtLeastOne(Left(maxAttempts, r))
    else if r.state == Running || (r.state == Failed && r.retryable) then Left(maxAttempts, r)
    else 0
  }

  /** The reconciliations that this process may still start for the present attempt. */
  function ReconciliationsLeft(r: Record, settled: bool): nat {
    if (r.state == Running || r.state == WaitingExternal) && !settled then 1 else 0
  }

  function Open(b: bool): nat {
    if b then 0 else 1
  }

  predicate Starting(w: World, id: OperationID) {
    w.pending != [] && w.pending[0].StartWork? && w.pending[0].id == id
  }

  function TaskStage(t: Task): nat {
    4 + Open(t.started) + Open(t.dispatched) + Open(t.responded)
  }

  /** How far the operation is from being free of leases and tasks. */
  function Stage(w: World, id: OperationID, r: Record): nat {
    if id in w.tasks && !w.tasks[id].settled then TaskStage(w.tasks[id])
    else if !r.leaseActive then 2
    else if Starting(w, id) then 1
    else 3
  }

  function Weight(maxAttempts: Uint32, r: Record, settled: bool, blockedHere: bool, stage: nat): nat {
    16 * AttemptsLeft(maxAttempts, r, blockedHere) + 8 * ReconciliationsLeft(r, settled) + stage
      + Open(r.readyJournaled)
  }

  function Potential(cfg: Config, w: World, id: OperationID): nat {
    if id !in w.st.records then 0
    else
      var r := w.st.records[id];
      Weight(cfg.maxAttempts, r, Settled(w, id, r.attempt), BlockedHere(w, id, r.attempt), Stage(w, id, r))
  }

  function SumOfPotentials(cfg: Config, w: World, ids: seq<OperationID>): nat {
    if ids == [] then 0 else Potential(cfg, w, ids[0]) + SumOfPotentials(cfg, w, ids[1..])
  }

  function RunLeft(st: RunState): nat {
    Open(st.started) + Open(st.completed) + Open(st.cancelled)
  }

  /** The measure, over an enumeration of the operations. */
  function Measure(cfg: Config, w: World, ids: seq<OperationID>): nat {
    RunLeft(w.st) + SumOfPotentials(cfg, w, ids)
  }

  lemma {:induction false} SumFalls(cfg: Config, w: World, after: World, ids: seq<OperationID>, id: OperationID)
    requires forall j :: j in ids ==> Potential(cfg, after, j) <= Potential(cfg, w, j)
    ensures SumOfPotentials(cfg, after, ids) <= SumOfPotentials(cfg, w, ids)
    ensures id in ids && Potential(cfg, after, id) < Potential(cfg, w, id) ==>
              SumOfPotentials(cfg, after, ids) < SumOfPotentials(cfg, w, ids)
  {
    hide Potential;
    if ids != [] {
      SumFalls(cfg, w, after, ids[1..], id);
      assert id in ids ==> id == ids[0] || id in ids[1..];
    }
  }

  // Operations that a step does not concern

  /** The step leaves the tasks, keys and work of operation j alone. */
  ghost predicate SameSurroundings(w: World, after: World, j: OperationID) {
    && (j in after.tasks <==> j in w.tasks)
    && (j in w.tasks ==> after.tasks[j] == w.tasks[j])
    && (forall attempt :: ((j, attempt) in after.reconciled <==> (j, attempt) in w.reconciled)
                          && ((j, attempt) in after.deferred <==> (j, attempt) in w.deferred))
    && (Starting(after, j) <==> Starting(w, j))
  }

  lemma TurnedWeight(maxAttempts: Uint32, r: Record, next: Record, settled: bool, blockedHere: bool, stage: nat)
    requires RunTurned(true, r, next)
    ensures Weight(maxAttempts, next, settled, blockedHere, stage)
            <= Weight(maxAttempts, r, settled, blockedHere, stage)
    ensures next.leaseActive == r.leaseActive && next.attempt == r.attempt
  {
    hide CancelRecord, Left;
    if next != r {
      if r.state == Planned && next == r.(state := Ready) {
        SameLeft(maxAttempts, r, next);
      } else {
        assert next == CancelRecord(r);
        CancelledShape(r);
        assert AttemptsLeft(maxAttempts, next, blockedHere) == 0;
      }
    }
  }

  lemma SameLeft(maxAttempts: Uint32, r: Record, next: Record)
    requires next.attempt == r.attempt && next.blockedAttempts == r.blockedAttempts
    ensures Left(maxAttempts, next) == Left(maxAttempts, r)
  {
  }

  lemma CancelledShape(r: Record)
    ensures var next := CancelRecord(r);
      next == r || (next.state == Cancelled && next.leaseActive == r.leaseActive && next.attempt == r.attempt
                    && next.readyJournaled == r.readyJournaled)
  {
  }

  lemma OtherPotential(cfg: Config, w: World, after: World, j: OperationID)
    requires SameSurroundings(w, after, j) && j in w.st.records && j in after.st.records
    requires RunTurned(true, w.st.records[j], after.st.records[j])
    ensures Potential(cfg, after, j) <= Potential(cfg, w, j)
  {
    var r, next := w.st.records[j], after.st.records[j];
    TurnedWeight(cfg.maxAttempts, r, next, Settled(w, j, r.attempt), BlockedHere(w, j, r.attempt), Stage(w, j, r));
    hide Weight, RunTurned;
    assert Settled(after, j, next.attempt) == Settled(w, j, r.attempt);
    assert BlockedHere(after, j, next.attempt) == BlockedHere(w, j, r.attempt);
    assert Stage(after, j, next) == Stage(w, j, r);
  }

  // Tasks

  predicate Stutters(move: TaskMove) {
    move.ResolveCredential? || move.RenewLease?
  }

  /** A result leaves no more attempts and reconciliations than the running attempt allowed for. */
  predicate ResultWeighs(r: Record, next: Record, t: Task, outcome: Outcome) {
    && next.attempt == r.attempt && next.readyJournaled == r.readyJournaled
    && next.state != Planned && next.state != Ready
    && (next.state == Running ==> r.state == Running)
    && (t.kind.ReconcileTask? ==> next.state == WaitingExternal || next.state == Published || next.state == Rejected)
    && (t.kind.ApplyTask? ==> r.state == Running && (next.state == Blocked ==> outcome.deferred))
    && (next.blockedAttempts != r.blockedAttempts ==> next.state == Blocked)
  }

  lemma WeightFalls(maxAttempts: Uint32, r: Record, next: Record, t: Task, outcome: Outcome, settled: bool,
                    blockedHere: bool, after: bool, stage: nat)
    requires ResultWeighs(r, next, t, outcome) && stage >= 4
    requires (settled ==> after) && (t.kind.ReconcileTask? ==> settled) && (outcome.deferred ==> after)
    ensures Weight(maxAttempts, next, after, blockedHere || outcome.deferred, 3)
            < Weight(maxAttempts, r, settled, blockedHere, stage)
  {
  }

  lemma ApplyResultWeighs(sideEffecting: bool, attempt: Uint32, started: bool, dispatched: bool, answer: Answer,
                          contexts: Contexts, error: CallError)
    ensures var report := ApplyOutcome(sideEffecting, attempt, started, dispatched, answer).report;
      EndsApplication(report.kind) && !(report.kind.OperationResult? && report.payload.state == Blocked)
    ensures var outcome := PreparationOutcome(sideEffecting, attempt, contexts, error);
      EndsApplication(outcome.report.kind)
      && (outcome.report.kind.OperationResult? && outcome.report.payload.state == Blocked ==> outcome.deferred)
  {
    hide DecideFailure;
  }

  predicate ResultTurn(r: Record, next: Record, e: Event) {
    && next.attempt == r.attempt && next.readyJournaled == r.readyJournaled && next.leaseActive == r.leaseActive
    && next.state != Planned && next.state != Ready
    && (next.state == Running ==> r.state == Running)
    && (next.state == Blocked ==> e.entry.kind.OperationResult? && e.entry.payload.state == Blocked)
    && (next.blockedAttempts != r.blockedAttempts ==> next.state == Blocked)
  }

  lemma ExplicitTurns(r: Record, e: Event)
    requires ExplicitResultKind(e.entry.kind) && OperationTransition(r, e, false).Some?
    ensures ResultTurn(r, OperationTransition(r, e, false).value, e)
  {
    assert OperationTransition(r, e, false) == ExplicitResultTransition(r, e);
    assert OperationTransition(r, e, false).value.state == ExplicitResultState(e.entry.kind);
  }

  lemma StatedTurns(r: Record, e: Event)
    requires e.entry.kind.OperationResult? && Meaningful(e.entry.payload, e.entry.kind)
             && OperationTransition(r, e, false).Some?
    ensures ResultTurn(r, OperationTransition(r, e, false).value, e)
  {
    assert OperationTransition(r, e, false) == StatedResultTransition(r, e.entry.payload);
    assert OperationTransition(r, e, false).value.state == e.entry.payload.state;
  }

  lemma ReconciledTurns(r: Record, e: Event)
    requires e.entry.kind.ReconcileResult? && Meaningful(e.entry.payload, e.entry.kind)
             && OperationTransition(r, e, false).Some?
    ensures ResultTurn(r, OperationTransition(r, e, false).value, e)
  {
    assert OperationTransition(r, e, false).value.state == e.entry.payload.state;
  }

  lemma AmbiguousTurns(r: Record, e: Event)
    requires e.entry.kind.OutcomeAmbiguous? && OperationTransition(r, e, false).Some?
    ensures ResultTurn(r, OperationTransition(r, e, false).value, e)
  {
    assert OperationTransition(r, e, false).value.state == Running;
  }

  lemma ResultTurns(r: Record, e: Event)
    requires Meaningful(e.entry.payload, e.entry.kind) && OperationTransition(r, e, false).Some?
    requires EndsApplication(e.entry.kind) || e.entry.kind.ReconcileResult?
    ensures ResultTurn(r, OperationTransition(r, e, false).value, e)
  {
    hide OperationTransition, Meaningful, ResultTurn;
    var k := e.entry.kind;
    if k.OperationResult? { StatedTurns(r, e); }
    else if k.ReconcileResult? { ReconciledTurns(r, e); }
    else if k.OutcomeAmbiguous? { AmbiguousTurns(r, e); }
    else { ExplicitTurns(r, e); }
  }

  predicate Returns(move: TaskMove) {
    move.ApplyReturns? || move.PreparationFails? || move.ReconcileReturns?
  }

  lemma ReturnWeighs(r: Record, e: Event, t: Task, move: TaskMove, outcome: Outcome)
    requires Returns(move) && TaskReport(r.op, t, move) == Some(outcome) && Carries(e, outcome) && TaskInvariant(r, t)
    requires Meaningful(e.entry.payload, e.entry.kind) && OperationTransition(r, e, false).Some? && Disciplined(r, e, t)
    ensures ResultWeighs(r, OperationTransition(r, e, false).value, t, outcome)
    ensures OperationTransition(r, e, false).value.leaseActive == r.leaseActive
    ensures !t.settled && TaskAfter(t, move, outcome) == t.(settled := true, deferred := outcome.deferred)
  {
    hide OperationTransition, ApplyOutcome, PreparationOutcome, ReconcileOutcome, Meaningful;
    var answer := if move.PreparationFails? then CallFailed(move.contexts, move.error) else move.answer;
    var contexts := if move.PreparationFails? then move.contexts else Contexts(false, Active);
    var error := if move.PreparationFails? then move.error else CallError(false, false, None);
    if t.kind.ReconcileTask? { ReconcileOutcomes(t.attempt, t.wasAmbiguous, answer); }
    else { ApplyResultWeighs(r.op.sideEffecting, t.attempt, t.started, t.dispatched, answer, contexts, error); }
    ResultTurns(r, e);
    ResultStates(r, e);
  }

  /** The record's part of a call move: only the observer's flags change. */
  lemma CallTurns(r: Record, e: Event, t: Task, move: TaskMove, outcome: Outcome)
    requires TaskReport(r.op, t, move) == Some(outcome) && Carries(e, outcome) && OperationTransition(r, e, false).Some?
    requires !Returns(move) && !EndsTask(move)
    ensures var next := OperationTransition(r, e, false).value;
      SameProgress(r, next) && next.readyJournaled == r.readyJournaled && next.leaseActive == r.leaseActive
  {
    hide ExplicitResultTransition, StatedResultTransition;
  }

  /** A call that does not stutter brings its task closer to its end. */
  predicate TaskAdvances(t: Task, after: Task, move: TaskMove) {
    && after.settled == t.settled && after.deferred == t.deferred && after.kind == t.kind
    && (!Stutters(move) ==> !t.settled)
    && TaskStage(after) <= TaskStage(t)
    && (!Stutters(move) ==> TaskStage(after) < TaskStage(t))
  }

  lemma ObservationAdvancesTask(op: Operation, t: Task, move: TaskMove, outcome: Outcome)
    requires TaskReport(op, t, move) == Some(outcome)
    requires move.ProviderStarts? || move.DispatchSideEffect? || move.ProviderResponds?
    ensures TaskAdvances(t, TaskAfter(t, move, outcome), move)
  {
  }

  lemma StutterAdvancesTask(op: Operation, t: Task, move: TaskMove, outcome: Outcome)
    requires TaskReport(op, t, move) == Some(outcome) && Stutters(move)
    ensures TaskAdvances(t, TaskAfter(t, move, outcome), move)
  {
    hide TaskReport;
  }

  /** The task's part: every call that does not stutter brings it closer to its end. */
  lemma CallAdvancesTask(op: Operation, t: Task, move: TaskMove, outcome: Outcome)
    requires TaskReport(op, t, move) == Some(outcome) && !Returns(move) && !EndsTask(move)
    ensures TaskAdvances(t, TaskAfter(t, move, outcome), move)
  {
    hide TaskReport, TaskAfter, TaskAdvances;
    if Stutters(move) {
      StutterAdvancesTask(op, t, move, outcome);
    } else {
      ObservationAdvancesTask(op, t, move, outcome);
    }
  }

  lemma EndTurns(r: Record, e: Event, t: Task, move: TaskMove, outcome: Outcome)
    requires TaskReport(r.op, t, move) == Some(outcome) && Carries(e, outcome) && OperationTransition(r, e, false).Some?
    requires EndsTask(move)
    ensures OperationTransition(r, e, false).value == r.(leaseActive := false)
  {
  }

  lemma CallMoveWeighs(cfg: Config, w: World, after: World, id: OperationID, t: Task, move: TaskMove, outcome: Outcome,
                       r: Record, next: Record, e: Event)
    requires id in w.st.records && r == w.st.records[id] && MoveShape(w, after, id, t, move, outcome, next)
    requires TaskReport(r.op, t, move) == Some(outcome) && Carries(e, outcome)
             && OperationTransition(r, e, false) == Some(next)
    requires !Returns(move) && !EndsTask(move)
    ensures Potential(cfg, after, id) <= Potential(cfg, w, id)
    ensures !Stutters(move) ==> Potential(cfg, after, id) < Potential(cfg, w, id)
  {
    hide OperationTransition, TaskReport, TaskAfter;
    CallTurns(r, e, t, move, outcome);
    CallAdvancesTask(r.op, t, move, outcome);
    assert Settled(after, id, next.attempt) == Settled(w, id, r.attempt);
    assert BlockedHere(after, id, next.attempt) == BlockedHere(w, id, r.attempt);
    var blockedHere := BlockedHere(w, id, r.attempt);
    assert AttemptsLeft(cfg.maxAttempts, next, blockedHere) == AttemptsLeft(cfg.maxAttempts, r, blockedHere);
    hide AttemptsLeft, Settled, BlockedHere;
  }

  lemma ReturnMoveWeighs(cfg: Config, w: World, after: World, id: OperationID, t: Task, move: TaskMove,
                         outcome: Outcome, r: Record, next: Record, e: Event)
    requires id in w.st.records && r == w.st.records[id] && MoveShape(w, after, id, t, move, outcome, next)
    requires TaskInvariant(r, t) && Disciplined(r, e, t) && Meaningful(e.entry.payload, e.entry.kind)
             && TaskKeySound(w, id)
    requires TaskReport(r.op, t, move) == Some(outcome) && Carries(e, outcome)
             && OperationTransition(r, e, false) == Some(next)
    requires Returns(move)
    ensures Potential(cfg, after, id) < Potential(cfg, w, id)
  {
    hide OperationTransition, TaskReport, TaskAfter, Disciplined, Meaningful, Carries, ResultWeighs;
    ReturnWeighs(r, e, t, move, outcome);
    assert next.attempt == r.attempt && r.leaseActive by { WeighedAttempt(r, next, t, outcome); }
    var settled, blocked := Settled(w, id, r.attempt), BlockedHere(w, id, r.attempt);
    WeightFalls(cfg.maxAttempts, r, next, t, outcome, settled, blocked, Settled(after, id, r.attempt), Stage(w, id, r));
    assert BlockedHere(after, id, r.attempt) == (blocked || outcome.deferred);
    assert Stage(after, id, next) == 3;
    hide Weight, Settled, BlockedHere, TaskInvariant;
  }

  lemma WeighedAttempt(r: Record, next: Record, t: Task, outcome: Outcome)
    requires ResultWeighs(r, next, t, outcome)
    ensures next.attempt == r.attempt
  {
  }

  lemma EndMoveWeighs(cfg: Config, w: World, after: World, id: OperationID, t: Task, move: TaskMove, outcome: Outcome,
                      r: Record, next: Record)
    requires id in w.st.records && r == w.st.records[id] && MoveShape(w, after, id, t, move, outcome, next)
    requires EndsTask(move) && next == r.(leaseActive := false) && r.leaseActive && t.attempt == r.attempt
    ensures Potential(cfg, after, id) < Potential(cfg, w, id)
  {
    assert Settled(after, id, r.attempt) == Settled(w, id, r.attempt);
    assert BlockedHere(after, id, r.attempt) == BlockedHere(w, id, r.attempt);
    assert Stage(w, id, r) == 3 && Stage(after, id, next) == 2;
    hide Settled, BlockedHere, Stage;
  }

  lemma MoveSurroundings(w: World, after: World, id: OperationID, t: Task, move: TaskMove, outcome: Outcome,
                         next: Record, j: OperationID)
    requires MoveShape(w, after, id, t, move, outcome, next) && j != id
    ensures SameSurroundings(w, after, j)
  {
    hide TaskAfter;
  }

  ghost predicate MeasureFalls(cfg: Config, w: World, after: World, id: OperationID, strictly: bool) {
    && id in w.st.records && RunLeft(after.st) == RunLeft(w.st)
    && (forall j :: Potential(cfg, after, j) <= Potential(cfg, w, j))
    && (strictly ==> Potential(cfg, after, id) < Potential(cfg, w, id))
  }

  lemma MoveMeasure(cfg: Config, w: World, id: OperationID, move: TaskMove, now: int, after: World)
    requires Sound(cfg, w) && KeysSound(w) && Perform(cfg, w, MoveTask(id, move), now) == Some(after) && !after.broken
    ensures MeasureFalls(cfg, w, after, id, !Stutters(move))
  {
    hide Perform, Sound, KeysSound, Turned, OperationTransition, SettlesState, MoveShape, Written, TaskReport,
      Potential,
      TaskInvariant, RunTurned, Disciplined, LawfulOperationEvent, Meaningful, HistoryTransition, SameSurroundings,
      Carries, DependenciesPublished, TaskKeySound;
    assert TaskKeySound(w, id) by { KnownTaskKey(cfg, w, id, move, now, after); }
    var outcome := MoveFacts(cfg, w, id, move, now, after);
    var r, next, t, e := w.st.records[id], after.st.records[id], w.tasks[id], LastEvent(after);
    TurnedOwn(cfg, w, after, e);
    if Returns(move) { ReturnMoveWeighs(cfg, w, after, id, t, move, outcome, r, next, e); }
    else if EndsTask(move) {
      EndTurns(r, e, t, move, outcome);
      assert r.leaseActive && t.attempt == r.attempt by { TaskHoldsLease(r, t); }
      EndMoveWeighs(cfg, w, after, id, t, move, outcome, r, next);
    }
    else { CallMoveWeighs(cfg, w, after, id, t, move, outcome, r, next, e); }
    SameOperations(cfg, w, after);
    forall j ensures Potential(cfg, after, j) <= Potential(cfg, w, j) {
      if j !in w.st.records { UnknownPotential(cfg, w, after, j); }
      else if j != id {
        MoveSurroundings(w, after, id, t, move, outcome, next, j);
        ChangedTurn(cfg, w, after, j);
        OtherPotential(cfg, w, after, j);
      }
    }
  }

  lemma UnknownPotential(cfg: Config, w: World, after: World, j: OperationID)
    requires j !in after.st.records
    ensures Potential(cfg, after, j) == 0
  {
  }

  lemma TaskHoldsLease(r: Record, t: Task)
    requires TaskInvariant(r, t)
    ensures r.leaseActive && t.attempt == r.attempt
  {
  }

  lemma KnownTaskKey(cfg: Config, w: World, id: OperationID, move: TaskMove, now: int, after: World)
    requires KeysSound(w) && Perform(cfg, w, MoveTask(id, move), now) == Some(after)
    ensures TaskKeySound(w, id)
  {
    hide TaskReport, AfterMove, AppendOperation, TaskKeySound, KeySound, WorkKeySound;
  }

  // Decided work

  ghost predicate WorkShape(w: World, after: World, work: Work, lease: Lease) {
    && w.pending != [] && w.pending[0] == work && work.id !in w.tasks
    && after.pending == (if work.LaunchWork? then
                           [StartWork(work.id, work.kind, work.attempt, work.wasAmbiguous, lease)] else [])
                        + w.pending[1..]
    && after.tasks == (if work.StartWork? then w.tasks[work.id := NewTask(work)] else w.tasks)
    && after.reconciled == w.reconciled && after.deferred == w.deferred
    && (forall i :: 1 <= i < |w.pending| ==> !w.pending[i].StartWork?)
  }

  lemma NobodyStartsNext(w: World, after: World, work: Work, lease: Lease, j: OperationID)
    requires WorkShape(w, after, work, lease)
    ensures Starting(after, j) <==> work.LaunchWork? && j == work.id
    ensures Starting(w, j) <==> work.StartWork? && j == work.id
  {
    if !work.LaunchWork? && |w.pending| > 1 { assert after.pending[0] == w.pending[1]; }
  }

  /** The record after a piece of work. */
  predicate WorkTurn(r: Record, next: Record, work: Work) {
    match work
    case ExpireWork(_, _) => next == r.(leaseActive := false)
    case ReadyWork(_) => next == r.(readyJournaled := true)
    case RecoverWork(_, _, _) =>
      next.state == Failed && next.attempt == r.attempt && next.blockedAttempts == r.blockedAttempts
      && next.leaseActive == r.leaseActive && next.readyJournaled == r.readyJournaled
    case CancelWork(_) =>
      next.state == Cancelled && next.leaseActive == r.leaseActive && next.readyJournaled == r.readyJournaled
    case LaunchWork(_, _, _, _) => next.leaseActive && SameProgress(r, next) && next.readyJournaled == r.readyJournaled
    case StartWork(_, kind, _, _, _) =>
      && next.leaseActive == r.leaseActive && next.readyJournaled == r.readyJournaled
      && if kind.ApplyTask? then
           next.state == Running && next.attempt == r.attempt + 1 && next.blockedAttempts == r.blockedAttempts
         else SameProgress(r, next)
  }

  lemma WorkTurns(r: Record, e: Event, work: Work, lease: Lease, published: bool)
    requires OperationTransition(r, e, published).Some? && RecordInvariant(r)
    requires e.entry.kind == WorkReport(work, lease).kind && e.entry.payload == WorkReport(work, lease).payload
    requires work.RecoverWork? ==> !r.reconcileRequired
    requires HistoryTransition(r, OperationTransition(r, e, published).value, e)
    ensures WorkTurn(r, OperationTransition(r, e, published).value, work)
  {
    hide RecordInvariant, Increment32;
  }

  /** What the weight of the operation depends on, before and after the work. */
  lemma WorkStages(w: World, after: World, work: Work, lease: Lease, r: Record, next: Record)
    requires WorkShape(w, after, work, lease) && work.id in w.st.records && r == w.st.records[work.id]
    requires WorkTurn(r, next, work)
    ensures Stage(w, work.id, r) == (if !r.leaseActive then 2 else if work.StartWork? then 1 else 3)
    ensures Stage(after, work.id, next)
            == (if work.StartWork? then 7 else if !next.leaseActive then 2 else if work.LaunchWork? then 1 else 3)
    ensures forall attempt :: Settled(after, work.id, attempt) <==>
              Settled(w, work.id, attempt) || (work.StartWork? && work.kind.ReconcileTask?)
    ensures forall attempt :: BlockedHere(after, work.id, attempt) == BlockedHere(w, work.id, attempt)
  {
    NobodyStartsNext(w, after, work, lease, work.id);
  }

  /** The decided work is still due. */
  predicate WorkDue(cfg: Config, w: World, work: Work, r: Record) {
    match work
    case ExpireWork(_, _) => r.leaseActive
    case ReadyWork(_) => !r.readyJournaled
    case RecoverWork(_, _, _) => r.state == Running && !Settled(w, work.id, r.attempt)
    case CancelWork(_) => r.state == Planned || r.state == Ready
    case LaunchWork(_, _, _, _) => !r.leaseActive
    case StartWork(_, kind, _, _, _) =>
      && r.leaseActive
      && if kind.ApplyTask? then
           AttemptsLeft(cfg.maxAttempts, r, BlockedHere(w, work.id, r.attempt)) > 0 && r.state != Running
         else ReconciliationsLeft(r, Settled(w, work.id, r.attempt)) == 1
  }

  lemma SoundWorkIsDue(cfg: Config, w: World, work: Work, r: Record)
    requires work.id in w.st.records && r == w.st.records[work.id] && WorkSound(cfg, w.st.records, w.clock, work)
    requires WorkKeySound(w, work) && RecordInvariant(r) && work.id !in w.tasks
    requires r.state == Running && work.RecoverWork? ==> !Settled(w, work.id, r.attempt)
    ensures WorkDue(cfg, w, work, r)
  {
    UsedIsDifference(r);
    hide Used, Increment32, HasTerminalUnpublishedDependency, Exhausted;
  }

  lemma WorkWeighs(cfg: Config, w: World, after: World, work: Work, lease: Lease, r: Record, next: Record)
    requires WorkShape(w, after, work, lease) && work.id in w.st.records && work.id in after.st.records
    requires r == w.st.records[work.id] && next == after.st.records[work.id]
    requires WorkTurn(r, next, work) && WorkDue(cfg, w, work, r)
    ensures Potential(cfg, after, work.id) < Potential(cfg, w, work.id)
  {
    WorkStages(w, after, work, lease, r, next);
    hide WorkShape, Stage, Settled, BlockedHere;
  }

  lemma WorkSurroundings(w: World, after: World, work: Work, lease: Lease, j: OperationID)
    requires WorkShape(w, after, work, lease) && j != work.id
    ensures SameSurroundings(w, after, j)
  {
    NobodyStartsNext(w, after, work, lease, j);
  }

  lemma RunningIsUnsettled(w: World, id: OperationID)
    requires KeysSound(w) && w.pending != [] && id in w.st.records && id !in w.tasks
             && w.st.records[id].state == Running
    ensures !Settled(w, id, w.st.records[id].attempt)
  {
    var key := (id, w.st.records[id].attempt);
    assert key in w.reconciled || key in w.deferred ==> KeySound(w, key);
  }

  lemma WorkMeasure(cfg: Config, w: World, lease: Lease, now: int, after: World)
    requires Sound(cfg, w) && KeysSound(w) && Perform(cfg, w, DoWork(lease), now) == Some(after) && !after.broken
    ensures w.pending != [] && MeasureFalls(cfg, w, after, w.pending[0].id, true)
  {
    hide Perform, Sound, Turned, OperationTransition, Written, Potential, WorkSound, WorkDone, WorkKeySound, KeySound,
      TaskKeySound,
      RunTurned, LawfulOperationEvent, Meaningful, HistoryTransition, SameSurroundings, WorkReport, RecordInvariant,
      WorkTurn, WorkDue, DependenciesPublished, WorkShape, Settled;
    WorkPieces(cfg, w, lease, now, after);
    WorkFacts(cfg, w, lease, now, after);
    var work, e := w.pending[0], LastEvent(after);
    var r, next := w.st.records[work.id], after.st.records[work.id];
    assert WorkShape(w, after, work, lease) by { ShapeOfWork(cfg, w, lease, now, after); }
    TurnedOwn(cfg, w, after, e);
    assert WorkKeySound(w, work);
    if r.state == Running { RunningIsUnsettled(w, work.id); }
    SoundWorkIsDue(cfg, w, work, r);
    RecoveryIsUnreconciled(cfg, w, work, r);
    WorkTurns(r, e, work, lease, DependenciesPublished(r.op, w.st.records));
    WorkWeighs(cfg, w, after, work, lease, r, next);
    SameOperations(cfg, w, after);
    forall j ensures Potential(cfg, after, j) <= Potential(cfg, w, j) {
      if j !in w.st.records { UnknownPotential(cfg, w, after, j); }
      else if j != work.id {
        WorkSurroundings(w, after, work, lease, j);
        ChangedTurn(cfg, w, after, j);
        OtherPotential(cfg, w, after, j);
      }
    }
  }

  lemma RecoveryIsUnreconciled(cfg: Config, w: World, work: Work, r: Record)
    requires WorkSound(cfg, w.st.records, w.clock, work) && work.id in w.st.records && r == w.st.records[work.id]
    ensures work.RecoverWork? ==> !r.reconcileRequired
  {
    hide Doomed;
  }

  lemma ShapeOfWork(cfg: Config, w: World, lease: Lease, now: int, after: World)
    requires Sound(cfg, w) && KeysSound(w) && Perform(cfg, w, DoWork(lease), now) == Some(after) && !after.broken
    ensures w.pending != [] && WorkShape(w, after, w.pending[0], lease)
  {
    hide Perform, Sound, WorkSound, KeySound, TaskKeySound, WorkKeySound;
    WorkPieces(cfg, w, lease, now, after);
    TakeWork(cfg, w);
  }

  // The run as a whole

  lemma RunEventMeasure(cfg: Config, w: World, step: Label, now: int, after: World)
    requires Sound(cfg, w) && Sound(cfg, after) && Written(cfg, w, after) && Perform(cfg, w, step, now) == Some(after)
    requires step.BeginRun? || step.CancelRun? || step.CompleteRun?
    ensures RunLeft(after.st) < RunLeft(w.st)
    ensures forall j :: Potential(cfg, after, j) <= Potential(cfg, w, j)
  {
    hide Sound, Potential, RunTurned, Perform, Written;
    RunStepsTouchNothing(cfg, w, step, now, after);
    RunStepFlags(cfg, w, step, now, after);
    WrittenExtends(cfg, w, after);
    RunEventTurns(cfg, w, after);
    forall j ensures Potential(cfg, after, j) <= Potential(cfg, w, j) {
      if j in w.st.records {
        WeakerTurn(after.st.cancelled, w.st.records[j], after.st.records[j]);
        OtherPotential(cfg, w, after, j);
      } else { UnknownPotential(cfg, w, after, j); }
    }
  }

  /** Each event of the run as a whole is accepted once. */
  lemma RunKindFlags(planId: PlanID, st: RunState, e: Event, after: RunState)
    requires Step(planId, st, e) == Ok(after) && RunLifecycle(e.entry.kind)
    ensures RunLeft(after) < RunLeft(st)
  {
    hide ValidEvent, OperationStep, AllQuiescent, RefreshReady, CancelRemaining;
  }

  lemma RunStepKinds(cfg: Config, w: World, step: Label, now: int, after: World)
    requires Perform(cfg, w, step, now) == Some(after) && after.journal != []
    requires step.BeginRun? || step.CancelRun? || step.CompleteRun?
    ensures RunLifecycle(LastEvent(after).entry.kind)
  {
    hide Append, ExecutorQuiescent;
    var kind := if step.BeginRun? then RunStarted else if step.CancelRun? then RunCancelled else RunCompleted;
    AppendChangesJournal(cfg, w, RunEntry(cfg, kind), now, after);
  }

  lemma RunStepFlags(cfg: Config, w: World, step: Label, now: int, after: World)
    requires Written(cfg, w, after) && Perform(cfg, w, step, now) == Some(after)
    requires step.BeginRun? || step.CancelRun? || step.CompleteRun?
    ensures after.journal != [] && RunLifecycle(LastEvent(after).entry.kind) && RunLeft(after.st) < RunLeft(w.st)
  {
    hide Perform, Step, ValidEvent, Lawful, RunLeft, RunLifecycle;
    RunStepKinds(cfg, w, step, now, after);
    RunKindFlags(cfg.plan.id, w.st, LastEvent(after), after.st);
  }

  // The measure of a step

  /** The steps of one process that decide, record or finish something. */
  predicate Productive(step: Label) {
    !step.PlanPass? && !step.SkipLaunch? && !step.Wait? && !(step.MoveTask? && Stutters(step.move))
  }

  predicate OfOneProcess(step: Label) {
    !step.StopProcess? && !step.AbandonStart? && !step.AuthorizeRetryOf?
  }

  lemma RefusalMeasure(cfg: Config, w: World, id: OperationID, now: int, after: World)
    requires Perform(cfg, w, RefuseOutcome(id), now) == Some(after) && id in w.st.records
    ensures MeasureFalls(cfg, w, after, id, true)
  {
    hide AttemptsLeft, ReconciliationsLeft;
    forall j ensures Potential(cfg, after, j) <= Potential(cfg, w, j) { }
  }

  lemma PlanningMeasure(cfg: Config, w: World, step: Label, now: int, after: World)
    requires Sound(cfg, w) && KeysSound(w) && Perform(cfg, w, step, now) == Some(after)
    requires step.PlanPass? || step.SkipLaunch? || step.Wait?
    ensures RunLeft(after.st) == RunLeft(w.st) && forall j :: Potential(cfg, after, j) <= Potential(cfg, w, j)
  {
    hide Sound, WorkList, KeySound, TaskKeySound, WorkKeySound;
    if step.PlanPass? { PassKeys(cfg, w, step.phase, step.ids, now); }
    forall j ensures Potential(cfg, after, j) <= Potential(cfg, w, j) { assert !Starting(w, j) && !Starting(after, j); }
  }

  /** Every step of a process keeps the measure from growing, and every productive step lowers it. */
  lemma EveryStepMeasures(cfg: Config, w: World, step: Label, now: int, after: World, ids: seq<OperationID>)
    requires Sound(cfg, w) && KeysSound(w) && Perform(cfg, w, step, now) == Some(after) && !after.broken
             && OfOneProcess(step)
    requires forall id :: id in cfg.plan.operations ==> id in ids
    ensures Measure(cfg, after, ids) <= Measure(cfg, w, ids)
    ensures Productive(step) ==> Measure(cfg, after, ids) < Measure(cfg, w, ids)
  {
    hide Perform, Sound, KeysSound, Potential, Written, WrittenFootprint, SilentFootprint;
    StepCases(cfg, w, step, now, after);
    SameOperations(cfg, w, after);
    var id := "";
    if step.DoWork? { WorkMeasure(cfg, w, step.lease, now, after); id := w.pending[0].id; }
    else if step.MoveTask? { MoveMeasure(cfg, w, step.id, step.move, now, after); id := step.id; }
    else if step.RefuseOutcome? {
      RefusedIsKnown(cfg, w, step.id, now);
      RefusalMeasure(cfg, w, step.id, now, after);
      id := step.id;
    }
    else if step.PlanPass? || step.SkipLaunch? || step.Wait? { PlanningMeasure(cfg, w, step, now, after); }
    else {
      RunStepIsWritten(cfg, w, step, now, after);
      RunEventMeasure(cfg, w, step, now, after);
    }
    SumFalls(cfg, w, after, ids, id);
  }

  lemma RefusedIsKnown(cfg: Config, w: World, id: OperationID, now: int)
    requires Sound(cfg, w) && Perform(cfg, w, RefuseOutcome(id), now).Some?
    ensures id in w.st.records
  {
    SoundTask(cfg, w, id);
  }

  lemma RunStepIsWritten(cfg: Config, w: World, step: Label, now: int, after: World)
    requires Sound(cfg, w) && Perform(cfg, w, step, now) == Some(after)
    requires step.BeginRun? || step.CancelRun? || step.CompleteRun?
    requires SilentFootprint(w, after) || Written(cfg, w, after)
    ensures Written(cfg, w, after)
  {
    hide Sound, Step, ValidEvent, ExecutorQuiescent, Written;
  }

  function ProductiveSteps(steps: seq<(Label, int)>): nat {
    if steps == [] then 0
    else ProductiveSteps(steps[..|steps| - 1]) + if Productive(steps[|steps| - 1].0) then 1 else 0
  }

  /**
   From any sound start a process takes at most as many productive steps as the measure of that
   start; ids is any enumeration of the operations.
   */
  lemma {:induction false} ProductiveStepsAreBounded(cfg: Config, start: World, steps: seq<(Label, int)>, w: World,
                                                     ids: seq<OperationID>)
    requires Sound(cfg, start) && KeysSound(start) && Run(cfg, start, steps) == Some(w) && !w.broken
    requires forall step :: step in steps ==> OfOneProcess(step.0)
    requires forall id :: id in cfg.plan.operations ==> id in ids
    ensures Sound(cfg, w) && KeysSound(w)
    ensures ProductiveSteps(steps) + Measure(cfg, w, ids) <= Measure(cfg, start, ids)
    decreases |steps|
  {
    hide Perform, Sound, KeysSound, Measure, OfOneProcess, Productive;
    if steps != [] {
      var front, last := steps[..|steps| - 1], steps[|steps| - 1];
      var before := Run(cfg, start, front).value;
      BrokenWorldsStop(cfg, before, last.0, last.1);
      assert last in steps;
      ProductiveStepsAreBounded(cfg, start, front, before, ids);
      EveryStepKeepsKeys(cfg, before, last.0, last.1, w);
      EveryStepMeasures(cfg, before, last.0, last.1, w, ids);
    }
  }

  lemma FreshPotential(cfg: Config, id: OperationID)
    requires Configured(cfg) && id in cfg.plan.operations
    ensures Potential(cfg, InitialWorld(cfg), id) == 16 * cfg.maxAttempts + 3
  {
  }

  /** A run that starts from nothing takes at most this many productive steps in its first process. */
  lemma {:induction false} FreshRunBound(cfg: Config, ids: seq<OperationID>)
    requires Configured(cfg) && forall id :: id in ids ==> id in cfg.plan.operations
    ensures SumOfPotentials(cfg, InitialWorld(cfg), ids) == |ids| * (16 * cfg.maxAttempts + 3)
    ensures Measure(cfg, InitialWorld(cfg), ids) == 3 + |ids| * (16 * cfg.maxAttempts + 3)
  {
    hide Potential;
    if ids != [] {
      FreshPotential(cfg, ids[0]);
      FreshRunBound(cfg, ids[1..]);
      var each := 16 * cfg.maxAttempts + 3;
      assert |ids| * each == each + |ids[1..]| * each;
    }
  }
}
