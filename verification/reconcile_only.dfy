/**
 A process that may only reconcile: until it ends it starts no attempt and records no outcome of one,
 so no apply call of it can dispatch anything.
 */
module ReconcileOnly {
  import opened Domain
  import opened Events
  import opened Reducer
  import opened Planning
  import opened Executor
  import opened Scheduler
  import opened SchedulerClosure
  import opened SchedulerRuns
  import opened ExecutorSafety

  predicate Applies(work: Work) {
    (work.LaunchWork? || work.StartWork?) && work.kind.ApplyTask?
  }

  /** The process may only reconcile, and neither plans to apply anything nor is at it. */
  ghost predicate OnlyReconciles(w: World) {
    && w.reconcileOnly
    && (forall x :: x in w.pending ==> !Applies(x))
    && (forall id :: id in w.tasks ==> w.tasks[id].kind.ReconcileTask?)
  }

  /** An event that starts an attempt, or that only a running attempt leads to. */
  predicate OfAnApplication(kind: EventKind) {
    || kind.AttemptStarted? || kind.SideEffectDispatched? || kind.OutcomeAmbiguous? || kind.OperationResult?
    || kind.OperationPublished? || kind.OperationRejected? || kind.OperationWaitingExternal?
  }

  /** What a step of such a process leaves behind. */
  ghost predicate StaysReconciling(w: World, after: World) {
    && OnlyReconciles(after)
    && (after.journal == w.journal || (after.journal != [] && !OfAnApplication(LastEvent(after).entry.kind)))
  }

  lemma {:induction false} PlansNoApplication(cfg: Config, w: World, phase: Phase, ids: seq<OperationID>, now: int)
    requires w.reconcileOnly
    ensures forall x :: x in WorkList(cfg, w, phase, ids, now) ==> !Applies(x)
  {
    if ids != [] {
      PlansNoApplication(cfg, w, phase, ids[1..], now);
      if ids[0] in w.st.records { DecidesNoApplication(cfg, w, phase, ids[0], now); }
    }
    hide Decide, Applies;
  }

  lemma DecidesNoApplication(cfg: Config, w: World, phase: Phase, id: OperationID, now: int)
    requires w.reconcileOnly && id in w.st.records
    ensures Decide(cfg, w, phase, id, now).Some? ==> !Applies(Decide(cfg, w, phase, id, now).value)
  {
    hide Doomed, Interrupted, LeaseRanOut, ReadyUnjournaled, ReconcileCandidate, Applicable;
  }

  lemma WorkStaysReconciling(cfg: Config, w: World, lease: Lease, now: int, after: World)
    requires Sound(cfg, w) && OnlyReconciles(w) && w.pending != [] && PerformWork(cfg, w, lease, now) == Some(after)
    ensures StaysReconciling(w, after)
  {
    hide Sound, Append, WorkReport, WorkSound, LastEvent;
    TakeWork(cfg, w);
    KnownOperation(cfg, w, w.pending[0].id);
    WorkReports(cfg, w, lease, now, after);
    var work, rest := w.pending[0], w.(pending := w.pending[1..]);
    var report := WorkReport(work, lease);
    assert !OfAnApplication(report.kind) by { ReconcilingWorkReports(work, lease); }
    var appended := AppendOperation(cfg, rest, work.id, report.kind, report.payload, now).value;
    AppendChangesJournal(cfg, rest, OperationEntry(cfg, cfg.plan.operations[work.id], report.kind, report.payload), now,
                         appended);
    WorkKeepsReconciling(w, appended, work, lease);
  }

  lemma ReconcilingWorkReports(work: Work, lease: Lease)
    requires !Applies(work)
    ensures !OfAnApplication(WorkReport(work, lease).kind)
  {
  }

  lemma WorkKeepsReconciling(w: World, appended: World, work: Work, lease: Lease)
    requires OnlyReconciles(w) && w.pending != [] && work == w.pending[0]
    requires appended.pending == w.pending[1..] && appended.tasks == w.tasks && appended.reconcileOnly
    ensures OnlyReconciles(AfterWork(appended, work, lease))
  {
    assert work in w.pending;
  }

  lemma MoveStaysReconciling(cfg: Config, w: World, id: OperationID, move: TaskMove, now: int, after: World)
    requires Sound(cfg, w) && OnlyReconciles(w) && Perform(cfg, w, MoveTask(id, move), now) == Some(after)
             && !after.broken
    ensures StaysReconciling(w, after)
  {
    hide Sound, Append, TaskReport, TaskInvariant, LastEvent, TaskAfter;
    MovesNeedNoPendingWork(cfg, w, id, move, now);
    RunningTask(cfg, w, id);
    MoveReports(cfg, w, id, move, now, after);
    var op, t := w.st.records[id].op, w.tasks[id];
    var outcome := TaskReport(op, t, move).value;
    EveryStepAdvances(cfg, w, MoveTask(id, move), now, after);
    assert !BreaksContract(op, t, move);
    ReconcilingMoveReports(op, t, move, outcome);
    var appended := AppendOperation(cfg, w, id, outcome.report.kind, outcome.report.payload, now).value;
    AppendChangesJournal(cfg, w,
                         OperationEntry(cfg, cfg.plan.operations[id], outcome.report.kind, outcome.report.payload),
                         now, appended);
    assert TaskAfter(t, move, outcome).kind == t.kind by { SameKind(t, move, outcome); }
  }

  lemma SameKind(t: Task, move: TaskMove, outcome: Outcome)
    ensures TaskAfter(t, move, outcome).kind == t.kind
  {
    match move {
      case ResolveCredential(_) =>
      case ProviderStarts =>
      case DispatchSideEffect =>
      case ProviderResponds =>
      case RenewLease(_) =>
      case _ =>
    }
  }

  lemma ReconcilingMoveReports(op: Operation, t: Task, move: TaskMove, outcome: Outcome)
    requires t.kind.ReconcileTask? && TaskReport(op, t, move) == Some(outcome) && !BreaksContract(op, t, move)
    ensures !OfAnApplication(outcome.report.kind)
  {
    hide ApplyOutcome, PreparationOutcome, ReconcileOutcome;
    match move {
      case PreparationFails(contexts, error) => ReconcilesOnly(t, CallFailed(contexts, error));
      case ReconcileReturns(answer) => ReconcilesOnly(t, answer);
      case _ =>
    }
  }

  lemma StepStaysReconciling(cfg: Config, w: World, step: Label, now: int, after: World)
    requires Sound(cfg, w) && OnlyReconciles(w) && !step.StopProcess?
    requires Perform(cfg, w, step, now) == Some(after) && !after.broken
    ensures StaysReconciling(w, after)
  {
    hide Sound, PerformMove, PerformWork, WorkList, ExecutorQuiescent, RetryAuthorizable, OpenAttempts, Append,
      LastEvent, ValidEntry, WorkReport;
    if !step.MoveTask? && !step.DoWork? && after.journal != w.journal {
      OthersRecordNoOutcome(cfg, w, step, now, after);
    }
    match step {
      case MoveTask(id, move) => MoveStaysReconciling(cfg, w, id, move, now, after);
      case DoWork(lease) => WorkStaysReconciling(cfg, w, lease, now, after);
      case PlanPass(phase, ids) => PlansNoApplication(cfg, w, phase, ids, now);
      case SkipLaunch => assert forall x :: x in after.pending ==> x in w.pending;
      case RefuseOutcome(id) =>
      case Wait =>
      case AbandonStart(expired) => AbandonKeepsNothing(cfg, w, expired, now, after);
      case _ => RunEventKeepsWork(cfg, w, step, now, after);
    }
  }

  lemma AbandonKeepsNothing(cfg: Config, w: World, expired: bool, now: int, after: World)
    requires w.pending != [] && w.pending[0].StartWork? && PerformAbandon(cfg, w, expired, now) == Some(after)
    ensures after.pending == [] && after.tasks == map[] && after.reconcileOnly == w.reconcileOnly
  {
    hide Step, ValidEvent, WorkReport, ValidEntry;
  }

  lemma RunEventKeepsWork(cfg: Config, w: World, step: Label, now: int, after: World)
    requires step.BeginRun? || step.CancelRun? || step.CompleteRun? || step.AuthorizeRetryOf?
    requires Perform(cfg, w, step, now) == Some(after)
    ensures after.pending == w.pending && after.tasks == w.tasks && after.reconcileOnly == w.reconcileOnly
  {
    hide Step, ValidEvent, ExecutorQuiescent, RetryAuthorizable;
  }

  predicate NoStop(steps: seq<(Label, int)>) {
    forall s :: s in steps ==> !s.0.StopProcess?
  }

  /** Whatever steps such a process takes, in any order and with any answers of its drivers. */
  lemma {:induction false} ReconcilingKeepsOn(cfg: Config, start: World, steps: seq<(Label, int)>, w: World)
    requires Sound(cfg, start) && OnlyReconciles(start) && NoStop(steps)
    requires Run(cfg, start, steps) == Some(w) && !w.broken
    ensures Sound(cfg, w) && OnlyReconciles(w) && start.journal <= w.journal
    ensures forall j :: |start.journal| <= j < |w.journal| ==> !OfAnApplication(w.journal[j].entry.kind)
    decreases |steps|
  {
    hide Perform, Sound, OnlyReconciles, OfAnApplication, WrittenFootprint, Written, LastEvent;
    if steps != [] {
      var front, last := steps[..|steps| - 1], steps[|steps| - 1];
      var before := Run(cfg, start, front).value;
      BrokenWorldsStop(cfg, before, last.0, last.1);
      ReconcilingKeepsOn(cfg, start, front, before);
      StepStaysReconciling(cfg, before, last.0, last.1, w);
      StepCases(cfg, before, last.0, last.1, w);
      if !SilentFootprint(before, w) { WrittenExtends(cfg, before, w); }
    }
  }

  /**
   From the opening of a reconcile-only process on any reducible journal to its end no attempt starts, no
   side effect is dispatched and no outcome of an attempt is recorded.
   */
  lemma ReconcileOnlyAppliesNothing(cfg: Config, journal: seq<Event>, st: RunState, clock: int,
                                    steps: seq<(Label, int)>, w: World)
    requires GoodPlan(cfg.plan) && Configured(cfg) && Replay(cfg.plan, journal) == Ok(st) && clock >= 1
    requires journal == [] || st.runId == cfg.runId
    requires Run(cfg, OpenedWorld(journal, st, clock, true), steps) == Some(w) && !w.broken && NoStop(steps)
    ensures journal <= w.journal
    ensures forall j :: |journal| <= j < |w.journal| ==>
              var k := w.journal[j].entry.kind;
              && !k.AttemptStarted? && !k.SideEffectDispatched? && !k.OutcomeAmbiguous?
              && !k.OperationPublished? && !k.OperationRejected? && !k.OperationWaitingExternal? && !k.OperationResult?
  {
    hide Run, Sound, Replay, GoodPlan;
    ReducibleJournalIsSound(cfg, journal, st, clock, true);
    ReconcilingKeepsOn(cfg, OpenedWorld(journal, st, clock, true), steps, w);
    assert forall j :: |journal| <= j < |w.journal| ==> !OfAnApplication(w.journal[j].entry.kind);
  }

  /** The same within a run of many processes: between the stop that opens such a process and the next stop. */
  lemma ReconcileOnlyAmongOthers(cfg: Config, before: World, resumed: World, now: int, steps: seq<(Label, int)>,
                                 w: World)
    requires Sound(cfg, before) && Perform(cfg, before, StopProcess(true), now) == Some(resumed)
    requires NoStop(steps) && Run(cfg, resumed, steps) == Some(w) && !w.broken
    ensures before.journal <= w.journal
    ensures forall j :: |before.journal| <= j < |w.journal| ==> !OfAnApplication(w.journal[j].entry.kind)
  {
    hide Run, Sound, OpenAttempts;
    EveryStepAdvances(cfg, before, StopProcess(true), now, resumed);
    ReconcilingKeepsOn(cfg, resumed, steps, w);
  }
}
