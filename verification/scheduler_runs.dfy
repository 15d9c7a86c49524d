/**
 The invariant of the executors' machine: an executor never appends an event that the
 reducer rejects, except a second start of a reconciliation that an earlier process left
 open and a dispatch outside the driver's contract. The invariant also carries what the
 safety properties of executor runs rest on.
 */
module SchedulerRuns {
  import opened Domain
  import opened Events
  import opened Reducer
  import opened ReducerSafety
  import opened JournalHistory
  import opened Executor
  import opened Planning
  import opened Scheduler
  import opened SchedulerClosure

  // The journal

  /** The journal is reducible and st is what it reduces to. */
  ghost predicate Core(cfg: Config, w: World) {
    && GoodPlan(cfg.plan) && ValidIdentifier(cfg.runId) && cfg.maxAttempts >= 1
    && !w.broken
    && Replay(cfg.plan, w.journal) == Ok(w.st)
    && Invariant(cfg.plan, w.st)
    && w.st.next == |w.journal| + 1
    && (w.st.started <==> w.journal != [])
    && w.st.runId == (if w.st.started then cfg.runId else "")
    && w.clock >= 1
  }

  /** One accepted event leads from the first world's journal to the second's. */
  ghost predicate Extends(cfg: Config, w: World, after: World, e: Event) {
    && after.journal == w.journal + [e] && after.clock == e.observedAt && w.clock <= after.clock
    && ValidEvent(e) && Step(cfg.plan.id, w.st, e) == Ok(after.st) && !after.broken
  }

  lemma ReplayExtends(plan: Plan, journal: seq<Event>, st: RunState, e: Event)
    requires Replay(plan, journal) == Ok(st)
    ensures Replay(plan, journal + [e]) == Step(plan.id, st, e)
  {
    hide Step;
    assert (journal + [e])[..|journal|] == journal;
  }

  lemma ExtensionKeepsCore(cfg: Config, w: World, after: World, e: Event)
    requires Core(cfg, w) && Extends(cfg, w, after, e) && e.entry.runId == cfg.runId
    ensures Core(cfg, after)
  {
    hide ValidEvent, Invariant, OperationTransition, GoodPlan;
    ReplayExtends(cfg.plan, w.journal, w.st, e);
    StepKeepsInvariant(cfg.plan, w.st, e);
  }

  /** The record of one operation changed; every other one is as it was or was promoted to ready. */
  ghost predicate Changed(before: Records, after: Records, id: OperationID, next: Record) {
    && id in before && after.Keys == before.Keys && after[id] == next
    && forall j :: j in before && j != id ==>
         after[j] == before[j] || (before[j].state == Planned && after[j] == before[j].(state := Ready))
  }

  ghost predicate SameRun(st: RunState, after: RunState) {
    after.started == st.started && after.completed == st.completed && after.cancelled == st.cancelled
  }

  /** An event that suits its operation's record is accepted and keeps the core. */
  lemma AppendAccepted(cfg: Config, w: World, id: OperationID, kind: EventKind, payload: Payload, now: int,
                       after: World)
    requires Core(cfg, w) && w.st.started && !w.st.completed && id in w.st.records
    requires AppendOperation(cfg, w, id, kind, payload, now) == Some(after)
    requires !RunLifecycle(kind) && (w.st.cancelled ==> AllowedAfterRunCancellation(kind))
    requires var r := w.st.records[id];
      var e := NextEvent(w, OperationEntry(cfg, r.op, kind, payload), now);
      && OperationTransition(r, e, DependenciesPublished(r.op, w.st.records)).Some?
      && (Refreshes(kind) ==> OperationTransition(r, e,
                                                  DependenciesPublished(r.op, w.st.records)).value.state != Planned)
    ensures Core(cfg, after) && after == w.(journal := after.journal, st := after.st, clock := now)
    ensures var r := w.st.records[id];
      var e := NextEvent(w, OperationEntry(cfg, r.op, kind, payload), now);
      && Extends(cfg, w, after, e) && Meaningful(payload, kind)
      && SameRun(w.st, after.st)
      && Changed(w.st.records, after.st.records, id,
                 OperationTransition(r, e, DependenciesPublished(r.op, w.st.records)).value)
  {
    hide OperationTransition, ValidEvent, Invariant, GoodPlan, DependenciesPublished;
    var op := w.st.records[id].op;
    OperationsAgree(cfg, w, id);
    var e := NextEvent(w, OperationEntry(cfg, op, kind, payload), now);
    assert Append(cfg, w, e.entry, now) == Some(after);
    assert Admission(w.st, e) == None;
    var st := w.st.(runId := e.entry.runId, next := w.st.next + 1);
    assert Step(cfg.plan.id, w.st, e) == OperationStep(st, e);
    assert OperationStep(st, e).Ok?;
    OperationStepShape(st, e, after.st);
    ValidIsMeaningful(e);
    ExtensionKeepsCore(cfg, w, after, e);
  }

  lemma OperationsAgree(cfg: Config, w: World, id: OperationID)
    requires Invariant(cfg.plan, w.st) && GoodPlan(cfg.plan) && id in w.st.records
    ensures id in cfg.plan.operations && w.st.records[id].op == cfg.plan.operations[id] && w.st.records[id].op.id == id
  {
  }

  // Decided work and running tasks

  predicate CanStart(cfg: Config, r: Record, kind: TaskKind, attempt: Uint32) {
    if kind.ApplyTask? then Applicable(cfg, r) && !r.reconcileRequired && attempt == Increment32(r.attempt)
    else r.reconcileRequired && attempt == r.attempt
  }

  /** The record is still as it was when the work was decided. */
  predicate WorkSound(cfg: Config, records: Records, clock: int, work: Work) {
    && work.id in records
    && var r := records[work.id];
       match work
       case ExpireWork(_, lease) => r.leaseActive && r.lease == lease && lease.expiresAt <= clock
       case ReadyWork(_) => ReadyUnjournaled(r)
       case RecoverWork(_, attempt, _) => Interrupted(r) && r.attempt == attempt
       case CancelWork(_) => Doomed(cfg, r, records)
       case LaunchWork(_, kind, attempt, _) => !r.leaseActive && CanStart(cfg, r, kind, attempt)
       case StartWork(_, kind, attempt, _, lease) =>
         r.leaseActive && r.lease == lease && CanStart(cfg, r, kind, attempt)
  }

  predicate WorkOfCancelledRun(work: Work) {
    work.ExpireWork? || ((work.LaunchWork? || work.StartWork?) && work.kind.ReconcileTask?)
  }

  ghost predicate DistinctWork(pending: seq<Work>) {
    forall i, j :: 0 <= i < j < |pending| ==> pending[i].id != pending[j].id
  }

  ghost predicate PendingSound(cfg: Config, records: Records, clock: int, cancelled: bool, pending: seq<Work>) {
    forall x :: x in pending ==> WorkSound(cfg, records, clock, x) && (cancelled ==> WorkOfCancelledRun(x))
  }

  predicate TaskSound(records: Records, id: OperationID, t: Task, cancelled: bool) {
    id in records && TaskInvariant(records[id], t) && (cancelled ==> t.kind.ReconcileTask?)
  }

  ghost predicate TasksSound(records: Records, tasks: map<OperationID, Task>, cancelled: bool) {
    forall id :: id in tasks ==> TaskSound(records, id, tasks[id], cancelled)
  }

  ghost predicate Separate(pending: seq<Work>, tasks: map<OperationID, Task>) {
    forall x :: x in pending ==> x.id !in tasks
  }

  /** The invariant of a world whose journal is not broken. */
  ghost predicate Sound(cfg: Config, w: World) {
    && Core(cfg, w)
    && (Idle(w) || (w.st.started && !w.st.completed))
    && DistinctWork(w.pending) && Separate(w.pending, w.tasks)
    && PendingSound(cfg, w.st.records, w.clock, w.st.cancelled, w.pending)
    && TasksSound(w.st.records, w.tasks, w.st.cancelled)
  }

  // A change of one record leaves other work and other tasks sound

  lemma DoomPersists(cfg: Config, before: Records, after: Records, id: OperationID, next: Record, op: Operation)
    requires Changed(before, after, id, next) && HasTerminalUnpublishedDependency(cfg, op, before)
    requires TerminalUnpublished(cfg, before[id]) ==> TerminalUnpublished(cfg, next)
    ensures HasTerminalUnpublishedDependency(cfg, op, after)
  {
    var d :| d in op.dependencies && (d !in before || TerminalUnpublished(cfg, before[d]));
    assert d !in after || TerminalUnpublished(cfg, after[d]);
  }

  lemma OtherWorkSound(cfg: Config, before: Records, after: Records, id: OperationID, next: Record,
                       clock: int, later: int, work: Work)
    requires Changed(before, after, id, next) && clock <= later && work.id != id
    requires TerminalUnpublished(cfg, before[id]) ==> TerminalUnpublished(cfg, next)
    requires WorkSound(cfg, before, clock, work)
    ensures WorkSound(cfg, after, later, work)
  {
    if work.CancelWork? { DoomPersists(cfg, before, after, id, next, before[work.id].op); }
    hide HasTerminalUnpublishedDependency, Increment32, Exhausted;
  }

  lemma OtherTaskSound(before: Records, after: Records, id: OperationID, next: Record, other: OperationID, t: Task,
                       cancelled: bool)
    requires Changed(before, after, id, next) && other != id
    requires RecordInvariants(before) && TaskSound(before, other, t, cancelled)
    ensures TaskSound(after, other, t, cancelled)
  {
    hide TaskInvariant;
    assert RecordInvariant(before[other]);
    ActiveRecord(before[other], t);
  }

  /** The work and the tasks of the other operations stay sound. */
  lemma OthersSound(cfg: Config, w: World, after: World, id: OperationID, next: Record)
    requires Sound(cfg, w) && w.clock <= after.clock && SameRun(w.st, after.st)
    requires Changed(w.st.records, after.st.records, id, next)
    requires TerminalUnpublished(cfg, w.st.records[id]) ==> TerminalUnpublished(cfg, next)
    ensures forall x :: x in w.pending && x.id != id ==>
              WorkSound(cfg, after.st.records, after.clock, x) && (after.st.cancelled ==> WorkOfCancelledRun(x))
    ensures forall j :: j in w.tasks && j != id ==> TaskSound(after.st.records, j, w.tasks[j], after.st.cancelled)
  {
    assert RecordInvariants(w.st.records);
    hide WorkSound, TaskSound, TerminalUnpublished, Core;
    forall x | x in w.pending && x.id != id ensures WorkSound(cfg, after.st.records, after.clock, x) {
      OtherWorkSound(cfg, w.st.records, after.st.records, id, next, w.clock, after.clock, x);
    }
    forall j | j in w.tasks && j != id ensures TaskSound(after.st.records, j, w.tasks[j], after.st.cancelled) {
      OtherTaskSound(w.st.records, after.st.records, id, next, j, w.tasks[j], w.st.cancelled);
    }
  }

  // What an executor writes

  /** The event that a world has beyond an earlier one. */
  function LastEvent(w: World): Event
    requires w.journal != []
  {
    w.journal[|w.journal| - 1]
  }

  /** An apply call of the operation is under way and its outcome is not recorded yet. */
  predicate Applying(w: World, id: OperationID) {
    id in w.tasks && w.tasks[id].kind.ApplyTask? && !w.tasks[id].settled
  }

  /**
   What holds of every operation event that an executor appends: attempts only of applicable
   operations under their lease, dispatches and outcomes only by the task that applies, or the
   recovery of an attempt that was not dispatched, and cancellations only below a dependency that
   will never be published.
   */
  predicate LawfulOperationEvent(cfg: Config, w: World, r: Record, e: Event) {
    var id, k, p := e.entry.operationId, e.entry.kind, e.entry.payload;
    && e.entry.targetId == r.op.target
    && (CarriesAttempt(k) ==> p.attempt == (if k.AttemptStarted? then Increment32(r.attempt) else r.attempt))
    && (k.AttemptStarted? ==> r.leaseActive && Applicable(cfg, r) && !w.st.cancelled)
    && (k.SideEffectDispatched? ==> r.leaseActive)
    && (k.ReconcileResult? ==> p.state == WaitingExternal || p.state == Published || p.state == Rejected)
    && (k.OperationCancelled? ==> Doomed(cfg, r, w.st.records))
    && (k.OperationResult? ==> p.state == Blocked || p.state == Cancelled)
    && (k.SideEffectDispatched? || ExplicitResultKind(k) || k.OperationResult? || k.OutcomeAmbiguous? ==>
          && r.state == Running && !r.reconciling
          && (Applying(w, id) || (k.OperationFailed? && Interrupted(r))))
  }

  predicate Lawful(cfg: Config, w: World, e: Event) {
    && e.entry.runId == cfg.runId
    && (!RunLifecycle(e.entry.kind) ==>
          e.entry.operationId in w.st.records
          && LawfulOperationEvent(cfg, w, w.st.records[e.entry.operationId], e))
  }

  ghost predicate Written(cfg: Config, w: World, after: World) {
    after.journal != [] && Extends(cfg, w, after, LastEvent(after)) && Lawful(cfg, w, LastEvent(after))
  }

  /** The invariant holds again and at most one event was appended, a lawful one. */
  ghost predicate Advances(cfg: Config, w: World, after: World) {
    Sound(cfg, after) && (Written(cfg, w, after) || (after.journal == w.journal && after.st == w.st))
  }

  /** Every reconciliation that the journal has open is being worked on by a task. */
  ghost predicate Attended(w: World) {
    forall id :: id in w.st.records && w.st.records[id].reconciling ==>
      id in w.tasks && w.tasks[id].kind.ReconcileTask? && !w.tasks[id].settled
  }

  // Steps that concern the run as a whole

  lemma RunEventExtends(cfg: Config, w: World, kind: EventKind, now: int, after: World)
    requires Core(cfg, w) && Append(cfg, w, RunEntry(cfg, kind), now) == Some(after)
    requires || (kind.RunStarted? && w.journal == [])
             || (w.st.started && !w.st.completed && !w.st.cancelled
                 && (kind.RunCancelled? || (kind.RunCompleted? && AllQuiescent(w.st.records))))
    ensures after == w.(journal := after.journal, st := after.st, clock := now) && after.journal != []
    ensures Extends(cfg, w, after, LastEvent(after)) && LastEvent(after).entry == RunEntry(cfg, kind)
            && Core(cfg, after)
    ensures after.st.records == w.st.records || after.st.records == RefreshReady(w.st.records)
            || after.st.records == CancelRemaining(w.st.records)
  {
    hide ValidEvent, Invariant, OperationStep, GoodPlan, RefreshReady, CancelRemaining, AllQuiescent;
    var e := NextEvent(w, RunEntry(cfg, kind), now);
    assert Admission(w.st, e) == None;
    assert LastEvent(after) == e;
    ExtensionKeepsCore(cfg, w, after, e);
  }

  lemma RunEventAccepted(cfg: Config, w: World, kind: EventKind, now: int, after: World)
    requires Sound(cfg, w) && Idle(w) && Append(cfg, w, RunEntry(cfg, kind), now) == Some(after)
    requires || (kind.RunStarted? && w.journal == [])
             || (w.st.started && !w.st.completed && !w.st.cancelled
                 && (kind.RunCancelled? || (kind.RunCompleted? && AllQuiescent(w.st.records))))
    ensures Advances(cfg, w, after) && Written(cfg, w, after) && (Attended(w) ==> Attended(after))
    ensures after.tasks == w.tasks && after.pending == w.pending && after.lost == w.lost
            && LastEvent(after).entry.kind == kind
  {
    hide Extends, Append, AllQuiescent, Core, RefreshReady, CancelRemaining;
    RunEventExtends(cfg, w, kind, now, after);
    RunRecords(w.st.records);
  }

  lemma RunRecords(records: Records)
    ensures forall id :: id in records ==>
              RefreshReady(records)[id].reconciling == records[id].reconciling
              && CancelRemaining(records)[id].reconciling == records[id].reconciling
    ensures RefreshReady(records).Keys == records.Keys && CancelRemaining(records).Keys == records.Keys
  {
  }

  /** The executor declares a run complete only when the reducer agrees. */
  lemma ExecutorQuiescentIsQuiescent(cfg: Config, records: Records)
    requires ExecutorQuiescent(cfg, records)
    ensures AllQuiescent(records)
  {
  }

  // Planning a pass

  lemma DecisionSound(cfg: Config, w: World, phase: Phase, id: OperationID, now: int)
    requires Core(cfg, w) && id in w.st.records && (w.st.cancelled ==> !SkippedAfterCancellation(phase))
    ensures var work := Decide(cfg, w, phase, id, now);
      work.Some? ==>
        && work.value.id == id && WorkSound(cfg, w.st.records, now, work.value)
        && (w.st.cancelled ==> WorkOfCancelledRun(work.value))
  {
    hide Core, Doomed, Interrupted, Increment32, ReadyUnjournaled, Applicable;
  }

  lemma {:induction false} WorkListSound(cfg: Config, w: World, phase: Phase, ids: seq<OperationID>, now: int)
    requires Core(cfg, w) && DistinctIds(ids) && (w.st.cancelled ==> !SkippedAfterCancellation(phase))
    ensures var list := WorkList(cfg, w, phase, ids, now);
      && (forall x :: x in list ==> x.id in ids) && DistinctWork(list)
      && PendingSound(cfg, w.st.records, now, w.st.cancelled, list)
  {
    hide Core, WorkSound, Decide, WorkOfCancelledRun;
    if ids != [] {
      assert forall i, j :: 0 <= i < j < |ids[1..]| ==> ids[1..][i] == ids[i + 1] && ids[1..][j] == ids[j + 1];
      WorkListSound(cfg, w, phase, ids[1..], now);
      if ids[0] in w.st.records { DecisionSound(cfg, w, phase, ids[0], now); }
    }
  }

  lemma PlanPassAdvances(cfg: Config, w: World, phase: Phase, ids: seq<OperationID>, now: int, after: World)
    requires Sound(cfg, w) && Perform(cfg, w, PlanPass(phase, ids), now) == Some(after)
    ensures Advances(cfg, w, after) && (Attended(w) ==> Attended(after))
  {
    hide WorkList, WorkSound, Core, TaskSound, Step, ValidEvent, Lawful, PendingSound;
    assert Core(cfg, w) && Core(cfg, after) by { CoreIgnoresTasks(cfg, w, after); }
    WorkListSound(cfg, w, phase, ids, now);
  }

  // Steps that append an operation event

  function OperationEvent(cfg: Config, w: World, id: OperationID, kind: EventKind, payload: Payload, now: int): Event
    requires id in w.st.records
  {
    NextEvent(w, OperationEntry(cfg, w.st.records[id].op, kind, payload), now)
  }

  /** The event suits the record of its operation, and next is the record it leaves. */
  ghost predicate Suits(cfg: Config, w: World, e: Event, next: Record) {
    var id, kind := e.entry.operationId, e.entry.kind;
    && id in w.st.records && !RunLifecycle(kind)
    && (w.st.cancelled ==> AllowedAfterRunCancellation(kind))
    && OperationTransition(w.st.records[id], e, DependenciesPublished(w.st.records[id].op, w.st.records)) == Some(next)
    && (Refreshes(kind) ==> next.state != Planned)
    && (TerminalUnpublished(cfg, w.st.records[id]) ==> TerminalUnpublished(cfg, next))
    && Lawful(cfg, w, e)
  }

  /** Every task is an untouched one of another operation or suits the changed record; likewise for the work. */
  ghost predicate Fits(w: World, after: World, id: OperationID, next: Record) {
    && DistinctWork(after.pending) && Separate(after.pending, after.tasks)
    && (forall x :: x in after.pending ==>
          (x in w.pending && x.id != id)
          || (x.StartWork? && x.id == id && (w.st.cancelled ==> WorkOfCancelledRun(x))))
    && (forall j :: j in after.tasks ==>
          (j != id && j in w.tasks && after.tasks[j] == w.tasks[j])
          || (j == id && TaskInvariant(next, after.tasks[j])
              && (w.st.cancelled ==> after.tasks[j].kind.ReconcileTask?)))
  }

  lemma OperationEventAdvances(cfg: Config, w: World, id: OperationID, kind: EventKind, payload: Payload, now: int,
                               appended: World, after: World, next: Record)
    requires Sound(cfg, w) && w.st.started && !w.st.completed && id in w.st.records
    requires AppendOperation(cfg, w, id, kind, payload, now) == Some(appended)
    requires Suits(cfg, w, OperationEvent(cfg, w, id, kind, payload, now), next)
    requires after.journal == appended.journal && after.st == appended.st && after.clock == appended.clock
             && after.broken == appended.broken
    requires Fits(w, after, id, next)
    requires forall x :: x in after.pending && x.id == id ==>
               x.StartWork? && next.leaseActive && next.lease == x.lease && CanStart(cfg, next, x.kind, x.attempt)
    ensures Advances(cfg, w, after) && Written(cfg, w, after)
    ensures LastEvent(after) == OperationEvent(cfg, w, id, kind, payload, now)
    ensures SameRun(w.st, after.st) && Changed(w.st.records, after.st.records, id, next)
  {
    hide OperationTransition, ValidEvent, Invariant, GoodPlan, DependenciesPublished, Lawful, Applicable, Step, Replay,
      TaskInvariant, TerminalUnpublished, Append, AppendOperation, WorkSound, Refreshes;
    OperationsAgree(cfg, w, id);
    assert OperationEvent(cfg, w, id, kind, payload, now).entry.operationId == id;
    AppendAccepted(cfg, w, id, kind, payload, now, appended);
    OthersSound(cfg, w, appended, id, next);
    assert Core(cfg, after);
    forall x | x in after.pending
      ensures WorkSound(cfg, after.st.records, after.clock, x) && (after.st.cancelled ==> WorkOfCancelledRun(x))
    {
      if x.id == id { StartWorkSound(cfg, after.st.records, after.clock, x); }
    }
  }

  lemma StartWorkSound(cfg: Config, records: Records, clock: int, work: Work)
    requires work.StartWork? && work.id in records
    requires var r := records[work.id];
      r.leaseActive && r.lease == work.lease && CanStart(cfg, r, work.kind, work.attempt)
    ensures WorkSound(cfg, records, clock, work)
  {
  }

  // Decided work

  /** The second start of a reconciliation that is still open: the one event of an executor that the reducer rejects. */
  predicate RestartsReconciliation(w: World, work: Work) {
    && work.StartWork? && work.kind.ReconcileTask?
    && work.id in w.st.records && w.st.records[work.id].reconciling
  }

  /** What performing a piece of work leaves, from the record that it was decided for. */
  predicate WorkDone(cfg: Config, r: Record, next: Record, work: Work, lease: Lease) {
    && (TerminalUnpublished(cfg, r) ==> TerminalUnpublished(cfg, next))
    && (Refreshes(WorkReport(work, lease).kind) ==> next.state != Planned)
    && (next.reconciling ==> r.reconciling || (work.StartWork? && work.kind.ReconcileTask?))
    && (work.LaunchWork? ==> next.leaseActive && next.lease == lease && CanStart(cfg, next, work.kind, work.attempt))
    && (work.StartWork? ==> TaskInvariant(next, NewTask(work)))
  }

  lemma ScheduleWorkAccepted(cfg: Config, records: Records, clock: int, work: Work, e: Event, lease: Lease,
                             published: bool)
    requires WorkSound(cfg, records, clock, work) && clock <= e.observedAt && !work.StartWork?
    requires RecordInvariant(records[work.id])
    requires e.entry.kind == WorkReport(work, lease).kind && e.entry.payload == WorkReport(work, lease).payload
    ensures var r := records[work.id];
      var next := OperationTransition(r, e, published);
      next.Some? && WorkDone(cfg, r, next.value, work, lease)
  {
    hide HasTerminalUnpublishedDependency, Increment32, Subtract32;
  }

  lemma StartAccepted(cfg: Config, r: Record, work: Work, e: Event, lease: Lease, published: bool)
    requires RecordInvariant(r) && work.StartWork? && work.attempt != 0
    requires r.leaseActive && r.lease == work.lease && CanStart(cfg, r, work.kind, work.attempt)
    requires work.kind.ApplyTask? ==> published
    requires e.entry.kind == WorkReport(work, lease).kind && e.entry.payload == WorkReport(work, lease).payload
    ensures var next := OperationTransition(r, e, published);
      if work.kind.ReconcileTask? && r.reconciling then next.None?
      else next.Some? && WorkDone(cfg, r, next.value, work, lease)
  {
    hide Increment32, Subtract32;
  }

  predicate Performs(w: World, work: Work, e: Event, lease: Lease) {
    && work.id in w.st.records && w.clock <= e.observedAt
    && e.entry.operationId == work.id
    && e.entry.kind == WorkReport(work, lease).kind && e.entry.payload == WorkReport(work, lease).payload
  }

  lemma WorkAccepted(cfg: Config, w: World, work: Work, e: Event, lease: Lease)
    requires Core(cfg, w) && ValidEvent(e) && WorkSound(cfg, w.st.records, w.clock, work) && Performs(w, work, e, lease)
    ensures var r := w.st.records[work.id];
      var next := OperationTransition(r, e, DependenciesPublished(r.op, w.st.records));
      if RestartsReconciliation(w, work) then next.None?
      else next.Some? && WorkDone(cfg, r, next.value, work, lease)
  {
    hide OperationTransition, RecordInvariant, GoodPlan, WorkDone, ValidEvent, Invariant, Replay, WorkSound,
      WorkReport, CanStart, DependenciesPublished, Applicable, Core;
    var r := w.st.records[work.id];
    CoreRecord(cfg, w, work.id);
    ValidCarriesAttempt(e);
    if work.StartWork? {
      SoundStart(cfg, w, work, lease);
      StartAccepted(cfg, r, work, e, lease, DependenciesPublished(r.op, w.st.records));
    }
    else {
      ScheduleWorkAccepted(cfg, w.st.records, w.clock, work, e, lease, DependenciesPublished(r.op, w.st.records));
    }
  }

  lemma CoreRecord(cfg: Config, w: World, id: OperationID)
    requires Core(cfg, w) && id in w.st.records
    ensures RecordInvariant(w.st.records[id])
  {
    hide RecordInvariant, GoodPlan, Replay;
  }

  lemma SoundStart(cfg: Config, w: World, work: Work, lease: Lease)
    requires Core(cfg, w) && WorkSound(cfg, w.st.records, w.clock, work) && work.StartWork? && work.id in w.st.records
    ensures var r := w.st.records[work.id];
      r.leaseActive && r.lease == work.lease && CanStart(cfg, r, work.kind, work.attempt)
    ensures work.kind.ApplyTask? ==> DependenciesPublished(w.st.records[work.id].op, w.st.records)
    ensures CarriesAttempt(WorkReport(work, lease).kind) && WorkReport(work, lease).payload.attempt == work.attempt
  {
    hide Core, DependenciesPublished, Applicable;
    if work.kind.ApplyTask? { ApplicableHavePublishedDependencies(cfg, w, work.id); }
  }

  lemma WorkLawful(cfg: Config, w: World, work: Work, e: Event, lease: Lease)
    requires WorkSound(cfg, w.st.records, w.clock, work) && Performs(w, work, e, lease)
    requires RecordInvariant(w.st.records[work.id]) && (w.st.cancelled ==> WorkOfCancelledRun(work))
    requires e.entry.runId == cfg.runId && e.entry.targetId == w.st.records[work.id].op.target
    ensures Lawful(cfg, w, e) && !RunLifecycle(e.entry.kind)
    ensures w.st.cancelled ==> AllowedAfterRunCancellation(e.entry.kind)
  {
    hide HasTerminalUnpublishedDependency, Increment32, Subtract32;
  }

  lemma ApplicableHavePublishedDependencies(cfg: Config, w: World, id: OperationID)
    requires Core(cfg, w) && id in w.st.records && Applicable(cfg, w.st.records[id])
    ensures DependenciesPublished(w.st.records[id].op, w.st.records)
  {
    assert Released(w.st.records[id]);
  }

  /** The world with its next piece of work taken off is sound, and nothing else is planned for that operation. */
  lemma TakeWork(cfg: Config, w: World)
    requires Sound(cfg, w) && w.pending != []
    ensures var rest := w.(pending := w.pending[1..]);
      && Sound(cfg, rest) && w.pending[0].id !in w.tasks && w.pending[0].id in w.st.records
      && WorkSound(cfg, w.st.records, w.clock, w.pending[0]) && (w.st.cancelled ==> WorkOfCancelledRun(w.pending[0]))
      && forall x :: x in rest.pending ==> x.id != w.pending[0].id
  {
    hide WorkSound, TaskSound, Invariant, GoodPlan, Replay, WorkOfCancelledRun, DistinctWork;
    TailDistinct(w.pending);
    assert w.pending[0] in w.pending;
    SoundWorkKnown(cfg, w.st.records, w.clock, w.pending[0]);
  }

  lemma SoundWorkKnown(cfg: Config, records: Records, clock: int, work: Work)
    requires WorkSound(cfg, records, clock, work)
    ensures work.id in records
  {
  }

  lemma TailDistinct(pending: seq<Work>)
    requires DistinctWork(pending) && pending != []
    ensures DistinctWork(pending[1..])
    ensures forall x :: x in pending[1..] ==> x in pending && x.id != pending[0].id
  {
    var rest := pending[1..];
    forall i, j | 0 <= i < j < |rest| ensures rest[i].id != rest[j].id {
      assert rest[i] == pending[i + 1] && rest[j] == pending[j + 1];
    }
    forall x | x in rest ensures x in pending && x.id != pending[0].id {
      var i :| 0 <= i < |rest| && rest[i] == x;
      assert pending[i + 1] == x;
    }
  }

  /** The work fits in again: a launch is replaced by its start, a start by its task. */
  lemma WorkFits(cfg: Config, w: World, work: Work, lease: Lease, appended: World, next: Record)
    requires Sound(cfg, w) && work.id !in w.tasks && forall x :: x in w.pending ==> x.id != work.id
    requires appended.pending == w.pending && appended.tasks == w.tasks
    requires w.st.cancelled ==> WorkOfCancelledRun(work)
    requires work.StartWork? ==> TaskInvariant(next, NewTask(work))
    ensures Fits(w, AfterWork(appended, work, lease), work.id, next)
  {
    hide TaskInvariant, Core, WorkSound, TaskSound;
    var after := AfterWork(appended, work, lease);
    if work.LaunchWork? {
      var start := StartWork(work.id, work.kind, work.attempt, work.wasAmbiguous, lease);
      assert after.pending == [start] + w.pending;
      forall i, j | 0 <= i < j < |after.pending| ensures after.pending[i].id != after.pending[j].id {
        assert after.pending[j] == w.pending[j - 1];
      }
    }
  }

  lemma RejectedAppendBreaks(cfg: Config, w: World, id: OperationID, kind: EventKind, payload: Payload, now: int,
                             after: World)
    requires id in w.st.records && GoodPlan(cfg.plan) && Invariant(cfg.plan, w.st) && !RunLifecycle(kind)
    requires AppendOperation(cfg, w, id, kind, payload, now) == Some(after)
    requires OperationTransition(w.st.records[id], OperationEvent(cfg, w, id, kind, payload, now),
                                 DependenciesPublished(w.st.records[id].op, w.st.records)).None?
    ensures after.broken
  {
    hide OperationTransition, ValidEvent, Step, Invariant, GoodPlan;
    OperationsAgree(cfg, w, id);
    RefusedStep(cfg.plan.id, w.st, OperationEvent(cfg, w, id, kind, payload, now));
  }

  /** What its operation refuses, the reducer refuses. */
  lemma RefusedStep(planId: PlanID, st: RunState, e: Event)
    requires !RunLifecycle(e.entry.kind) && e.entry.operationId in st.records
    requires var r := st.records[e.entry.operationId];
      OperationTransition(r, e, DependenciesPublished(r.op, st.records)).None?
    ensures Step(planId, st, e).Err?
  {
    hide OperationTransition, Admission, DependenciesPublished;
  }

  /** Taking work off changes nothing that the invariant says about the step. */
  lemma AdvancesFromRest(cfg: Config, w: World, pending: seq<Work>, after: World)
    requires Advances(cfg, w.(pending := pending), after)
    ensures Advances(cfg, w, after)
  {
    hide Sound, Step, ValidEvent;
  }

  lemma StaysAttended(w: World, after: World, id: OperationID, next: Record)
    requires Attended(w) && Changed(w.st.records, after.st.records, id, next)
    requires forall j :: j in w.tasks && j != id ==> j in after.tasks && after.tasks[j] == w.tasks[j]
    requires next.reconciling ==> id in after.tasks && after.tasks[id].kind.ReconcileTask? && !after.tasks[id].settled
    ensures Attended(after)
  {
  }

  lemma DoWorkAdvances(cfg: Config, w: World, lease: Lease, now: int, after: World)
    requires Sound(cfg, w) && Perform(cfg, w, DoWork(lease), now) == Some(after)
    ensures after.broken <==> RestartsReconciliation(w, w.pending[0])
    ensures !after.broken ==> Advances(cfg, w, after) && (Attended(w) ==> Attended(after))
  {
    hide OperationTransition, ValidEvent, Invariant, GoodPlan, DependenciesPublished, Applicable, Step, Replay, Lawful,
      TaskInvariant, TerminalUnpublished, Append, AppendOperation, WorkSound, Refreshes, WorkReport, Fits, Extends,
      RecordInvariant,
      Changed, Attended, WorkOfCancelledRun, CanStart, PendingSound, TasksSound, Separate, DistinctWork;
    var work := w.pending[0];
    var rest := w.(pending := w.pending[1..]);
    TakeWork(cfg, w);
    var report := WorkReport(work, lease);
    OperationsAgree(cfg, w, work.id);
    var appended := AppendOperation(cfg, rest, work.id, report.kind, report.payload, now).value;
    var e := OperationEvent(cfg, rest, work.id, report.kind, report.payload, now);
    AppendedIsValid(cfg, rest, work.id, report.kind, report.payload, now, appended);
    WorkAccepted(cfg, rest, work, e, lease);
    WorkLawful(cfg, rest, work, e, lease);
    if RestartsReconciliation(w, work) {
      RejectedAppendBreaks(cfg, rest, work.id, report.kind, report.payload, now, appended);
    } else {
      var r := w.st.records[work.id];
      var next := OperationTransition(r, e, DependenciesPublished(r.op, w.st.records)).value;
      WorkFits(cfg, rest, work, lease, appended, next);
      OperationEventAdvances(cfg, rest, work.id, report.kind, report.payload, now, appended, after, next);
      AdvancesFromRest(cfg, w, w.pending[1..], after);
      if Attended(w) { StartStaysAttended(cfg, w, rest, work, lease, appended, after, next); }
    }
  }

  lemma StartStaysAttended(cfg: Config, w: World, rest: World, work: Work, lease: Lease, appended: World, after: World,
                           next: Record)
    requires Attended(w) && rest == w.(pending := rest.pending) && work.id in w.st.records && work.id !in w.tasks
    requires appended.tasks == w.tasks && after == AfterWork(appended, work, lease)
    requires WorkDone(cfg, w.st.records[work.id], next, work, lease)
             && Changed(w.st.records, after.st.records, work.id, next)
    ensures Attended(after)
  {
    hide Changed, TerminalUnpublished, TaskInvariant, CanStart, Refreshes;
    UnattendedIdle(w, work.id);
    StaysAttended(w, after, work.id, next);
  }

  lemma UnattendedIdle(w: World, id: OperationID)
    requires Attended(w) && id in w.st.records && id !in w.tasks
    ensures !w.st.records[id].reconciling
  {
  }

  lemma AppendedIsValid(cfg: Config, w: World, id: OperationID, kind: EventKind, payload: Payload, now: int,
                        after: World)
    requires id in w.st.records && GoodPlan(cfg.plan) && Invariant(cfg.plan, w.st)
    requires AppendOperation(cfg, w, id, kind, payload, now) == Some(after)
    ensures ValidEvent(OperationEvent(cfg, w, id, kind, payload, now)) && w.clock <= now
    ensures after == w.(journal := after.journal, st := after.st, clock := now, broken := after.broken)
    ensures RecordInvariant(w.st.records[id])
  {
    hide ValidEvent, Step, RecordInvariant;
    OperationsAgree(cfg, w, id);
  }

  // Tasks

  lemma MoveLawful(cfg: Config, w: World, id: OperationID, e: Event, t: Task, move: TaskMove, outcome: Outcome)
    requires Core(cfg, w) && id in w.tasks && t == w.tasks[id] && TaskSound(w.st.records, id, t, w.st.cancelled)
    requires e.entry.operationId == id && e.entry.targetId == w.st.records[id].op.target && e.entry.runId == cfg.runId
    requires MoveAccepted(w.st.records[id], e, t, move, outcome)
    ensures OperationTransition(w.st.records[id], e, false).Some?
    ensures Suits(cfg, w, e, OperationTransition(w.st.records[id], e, false).value)
  {
    hide OperationTransition, RecordInvariant, ValidEvent, DependenciesPublished, GoodPlan;
    var r := w.st.records[id];
    IndifferentToDependencies(r, e, DependenciesPublished(r.op, w.st.records));
  }

  /** Only the start of an attempt looks at the dependencies. */
  lemma IndifferentToDependencies(r: Record, e: Event, published: bool)
    requires !e.entry.kind.AttemptStarted?
    ensures OperationTransition(r, e, published) == OperationTransition(r, e, false)
  {
  }

  lemma MoveTaskAdvances(cfg: Config, w: World, id: OperationID, move: TaskMove, now: int, after: World)
    requires Sound(cfg, w) && Perform(cfg, w, MoveTask(id, move), now) == Some(after)
    ensures id in w.tasks && id in w.st.records
    ensures after.broken <==> BreaksContract(w.st.records[id].op, w.tasks[id], move)
    ensures !after.broken ==>
              && Advances(cfg, w, after) && Written(cfg, w, after) && (Attended(w) ==> Attended(after))
              && LastEvent(after).entry.operationId == id
  {
    hide OperationTransition, ValidEvent, Invariant, GoodPlan, DependenciesPublished, Step, Replay, Lawful,
      TaskInvariant, TerminalUnpublished, Append, AppendOperation, WorkSound, Refreshes, TaskReport, Extends,
      RecordInvariant, Changed, Attended, MoveAccepted, Suits, BreaksContract;
    var t := w.tasks[id];
    OperationsAgree(cfg, w, id);
    var r := w.st.records[id];
    var outcome := TaskReport(r.op, t, move).value;
    var report := outcome.report;
    var appended := AppendOperation(cfg, w, id, report.kind, report.payload, now).value;
    var e := OperationEvent(cfg, w, id, report.kind, report.payload, now);
    AppendedIsValid(cfg, w, id, report.kind, report.payload, now, appended);
    if BreaksContract(r.op, t, move) {
      StrayDispatchRefused(r, e, t, move, outcome);
      assert !RunLifecycle(report.kind) && !report.kind.AttemptStarted? by {
        StrayDispatchKind(r.op, t, move, outcome);
      }
      IndifferentToDependencies(r, e, DependenciesPublished(r.op, w.st.records));
      RejectedAppendBreaks(cfg, w, id, report.kind, report.payload, now, appended);
    } else {
      TaskMoveAccepted(r, e, t, move, outcome);
      MoveLawful(cfg, w, id, e, t, move, outcome);
      var next := OperationTransition(r, e, false).value;
      MoveFits(w, after, id, e, t, move, outcome, appended);
      OperationEventAdvances(cfg, w, id, report.kind, report.payload, now, appended, after, next);
      if Attended(w) {
        if EndsTask(move) { EndingTasksAreSettled(r.op, t, move); }
        MoveStaysAttended(w, after, id, e, t, move, outcome, appended);
      }
    }
  }

  lemma StrayDispatchKind(op: Operation, t: Task, move: TaskMove, outcome: Outcome)
    requires BreaksContract(op, t, move) && TaskReport(op, t, move) == Some(outcome)
    ensures outcome.report.kind == SideEffectDispatched
  {
  }

  lemma EndingTasksAreSettled(op: Operation, t: Task, move: TaskMove)
    requires TaskReport(op, t, move).Some? && EndsTask(move)
    ensures t.settled
  {
  }

  lemma MoveFits(w: World, after: World, id: OperationID, e: Event, t: Task, move: TaskMove, outcome: Outcome,
                 appended: World)
    requires w.pending == [] && id in w.st.records && id in w.tasks && t == w.tasks[id]
    requires w.st.cancelled ==> t.kind.ReconcileTask?
    requires MoveAccepted(w.st.records[id], e, t, move, outcome)
    requires appended.tasks == w.tasks && appended.pending == w.pending
             && after == AfterMove(appended, id, t, move, outcome)
    ensures Fits(w, after, id, OperationTransition(w.st.records[id], e, false).value)
  {
    hide OperationTransition, TaskInvariant, MoveAccepted, TaskAfter;
    AcceptedTask(w.st.records[id], e, t, move, outcome);
  }

  lemma AcceptedTask(r: Record, e: Event, t: Task, move: TaskMove, outcome: Outcome)
    requires MoveAccepted(r, e, t, move, outcome)
    ensures OperationTransition(r, e, false).Some?
    ensures EndsTask(move) || TaskInvariant(OperationTransition(r, e, false).value, TaskAfter(t, move, outcome))
    ensures TaskAfter(t, move, outcome).kind == t.kind
  {
    hide OperationTransition, TaskInvariant, Disciplined, SameProgress;
  }

  lemma MoveStaysAttended(w: World, after: World, id: OperationID, e: Event, t: Task, move: TaskMove, outcome: Outcome,
                          appended: World)
    requires id in w.st.records && id in w.tasks && t == w.tasks[id] && Attended(w)
    requires EndsTask(move) ==> t.settled
    requires MoveAccepted(w.st.records[id], e, t, move, outcome)
    requires appended.tasks == w.tasks && after == AfterMove(appended, id, t, move, outcome)
    requires Changed(w.st.records, after.st.records, id, OperationTransition(w.st.records[id], e, false).value)
    ensures Attended(after)
  {
    hide OperationTransition, TaskInvariant, Disciplined, Changed;
    StaysAttended(w, after, id, OperationTransition(w.st.records[id], e, false).value);
  }

  lemma RefuseOutcomeAdvances(cfg: Config, w: World, id: OperationID, now: int, after: World)
    requires Sound(cfg, w) && Perform(cfg, w, RefuseOutcome(id), now) == Some(after)
    ensures Advances(cfg, w, after) && (Attended(w) && w.tasks[id].kind.ApplyTask? ==> Attended(after))
  {
    hide Core, WorkSound, TaskInvariant, Step, ValidEvent, PendingSound;
    assert TaskSound(w.st.records, id, w.tasks[id], w.st.cancelled);
    RefusedTask(w.st.records[id], w.tasks[id]);
    assert Core(cfg, after) by { CoreIgnoresTasks(cfg, w, after); }
  }

  lemma RefusedTask(r: Record, t: Task)
    requires TaskInvariant(r, t)
    ensures TaskInvariant(r, t.(settled := true))
  {
  }

  /** The core concerns the journal only. */
  lemma CoreIgnoresTasks(cfg: Config, w: World, after: World)
    requires Core(cfg, w)
    requires after.journal == w.journal && after.st == w.st && after.broken == w.broken && after.clock >= w.clock
    ensures Core(cfg, after)
  {
    hide Invariant, GoodPlan, Replay;
  }

  lemma StopProcessAdvances(cfg: Config, w: World, reconcileOnly: bool, now: int, after: World)
    requires Sound(cfg, w) && Perform(cfg, w, StopProcess(reconcileOnly), now) == Some(after)
    ensures Advances(cfg, w, after)
    ensures (forall id :: id in w.st.records ==> !w.st.records[id].reconciling) ==> Attended(after)
  {
    hide Core, OpenAttempts, Step, ValidEvent, WorkSound, TaskSound;
    CoreIgnoresTasks(cfg, w, after);
  }

  lemma WaitAdvances(cfg: Config, w: World, now: int, after: World)
    requires Sound(cfg, w) && Perform(cfg, w, Wait, now) == Some(after)
    ensures Advances(cfg, w, after) && (Attended(w) ==> Attended(after))
  {
    hide Core, WorkSound, TaskSound, Step, ValidEvent, Lawful;
    CoreIgnoresTasks(cfg, w, after);
  }

  lemma LeaseGivenBack(cfg: Config, records: Records, clock: int, work: Work, e: Event, published: bool)
    requires WorkSound(cfg, records, clock, work) && work.StartWork? && e.entry.payload.lease == Some(work.lease)
    requires e.entry.kind.LeaseReleased? || (e.entry.kind.LeaseExpired? && work.lease.expiresAt <= e.observedAt)
    ensures OperationTransition(records[work.id], e, published) == Some(records[work.id].(leaseActive := false))
  {
    hide CanStart;
  }

  /** A world without work and tasks is sound if its journal is. */
  lemma DroppedWorkIsSound(cfg: Config, w: World)
    requires Sound(cfg, w)
    ensures Sound(cfg, w.(pending := [], tasks := map[]))
  {
    hide Core;
    CoreIgnoresTasks(cfg, w, w.(pending := [], tasks := map[]));
  }

  lemma LeaseEventLawful(cfg: Config, w: World, e: Event)
    requires LeaseKind(e.entry.kind) && e.entry.runId == cfg.runId && e.entry.operationId in w.st.records
    requires e.entry.targetId == w.st.records[e.entry.operationId].op.target
    ensures Lawful(cfg, w, e) && AllowedAfterRunCancellation(e.entry.kind) && !Refreshes(e.entry.kind)
  {
  }

  lemma AbandonStartAdvances(cfg: Config, w: World, expired: bool, now: int, after: World)
    requires Sound(cfg, w) && Perform(cfg, w, AbandonStart(expired), now) == Some(after)
    ensures Advances(cfg, w, after) && Written(cfg, w, after)
    ensures (forall id :: id in w.st.records ==> !w.st.records[id].reconciling) ==> Attended(after)
  {
    hide OperationTransition, ValidEvent, ValidEntry, Invariant, GoodPlan, DependenciesPublished, Step, Replay, Lawful,
      Append,
      AppendOperation, WorkSound, Refreshes, TerminalUnpublished, Changed, RecordInvariant, WorkReport, Sound, Attended,
      CanStart, Suits, Fits, SameProgress, AllowedAfterRunCancellation, Advances;
    TakeWork(cfg, w);
    SoundParts(cfg, w);
    DroppedWorkIsSound(cfg, w);
    var work, rest := w.pending[0], w.(pending := [], tasks := map[]);
    var kind := if expired then LeaseExpired else LeaseReleased;
    var payload := LeasePayload(work.lease);
    OperationsAgree(cfg, w, work.id);
    var r := w.st.records[work.id];
    var appended := AppendOperation(cfg, rest, work.id, kind, payload, now).value;
    var e := OperationEvent(cfg, rest, work.id, kind, payload, now);
    var next := r.(leaseActive := false);
    AppendedIsValid(cfg, rest, work.id, kind, payload, now, appended);
    GivenBackSuits(cfg, rest, w.clock, work, e);
    NothingFits(rest, after, work.id, next);
    LeaseEventLawful(cfg, w, e);
    OperationEventAdvances(cfg, rest, work.id, kind, payload, now, appended, after, next);
    AbandonedAdvances(cfg, w, rest, after);
    if forall id :: id in w.st.records ==> !w.st.records[id].reconciling { NobodyReconciles(w, after, work.id, next); }
  }

  lemma GivenBackSuits(cfg: Config, w: World, clock: int, work: Work, e: Event)
    requires WorkSound(cfg, w.st.records, clock, work) && work.StartWork? && e.entry.payload.lease == Some(work.lease)
    requires e.entry.kind.LeaseReleased? || (e.entry.kind.LeaseExpired? && work.lease.expiresAt <= e.observedAt)
    requires e.entry.runId == cfg.runId && e.entry.operationId == work.id && work.id in w.st.records
    requires e.entry.targetId == w.st.records[work.id].op.target
    ensures Suits(cfg, w, e, w.st.records[work.id].(leaseActive := false))
  {
    hide OperationTransition, WorkSound, Lawful, Refreshes, AllowedAfterRunCancellation, TerminalUnpublished,
      DependenciesPublished;
    var r := w.st.records[work.id];
    LeaseGivenBack(cfg, w.st.records, clock, work, e, DependenciesPublished(r.op, w.st.records));
    LeaseEventLawful(cfg, w, e);
    SameHope(cfg, r, r.(leaseActive := false));
  }

  lemma NothingFits(w: World, after: World, id: OperationID, next: Record)
    requires after.pending == [] && after.tasks == map[]
    ensures Fits(w, after, id, next)
  {
  }

  /** Dropping the tasks changes nothing that the invariant says about a lease event. */
  lemma AbandonedAdvances(cfg: Config, w: World, rest: World, after: World)
    requires rest == w.(pending := [], tasks := map[]) && Advances(cfg, rest, after) && Written(cfg, rest, after)
    requires after.journal != [] && Lawful(cfg, w, LastEvent(after))
    ensures Advances(cfg, w, after) && Written(cfg, w, after)
  {
    hide Sound, Step, ValidEvent, Lawful;
  }

  lemma SoundParts(cfg: Config, w: World)
    requires Sound(cfg, w)
    ensures GoodPlan(cfg.plan) && Invariant(cfg.plan, w.st) && (Idle(w) || (w.st.started && !w.st.completed))
  {
  }

  lemma SameHope(cfg: Config, r: Record, next: Record)
    requires SameProgress(r, next)
    ensures TerminalUnpublished(cfg, r) ==> TerminalUnpublished(cfg, next)
  {
  }

  lemma NobodyReconciles(w: World, after: World, id: OperationID, next: Record)
    requires Changed(w.st.records, after.st.records, id, next) && !next.reconciling
    requires forall j :: j in w.st.records ==> !w.st.records[j].reconciling
    ensures Attended(after)
  {
  }

  lemma AuthorizeRetryAdvances(cfg: Config, w: World, id: OperationID, now: int, after: World)
    requires Sound(cfg, w) && Perform(cfg, w, AuthorizeRetryOf(id), now) == Some(after)
    ensures Advances(cfg, w, after) && Written(cfg, w, after) && (Attended(w) ==> Attended(after))
    ensures LastEvent(after).entry.operationId == id && LastEvent(after).entry.kind == RetryAuthorized
  {
    hide ValidEvent, Invariant, GoodPlan, DependenciesPublished, Step, Replay,
      TaskInvariant, Append, AppendOperation, WorkSound, Extends, RecordInvariant, Changed, Attended;
    OperationsAgree(cfg, w, id);
    var r := w.st.records[id];
    var payload := AttemptPayload(r.attempt);
    var e := OperationEvent(cfg, w, id, RetryAuthorized, payload, now);
    assert OperationTransition(r, e, DependenciesPublished(r.op, w.st.records)) == Some(AuthorizeRetry(r));
    AppendedIsValid(cfg, w, id, RetryAuthorized, payload, now, after);
    OperationEventAdvances(cfg, w, id, RetryAuthorized, payload, now, after, after, AuthorizeRetry(r));
    if Attended(w) { StaysAttended(w, after, id, AuthorizeRetry(r)); }
  }

  // Every step, every run

  /**
   The step starts a reconciliation again that an earlier process started and did not finish, or the
   driver breaks its contract on dispatches.
   */
  predicate BreaksJournal(w: World, step: Label) {
    || (step.DoWork? && w.pending != [] && RestartsReconciliation(w, w.pending[0]))
    || (step.MoveTask? && step.id in w.tasks && step.id in w.st.records
        && BreaksContract(w.st.records[step.id].op, w.tasks[step.id], step.move))
  }

  /**
   A careful step neither stops a process in the middle of a reconciliation nor loses the
   reconciliation's result, and its driver keeps the contract on dispatches.
   */
  predicate Careful(w: World, step: Label) {
    && (step.StopProcess? || step.AbandonStart? ==> forall id | id in w.st.records :: !w.st.records[id].reconciling)
    && (step.RefuseOutcome? ==> step.id in w.tasks && w.tasks[step.id].kind.ApplyTask?)
    && (step.MoveTask? ==>
          step.id in w.tasks && step.id in w.st.records
          && !BreaksContract(w.st.records[step.id].op, w.tasks[step.id], step.move))
  }

  /**
   The reducer rejects what an executor appends exactly when the step restarts a reconciliation or
   dispatches out of turn.
   */
  lemma EveryStepAdvances(cfg: Config, w: World, step: Label, now: int, after: World)
    requires Sound(cfg, w) && Perform(cfg, w, step, now) == Some(after)
    ensures after.broken <==> BreaksJournal(w, step)
    ensures !after.broken ==> Advances(cfg, w, after)
    ensures Attended(w) && Careful(w, step) ==> !after.broken && Attended(after)
  {
    hide Sound, Attended, PerformMove, PerformWork, PerformAbandon, Append, AppendOperation, WorkList,
      ExecutorQuiescent, RetryAuthorizable, OpenAttempts, Invariant, Written, AllQuiescent;
    match step {
      case BeginRun => RunEventAccepted(cfg, w, RunStarted, now, after) by { JournalDecidesStart(cfg, w); }
      case CancelRun => RunEventAccepted(cfg, w, RunCancelled, now, after);
      case CompleteRun =>
        ExecutorQuiescentIsQuiescent(cfg, w.st.records);
        RunEventAccepted(cfg, w, RunCompleted, now, after);
      case PlanPass(phase, ids) => PlanPassAdvances(cfg, w, phase, ids, now, after);
      case DoWork(lease) =>
        DoWorkAdvances(cfg, w, lease, now, after);
        if Attended(w) { AttendedWorkIsAccepted(cfg, w); }
      case SkipLaunch => SkipLaunchAdvances(cfg, w, now, after);
      case AbandonStart(expired) => AbandonStartAdvances(cfg, w, expired, now, after);
      case Wait => WaitAdvances(cfg, w, now, after);
      case MoveTask(id, move) =>
        MovesNeedTasks(cfg, w, id, move, now);
        MoveTaskAdvances(cfg, w, id, move, now, after);
      case RefuseOutcome(id) => RefuseOutcomeAdvances(cfg, w, id, now, after);
      case StopProcess(reconcileOnly) => StopProcessAdvances(cfg, w, reconcileOnly, now, after);
      case AuthorizeRetryOf(id) => AuthorizeRetryAdvances(cfg, w, id, now, after);
    }
    assert !after.broken ==> Sound(cfg, after);
    UnbrokenWhenSound(cfg, after);
  }

  lemma MovesNeedTasks(cfg: Config, w: World, id: OperationID, move: TaskMove, now: int)
    requires Sound(cfg, w) && PerformMove(cfg, w, id, move, now).Some?
    ensures id in w.tasks && id in w.st.records && id in cfg.plan.operations
            && w.st.records[id].op == cfg.plan.operations[id]
  {
    hide TaskReport, AppendOperation, AfterMove, WorkSound, TaskInvariant;
    assert TaskSound(w.st.records, id, w.tasks[id], w.st.cancelled);
    OperationsAgree(cfg, w, id);
  }

  lemma UnbrokenWhenSound(cfg: Config, w: World)
    ensures Sound(cfg, w) ==> !w.broken
  {
  }

  lemma JournalDecidesStart(cfg: Config, w: World)
    requires Sound(cfg, w) && w.journal == []
    ensures Idle(w)
  {
    hide Invariant, Replay, WorkSound, TaskSound;
  }

  lemma AttendedWorkIsAccepted(cfg: Config, w: World)
    requires Sound(cfg, w) && Attended(w) && w.pending != []
    ensures !RestartsReconciliation(w, w.pending[0])
  {
    hide Core, WorkSound, TaskSound;
    assert w.pending[0] in w.pending;
  }

  lemma SkipLaunchAdvances(cfg: Config, w: World, now: int, after: World)
    requires Sound(cfg, w) && Perform(cfg, w, SkipLaunch, now) == Some(after)
    ensures Advances(cfg, w, after) && (Attended(w) ==> Attended(after))
  {
    hide Sound;
    TakeWork(cfg, w);
  }

  /** A run of executors from a first world: each step with the time at which it happens. */
  function Run(cfg: Config, start: World, steps: seq<(Label, int)>): Option<World> {
    if steps == [] then Some(start)
    else
      match Run(cfg, start, steps[..|steps| - 1])
      case None => None
      case Some(w) => Perform(cfg, w, steps[|steps| - 1].0, steps[|steps| - 1].1)
  }

  /** Every step of the run is careful. */
  predicate CarefulRun(cfg: Config, start: World, steps: seq<(Label, int)>) {
    steps == []
    || (&& CarefulRun(cfg, start, steps[..|steps| - 1])
        && var before := Run(cfg, start, steps[..|steps| - 1]);
           before.Some? && Careful(before.value, steps[|steps| - 1].0))
  }

  /** A process that has just opened a journal. */
  function OpenedWorld(journal: seq<Event>, st: RunState, clock: int, reconcileOnly: bool): World {
    World(journal, st, false, clock, [], map[], {}, {}, false, reconcileOnly, {})
  }

  predicate Configured(cfg: Config) {
    ValidIdentifier(cfg.runId) && cfg.maxAttempts >= 1
  }

  /** Any reducible journal of the run is a sound start, whoever wrote it. */
  lemma ReducibleJournalIsSound(cfg: Config, journal: seq<Event>, st: RunState, clock: int, reconcileOnly: bool)
    requires GoodPlan(cfg.plan) && Configured(cfg) && Replay(cfg.plan, journal) == Ok(st) && clock >= 1
    requires journal == [] || st.runId == cfg.runId
    ensures Sound(cfg, OpenedWorld(journal, st, clock, reconcileOnly))
    ensures (forall id :: id in st.records ==> !st.records[id].reconciling)
            <==> Attended(OpenedWorld(journal, st, clock, reconcileOnly))
  {
    hide GoodPlan, Invariant;
    ReducibleJournalsKeepInvariant(cfg.plan, journal);
    ReplayCounts(cfg.plan, journal, st);
  }

  lemma InitialWorldSound(cfg: Config)
    requires GoodPlan(cfg.plan) && Configured(cfg)
    ensures Sound(cfg, InitialWorld(cfg)) && Attended(InitialWorld(cfg))
  {
    hide GoodPlan, Invariant;
    PlanIdValid(cfg.plan);
    ReducibleJournalIsSound(cfg, [], InitialState(cfg.plan), 1, false);
  }

  lemma PlanIdValid(plan: Plan)
    requires GoodPlan(plan)
    ensures ValidIdentifier(plan.id)
  {
  }

  /**
   Writer and reducer agree: from any sound start, such as any reducible journal, the journal stays
   reducible exactly as long as no step restarts an open reconciliation or dispatches outside the
   contract, and a run of careful steps from a journal without open reconciliations never does either.
   */
  lemma {:induction false} ExecutorsKeepJournalReducible(cfg: Config, start: World, steps: seq<(Label, int)>, w: World)
    requires Sound(cfg, start) && Run(cfg, start, steps) == Some(w)
    ensures Reducible(cfg.plan, w.journal) <==> !w.broken
    ensures !w.broken ==> Sound(cfg, w)
    ensures Attended(start) && CarefulRun(cfg, start, steps) ==> !w.broken && Attended(w)
    decreases |steps|
  {
    hide Perform, Sound, Attended, Careful;
    if steps == [] {
      SoundIsReducible(cfg, w);
    } else {
      var front, last := steps[..|steps| - 1], steps[|steps| - 1];
      var before := Run(cfg, start, front).value;
      ExecutorsKeepJournalReducible(cfg, start, front, before);
      BrokenWorldsStop(cfg, before, last.0, last.1);
      EveryStepAdvances(cfg, before, last.0, last.1, w);
      if w.broken { BrokenIsIrreducible(cfg, before, last.0, last.1, w); } else { SoundIsReducible(cfg, w); }
    }
  }

  lemma SoundIsReducible(cfg: Config, w: World)
    requires Sound(cfg, w)
    ensures Reducible(cfg.plan, w.journal) && !w.broken
  {
  }

  lemma BrokenWorldsStop(cfg: Config, w: World, step: Label, now: int)
    ensures w.broken ==> Perform(cfg, w, step, now).None?
  {
  }

  lemma BrokenAppend(cfg: Config, w: World, id: OperationID, kind: EventKind, payload: Payload, now: int, after: World)
    requires Sound(cfg, w) && AppendOperation(cfg, w, id, kind, payload, now) == Some(after) && after.broken
    ensures !Reducible(cfg.plan, after.journal)
  {
    hide Step, Invariant, ValidEvent, WorkSound, TaskSound;
    var e := NextEvent(w, OperationEntry(cfg, cfg.plan.operations[id], kind, payload), now);
    assert Step(cfg.plan.id, w.st, e).Err? && after.journal == w.journal + [e];
    ReplayExtends(cfg.plan, w.journal, w.st, e);
  }

  lemma BrokenIsIrreducible(cfg: Config, w: World, step: Label, now: int, after: World)
    requires Sound(cfg, w) && Perform(cfg, w, step, now) == Some(after) && after.broken
    ensures !Reducible(cfg.plan, after.journal)
  {
    hide Sound, AppendOperation, WorkList, TaskReport, WorkReport, Reducible, RestartsReconciliation, BreaksContract;
    EveryStepAdvances(cfg, w, step, now, after);
    if step.DoWork? {
      TakeWork(cfg, w);
      var work, rest := w.pending[0], w.(pending := w.pending[1..]);
      var report := WorkReport(work, step.lease);
      BrokenAppend(cfg, rest, work.id, report.kind, report.payload, now,
                   AppendOperation(cfg, rest, work.id, report.kind, report.payload, now).value);
    } else {
      MovesNeedTasks(cfg, w, step.id, step.move, now);
      var report := TaskReport(cfg.plan.operations[step.id], w.tasks[step.id], step.move).value.report;
      BrokenAppend(cfg, w, step.id, report.kind, report.payload, now,
                   AppendOperation(cfg, w, step.id, report.kind, report.payload, now).value);
    }
  }
}
