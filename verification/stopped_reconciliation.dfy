/**
 One of the two ways in which an executor makes a journal irreducible: a process stops between
 the start of a reconciliation and its result, and the next one starts it again.
 */
module StoppedReconciliation {
  import opened Domain
  import opened Events
  import opened Reducer
  import opened ReducerSafety
  import opened DependencyOrder
  import opened Planning
  import opened Executor
  import opened Scheduler
  import opened SchedulerRuns
  import opened ExecutorSafety
  import opened SchedulerProgress

  /** An executor that opens a journal with an open reconciliation, whose lease is over, picks the operation up. */
  function Restart(id: OperationID, lease: Lease, now: int): seq<(Label, int)> {
    [(PlanPass(Batch, [id]), now), (DoWork(lease), now), (DoWork(lease), now)]
  }

  lemma OperationEventIsValid(cfg: Config, w: World, id: OperationID, report: Report, now: int)
    requires GoodPlan(cfg.plan) && ValidIdentifier(cfg.runId) && id in cfg.plan.operations && now != 0
    requires !RunLifecycle(report.kind) && !report.kind.UnknownKind? && ValidPayload(report.payload, report.kind)
    ensures ValidEvent(NextEvent(w, OperationEntry(cfg, cfg.plan.operations[id], report.kind, report.payload), now))
  {
    hide ValidPayload, ValidText;
  }

  lemma LaunchIsValid(work: Work, lease: Lease)
    requires (work.LaunchWork? && ValidLease(lease)) || (work.StartWork? && work.attempt != 0)
    ensures ValidPayload(WorkReport(work, lease).payload, WorkReport(work, lease).kind)
  {
    hide ValidLease;
  }

  /** A valid event is always appended: the writer does not ask the reducer. */
  lemma ValidWorkIsAppended(cfg: Config, w: World, lease: Lease, now: int)
    requires Sound(cfg, w) && w.pending != [] && w.clock <= now
    requires var work := w.pending[0]; (work.LaunchWork? && ValidLease(lease)) || (work.StartWork? && work.attempt != 0)
    ensures Perform(cfg, w, DoWork(lease), now).Some?
  {
    hide Sound, WorkReport, Append, ValidEvent, ValidLease, GoodPlan, Core;
    var work := w.pending[0];
    SoundBasics(cfg, w);
    TakeWork(cfg, w);
    KnownOperation(cfg, w, work.id);
    LaunchIsValid(work, lease);
    WorkConcernsOperation(work, lease);
    assert !WorkReport(work, lease).kind.UnknownKind? by { WorkIsKnown(work, lease); }
    var rest, report := w.(pending := w.pending[1..]), WorkReport(work, lease);
    OperationEventIsValid(cfg, rest, work.id, report, now);
    ValidAppendSucceeds(cfg, rest, OperationEntry(cfg, cfg.plan.operations[work.id], report.kind, report.payload), now);
  }

  lemma ValidAppendSucceeds(cfg: Config, w: World, entry: Entry, now: int)
    requires !w.broken && w.clock <= now && ValidEvent(NextEvent(w, entry, now))
    ensures Append(cfg, w, entry, now).Some?
  {
    hide Step, ValidEvent;
  }

  lemma WorkIsKnown(work: Work, lease: Lease)
    ensures !WorkReport(work, lease).kind.UnknownKind?
  {
  }

  lemma SoundBasics(cfg: Config, w: World)
    requires Sound(cfg, w)
    ensures Core(cfg, w) && GoodPlan(cfg.plan) && !w.broken && w.clock >= 1 && ValidIdentifier(cfg.runId)
  {
  }

  /**
   Whenever a reconciliation is open in a reducible journal and no lease of the operation is active,
   the next executor that picks the operation up makes the journal irreducible.
   */
  lemma RestartBreaksJournal(cfg: Config, journal: seq<Event>, st: RunState, clock: int, id: OperationID, lease: Lease)
    requires GoodPlan(cfg.plan) && Configured(cfg) && Replay(cfg.plan, journal) == Ok(st) && clock >= 1
    requires journal != [] && st.runId == cfg.runId && !st.completed
    requires id in st.records && st.records[id].reconciling && !st.records[id].leaseActive && ValidLease(lease)
    ensures var w := Run(cfg, OpenedWorld(journal, st, clock, false), Restart(id, lease, clock));
      w.Some? && w.value.broken && !Reducible(cfg.plan, w.value.journal)
  {
    hide Sound, Perform, Replay, GoodPlan, ValidLease, RecordInvariant;
    var w := OpenedWorld(journal, st, clock, false);
    ReducibleJournalIsSound(cfg, journal, st, clock, false);
    ReplayCounts(cfg.plan, journal, st);
    SoundHistory(cfg, w);
    var r := st.records[id];
    assert RecordInvariant(r);
    ReconcilingFacts(r);
    var launch := LaunchWork(id, ReconcileTask, r.attempt, r.ambiguous);
    assert Perform(cfg, w, PlanPass(Batch, [id]), clock) == Some(w.(pending := [launch])) by {
      PlansRestart(cfg, w, id);
    }
    var planned := w.(pending := [launch]);
    EveryStepAdvances(cfg, w, PlanPass(Batch, [id]), clock, planned);
    ValidWorkIsAppended(cfg, planned, lease, clock);
    var leased := Perform(cfg, planned, DoWork(lease), clock).value;
    assert leased.pending == [StartWork(id, ReconcileTask, r.attempt, r.ambiguous, lease)] && leased.clock == clock by {
      LaunchLeavesStart(cfg, planned, lease, clock, leased);
    }
    EveryStepAdvances(cfg, planned, DoWork(lease), clock, leased);
    assert id in leased.st.records && leased.st.records[id].reconciling by {
      LaunchKeepsReconciling(cfg, planned, lease, clock, leased);
    }
    ValidWorkIsAppended(cfg, leased, lease, clock);
    var last := Perform(cfg, leased, DoWork(lease), clock).value;
    EveryStepAdvances(cfg, leased, DoWork(lease), clock, last);
    RunsRestart(cfg, w, id, lease, clock);
    BrokenIsIrreducible(cfg, leased, DoWork(lease), clock, last);
  }

  lemma RunsRestart(cfg: Config, w: World, id: OperationID, lease: Lease, now: int)
    ensures var steps := Restart(id, lease, now);
      && steps[..2][..1] == steps[..1] && steps[..1][..0] == [] && steps[..3] == steps
      && Run(cfg, w, steps[..1]) == Perform(cfg, w, PlanPass(Batch, [id]), now)
      && Run(cfg, w, steps[..2])
         == (match Run(cfg, w, steps[..1]) case None => None case Some(a) => Perform(cfg, a, DoWork(lease), now))
      && Run(cfg, w, steps)
         == (match Run(cfg, w, steps[..2]) case None => None case Some(a) => Perform(cfg, a, DoWork(lease), now))
  {
    hide Perform;
    var steps := Restart(id, lease, now);
    assert steps[..2][..1] == steps[..1];
    assert steps[..1][..0] == [];
    assert Run(cfg, w, []) == Some(w);
  }

  lemma ReconcilingFacts(r: Record)
    requires RecordInvariant(r) && r.reconciling
    ensures r.reconcileRequired && r.attempt > 0
  {
  }

  lemma PlansRestart(cfg: Config, w: World, id: OperationID)
    requires Idle(w) && !w.broken && !w.failed && w.st.started && !w.st.completed
    requires id in w.st.records && w.st.records[id].reconcileRequired && !w.st.records[id].leaseActive
    requires w.reconciled == {} && w.deferred == {}
    ensures var r := w.st.records[id];
      Perform(cfg, w, PlanPass(Batch, [id]), w.clock)
      == Some(w.(pending := [LaunchWork(id, ReconcileTask, r.attempt, r.ambiguous)]))
  {
    assert WorkList(cfg, w, Batch, [id][1..], w.clock) == [];
    assert WorkList(cfg, w, Batch, [id], w.clock)
      == [LaunchWork(id, ReconcileTask, w.st.records[id].attempt, w.st.records[id].ambiguous)];
  }

  lemma LaunchLeavesStart(cfg: Config, w: World, lease: Lease, now: int, after: World)
    requires |w.pending| == 1 && w.pending[0].LaunchWork? && Perform(cfg, w, DoWork(lease), now) == Some(after)
    ensures var work := w.pending[0];
      after.pending == [StartWork(work.id, work.kind, work.attempt, work.wasAmbiguous, lease)] && after.clock == now
  {
    hide Append, WorkReport;
    var work := w.pending[0];
    var report := WorkReport(work, lease);
    var rest := w.(pending := []);
    assert w.pending[1..] == [];
    var appended := AppendOperation(cfg, rest, work.id, report.kind, report.payload, now).value;
    AppendChangesJournal(cfg, rest, OperationEntry(cfg, cfg.plan.operations[work.id], report.kind, report.payload), now,
                         appended);
  }

  lemma LaunchKeepsReconciling(cfg: Config, w: World, lease: Lease, now: int, after: World)
    requires Sound(cfg, w) && w.pending != [] && w.pending[0].LaunchWork? && !after.broken
    requires Perform(cfg, w, DoWork(lease), now) == Some(after)
    ensures var id := w.pending[0].id;
      id in w.st.records && id in after.st.records && after.st.records[id].reconciling == w.st.records[id].reconciling
  {
    hide Sound, Perform, Turned, OperationTransition, WorkDone, WorkSound, RecordInvariant;
    WorkFacts(cfg, w, lease, now, after);
    WorkPieces(cfg, w, lease, now, after);
    var id, e := w.pending[0].id, LastEvent(after);
    TurnedOwn(cfg, w, after, e);
    LaunchTurns(w.st.records[id], e, DependenciesPublished(w.st.records[id].op, w.st.records));
  }

  // Such a journal exists

  const OP := Operation("o", "t", ProviderRef("files", "1"), "copy", [], false)
  const EXAMPLE := Config(Plan("p", ["t"], map["o" := OP]), "run", 1)
  const LEASE := Lease("l", "host", 1, 2)

  function ExampleEntry(kind: EventKind, payload: Payload): Entry {
    OperationEntry(EXAMPLE, OP, kind, payload)
  }

  /** One attempt waits for the outside world; its reconciliation starts and its process stops. */
  function Entries(): seq<Entry> {
    [ RunEntry(EXAMPLE, RunStarted),
      ExampleEntry(LeaseAcquired, LeasePayload(LEASE)),
      ExampleEntry(AttemptStarted, AttemptPayload(1).(reason := Initial)),
      ExampleEntry(OperationWaitingExternal, AttemptPayload(1)),
      ExampleEntry(LeaseReleased, LeasePayload(LEASE)),
      ExampleEntry(LeaseAcquired, LeasePayload(LEASE)),
      ExampleEntry(ReconcileStarted, AttemptPayload(1).(reason := Reconcile)),
      ExampleEntry(LeaseExpired, LeasePayload(LEASE)) ]
  }

  function EventsOf(entries: seq<Entry>): seq<Event> {
    if entries == [] then []
    else EventsOf(entries[..|entries| - 1]) + [Event(SCHEMA_VERSION, |entries|, entries[|entries| - 1], 3)]
  }

  lemma EventsCount(entries: seq<Entry>)
    ensures |EventsOf(entries)| == |entries|
  {
  }

  /** The record of the example's operation after each of its events. */
  function RecordAfter(n: nat): Record {
    var ready := NewRecord(OP).(state := Ready);
    var leased := ready.(leaseActive := true, lease := LEASE);
    var running := StartAttempt(leased, 1);
    var waiting := ApplyResult(running, AttemptPayload(1), WaitingExternal, false);
    var released := waiting.(leaseActive := false);
    if n <= 1 then ready
    else if n == 2 then leased
    else if n == 3 then running
    else if n == 4 || n == 6 then waiting
    else if n == 5 then released
    else if n == 7 then waiting.(reconciling := true)
    else waiting.(reconciling := true, leaseActive := false)
  }

  function StateAfter(n: nat): RunState {
    RunState("run", true, false, false, n + 1, map["o" := RecordAfter(n)])
  }

  lemma ShortText()
    ensures ValidText("o") && ValidText("t") && ValidText("p") && ValidText("run") && ValidText("l")
            && ValidText("host")
  {
    Ascii("o"); Ascii("t"); Ascii("p"); Ascii("run"); Ascii("l"); Ascii("host");
  }

  predicate Printable(c: char) {
    '!' <= c <= '~'
  }

  lemma {:induction false} AsciiLength(text: string)
    requires forall i :: 0 <= i < |text| ==> Printable(text[i])
    ensures Utf8Bytes(text) == |text|
  {
    if text != "" { AsciiLength(text[1..]); }
  }

  lemma Ascii(text: string)
    requires 0 < |text| <= 256 && forall i :: 0 <= i < |text| ==> Printable(text[i])
    ensures ValidText(text)
  {
    AsciiLength(text);
    forall c | Printable(c) ensures !IsSpace(c) && !IsControl(c) { }
  }

  lemma ExampleEventIsValid(n: nat)
    requires n < 8
    ensures ValidEvent(Event(SCHEMA_VERSION, n + 1, Entries()[n], 3))
  {
    hide ValidText;
    ShortText();
  }

  lemma ExampleTransition(n: nat)
    requires 1 <= n < 8
    ensures OperationTransition(RecordAfter(n), Event(SCHEMA_VERSION, n + 1, Entries()[n], 3), true)
            == Some(RecordAfter(n + 1))
  {
  }

  lemma ExampleEntryFacts(n: nat)
    requires 1 <= n < 8
    ensures var entry := Entries()[n];
      entry.runId == "run" && entry.operationId == "o" && entry.targetId == "t" && !RunLifecycle(entry.kind)
  {
  }

  lemma SingleOperationStep(n: nat, entry: Entry, r: Record, next: Record)
    requires var e := Event(SCHEMA_VERSION, n + 1, entry, 3);
      ValidEvent(e) && OperationTransition(r, e, true) == Some(next)
    requires entry.runId == "run" && entry.operationId == "o" && entry.targetId == "t" && !RunLifecycle(entry.kind)
    requires r.op == OP && next.state != Planned
    ensures Step("p", RunState("run", true, false, false, n + 1, map["o" := r]), Event(SCHEMA_VERSION, n + 1, entry, 3))
            == Ok(RunState("run", true, false, false, n + 2, map["o" := next]))
  {
    hide ValidEvent, OperationTransition, DependenciesPublished, UpdateRecords;
    SingleRecord(r, next, Refreshes(entry.kind));
  }

  lemma ExampleEventIsAccepted(n: nat)
    requires 1 <= n < 8
    ensures Step("p", StateAfter(n), Event(SCHEMA_VERSION, n + 1, Entries()[n], 3)) == Ok(StateAfter(n + 1))
  {
    hide ValidEvent, OperationTransition, RecordAfter, Step;
    ExampleEventIsValid(n);
    ExampleTransition(n);
    ExampleEntryFacts(n);
    ExampleRecords(n);
    ExampleRecords(n + 1);
    SingleOperationStep(n, Entries()[n], RecordAfter(n), RecordAfter(n + 1));
  }

  lemma SingleRecord(r: Record, next: Record, refresh: bool)
    requires next.state != Planned
    ensures UpdateRecords(map["o" := r], "o", next, refresh) == map["o" := next]
    ensures DependenciesPublished(OP, map["o" := r])
  {
    assert map["o" := r]["o" := next] == map["o" := next];
    assert RefreshReady(map["o" := next]) == map["o" := next];
  }

  lemma ExampleRecords(n: nat)
    ensures RecordAfter(n).op == OP && RecordAfter(n).state != Planned
  {
  }

  lemma ExampleStart()
    ensures Step("p", InitialState(EXAMPLE.plan), Event(SCHEMA_VERSION, 1, Entries()[0], 3)) == Ok(StateAfter(1))
  {
    ExampleEventIsValid(0);
    hide ValidEvent;
    var records := InitialState(EXAMPLE.plan).records;
    assert DependenciesPublished(OP, records);
    assert RefreshReady(records) == map["o" := RecordAfter(1)];
  }

  lemma {:induction false} ExampleReplays(n: nat)
    requires 1 <= n <= 8
    ensures Replay(EXAMPLE.plan, EventsOf(Entries()[..n])) == Ok(StateAfter(n))
  {
    hide Step, RecordAfter, ValidText;
    ShortText();
    var entries := Entries();
    assert entries[..n][..n - 1] == entries[..n - 1];
    EventsCount(entries[..n]);
    EventsCount(entries[..n - 1]);
    var events := EventsOf(entries[..n]);
    var e := Event(SCHEMA_VERSION, n, entries[n - 1], 3);
    assert events == EventsOf(entries[..n - 1]) + [e];
    if n == 1 {
      assert EventsOf(entries[..0]) == [];
      ExampleStart();
      ReplayExtends(EXAMPLE.plan, [], InitialState(EXAMPLE.plan), e);
    } else {
      ExampleReplays(n - 1);
      ExampleEventIsAccepted(n - 1);
      ReplayExtends(EXAMPLE.plan, EventsOf(entries[..n - 1]), StateAfter(n - 1), e);
    }
  }

  lemma ExamplePlanIsGood()
    ensures GoodPlan(EXAMPLE.plan) && Configured(EXAMPLE) && ValidLease(LEASE)
  {
    ShortText();
    hide ValidText;
    assert Ranking(DependencyGraph(EXAMPLE.plan.operations), map["o" := 0]);
  }

  /** So the hypothesis that no reconciliation is open cannot be dropped: here is a reducible journal that breaks. */
  lemma OpenReconciliationsBreakJournals()
    ensures var journal := EventsOf(Entries());
      && Reducible(EXAMPLE.plan, journal)
      && var w := Run(EXAMPLE, OpenedWorld(journal, StateAfter(8), 3, false), Restart("o", LEASE, 3));
         w.Some? && w.value.broken && !Reducible(EXAMPLE.plan, w.value.journal)
  {
    hide Run, Replay, GoodPlan, ValidLease, ValidText;
    ExampleReplays(8);
    assert Entries()[..8] == Entries();
    EventsCount(Entries());
    ExamplePlanIsGood();
    RestartBreaksJournal(EXAMPLE, EventsOf(Entries()), StateAfter(8), 3, "o", LEASE);
  }
}
