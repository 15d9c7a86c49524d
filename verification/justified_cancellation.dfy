/**
 Why an executor cancels an operation that was never attempted: somewhere above it in the
 plan an attempted operation was rejected, was cancelled, or used up its attempts, for good.
 */
module JustifiedCancellation {
  import opened Domain
  import opened Events
  import opened Reducer
  import opened ReducerSafety
  import opened JournalHistory
  import opened DependencyOrder
  import opened Planning
  import opened Scheduler
  import opened SchedulerClosure
  import opened SchedulerRuns
  import opened ExecutorSafety

  /** Cancelled without an attempt in a run that was not cancelled: some dependency will never be published. */
  predicate CancelledForDependency(cfg: Config, records: Records, r: Record) {
    r.state == Cancelled && r.attempt == 0 ==> HasTerminalUnpublishedDependency(cfg, r.op, records)
  }

  ghost predicate AllJustlyCancelled(cfg: Config, w: World) {
    !w.st.cancelled ==> forall id :: id in w.st.records ==> CancelledForDependency(cfg, w.st.records, w.st.records[id])
  }

  /** A state without hope of publication is kept, whatever an executor does. */
  lemma HopelessnessPersists(cfg: Config, w: World, after: World, id: OperationID)
    requires Sound(cfg, w) && Written(cfg, w, after) && id in w.st.records && id in after.st.records
    requires TerminalUnpublished(cfg, w.st.records[id])
    ensures TerminalUnpublished(cfg, after.st.records[id])
  {
    hide Sound, Written, Turned, RunTurned, Used;
    WrittenExtends(cfg, w, after);
    if RunLifecycle(LastEvent(after).entry.kind) {
      RunEventTurns(cfg, w, after);
      TurnedHopeless(cfg, after.st.cancelled, w.st.records[id], after.st.records[id]);
    } else {
      OperationEventTurns(cfg, w, after);
      if id == LastEvent(after).entry.operationId {
        SoundHistory(cfg, w);
        OwnHopeless(cfg, w, after, LastEvent(after));
      } else {
        ChangedTurn(cfg, w, after, id);
        TurnedHopeless(cfg, true, w.st.records[id], after.st.records[id]);
      }
    }
  }

  lemma TurnedHopeless(cfg: Config, cancelled: bool, r: Record, next: Record)
    requires RunTurned(cancelled, r, next) && TerminalUnpublished(cfg, r)
    ensures TerminalUnpublished(cfg, next)
  {
  }

  lemma OwnHopeless(cfg: Config, w: World, after: World, e: Event)
    requires e.entry.operationId in w.st.records && e.entry.operationId in after.st.records
    requires Turned(cfg, w, after, e, w.st.records[e.entry.operationId], after.st.records[e.entry.operationId])
    requires RecordInvariants(w.st.records) && TerminalUnpublished(cfg, w.st.records[e.entry.operationId])
    ensures TerminalUnpublished(cfg, after.st.records[e.entry.operationId])
  {
    TurnedOwn(cfg, w, after, e);
    var r := w.st.records[e.entry.operationId];
    assert RecordInvariant(r);
    hide Turned, DependenciesPublished, Doomed, Applying, HistoryTransition, Meaningful;
    FinishedRecordTurns(cfg, w, r, e, DependenciesPublished(r.op, w.st.records));
  }

  /** In a final or failed state only leases, and the attempt of an applicable operation, are accepted. */
  lemma FinishedRecordTurns(cfg: Config, w: World, r: Record, e: Event, published: bool)
    requires RecordInvariant(r) && LawfulOperationEvent(cfg, w, r, e) && OperationTransition(r, e, published).Some?
    requires TerminalUnpublished(cfg, r)
    ensures SameProgress(r, OperationTransition(r, e, published).value)
  {
    hide Doomed, Applying, Used, HasTerminalUnpublishedDependency, LeaseTransition, ExplicitResultTransition,
      StatedResultTransition, ApplyResult;
    LeasesKeepProgress(r, e, published);
    ResultsNeedWork(r, e, published);
  }

  lemma DoomedForGood(cfg: Config, w: World, after: World, op: Operation)
    requires Sound(cfg, w) && Sound(cfg, after) && Written(cfg, w, after)
    requires HasTerminalUnpublishedDependency(cfg, op, w.st.records)
    ensures HasTerminalUnpublishedDependency(cfg, op, after.st.records)
  {
    hide Sound, Written, TerminalUnpublished;
    SameOperations(cfg, w, after);
    var d :| d in op.dependencies && (d !in w.st.records || TerminalUnpublished(cfg, w.st.records[d]));
    if d in w.st.records { HopelessnessPersists(cfg, w, after, d); }
    assert d !in after.st.records || TerminalUnpublished(cfg, after.st.records[d]);
  }

  /** An executor cancels an operation that was never attempted only below such a dependency. */
  lemma CancellingTransition(cfg: Config, w: World, r: Record, e: Event, published: bool)
    requires RecordInvariant(r) && LawfulOperationEvent(cfg, w, r, e) && OperationTransition(r, e, published).Some?
    requires HistoryTransition(r, OperationTransition(r, e, published).value, e)
    requires var next := OperationTransition(r, e, published).value; next.state == Cancelled && next.attempt == 0
    ensures (r.state == Cancelled && r.attempt == 0) || HasTerminalUnpublishedDependency(cfg, r.op, w.st.records)
  {
    hide RecordInvariant, Used, HasTerminalUnpublishedDependency, Applicable, Applying, Increment32;
    NeverAttempted(r);
    if r.state != Cancelled { UnattemptedCancellation(r, e, published); }
  }

  lemma NeverAttempted(r: Record)
    requires RecordInvariant(r)
    ensures r.attempt == 0 ==> (r.state == Planned || r.state == Ready || r.state == Cancelled) && !r.reconcileRequired
  {
  }

  lemma UnattemptedCancellation(r: Record, e: Event, published: bool)
    requires (r.state == Planned || r.state == Ready) && !r.reconcileRequired
    requires OperationTransition(r, e, published).Some? && OperationTransition(r, e, published).value.state == Cancelled
    ensures e.entry.kind.OperationCancelled?
  {
    LeasesKeepProgress(r, e, published);
    ResultsNeedWork(r, e, published);
    SchedulesEndElsewhere(r, e, published);
    AcceptedKinds(r, e, published);
    hide OperationTransition;
    if CallKind(e.entry.kind) { CallEffect(r, e, published); }
  }

  lemma SchedulesEndElsewhere(r: Record, e: Event, published: bool)
    requires OperationTransition(r, e, published).Some?
    ensures var k, next := e.entry.kind, OperationTransition(r, e, published).value;
      k.OperationReady? || k.AttemptStarted? || k.RetryAuthorized? ==> next.state == Ready || next.state == Running
  {
    hide LeaseTransition, ExplicitResultTransition, StatedResultTransition, ApplyResult;
  }

  lemma LeasesKeepProgress(r: Record, e: Event, published: bool)
    requires OperationTransition(r, e, published).Some?
    ensures LeaseKind(e.entry.kind) ==> SameProgress(r, OperationTransition(r, e, published).value)
  {
    hide OperationTransition;
    if LeaseKind(e.entry.kind) { LeaseEffect(r, e, published); }
  }

  lemma ResultsNeedWork(r: Record, e: Event, published: bool)
    requires r.state != Running && !r.reconcileRequired
    ensures var k := e.entry.kind; k.OperationResult? || k.ReconcileResult? || ExplicitResultKind(k) ==>
              OperationTransition(r, e, published).None?
  {
    hide LeaseTransition, ApplyResult;
  }

  lemma OwnCancellationKept(cfg: Config, w: World, after: World)
    requires Sound(cfg, w) && Sound(cfg, after) && Written(cfg, w, after) && !RunLifecycle(LastEvent(after).entry.kind)
    requires LastEvent(after).entry.operationId in w.st.records
             && LastEvent(after).entry.operationId in after.st.records
    requires CancelledForDependency(cfg, w.st.records, w.st.records[LastEvent(after).entry.operationId])
    ensures CancelledForDependency(cfg, after.st.records, after.st.records[LastEvent(after).entry.operationId])
  {
    WrittenExtends(cfg, w, after);
    hide Sound, Written, LawfulOperationEvent, HistoryTransition, Meaningful, OperationTransition,
      DependenciesPublished, RecordInvariant, HasTerminalUnpublishedDependency, Turned, LastEvent;
    var e := LastEvent(after);
    var id := e.entry.operationId;
    var r, next := w.st.records[id], after.st.records[id];
    OperationEventTurns(cfg, w, after);
    TurnedOwn(cfg, w, after, e);
    SoundRecord(cfg, w, id);
    SameOperation(cfg, w, after, id);
    if next.state == Cancelled && next.attempt == 0 {
      CancellingTransition(cfg, w, r, e, DependenciesPublished(r.op, w.st.records));
      DoomedForGood(cfg, w, after, r.op);
    }
  }

  lemma SameOperation(cfg: Config, w: World, after: World, id: OperationID)
    requires Sound(cfg, w) && Sound(cfg, after) && id in w.st.records && id in after.st.records
    ensures after.st.records[id].op == w.st.records[id].op
  {
    OperationsAgree(cfg, w, id);
    OperationsAgree(cfg, after, id);
  }

  lemma OtherCancellationKept(cfg: Config, w: World, after: World, id: OperationID)
    requires Sound(cfg, w) && Sound(cfg, after) && Written(cfg, w, after) && !RunLifecycle(LastEvent(after).entry.kind)
    requires id in w.st.records && id in after.st.records && id != LastEvent(after).entry.operationId
    requires CancelledForDependency(cfg, w.st.records, w.st.records[id])
    ensures CancelledForDependency(cfg, after.st.records, after.st.records[id])
  {
    WrittenExtends(cfg, w, after);
    hide Sound, Written, HasTerminalUnpublishedDependency, Turned, LastEvent, CancelRecord, Lawful, RunTurned;
    OperationEventTurns(cfg, w, after);
    ChangedTurn(cfg, w, after, id);
    RunTurnedOp(w.st.records[id], after.st.records[id]);
    if after.st.records[id].state == Cancelled && after.st.records[id].attempt == 0 {
      OperationEventsCancelOnlyTheirs(cfg, w, after, id);
      DoomedForGood(cfg, w, after, w.st.records[id].op);
    }
  }

  lemma RunTurnedOp(r: Record, next: Record)
    requires RunTurned(true, r, next)
    ensures next.op == r.op && next.attempt == r.attempt
  {
    RunTurnedFacts(true, r, next);
    hide RunTurned;
  }

  lemma OperationEventsCancelOnlyTheirs(cfg: Config, w: World, after: World, id: OperationID)
    requires after.journal != [] && LastEvent(after).entry.operationId in w.st.records
    requires LastEvent(after).entry.operationId in after.st.records
    requires var e := LastEvent(after);
      Turned(cfg, w, after, e, w.st.records[e.entry.operationId], after.st.records[e.entry.operationId])
    requires id in w.st.records && id in after.st.records && id != LastEvent(after).entry.operationId
    requires after.st.records[id].state == Cancelled
    ensures after.st.records[id] == w.st.records[id]
  {
    hide OperationTransition, HistoryTransition, LawfulOperationEvent, Meaningful, DependenciesPublished;
  }

  lemma CancellationKeptForOperation(cfg: Config, w: World, after: World)
    requires Sound(cfg, w) && Sound(cfg, after) && Written(cfg, w, after) && !RunLifecycle(LastEvent(after).entry.kind)
    requires AllJustlyCancelled(cfg, w)
    ensures AllJustlyCancelled(cfg, after)
  {
    WrittenExtends(cfg, w, after);
    SameOperations(cfg, w, after);
    OperationEventTurns(cfg, w, after);
    assert SameRun(w.st, after.st) by { TurnedOwn(cfg, w, after, LastEvent(after)); }
    hide Sound, Written, CancelledForDependency, Turned, Lawful, RunLifecycle;
    forall id | id in after.st.records && !after.st.cancelled
      ensures CancelledForDependency(cfg, after.st.records, after.st.records[id])
    {
      assert CancelledForDependency(cfg, w.st.records, w.st.records[id]);
      if id == LastEvent(after).entry.operationId { OwnCancellationKept(cfg, w, after); }
      else { OtherCancellationKept(cfg, w, after, id); }
    }
  }

  lemma CancellationKeptByRunEvent(cfg: Config, w: World, after: World, r: Record, next: Record)
    requires Sound(cfg, w) && Sound(cfg, after) && Written(cfg, w, after)
    requires CancelledForDependency(cfg, w.st.records, r) && RunTurned(false, r, next)
    ensures CancelledForDependency(cfg, after.st.records, next)
  {
    hide Sound, Written, HasTerminalUnpublishedDependency, RunTurned;
    PromotedOrSame(r, next);
    if next.state == Cancelled && next.attempt == 0 { DoomedForGood(cfg, w, after, r.op); }
  }

  lemma PromotedOrSame(r: Record, next: Record)
    requires RunTurned(false, r, next)
    ensures next.op == r.op && (next.state == Cancelled ==> next == r)
  {
  }

  lemma CancellationKept(cfg: Config, w: World, after: World)
    requires Sound(cfg, w) && Sound(cfg, after) && Written(cfg, w, after) && AllJustlyCancelled(cfg, w)
    ensures AllJustlyCancelled(cfg, after)
  {
    WrittenExtends(cfg, w, after);
    if !RunLifecycle(LastEvent(after).entry.kind) { CancellationKeptForOperation(cfg, w, after); }
    else {
      RunEventTurns(cfg, w, after);
      hide Sound, Written, HasTerminalUnpublishedDependency, RunTurned, Lawful, RunLifecycle, CancelledForDependency;
      SameOperations(cfg, w, after);
      forall id | id in after.st.records && !after.st.cancelled
        ensures CancelledForDependency(cfg, after.st.records, after.st.records[id])
      {
        CancellationKeptByRunEvent(cfg, w, after, w.st.records[id], after.st.records[id]);
      }
    }
  }

  lemma {:induction false} RunsCancelJustly(cfg: Config, steps: seq<(Label, int)>, w: World)
    requires GoodPlan(cfg.plan) && Configured(cfg) && Run(cfg, InitialWorld(cfg), steps) == Some(w) && !w.broken
    ensures Sound(cfg, w) && AllJustlyCancelled(cfg, w)
    decreases |steps|
  {
    hide Perform, Sound, GoodPlan, Written, WrittenFootprint, HasTerminalUnpublishedDependency;
    InitialWorldSound(cfg);
    if steps != [] {
      var front, last := steps[..|steps| - 1], steps[|steps| - 1];
      var before := Run(cfg, InitialWorld(cfg), front).value;
      BrokenWorldsStop(cfg, before, last.0, last.1);
      RunsCancelJustly(cfg, front, before);
      StepCases(cfg, before, last.0, last.1, w);
      if Written(cfg, before, w) { CancellationKept(cfg, before, w); }
    }
  }

  /**
   A dependency below which the operation was cancelled: it was attempted, or cancelled for the same kind
   of reason.
   */
  lemma HopelessDependency(cfg: Config, records: Records, rank: map<OperationID, nat>, id: OperationID)
    returns (d: OperationID)
    requires RecordsOf(cfg.plan, records) && RecordInvariants(records)
             && Ranking(DependencyGraph(cfg.plan.operations), rank)
    requires id in records && CancelledForDependency(cfg, records, records[id])
    requires records[id].state == Cancelled && records[id].attempt == 0
    ensures d in records && d in cfg.plan.operations[id].dependencies && rank.Keys == records.Keys && rank[d] < rank[id]
    ensures TerminalUnpublished(cfg, records[d]) && (records[d].attempt == 0 ==> records[d].state == Cancelled)
  {
    hide RecordInvariant, Used, TerminalUnpublished;
    d :| d in records[id].op.dependencies && (d !in records || TerminalUnpublished(cfg, records[d]));
    assert d in DependencyGraph(cfg.plan.operations)[id];
    assert d in DependencyGraph(cfg.plan.operations) && rank[d] < rank[id];
    HopelessUnattempted(cfg, records[d]);
  }

  lemma HopelessUnattempted(cfg: Config, r: Record)
    requires RecordInvariant(r) && TerminalUnpublished(cfg, r)
    ensures r.attempt == 0 ==> r.state == Cancelled
  {
    hide Used;
    NeverAttempted(r);
  }

  lemma {:induction false} ChainOfCancellations(cfg: Config, records: Records, rank: map<OperationID, nat>,
                                                id: OperationID)
    returns (chain: seq<OperationID>)
    requires RecordsOf(cfg.plan, records) && RecordInvariants(records)
             && Ranking(DependencyGraph(cfg.plan.operations), rank)
    requires forall j :: j in records ==> CancelledForDependency(cfg, records, records[j])
    requires id in records && rank.Keys == records.Keys && records[id].state == Cancelled && records[id].attempt == 0
    ensures DependencyChain(cfg.plan, chain) && |chain| >= 2 && chain[0] == id
    ensures var last := chain[|chain| - 1]; records[last].attempt > 0 && TerminalUnpublished(cfg, records[last])
    decreases rank[id]
  {
    hide RecordInvariants, TerminalUnpublished, CancelledForDependency, Ranking;
    var d := HopelessDependency(cfg, records, rank, id);
    if records[d].attempt > 0 { chain := [id, d]; }
    else {
      chain := ChainOfCancellations(cfg, records, rank, d);
      chain := [id] + chain;
    }
  }

  /**
   Justified cancellation: in a run that was not cancelled, every cancelled operation without an
   attempt stands at the top of a chain of dependencies that ends in an attempted operation which
   was rejected, was cancelled, or has failed for good.
   */
  lemma CancellationsAreJustified(cfg: Config, steps: seq<(Label, int)>, w: World, id: OperationID)
    returns (chain: seq<OperationID>)
    requires GoodPlan(cfg.plan) && Configured(cfg) && Run(cfg, InitialWorld(cfg), steps) == Some(w) && !w.broken
    requires !w.st.cancelled && id in w.st.records && w.st.records[id].state == Cancelled
             && w.st.records[id].attempt == 0
    ensures DependencyChain(cfg.plan, chain) && |chain| >= 2 && chain[0] == id
    ensures var last := chain[|chain| - 1];
      last in w.st.records && w.st.records[last].attempt > 0 && TerminalUnpublished(cfg, w.st.records[last])
  {
    hide Run, Sound, TerminalUnpublished, CancelledForDependency, Invariant, GoodPlan, Replay;
    RunsCancelJustly(cfg, steps, w);
    SoundReplay(cfg, w);
    chain := JustifyingChain(cfg, w.st, id);
  }

  lemma JustifyingChain(cfg: Config, st: RunState, id: OperationID) returns (chain: seq<OperationID>)
    requires GoodPlan(cfg.plan) && Invariant(cfg.plan, st) && id in st.records
    requires forall j :: j in st.records ==> CancelledForDependency(cfg, st.records, st.records[j])
    requires st.records[id].state == Cancelled && st.records[id].attempt == 0
    ensures DependencyChain(cfg.plan, chain) && |chain| >= 2 && chain[0] == id
    ensures var last := chain[|chain| - 1];
      last in st.records && st.records[last].attempt > 0 && TerminalUnpublished(cfg, st.records[last])
  {
    var rank :| Ranking(DependencyGraph(cfg.plan.operations), rank);
    assert rank.Keys == DependencyGraph(cfg.plan.operations).Keys == st.records.Keys;
    hide TerminalUnpublished, CancelledForDependency, Ranking, RecordInvariants, CancelledInvariants, ExactFrontier;
    chain := ChainOfCancellations(cfg, st.records, rank, id);
  }

  /** And that operation stays so in every continuation of the run. */
  lemma {:induction false} HopelessForever(cfg: Config, start: World, steps: seq<(Label, int)>, w: World,
                                           id: OperationID)
    requires Sound(cfg, start) && Run(cfg, start, steps) == Some(w) && !w.broken
    requires id in start.st.records && TerminalUnpublished(cfg, start.st.records[id])
    ensures Sound(cfg, w) && id in w.st.records && TerminalUnpublished(cfg, w.st.records[id])
    decreases |steps|
  {
    hide Perform, Sound, Written, TerminalUnpublished, WrittenFootprint;
    if steps != [] {
      var front, last := steps[..|steps| - 1], steps[|steps| - 1];
      var before := Run(cfg, start, front).value;
      BrokenWorldsStop(cfg, before, last.0, last.1);
      HopelessForever(cfg, start, front, before, id);
      StepCases(cfg, before, last.0, last.1, w);
      SameOperations(cfg, before, w);
      if Written(cfg, before, w) { HopelessnessPersists(cfg, before, w, id); }
    }
  }
}
