/** The retry budget that all executors of a run share. */
module RetryBudget {
  import opened Domain
  import opened Events
  import opened Reducer
  import opened ReducerSafety
  import opened JournalHistory
  import opened Planning
  import opened Scheduler
  import opened SchedulerRuns
  import opened ExecutorSafety

  function CountOf(events: seq<Event>, kind: EventKind, id: OperationID): nat {
    if events == [] then 0
    else
      var last := events[|events| - 1].entry;
      CountOf(events[..|events| - 1], kind, id) + if last.kind == kind && last.operationId == id then 1 else 0
  }

  lemma CountExtends(events: seq<Event>, e: Event, kind: EventKind, id: OperationID)
    ensures CountOf(events + [e], kind, id)
            == CountOf(events, kind, id) + if e.entry.kind == kind && e.entry.operationId == id then 1 else 0
  {
    assert (events + [e])[..|events|] == events;
  }

  /**
   The attempts that count never exceed the budget and the authorizations; a next attempt that needs no
   failure fits too.
   */
  predicate WithinBudget(maxAttempts: Uint32, authorized: nat, r: Record) {
    && r.blockedAttempts <= r.attempt
    && r.attempt - r.blockedAttempts <= maxAttempts + authorized
    && (r.state == Planned || r.state == Ready || r.state == Blocked ==>
        r.attempt - r.blockedAttempts < maxAttempts + authorized)
  }

  ghost predicate AllWithinBudget(cfg: Config, w: World) {
    forall id :: id in w.st.records ==>
      WithinBudget(cfg.maxAttempts, CountOf(w.journal, RetryAuthorized, id), w.st.records[id])
  }

  /** Without underflow, the difference that the executor compares is the number of attempts that were not blocked. */
  lemma UsedIsDifference(r: Record)
    requires RecordInvariant(r)
    ensures Used(r) == r.attempt - r.blockedAttempts
  {
  }

  /** How an event changes the counters: an attempt adds one, a blocked result takes it back. */
  predicate CountersTurn(r: Record, next: Record, e: Event) {
    var k := e.entry.kind;
    if k.AttemptStarted? then
      next.attempt == r.attempt + 1 && next.blockedAttempts == r.blockedAttempts && next.state == Running
    else
      && next.attempt == r.attempt
      && (next.blockedAttempts == r.blockedAttempts || next.blockedAttempts == r.blockedAttempts + 1)
      && (next.state == Blocked && r.state != Blocked ==> next.blockedAttempts == r.blockedAttempts + 1)
      && (next.blockedAttempts != r.blockedAttempts ==> next.state == Blocked)
      && (next.state == Ready && r.state != Ready ==> k.RetryAuthorized?)
      && (next.state == Planned ==> r.state == Planned)
  }

  lemma ExplicitCounters(r: Record, e: Event)
    requires ExplicitResultKind(e.entry.kind) && OperationTransition(r, e, false).Some?
    ensures CountersTurn(r, OperationTransition(r, e, false).value, e)
  {
    assert OperationTransition(r, e, false) == ExplicitResultTransition(r, e);
    var next := ExplicitResultTransition(r, e).value;
    hide OperationTransition;
    assert next.state == ExplicitResultState(e.entry.kind) && next.attempt == r.attempt
           && next.blockedAttempts == r.blockedAttempts;
  }

  lemma StatedCounters(r: Record, e: Event)
    requires RecordInvariant(r) && Meaningful(e.entry.payload, e.entry.kind) && OperationTransition(r, e, false).Some?
    requires e.entry.kind.OperationResult? || e.entry.kind.ReconcileResult?
    ensures CountersTurn(r, OperationTransition(r, e, false).value, e)
  {
    var next := OperationTransition(r, e, false).value;
    assert next.state == e.entry.payload.state && next.attempt == r.attempt;
  }

  lemma LeaseCounters(r: Record, e: Event)
    requires LeaseKind(e.entry.kind) && OperationTransition(r, e, false).Some?
    ensures CountersTurn(r, OperationTransition(r, e, false).value, e)
  {
    hide OperationTransition;
    LeaseEffect(r, e, false);
  }

  lemma CallCounters(r: Record, e: Event)
    requires CallKind(e.entry.kind) && OperationTransition(r, e, false).Some?
    ensures CountersTurn(r, OperationTransition(r, e, false).value, e)
  {
    hide OperationTransition;
    CallEffect(r, e, false);
  }

  lemma ScheduleCounters(r: Record, e: Event, published: bool)
    requires OperationTransition(r, e, published).Some?
    requires HistoryTransition(r, OperationTransition(r, e, published).value, e)
    requires var k := e.entry.kind;
      k.OperationReady? || k.OperationCancelled? || k.RetryAuthorized? || k.AttemptStarted?
    ensures CountersTurn(r, OperationTransition(r, e, published).value, e)
  {
    assert OperationTransition(r, e, published).value.blockedAttempts == r.blockedAttempts;
  }

  lemma TurnedCounters(r: Record, e: Event, published: bool)
    requires RecordInvariant(r) && OperationTransition(r, e, published).Some?
    requires HistoryTransition(r, OperationTransition(r, e, published).value, e)
             && Meaningful(e.entry.payload, e.entry.kind)
    ensures CountersTurn(r, OperationTransition(r, e, published).value, e)
  {
    hide OperationTransition, RecordInvariant, HistoryTransition, Meaningful, CountersTurn;
    var k := e.entry.kind;
    if !k.AttemptStarted? { IndifferentToDependencies(r, e, published); AcceptedKinds(r, e, published); }
    if k.OperationReady? || k.OperationCancelled? || k.RetryAuthorized? || k.AttemptStarted? {
      ScheduleCounters(r, e, published);
    }
    else if LeaseKind(k) { LeaseCounters(r, e); }
    else if ExplicitResultKind(k) { ExplicitCounters(r, e); }
    else if k.OperationResult? || k.ReconcileResult? { StatedCounters(r, e); }
    else { CallCounters(r, e); }
  }

  lemma OwnBudget(cfg: Config, w: World, e: Event, r: Record, next: Record, authorized: nat)
    requires RecordInvariant(r) && CountersTurn(r, next, e) && LawfulOperationEvent(cfg, w, r, e)
    requires RecordInvariant(next) && WithinBudget(cfg.maxAttempts, authorized, r)
    ensures WithinBudget(cfg.maxAttempts, authorized + if e.entry.kind.RetryAuthorized? then 1 else 0, next)
  {
    UsedIsDifference(r);
    hide Doomed, Applying, Interrupted;
  }

  lemma OwnBudgetAfter(cfg: Config, w: World, after: World)
    requires Sound(cfg, w) && Sound(cfg, after) && Written(cfg, w, after) && !RunLifecycle(LastEvent(after).entry.kind)
    requires var id := LastEvent(after).entry.operationId;
      && id in w.st.records && id in after.st.records
      && WithinBudget(cfg.maxAttempts, CountOf(w.journal, RetryAuthorized, id), w.st.records[id])
    ensures var id := LastEvent(after).entry.operationId;
      WithinBudget(cfg.maxAttempts, CountOf(after.journal, RetryAuthorized, id), after.st.records[id])
  {
    hide Sound, Written, Turned, WithinBudget, RecordInvariant, CountOf, Lawful, RunLifecycle, LastEvent;
    WrittenExtends(cfg, w, after);
    var e := LastEvent(after);
    var authorized := CountOf(w.journal, RetryAuthorized, e.entry.operationId);
    CountExtends(w.journal, e, RetryAuthorized, e.entry.operationId);
    OperationEventTurns(cfg, w, after);
    SoundRecord(cfg, w, e.entry.operationId);
    SoundRecord(cfg, after, e.entry.operationId);
    TurnedBudget(cfg, w, after, e, authorized);
  }

  lemma OtherBudgetAfter(cfg: Config, w: World, after: World, id: OperationID)
    requires Sound(cfg, w) && Written(cfg, w, after) && id in w.st.records && id in after.st.records
             && after.journal != []
    requires RunLifecycle(LastEvent(after).entry.kind) || id != LastEvent(after).entry.operationId
    requires WithinBudget(cfg.maxAttempts, CountOf(w.journal, RetryAuthorized, id), w.st.records[id])
    ensures WithinBudget(cfg.maxAttempts, CountOf(after.journal, RetryAuthorized, id), after.st.records[id])
  {
    hide Sound, Written, RunTurned, WithinBudget, CountOf, Lawful, RunLifecycle, LastEvent;
    WrittenExtends(cfg, w, after);
    OtherRecordTurns(cfg, w, after, id);
    CountExtends(w.journal, LastEvent(after), RetryAuthorized, id);
    OtherBudget(cfg.maxAttempts, CountOf(w.journal, RetryAuthorized, id), w.st.records[id], after.st.records[id]);
  }

  lemma WrittenKeepsBudget(cfg: Config, w: World, after: World)
    requires Sound(cfg, w) && Sound(cfg, after) && Written(cfg, w, after) && AllWithinBudget(cfg, w)
    ensures AllWithinBudget(cfg, after)
  {
    hide Sound, Written, WithinBudget, CountOf, Lawful, Extends;
    WrittenExtends(cfg, w, after);
    SameOperations(cfg, w, after);
    forall id | id in after.st.records
      ensures WithinBudget(cfg.maxAttempts, CountOf(after.journal, RetryAuthorized, id), after.st.records[id])
    {
      if !RunLifecycle(LastEvent(after).entry.kind) && id == LastEvent(after).entry.operationId {
        OwnBudgetAfter(cfg, w, after);
      }
      else { OtherBudgetAfter(cfg, w, after, id); }
    }
  }

  lemma TurnedBudget(cfg: Config, w: World, after: World, e: Event, authorized: nat)
    requires e.entry.operationId in w.st.records && e.entry.operationId in after.st.records
    requires Turned(cfg, w, after, e, w.st.records[e.entry.operationId], after.st.records[e.entry.operationId])
    requires RecordInvariant(w.st.records[e.entry.operationId])
             && RecordInvariant(after.st.records[e.entry.operationId])
    requires WithinBudget(cfg.maxAttempts, authorized, w.st.records[e.entry.operationId])
    ensures WithinBudget(cfg.maxAttempts, authorized + if e.entry.kind.RetryAuthorized? then 1 else 0,
                         after.st.records[e.entry.operationId])
  {
    hide Turned, LawfulOperationEvent, OperationTransition, HistoryTransition, Meaningful, WithinBudget,
      RecordInvariant, CountersTurn, DependenciesPublished;
    var r, next := w.st.records[e.entry.operationId], after.st.records[e.entry.operationId];
    TurnedOwn(cfg, w, after, e);
    TurnedCounters(r, e, DependenciesPublished(r.op, w.st.records));
    OwnBudget(cfg, w, e, r, next, authorized);
  }

  lemma OtherBudget(maxAttempts: Uint32, authorized: nat, r: Record, next: Record)
    requires WithinBudget(maxAttempts, authorized, r) && RunTurned(true, r, next)
    ensures WithinBudget(maxAttempts, authorized, next)
  {
    RunTurnedFacts(true, r, next);
    hide RunTurned;
  }

  /**
   The retry budget: over all processes that share one limit, an operation's attempts that were not
   blocked never exceed the limit by more than the retries authorized for it, and the 32-bit
   difference that the executor compares with the limit never underflows.
   */
  lemma {:induction false} RetriesStayWithinBudget(cfg: Config, steps: seq<(Label, int)>, w: World)
    requires GoodPlan(cfg.plan) && Configured(cfg) && Run(cfg, InitialWorld(cfg), steps) == Some(w) && !w.broken
    ensures Sound(cfg, w) && AllWithinBudget(cfg, w)
    ensures forall id :: id in w.st.records ==>
              && Used(w.st.records[id]) == w.st.records[id].attempt - w.st.records[id].blockedAttempts
              && Used(w.st.records[id]) <= cfg.maxAttempts + CountOf(w.journal, RetryAuthorized, id)
    decreases |steps|
  {
    hide Perform, Sound, GoodPlan, Written, WrittenFootprint, Used, RecordInvariant, RecordHistory;
    InitialWorldSound(cfg);
    if steps != [] {
      var front, last := steps[..|steps| - 1], steps[|steps| - 1];
      var before := Run(cfg, InitialWorld(cfg), front).value;
      BrokenWorldsStop(cfg, before, last.0, last.1);
      RetriesStayWithinBudget(cfg, front, before);
      StepCases(cfg, before, last.0, last.1, w);
      if Written(cfg, before, w) { WrittenKeepsBudget(cfg, before, w); }
    }
    SoundHistory(cfg, w);
    forall id | id in w.st.records
      ensures Used(w.st.records[id]) == w.st.records[id].attempt - w.st.records[id].blockedAttempts
    {
      assert RecordInvariant(w.st.records[id]);
      UsedIsDifference(w.st.records[id]);
    }
  }
}
