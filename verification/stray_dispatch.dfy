/**
 The other way in which an executor makes a journal irreducible: its task records every
 dispatch that a driver reports, also one outside an apply call of a side-effecting operation.
 */
module StrayDispatch {
  import opened Domain
  import opened Events
  import opened Reducer
  import opened Planning
  import opened Executor
  import opened Scheduler
  import opened SchedulerClosure
  import opened SchedulerRuns
  import opened ExecutorSafety
  import opened StoppedReconciliation

  lemma DispatchIsWritten(cfg: Config, w: World, id: OperationID, attempt: Uint32, now: int)
    requires Sound(cfg, w) && id in cfg.plan.operations && w.clock <= now && attempt > 0
    ensures AppendOperation(cfg, w, id, SideEffectDispatched, AttemptPayload(attempt), now).Some?
  {
    hide Sound, Append, ValidEvent, GoodPlan, ValidText, ValidPayload;
    SoundBasics(cfg, w);
    var payload := AttemptPayload(attempt);
    DispatchPayloadIsValid(attempt);
    OperationEventIsValid(cfg, w, id, Report(SideEffectDispatched, payload), now);
    ValidAppendSucceeds(cfg, w, OperationEntry(cfg, cfg.plan.operations[id], SideEffectDispatched, payload), now);
  }

  lemma DispatchIsAppended(cfg: Config, w: World, id: OperationID, now: int)
    requires Sound(cfg, w) && w.pending == [] && id in w.tasks && w.clock <= now
    requires var t := w.tasks[id]; t.started && !t.dispatched && !t.settled
    ensures Perform(cfg, w, MoveTask(id, DispatchSideEffect), now).Some?
  {
    hide Sound, AppendOperation, AttemptPayload, TaskInvariant;
    RunningTask(cfg, w, id);
    AttemptedTask(cfg, w, id);
    DispatchIsWritten(cfg, w, id, w.tasks[id].attempt, now);
    assert !w.broken by { SoundBasics(cfg, w); }
  }

  lemma DispatchPayloadIsValid(attempt: Uint32)
    requires attempt > 0
    ensures ValidPayload(AttemptPayload(attempt), SideEffectDispatched)
  {
  }

  /**
   Whenever a started task outside the contract has not dispatched yet, a dispatch is appended and breaks
   the journal.
   */
  lemma StrayDispatchBreaksJournal(cfg: Config, w: World, id: OperationID, now: int)
    requires Sound(cfg, w) && w.pending == [] && id in w.tasks && id in w.st.records && w.clock <= now
    requires var t := w.tasks[id]; t.started && !t.dispatched && !t.settled
    requires BreaksContract(w.st.records[id].op, w.tasks[id], DispatchSideEffect)
    ensures var after := Perform(cfg, w, MoveTask(id, DispatchSideEffect), now);
      after.Some? && after.value.broken && !Reducible(cfg.plan, after.value.journal)
  {
    hide Sound, Perform, BreaksContract;
    DispatchIsAppended(cfg, w, id, now);
    var after := Perform(cfg, w, MoveTask(id, DispatchSideEffect), now).value;
    EveryStepAdvances(cfg, w, MoveTask(id, DispatchSideEffect), now, after);
    BrokenIsIrreducible(cfg, w, MoveTask(id, DispatchSideEffect), now, after);
  }

  lemma AttemptedTask(cfg: Config, w: World, id: OperationID)
    requires Sound(cfg, w) && id in w.tasks
    ensures w.tasks[id].attempt > 0
  {
    hide Sound;
    RunningTask(cfg, w, id);
  }

  // Such a run exists

  /** One operation without side effects is applied, and its driver reports a dispatch. */
  function Steps(): seq<(Label, int)> {
    [ (BeginRun, 3),
      (PlanPass(Batch, ["o"]), 3),
      (DoWork(LEASE), 3),
      (DoWork(LEASE), 3),
      (MoveTask("o", ProviderStarts), 3),
      (MoveTask("o", DispatchSideEffect), 3) ]
  }

  const START := StartWork("o", ApplyTask, 1, false, LEASE)
  const PROVIDER_STARTED := ExampleEntry(ProviderProcessStarted, AttemptPayload(1))

  function ProviderRecord(): Record {
    RecordAfter(3).(providerStarted := true)
  }

  /** The example after so many of its steps. */
  function WorldAfter(n: nat): World {
    var empty := InitialWorld(EXAMPLE);
    var begun := empty.(journal := EventsOf(Entries()[..1]), st := StateAfter(1), clock := 3);
    if n == 0 then empty
    else if n == 1 then begun
    else if n == 2 then begun.(pending := [LaunchWork("o", ApplyTask, 1, false)])
    else if n == 3 then begun.(journal := EventsOf(Entries()[..2]), st := StateAfter(2), pending := [START])
    else
      var running := begun.(journal := EventsOf(Entries()[..3]), st := StateAfter(3),
                            tasks := map["o" := NewTask(START)]);
      if n == 4 then running
      else running.(journal := running.journal + [Event(SCHEMA_VERSION, 4, PROVIDER_STARTED, 3)],
                    st := RunState("run", true, false, false, 5, map["o" := ProviderRecord()]),
                    tasks := map["o" := NewTask(START).(prepared := true, started := true)])
  }

  /** The journals of the example. */
  lemma Journals(n: nat)
    requires n < 4
    ensures |EventsOf(Entries()[..n])| == n
    ensures EventsOf(Entries()[..n + 1]) == EventsOf(Entries()[..n]) + [Event(SCHEMA_VERSION, n + 1, Entries()[n], 3)]
  {
    EventsCount(Entries()[..n]);
    assert Entries()[..n + 1][..n] == Entries()[..n];
  }

  lemma Begins()
    ensures Perform(EXAMPLE, WorldAfter(0), BeginRun, 3) == Some(WorldAfter(1))
  {
    hide ValidEvent, Step, StateAfter;
    ExampleStart();
    ExampleEventIsValid(0);
    Journals(0);
    assert EventsOf(Entries()[..0]) == [];
  }

  lemma Plans()
    ensures Perform(EXAMPLE, WorldAfter(1), PlanPass(Batch, ["o"]), 3) == Some(WorldAfter(2))
  {
    var w := WorldAfter(1);
    assert WorkList(EXAMPLE, w, Batch, ["o"][1..], 3) == [];
    assert WorkList(EXAMPLE, w, Batch, ["o"], 3) == [LaunchWork("o", ApplyTask, 1, false)];
  }

  lemma AcceptedAppend(w: World, entry: Entry, st: RunState)
    requires !w.broken && w.clock <= 3
    requires var e := NextEvent(w, entry, 3); ValidEvent(e) && Step("p", w.st, e) == Ok(st)
    ensures Append(EXAMPLE, w, entry, 3)
            == Some(w.(journal := w.journal + [NextEvent(w, entry, 3)], st := st, clock := 3))
  {
    hide ValidEvent, Step;
  }

  /** The next event of the example, appended to whatever the process holds besides. */
  lemma AppendsEntry(n: nat, w: World)
    requires 1 <= n < 4 && w.journal == EventsOf(Entries()[..n]) && w.st == StateAfter(n) && !w.broken && w.clock == 3
    ensures Append(EXAMPLE, w, Entries()[n], 3)
            == Some(w.(journal := EventsOf(Entries()[..n + 1]), st := StateAfter(n + 1), clock := 3))
  {
    hide ValidEvent, Step, StateAfter, EventsOf;
    ExampleEventIsAccepted(n);
    ExampleEventIsValid(n);
    Journals(n);
    AcceptedAppend(w, Entries()[n], StateAfter(n + 1));
  }

  lemma Launches()
    ensures Perform(EXAMPLE, WorldAfter(2), DoWork(LEASE), 3) == Some(WorldAfter(3))
  {
    hide Append, StateAfter, EventsOf;
    var w := WorldAfter(2);
    assert w.pending[1..] == [] && [START] + [] == [START];
    AppendsEntry(1, w.(pending := w.pending[1..]));
    assert OperationEntry(EXAMPLE, EXAMPLE.plan.operations["o"], LeaseAcquired, LeasePayload(LEASE)) == Entries()[1];
  }

  lemma Starts()
    ensures Perform(EXAMPLE, WorldAfter(3), DoWork(LEASE), 3) == Some(WorldAfter(4))
  {
    hide Append, StateAfter, EventsOf;
    var w := WorldAfter(3);
    AppendsEntry(2, w.(pending := w.pending[1..]));
    assert OperationEntry(EXAMPLE, EXAMPLE.plan.operations["o"], AttemptStarted, AttemptPayload(1).(reason := Initial))
           == Entries()[2];
  }

  lemma ProviderStartAccepted()
    ensures var e := Event(SCHEMA_VERSION, 4, PROVIDER_STARTED, 3);
      ValidEvent(e) && OperationTransition(RecordAfter(3), e, true) == Some(ProviderRecord())
  {
    hide ValidText;
    ShortText();
  }

  lemma AppendsProviderStart()
    ensures var w, after := WorldAfter(4), WorldAfter(5);
      Append(EXAMPLE, w, PROVIDER_STARTED, 3) == Some(w.(journal := after.journal, st := after.st))
  {
    hide ValidEvent, Step, OperationTransition, Append, RecordAfter, EventsOf;
    ProviderStartAccepted();
    ExampleRecords(3);
    SingleOperationStep(3, PROVIDER_STARTED, RecordAfter(3), ProviderRecord());
    Journals(2);
    EventsCount(Entries()[..3]);
    AcceptedAppend(WorldAfter(4), PROVIDER_STARTED,
                   RunState("run", true, false, false, 5, map["o" := ProviderRecord()]));
  }

  lemma StartsProvider()
    ensures Perform(EXAMPLE, WorldAfter(4), MoveTask("o", ProviderStarts), 3) == Some(WorldAfter(5))
  {
    hide Append, RecordAfter, EventsOf;
    AppendsProviderStart();
    assert OperationEntry(EXAMPLE, EXAMPLE.plan.operations["o"], ProviderProcessStarted, AttemptPayload(1))
           == PROVIDER_STARTED;
    assert WorldAfter(4).tasks["o" := NewTask(START).(prepared := true, started := true)] == WorldAfter(5).tasks;
  }

  lemma ExampleStep(n: nat)
    requires n < 5
    ensures Perform(EXAMPLE, WorldAfter(n), Steps()[n].0, Steps()[n].1) == Some(WorldAfter(n + 1))
  {
    hide Perform, WorldAfter;
    match n {
      case 0 => Begins();
      case 1 => Plans();
      case 2 => Launches();
      case 3 => Starts();
      case _ => StartsProvider();
    }
  }

  lemma {:induction false} ExampleRuns(n: nat)
    requires n <= 5
    ensures Run(EXAMPLE, InitialWorld(EXAMPLE), Steps()[..n]) == Some(WorldAfter(n)) && Sound(EXAMPLE, WorldAfter(n))
  {
    hide Perform, WorldAfter, Sound, GoodPlan;
    ExamplePlanIsGood();
    ShortText();
    if n == 0 {
      InitialWorldSound(EXAMPLE);
      assert WorldAfter(0) == InitialWorld(EXAMPLE) by { FirstWorld(); }
    } else {
      ExampleRuns(n - 1);
      ExampleStep(n - 1);
      assert Steps()[..n][..n - 1] == Steps()[..n - 1];
      EveryStepAdvances(EXAMPLE, WorldAfter(n - 1), Steps()[n - 1].0, 3, WorldAfter(n));
      Unbroken(n);
    }
  }

  lemma FirstWorld()
    ensures WorldAfter(0) == InitialWorld(EXAMPLE)
  {
  }

  lemma Unbroken(n: nat)
    ensures !WorldAfter(n).broken
  {
  }

  lemma LastWorld()
    ensures var w := WorldAfter(5);
      && w.pending == [] && w.clock == 3 && "o" in w.tasks && "o" in w.st.records && w.st.records["o"].op == OP
      && var t := w.tasks["o"]; t.started && !t.dispatched && !t.settled
  {
  }

  /**
   The observer does not ask whether the operation has side effects: here is a run from the empty journal
   that breaks.
   */
  lemma StrayDispatchesBreakJournals()
    ensures var before, after := Run(EXAMPLE, InitialWorld(EXAMPLE), Steps()[..5]),
            Run(EXAMPLE, InitialWorld(EXAMPLE), Steps());
      && before.Some? && Reducible(EXAMPLE.plan, before.value.journal)
      && after.Some? && after.value.broken && !Reducible(EXAMPLE.plan, after.value.journal)
  {
    hide Perform, WorldAfter, Sound, Reducible;
    ExampleRuns(5);
    LastWorld();
    SoundIsReducible(EXAMPLE, WorldAfter(5));
    assert Steps()[..5] == Steps()[..|Steps()| - 1];
    StrayDispatchBreaksJournal(EXAMPLE, WorldAfter(5), "o", 3);
  }

  lemma SoundIsReducible(cfg: Config, w: World)
    requires Sound(cfg, w)
    ensures Reducible(cfg.plan, w.journal)
  {
  }
}
