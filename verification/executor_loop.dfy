/**
 One iteration of the executor's loop, with its passes in their order, and why the loop ends:
 every iteration after which it goes on lowers a measure.
 */
module ExecutorLoop {
  import opened Domain
  import opened Events
  import opened Reducer
  import opened ReducerSafety
  import opened Planning
  import opened Scheduler
  import opened SchedulerRuns
  import opened ExecutorSafety
  import opened SchedulerProgress
  import opened SchedulerTermination
  import opened ExecutorPasses
  import opened BatchSelection

  /** The loop between two iterations: stopping says that its context is done. */
  datatype LoopState = LoopState(w: World, stopping: bool)

  /** What an iteration turns out to do. */
  datatype Turn =
    | CancelTheRun
    | TakePass(phase: Phase)
    | CompleteTheRun
    | AwaitExpiry(until: int)
    | Return

  /** The branches of the loop in their order; all lists the operations and now is the time of the expiry pass. */
  function ChooseTurn(cfg: Config, s: LoopState, all: seq<OperationID>, now: int): Turn {
    var w := s.w;
    if s.stopping && !w.st.cancelled then CancelTheRun
    else if WorkList(cfg, w, Expiry, all, now) != [] then TakePass(Expiry)
    else if !w.st.cancelled && WorkList(cfg, w, Readiness, all, now) != [] then TakePass(Readiness)
    else if !w.st.cancelled && WorkList(cfg, w, Recovery, all, now) != [] then TakePass(Recovery)
    else if !w.st.cancelled && WorkList(cfg, w, Cancellation, all, now) != [] then TakePass(Cancellation)
    else if WorkList(cfg, w, Batch, all, now) != [] then TakePass(Batch)
    else if w.st.cancelled then Return
    else if ExecutorQuiescent(cfg, w.st.records) then CompleteTheRun
    else
      match NextExpiry(w.st.records, all)
      case Some(until) => AwaitExpiry(until)
      case None => Return
  }

  /** Within an iteration decided work is performed or skipped and tasks move; nothing is planned anew. */
  predicate WithinIteration(step: Label) {
    step.DoWork? || step.SkipLaunch? || step.MoveTask? || step.RefuseOutcome?
  }

  predicate StaysWithin(steps: seq<(Label, int)>) {
    forall step | step in steps :: WithinIteration(step.0)
  }

  /** Some launch or other work of the iteration was performed and not skipped. */
  predicate Performs(steps: seq<(Label, int)>) {
    exists step | step in steps :: step.0.DoWork?
  }

  /**
   An iteration after which the loop goes on. It leaves no work and no task behind, and
   - a pass other than the batch plans its work over all operations and performs it;
   - a batch starts at least one of its candidates, or finds every lease held and its context done, which
     was not done before: a done context makes the acquisition itself fail and the loop return;
   - a wait lasts until the next lease runs out unless the context is done earlier.
   */
  ghost predicate Continues(cfg: Config, limit: nat, all: seq<OperationID>, s: LoopState, now: int,
                            steps: seq<(Label, int)>, after: LoopState)
  {
    && Schedules(s.w) && s.w.clock <= now
    && Run(cfg, s.w, steps) == Some(after.w) && !after.w.broken && Idle(after.w) && !after.w.failed
    && (s.stopping ==> after.stopping)
    && steps != []
    && match ChooseTurn(cfg, s, all, now)
       case CancelTheRun => false
       case Return => false
       case CompleteTheRun => |steps| == 1 && steps[0].0.CompleteRun?
       case AwaitExpiry(until) =>
         |steps| == 1 && steps[0].0.Wait? && (until <= steps[0].1 || (after.stopping && !s.stopping))
       case TakePass(phase) =>
         && steps[0]
            == (PlanPass(phase, if phase.Batch? then WorkIds(NextBatch(cfg, s.w, all, limit, now)) else all), now)
         && StaysWithin(steps[1..])
         && (phase.Batch? ==> Performs(steps[1..]) || (after.stopping && !s.stopping))
  }

  // The measure

  predicate RunningLease(r: Record, clock: int) {
    r.leaseActive && clock < r.lease.expiresAt
  }

  /** The leases that have not run out. */
  function RunningLeases(w: World, ids: seq<OperationID>): nat {
    if ids == [] then 0
    else RunningLeases(w, ids[1..])
         + if ids[0] in w.st.records && RunningLease(w.st.records[ids[0]], w.clock) then 1 else 0
  }

  lemma {:induction false} RunningLeasesBounded(w: World, ids: seq<OperationID>)
    ensures RunningLeases(w, ids) <= |ids|
  {
    if ids != [] { RunningLeasesBounded(w, ids[1..]); }
  }

  function LoopMeasure(cfg: Config, s: LoopState, all: seq<OperationID>): nat {
    (|all| + 2) * Measure(cfg, s.w, all) + RunningLeases(s.w, all) + if s.stopping then 0 else 1
  }

  /** A fall of the productive measure outweighs whatever happens to leases and context. */
  lemma ProductiveDescent(cfg: Config, s: LoopState, after: LoopState, all: seq<OperationID>)
    requires Measure(cfg, after.w, all) < Measure(cfg, s.w, all)
    ensures LoopMeasure(cfg, after, all) < LoopMeasure(cfg, s, all)
  {
    hide Measure, RunningLeases;
    RunningLeasesBounded(after.w, all);
    Outweighs(|all|, Measure(cfg, after.w, all), Measure(cfg, s.w, all));
  }

  lemma Outweighs(size: nat, less: nat, more: nat)
    requires less < more
    ensures (size + 2) * less + size + 1 < (size + 2) * more
  {
    assert (size + 2) * (less + 1) <= (size + 2) * more;
  }

  // Iterations that perform work

  lemma {:induction false} RunPrefix(cfg: Config, start: World, steps: seq<(Label, int)>, k: nat)
    requires Run(cfg, start, steps).Some? && k <= |steps|
    ensures Run(cfg, start, steps[..k]).Some?
    decreases |steps|
  {
    hide Perform;
    if k == |steps| { assert steps[..k] == steps; }
    else {
      var front := steps[..|steps| - 1];
      assert front[..k] == steps[..k];
      RunPrefix(cfg, start, front, k);
    }
  }

  /** The step at a position takes the world before it to the world after it. */
  lemma RunAt(cfg: Config, start: World, steps: seq<(Label, int)>, k: nat)
    requires Run(cfg, start, steps).Some? && k < |steps|
    ensures Run(cfg, start, steps[..k]).Some?
    ensures Run(cfg, start, steps[..k + 1]) == Perform(cfg, Run(cfg, start, steps[..k]).value, steps[k].0, steps[k].1)
    ensures Run(cfg, start, steps[..k + 1]).Some?
  {
    hide Perform;
    RunPrefix(cfg, start, steps, k + 1);
    RunPrefix(cfg, start, steps, k);
    assert steps[..k + 1][..k] == steps[..k];
  }

  lemma {:induction false} ProductiveStepCounts(steps: seq<(Label, int)>, k: nat)
    requires k < |steps| && Productive(steps[k].0)
    ensures ProductiveSteps(steps) >= 1
    decreases |steps|
  {
    if k < |steps| - 1 {
      var front := steps[..|steps| - 1];
      assert front[k] == steps[k];
      ProductiveStepCounts(front, k);
    }
  }

  /** With decided work that is no launch, only performing it goes on within the iteration. */
  lemma PendingWorkIsPerformed(cfg: Config, w: World, step: Label, now: int)
    requires Perform(cfg, w, step, now).Some? && WithinIteration(step)
    requires w.pending != [] && !w.pending[0].LaunchWork?
    ensures step.DoWork?
  {
    hide PerformWork, TaskReport, AppendOperation;
  }

  /** Only a batch plans launches. */
  lemma {:induction false} PassesPlanNoLaunch(cfg: Config, w: World, phase: Phase, ids: seq<OperationID>, now: int)
    requires !phase.Batch?
    ensures forall x :: x in WorkList(cfg, w, phase, ids, now) ==> !x.LaunchWork?
  {
    if ids != [] { PassesPlanNoLaunch(cfg, w, phase, ids[1..], now); }
    hide Doomed, Interrupted, LeaseRanOut, ReadyUnjournaled;
  }

  lemma PlanPassPlans(cfg: Config, w: World, phase: Phase, ids: seq<OperationID>, now: int)
    requires Perform(cfg, w, PlanPass(phase, ids), now).Some?
    ensures Perform(cfg, w, PlanPass(phase, ids), now).value
            == w.(pending := WorkList(cfg, w, phase, ids, now), clock := now)
  {
    hide WorkList;
  }

  /** An iteration that takes a pass with something to do performs some of it. */
  lemma PassPerforms(cfg: Config, w: World, phase: Phase, ids: seq<OperationID>, now: int, steps: seq<(Label, int)>,
                     after: World)
    requires !phase.Batch? && WorkList(cfg, w, phase, ids, now) != []
    requires steps != [] && steps[0] == (PlanPass(phase, ids), now) && StaysWithin(steps[1..])
    requires Run(cfg, w, steps) == Some(after) && Idle(after)
    ensures |steps| >= 2 && steps[1].0.DoWork?
  {
    hide Perform, WorkList;
    assert |steps| == 1 ==> steps[..1] == steps;
    RunAt(cfg, w, steps, 0);
    assert steps[..0] == [];
    PlanPassPlans(cfg, w, phase, ids, now);
    PassesPlanNoLaunch(cfg, w, phase, ids, now);
    var planned := Run(cfg, w, steps[..1]).value;
    assert steps[1] == steps[1..][0] && steps[1] in steps[1..];
    RunAt(cfg, w, steps, 1);
    PendingWorkIsPerformed(cfg, planned, steps[1].0, steps[1].1);
  }

  lemma IterationIsOfOneProcess(steps: seq<(Label, int)>)
    requires steps != [] && StaysWithin(steps[1..])
    requires steps[0].0.PlanPass? || steps[0].0.CompleteRun? || steps[0].0.Wait?
    ensures forall step :: step in steps ==> OfOneProcess(step.0)
  {
    assert steps == [steps[0]] + steps[1..];
    forall step | step in steps ensures OfOneProcess(step.0) {
      if step != steps[0] { assert step in steps[1..]; }
    }
  }

  /** A run with a productive step lowers the loop's measure. */
  lemma ProductiveRunDescends(cfg: Config, all: seq<OperationID>, s: LoopState, steps: seq<(Label, int)>,
                              after: LoopState, k: nat)
    requires Sound(cfg, s.w) && KeysSound(s.w) && Run(cfg, s.w, steps) == Some(after.w) && !after.w.broken
    requires forall id :: id in cfg.plan.operations ==> id in all
    requires forall step :: step in steps ==> OfOneProcess(step.0)
    requires k < |steps| && Productive(steps[k].0)
    ensures LoopMeasure(cfg, after, all) < LoopMeasure(cfg, s, all)
  {
    hide Run, Sound, KeysSound, Measure, LoopMeasure, OfOneProcess, Productive;
    ProductiveStepsAreBounded(cfg, s.w, steps, after.w, all);
    ProductiveStepCounts(steps, k);
    ProductiveDescent(cfg, s, after, all);
  }

  lemma BatchDescends(cfg: Config, limit: nat, all: seq<OperationID>, s: LoopState, now: int, steps: seq<(Label, int)>,
                      after: LoopState)
    requires Sound(cfg, s.w) && KeysSound(s.w) && (forall id :: id in cfg.plan.operations ==> id in all)
    requires Continues(cfg, limit, all, s, now, steps, after) && ChooseTurn(cfg, s, all, now) == TakePass(Batch)
    requires Performs(steps[1..])
    ensures LoopMeasure(cfg, after, all) < LoopMeasure(cfg, s, all)
  {
    hide Run, Sound, KeysSound, ChooseTurn, LoopMeasure, NextBatch;
    IterationIsOfOneProcess(steps);
    var step :| step in steps[1..] && step.0.DoWork?;
    var k :| 0 <= k < |steps[1..]| && steps[1..][k] == step;
    assert steps[k + 1] == step;
    ProductiveRunDescends(cfg, all, s, steps, after, k + 1);
  }

  lemma PassDescends(cfg: Config, limit: nat, all: seq<OperationID>, s: LoopState, now: int, phase: Phase,
                     steps: seq<(Label, int)>, after: LoopState)
    requires Sound(cfg, s.w) && KeysSound(s.w) && (forall id :: id in cfg.plan.operations ==> id in all)
    requires Continues(cfg, limit, all, s, now, steps, after)
    requires !phase.Batch? && ChooseTurn(cfg, s, all, now) == TakePass(phase)
    ensures LoopMeasure(cfg, after, all) < LoopMeasure(cfg, s, all)
  {
    assert WorkList(cfg, s.w, phase, all, now) != [] by { TurnHasWork(cfg, s, all, now, phase); }
    hide Run, Sound, KeysSound, ChooseTurn, LoopMeasure, WorkList;
    PassPerforms(cfg, s.w, phase, all, now, steps, after.w);
    IterationIsOfOneProcess(steps);
    ProductiveRunDescends(cfg, all, s, steps, after, 1);
  }

  lemma TurnHasWork(cfg: Config, s: LoopState, all: seq<OperationID>, now: int, phase: Phase)
    requires ChooseTurn(cfg, s, all, now) == TakePass(phase)
    ensures WorkList(cfg, s.w, phase, all, now) != []
  {
    hide WorkList, ExecutorQuiescent, NextExpiry;
  }

  // Iterations that only wait

  /** Time passes over a world whose records, keys and tasks stay: leases can only run out. */
  lemma {:induction false} LeasesRunOut(w: World, after: World, ids: seq<OperationID>, id: OperationID)
    requires after.st == w.st && w.clock <= after.clock
    ensures RunningLeases(after, ids) <= RunningLeases(w, ids)
    ensures id in ids && id in w.st.records && RunningLease(w.st.records[id], w.clock)
            && !RunningLease(w.st.records[id], after.clock)
            ==> RunningLeases(after, ids) < RunningLeases(w, ids)
  {
    if ids != [] {
      LeasesRunOut(w, after, ids[1..], id);
      assert id in ids ==> id == ids[0] || id in ids[1..];
    }
  }

  /** The world has only grown older. */
  ghost predicate OnlyOlder(w: World, after: World) {
    after == w.(clock := after.clock) && w.clock <= after.clock
  }

  lemma {:induction false} OlderPotentials(cfg: Config, w: World, after: World, ids: seq<OperationID>)
    requires OnlyOlder(w, after)
    ensures SumOfPotentials(cfg, after, ids) == SumOfPotentials(cfg, w, ids)
  {
    if ids != [] {
      OlderPotentials(cfg, w, after, ids[1..]);
      assert Potential(cfg, after, ids[0]) == Potential(cfg, w, ids[0]);
    }
  }

  /** Skipping every launch leaves the world as it was, only older. */
  lemma {:induction false} SkippingChangesNothing(cfg: Config, w: World, steps: seq<(Label, int)>, after: World)
    requires w.tasks == map[] && Run(cfg, w, steps) == Some(after) && StaysWithin(steps) && !Performs(steps)
    ensures after == w.(pending := after.pending)
    decreases |steps|
  {
    if steps != [] {
      var front, last := steps[..|steps| - 1], steps[|steps| - 1];
      assert steps == front + [last] && last in steps;
      forall step | step in front ensures WithinIteration(step.0) && !step.0.DoWork? { assert step in steps; }
      var before := Run(cfg, w, front).value;
      SkippingChangesNothing(cfg, w, front, before);
      OnlySkips(cfg, before, last.0, last.1);
    }
    hide Perform;
  }

  lemma OnlySkips(cfg: Config, w: World, step: Label, now: int)
    requires w.tasks == map[] && WithinIteration(step) && !step.DoWork? && Perform(cfg, w, step, now).Some?
    ensures Perform(cfg, w, step, now).value == w.(pending := w.pending[1..])
  {
    hide TaskReport, AppendOperation;
  }

  /** The context's end outweighs nothing but itself: it lowers the measure of a world that only grew older. */
  lemma OlderDescends(cfg: Config, all: seq<OperationID>, s: LoopState, after: LoopState)
    requires OnlyOlder(s.w, after.w) && (s.stopping ==> after.stopping)
    requires (after.stopping && !s.stopping) || RunningLeases(after.w, all) < RunningLeases(s.w, all)
    ensures LoopMeasure(cfg, after, all) < LoopMeasure(cfg, s, all)
  {
    LeasesRunOut(s.w, after.w, all, "");
    OlderPotentials(cfg, s.w, after.w, all);
    hide RunningLeases, SumOfPotentials;
    assert Measure(cfg, after.w, all) == Measure(cfg, s.w, all);
    hide Measure;
  }

  /** At the time of the expiry pass every active lease still runs, if that pass found nothing. */
  lemma NothingExpired(cfg: Config, w: World, all: seq<OperationID>, now: int, id: OperationID)
    requires WorkList(cfg, w, Expiry, all, now) == [] && w.clock <= now && id in all && id in w.st.records
    requires w.st.records[id].leaseActive && w.st.records[id].lease.expiresAt != 0
    ensures RunningLease(w.st.records[id], now)
  {
    if w.st.records[id].lease.expiresAt <= now { DecidedIsListed(cfg, w, Expiry, all, now, id); }
  }

  lemma WaitDescends(cfg: Config, limit: nat, all: seq<OperationID>, s: LoopState, now: int, steps: seq<(Label, int)>,
                     after: LoopState, until: int)
    requires Continues(cfg, limit, all, s, now, steps, after) && ChooseTurn(cfg, s, all, now) == AwaitExpiry(until)
    ensures LoopMeasure(cfg, after, all) < LoopMeasure(cfg, s, all)
  {
    assert steps[..0] == [];
    RunAt(cfg, s.w, steps, 0);
    assert steps[..1] == steps;
    assert after.w == s.w.(clock := steps[0].1) && s.w.clock <= steps[0].1;
    if after.stopping && !s.stopping {
      OlderDescends(cfg, all, s, after);
    } else {
      assert NextExpiry(s.w.st.records, all) == Some(until) && WorkList(cfg, s.w, Expiry, all, now) == [] by {
        TurnAwaits(cfg, s, all, now, until);
      }
      var id :| id in all && id in s.w.st.records && s.w.st.records[id].leaseActive
                && s.w.st.records[id].lease.expiresAt == until;
      NextExpiryIsDated(s.w.st.records, all);
      NothingExpired(cfg, s.w, all, now, id);
      LeasesRunOut(s.w, after.w, all, id);
      OlderDescends(cfg, all, s, after);
    }
  }

  lemma TurnAwaits(cfg: Config, s: LoopState, all: seq<OperationID>, now: int, until: int)
    requires ChooseTurn(cfg, s, all, now) == AwaitExpiry(until)
    ensures NextExpiry(s.w.st.records, all) == Some(until) && WorkList(cfg, s.w, Expiry, all, now) == []
    ensures !s.w.st.cancelled && !s.stopping
  {
    hide WorkList, ExecutorQuiescent;
  }

  lemma {:induction false} NextExpiryIsDated(records: Records, ids: seq<OperationID>)
    ensures NextExpiry(records, ids) != Some(0)
  {
    if ids != [] { NextExpiryIsDated(records, ids[..|ids| - 1]); }
  }

  lemma HeldBatchDescends(cfg: Config, limit: nat, all: seq<OperationID>, s: LoopState, now: int,
                          steps: seq<(Label, int)>, after: LoopState)
    requires Continues(cfg, limit, all, s, now, steps, after) && ChooseTurn(cfg, s, all, now) == TakePass(Batch)
    requires !Performs(steps[1..])
    ensures LoopMeasure(cfg, after, all) < LoopMeasure(cfg, s, all)
  {
    var ids := WorkIds(NextBatch(cfg, s.w, all, limit, now));
    assert steps[..0] == [];
    RunAt(cfg, s.w, steps, 0);
    PlanPassPlans(cfg, s.w, Batch, ids, now);
    var planned := Run(cfg, s.w, steps[..1]).value;
    RunContinues(cfg, s.w, steps, 1);
    SkippingChangesNothing(cfg, planned, steps[1..], after.w);
    assert after.w == s.w.(clock := now);
    OlderDescends(cfg, all, s, after);
  }

  lemma {:induction false} RunContinues(cfg: Config, start: World, steps: seq<(Label, int)>, k: nat)
    requires Run(cfg, start, steps).Some? && k <= |steps|
    ensures Run(cfg, start, steps[..k]).Some?
    ensures Run(cfg, Run(cfg, start, steps[..k]).value, steps[k..]) == Run(cfg, start, steps)
    decreases |steps|
  {
    hide Perform;
    RunPrefix(cfg, start, steps, k);
    if k == |steps| { assert steps[..k] == steps; }
    else {
      var front := steps[..|steps| - 1];
      assert front[..k] == steps[..k] && steps[k..][..|steps| - k - 1] == front[k..];
      RunContinues(cfg, start, front, k);
    }
  }

  lemma CompletionDescends(cfg: Config, limit: nat, all: seq<OperationID>, s: LoopState, now: int,
                           steps: seq<(Label, int)>, after: LoopState)
    requires Sound(cfg, s.w) && KeysSound(s.w) && (forall id :: id in cfg.plan.operations ==> id in all)
    requires Continues(cfg, limit, all, s, now, steps, after) && ChooseTurn(cfg, s, all, now) == CompleteTheRun
    ensures LoopMeasure(cfg, after, all) < LoopMeasure(cfg, s, all)
  {
    hide Run, Sound, KeysSound, ChooseTurn, LoopMeasure, WorkList;
    IterationIsOfOneProcess(steps);
    ProductiveRunDescends(cfg, all, s, steps, after, 0);
  }

  // Every iteration

  /** Every iteration after which the loop goes on lowers the loop's measure and keeps the invariants. */
  lemma EveryIterationDescends(cfg: Config, limit: nat, all: seq<OperationID>, s: LoopState, now: int,
                               steps: seq<(Label, int)>, after: LoopState)
    requires Sound(cfg, s.w) && KeysSound(s.w) && (forall id :: id in cfg.plan.operations ==> id in all)
    requires Continues(cfg, limit, all, s, now, steps, after)
    ensures Sound(cfg, after.w) && KeysSound(after.w)
    ensures LoopMeasure(cfg, after, all) < LoopMeasure(cfg, s, all)
  {
    RunsKeepKeys(cfg, s.w, steps, after.w);
    hide Run, Sound, KeysSound, ChooseTurn, LoopMeasure, WorkList, NextBatch, Performs, StaysWithin;
    match ChooseTurn(cfg, s, all, now) {
      case CompleteTheRun => CompletionDescends(cfg, limit, all, s, now, steps, after);
      case AwaitExpiry(until) => WaitDescends(cfg, limit, all, s, now, steps, after, until);
      case TakePass(phase) =>
        if !phase.Batch? { PassDescends(cfg, limit, all, s, now, phase, steps, after); }
        else if Performs(steps[1..]) { BatchDescends(cfg, limit, all, s, now, steps, after); }
        else { HeldBatchDescends(cfg, limit, all, s, now, steps, after); }
      case CancelTheRun =>
      case Return =>
    }
  }

  ghost predicate Iteration(cfg: Config, limit: nat, all: seq<OperationID>, s: LoopState, after: LoopState) {
    exists now, steps :: Continues(cfg, limit, all, s, now, steps, after)
  }

  /** The states of one call of Execute between its iterations. */
  ghost predicate Execution(cfg: Config, limit: nat, all: seq<OperationID>, states: seq<LoopState>) {
    forall i, j :: 0 <= i && j == i + 1 && j < |states| ==> Iteration(cfg, limit, all, states[i], states[j])
  }

  /** The number of iterations of a call is bounded by the measure of its first state: Execute ends. */
  lemma {:induction false} ExecutionEnds(cfg: Config, limit: nat, all: seq<OperationID>, states: seq<LoopState>)
    requires states != [] && Sound(cfg, states[0].w) && KeysSound(states[0].w)
    requires (forall id :: id in cfg.plan.operations ==> id in all) && Execution(cfg, limit, all, states)
    ensures var last := states[|states| - 1];
      && Sound(cfg, last.w) && KeysSound(last.w)
      && |states| - 1 + LoopMeasure(cfg, last, all) <= LoopMeasure(cfg, states[0], all)
    decreases |states|
  {
    hide Sound, KeysSound, LoopMeasure, Continues;
    if |states| > 1 {
      var front := states[..|states| - 1];
      ExecutionEnds(cfg, limit, all, front);
      var s, after := states[|states| - 2], states[|states| - 1];
      assert Iteration(cfg, limit, all, s, after);
      var now, steps :| Continues(cfg, limit, all, s, now, steps, after);
      EveryIterationDescends(cfg, limit, all, s, now, steps, after);
    }
  }

  lemma OpenedKeysSound(journal: seq<Event>, st: RunState, clock: int, reconcileOnly: bool)
    ensures KeysSound(OpenedWorld(journal, st, clock, reconcileOnly))
  {
  }

  /**
   Execute ends: from any reducible journal of the run, after a number of iterations that the journal's
   state bounds.
   */
  lemma ExecuteEnds(cfg: Config, limit: nat, all: seq<OperationID>, journal: seq<Event>, st: RunState, clock: int,
                    reconcileOnly: bool, states: seq<LoopState>)
    requires GoodPlan(cfg.plan) && Configured(cfg) && Replay(cfg.plan, journal) == Ok(st) && clock >= 1
    requires journal == [] || st.runId == cfg.runId
    requires states != [] && states[0].w == OpenedWorld(journal, st, clock, reconcileOnly)
    requires (forall id :: id in cfg.plan.operations ==> id in all) && Execution(cfg, limit, all, states)
    ensures |states| - 1 <= LoopMeasure(cfg, states[0], all)
    ensures LoopMeasure(cfg, states[0], all) <= (|all| + 2) * Measure(cfg, states[0].w, all) + |all| + 1
  {
    ReducibleJournalIsSound(cfg, journal, st, clock, reconcileOnly);
    OpenedKeysSound(journal, st, clock, reconcileOnly);
    LoopMeasureBounded(cfg, states[0], all, Measure(cfg, states[0].w, all));
    hide Sound, KeysSound, Measure, LoopMeasure, Execution, GoodPlan, Replay;
    ExecutionEnds(cfg, limit, all, states);
  }

  lemma NewRunMeasures(cfg: Config, all: seq<OperationID>, now: int, first: World)
    requires GoodPlan(cfg.plan) && Configured(cfg) && (forall id :: id in all <==> id in cfg.plan.operations)
    requires Perform(cfg, InitialWorld(cfg), BeginRun, now) == Some(first)
    ensures Sound(cfg, first) && KeysSound(first)
    ensures Measure(cfg, first, all) <= 2 + |all| * (16 * cfg.maxAttempts + 3)
  {
    hide Perform, Sound, KeysSound, Measure, GoodPlan;
    var start := InitialWorld(cfg);
    InitialWorldSound(cfg);
    OpenedKeysSound([], InitialState(cfg.plan), 1, false);
    EveryStepAdvances(cfg, start, BeginRun, now, first);
    EveryStepKeepsKeys(cfg, start, BeginRun, now, first);
    EveryStepMeasures(cfg, start, BeginRun, now, first, all);
    FreshRunBound(cfg, all);
  }

  lemma LoopMeasureBounded(cfg: Config, s: LoopState, all: seq<OperationID>, bound: nat)
    requires Measure(cfg, s.w, all) <= bound
    ensures LoopMeasure(cfg, s, all) <= (|all| + 2) * bound + |all| + 1
  {
    hide Measure, RunningLeases;
    RunningLeasesBounded(s.w, all);
    assert (|all| + 2) * Measure(cfg, s.w, all) <= (|all| + 2) * bound;
  }

  /** For a run that starts from nothing the bound is a number of the plan and the attempt limit. */
  lemma NewRunEnds(cfg: Config, limit: nat, all: seq<OperationID>, now: int, states: seq<LoopState>)
    requires GoodPlan(cfg.plan) && Configured(cfg) && (forall id :: id in all <==> id in cfg.plan.operations)
    requires states != [] && Perform(cfg, InitialWorld(cfg), BeginRun, now) == Some(states[0].w)
    requires Execution(cfg, limit, all, states)
    ensures |states| - 1 <= (|all| + 2) * (2 + |all| * (16 * cfg.maxAttempts + 3)) + |all| + 1
  {
    hide Perform, Sound, KeysSound, Measure, LoopMeasure, Execution, GoodPlan;
    NewRunMeasures(cfg, all, now, states[0].w);
    LoopMeasureBounded(cfg, states[0], all, 2 + |all| * (16 * cfg.maxAttempts + 3));
    ExecutionEnds(cfg, limit, all, states);
  }

  // Why it returns

  ghost predicate LeasesDated(records: Records) {
    forall id :: id in records && records[id].leaseActive ==> records[id].lease.expiresAt != 0
  }

  /** A lease in the journal never expires at the zero time. */
  lemma TransitionDatesLease(r: Record, e: Event, published: bool)
    requires ValidEvent(e) && OperationTransition(r, e, published).Some?
    requires r.leaseActive ==> r.lease.expiresAt != 0
    ensures var next := OperationTransition(r, e, published).value; next.leaseActive ==> next.lease.expiresAt != 0
  {
    hide OperationTransition, ValidEvent;
    if LeaseKind(e.entry.kind) { LeaseIsDated(r, e, published); } else { OthersKeepLease(r, e, published); }
  }

  lemma LeaseIsDated(r: Record, e: Event, published: bool)
    requires ValidEvent(e) && LeaseKind(e.entry.kind) && OperationTransition(r, e, published).Some?
    requires r.leaseActive ==> r.lease.expiresAt != 0
    ensures var next := OperationTransition(r, e, published).value; next.leaseActive ==> next.lease.expiresAt != 0
  {
    hide OperationTransition, ValidEvent, LeaseTransition;
    ValidLeaseIsDated(e);
    LeaseBranch(r, e, published);
    LeaseStaysDated(r, e);
  }

  lemma ValidLeaseIsDated(e: Event)
    requires ValidEvent(e) && LeaseKind(e.entry.kind)
    ensures e.entry.payload.lease.Some? && e.entry.payload.lease.value.expiresAt != 0
  {
    hide ValidText, ValidIdentifier;
  }

  lemma LeaseBranch(r: Record, e: Event, published: bool)
    requires LeaseKind(e.entry.kind) && e.entry.payload.lease.Some?
    ensures OperationTransition(r, e, published) == LeaseTransition(r, e)
  {
    hide LeaseTransition;
  }

  lemma LeaseStaysDated(r: Record, e: Event)
    requires e.entry.payload.lease.Some? && e.entry.payload.lease.value.expiresAt != 0 && LeaseTransition(r, e).Some?
    requires r.leaseActive ==> r.lease.expiresAt != 0
    ensures var next := LeaseTransition(r, e).value; next.leaseActive ==> next.lease.expiresAt != 0
  {
    hide Startable;
    var lease, k := e.entry.payload.lease.value, e.entry.kind;
    if k.LeaseAcquired? { assert LeaseTransition(r, e).value == r.(leaseActive := true, lease := lease); }
    else if k.LeaseRenewed? {
      assert LeaseTransition(r, e).value == r.(lease := r.lease.(expiresAt := lease.expiresAt));
    }
    else { assert LeaseTransition(r, e).value == r.(leaseActive := false); }
    hide LeaseTransition, LeaseMatches;
  }

  predicate SameLease(r: Record, next: Record) {
    next.leaseActive == r.leaseActive && next.lease == r.lease
  }

  lemma OthersKeepLease(r: Record, e: Event, published: bool)
    requires !LeaseKind(e.entry.kind) && OperationTransition(r, e, published).Some?
    ensures SameLease(r, OperationTransition(r, e, published).value)
  {
    hide OperationTransition, SameLease;
    var k := e.entry.kind;
    if ExplicitResultKind(k) || k.OperationResult? || k.ReconcileResult? { ResultsKeepLease(r, e, published); }
    else if k.OperationReady? || k.OperationCancelled? || k.RetryAuthorized? || k.AttemptStarted? {
      SchedulesKeepLease(r, e, published);
    }
    else {
      assert CallKind(k) by { AcceptedCall(r, e, published); }
      CallsKeepLease(r, e, published);
    }
  }

  /** Every other event that a record accepts is one of a call. */
  lemma AcceptedCall(r: Record, e: Event, published: bool)
    requires OperationTransition(r, e, published).Some?
    ensures var k := e.entry.kind;
      || LeaseKind(k) || ExplicitResultKind(k) || k.OperationResult? || k.ReconcileResult?
      || k.OperationReady? || k.OperationCancelled? || k.RetryAuthorized? || k.AttemptStarted? || CallKind(k)
  {
    hide LeaseTransition, ExplicitResultTransition, StatedResultTransition, ApplyResult;
  }

  lemma ApplyResultKeepsLease(r: Record, p: Payload, state: NormalizedState, preserveAmbiguous: bool)
    ensures SameLease(r, ApplyResult(r, p, state, preserveAmbiguous))
  {
  }

  lemma ResultsKeepLease(r: Record, e: Event, published: bool)
    requires ExplicitResultKind(e.entry.kind) || e.entry.kind.OperationResult? || e.entry.kind.ReconcileResult?
    requires OperationTransition(r, e, published).Some?
    ensures SameLease(r, OperationTransition(r, e, published).value)
  {
    hide ApplyResult, LeaseTransition, StartAttempt, AuthorizeRetry;
    var p, k := e.entry.payload, e.entry.kind;
    if ExplicitResultKind(k) {
      assert OperationTransition(r, e, published) == ExplicitResultTransition(r, e);
      ApplyResultKeepsLease(r, p, ExplicitResultState(k), r.reconciling);
    } else if k.OperationResult? {
      var counted := r.(blockedAttempts := Increment32(r.blockedAttempts));
      ApplyResultKeepsLease(r, p, p.state, false);
      ApplyResultKeepsLease(counted, p, p.state, false);
    } else {
      ApplyResultKeepsLease(r, p, p.state, true);
    }
  }

  lemma SchedulesKeepLease(r: Record, e: Event, published: bool)
    requires var k := e.entry.kind;
      k.OperationReady? || k.OperationCancelled? || k.RetryAuthorized? || k.AttemptStarted?
    requires OperationTransition(r, e, published).Some?
    ensures SameLease(r, OperationTransition(r, e, published).value)
  {
    hide LeaseTransition, ExplicitResultTransition, StatedResultTransition, ApplyResult, RetryAuthorizable, Startable;
  }

  lemma CallsKeepLease(r: Record, e: Event, published: bool)
    requires CallKind(e.entry.kind) && OperationTransition(r, e, published).Some?
    ensures SameLease(r, OperationTransition(r, e, published).value)
  {
    hide OperationTransition;
    CallEffect(r, e, published);
  }

  lemma {:induction false} ReplayDatesLeases(plan: Plan, events: seq<Event>, st: RunState)
    requires Replay(plan, events) == Ok(st)
    ensures LeasesDated(st.records)
    decreases |events|
  {
    if events != [] {
      var front, e := events[..|events| - 1], events[|events| - 1];
      var middle := ReplayFrom(plan.id, InitialState(plan), front).value;
      ReplayDatesLeases(plan, front, middle);
      StepDatesLeases(plan.id, middle, e, st);
    }
    hide Step;
  }

  lemma StepDatesLeases(planId: PlanID, st: RunState, e: Event, after: RunState)
    requires Step(planId, st, e) == Ok(after) && LeasesDated(st.records)
    ensures LeasesDated(after.records)
  {
    hide OperationTransition, ValidEvent;
    if !RunLifecycle(e.entry.kind) {
      var r := st.records[e.entry.operationId];
      TransitionDatesLease(r, e, DependenciesPublished(r.op, st.records));
    }
  }

  lemma EmptyListDecidesNothing(cfg: Config, w: World, phase: Phase, all: seq<OperationID>, now: int)
    requires WorkList(cfg, w, phase, all, now) == [] && forall id :: id in w.st.records ==> id in all
    ensures forall id :: id in w.st.records ==> Decide(cfg, w, phase, id, now).None?
  {
    hide Decide, WorkList;
    forall id | id in w.st.records ensures Decide(cfg, w, phase, id, now).None? {
      if Decide(cfg, w, phase, id, now).Some? { DecidedIsListed(cfg, w, phase, all, now, id); }
    }
  }

  lemma IdleTurn(cfg: Config, s: LoopState, all: seq<OperationID>, now: int)
    requires ChooseTurn(cfg, s, all, now) == Return && !s.w.st.cancelled
    ensures !ExecutorQuiescent(cfg, s.w.st.records) && NextExpiry(s.w.st.records, all) == None
    ensures forall phase: Phase :: WorkList(cfg, s.w, phase, all, now) == []
  {
    hide WorkList, ExecutorQuiescent;
    forall phase: Phase ensures WorkList(cfg, s.w, phase, all, now) == [] {
      match phase { case Expiry => case Readiness => case Recovery => case Cancellation => case Batch => }
    }
  }

  /**
   Without an error, the loop returns from an unfinished run that was not cancelled only when no lease
   is active and some operation waits for the outside world, or when it may only reconcile.
   */
  lemma ReturnsOnlyToWait(cfg: Config, s: LoopState, all: seq<OperationID>, now: int)
    requires Sound(cfg, s.w) && KeysSound(s.w) && Schedules(s.w)
             && (forall id :: id in all <==> id in cfg.plan.operations)
    requires ChooseTurn(cfg, s, all, now) == Return && !s.w.st.cancelled && !s.w.reconcileOnly
    ensures forall id :: id in s.w.st.records ==> !s.w.st.records[id].leaseActive
    ensures exists id ::
              id in s.w.st.records
              && (s.w.st.records[id].state == WaitingExternal || s.w.st.records[id].state == Blocked)
  {
    var records := s.w.st.records;
    IdleTurn(cfg, s, all, now);
    SameOperations(cfg, s.w, s.w);
    SoundReplay(cfg, s.w);
    ReplayDatesLeases(cfg.plan, s.w.journal, s.w.st);
    hide Sound, KeysSound, ChooseTurn, WorkList, ExecutorQuiescent, Decide, Replay, Invariant;
    forall phase, id | id in records ensures Decide(cfg, s.w, phase, id, now).None? {
      EmptyListDecidesNothing(cfg, s.w, phase, all, now);
    }
    NoDeadlock(cfg, s.w, now);
  }

  // Which branch is taken

  /** Some operation gives the pass something to append. */
  predicate SomeDue(cfg: Config, w: World, all: seq<OperationID>, phase: Phase, now: int) {
    exists id | id in all :: id in w.st.records && Due(cfg, w.st.records, phase, id, now)
  }

  /** Some operation may be taken up by a batch. */
  predicate SomeCandidate(cfg: Config, w: World, all: seq<OperationID>) {
    exists id | id in all ::
      id in w.st.records
      && (|| Reconcilable(id, w.st.records[id], w.reconciled, w.deferred)
          || Launchable(id, w.st.records[id], cfg.maxAttempts, w.st.cancelled, w.reconcileOnly, w.deferred))
  }

  lemma PassFindsDue(cfg: Config, w: World, all: seq<OperationID>, phase: Phase, now: int)
    requires !phase.Batch?
    ensures WorkList(cfg, w, phase, all, now) != [] <==> SomeDue(cfg, w, all, phase, now)
  {
    hide Decide, Due;
    ListedIsDecided(cfg, w, phase, all, now);
    if WorkList(cfg, w, phase, all, now) != [] {
      var x := WorkList(cfg, w, phase, all, now)[0];
      assert x in WorkList(cfg, w, phase, all, now);
      DueIsDecided(cfg, w, phase, x.id, now);
    }
    if SomeDue(cfg, w, all, phase, now) {
      var id :| id in all && id in w.st.records && Due(cfg, w.st.records, phase, id, now);
      DueIsDecided(cfg, w, phase, id, now);
      DecidedIsListed(cfg, w, phase, all, now, id);
    }
  }

  lemma BatchFindsCandidates(cfg: Config, w: World, all: seq<OperationID>, now: int)
    ensures WorkList(cfg, w, Batch, all, now) != [] <==> SomeCandidate(cfg, w, all)
  {
    hide Decide, Reconcilable, Launchable;
    ListedIsDecided(cfg, w, Batch, all, now);
    if WorkList(cfg, w, Batch, all, now) != [] {
      var x := WorkList(cfg, w, Batch, all, now)[0];
      assert x in WorkList(cfg, w, Batch, all, now);
      DecidesByConditions(cfg, w, x.id, now, x);
    }
    if SomeCandidate(cfg, w, all) {
      var id :| id in all && id in w.st.records
                && (|| Reconcilable(id, w.st.records[id], w.reconciled, w.deferred)
                    || Launchable(id, w.st.records[id], cfg.maxAttempts, w.st.cancelled, w.reconcileOnly, w.deferred));
      CandidateIsDecided(cfg, w, id, now);
      DecidedIsListed(cfg, w, Batch, all, now, id);
    }
  }

  lemma CandidateIsDecided(cfg: Config, w: World, id: OperationID, now: int)
    requires id in w.st.records
    requires || Reconcilable(id, w.st.records[id], w.reconciled, w.deferred)
             || Launchable(id, w.st.records[id], cfg.maxAttempts, w.st.cancelled, w.reconcileOnly, w.deferred)
    ensures Decide(cfg, w, Batch, id, now).Some?
  {
    var r := w.st.records[id];
    var kind, attempt :=
      if r.reconcileRequired then ReconcileTask else ApplyTask,
      if r.reconcileRequired then r.attempt else (r.attempt + 1) % 0x1_0000_0000;
    DecidesByConditions(cfg, w, id, now, LaunchWork(id, kind, attempt, r.ambiguous));
  }

  /**
   Which branch an iteration takes, in terms of the records: a run that is to stop is cancelled first; then
   expired leases, and unless the run is cancelled unannounced, interrupted and doomed operations, each only
   when nothing comes before; then a batch; and only when there is none the completion, the wait or the return.
   */
  lemma TurnIsExact(cfg: Config, s: LoopState, all: seq<OperationID>, now: int)
    requires forall id :: id in all <==> id in s.w.st.records
    ensures var w, turn := s.w, ChooseTurn(cfg, s, all, now);
      var stop := s.stopping && !w.st.cancelled;
      var expired := SomeDue(cfg, w, all, Expiry, now);
      var ready := !w.st.cancelled && SomeDue(cfg, w, all, Readiness, now);
      var interrupted := !w.st.cancelled && SomeDue(cfg, w, all, Recovery, now);
      var doomed := !w.st.cancelled && SomeDue(cfg, w, all, Cancellation, now);
      var busy := stop || expired || ready || interrupted || doomed || SomeCandidate(cfg, w, all);
      var finished := forall id :: id in w.st.records ==>
                        && !w.st.records[id].reconcileRequired && !w.st.records[id].leaseActive
                        && (w.st.records[id].state == Published || Lost(w.st.records[id], cfg.maxAttempts));
      && (turn.CancelTheRun? <==> stop)
      && (turn == TakePass(Expiry) <==> !stop && expired)
      && (turn == TakePass(Readiness) <==> !stop && !expired && ready)
      && (turn == TakePass(Recovery) <==> !stop && !expired && !ready && interrupted)
      && (turn == TakePass(Cancellation) <==> !stop && !expired && !ready && !interrupted && doomed)
      && (turn == TakePass(Batch) <==>
            !stop && !expired && !ready && !interrupted && !doomed && SomeCandidate(cfg, w, all))
      && (turn.CompleteTheRun? <==> !busy && !w.st.cancelled && finished)
      && (turn.AwaitExpiry? ==> !busy && !w.st.cancelled && !finished)
      && (turn.Return? ==> !busy && (w.st.cancelled || !finished))
  {
    hide WorkList, SomeDue, SomeCandidate, ExecutorQuiescent, Lost, NextExpiry;
    var w := s.w;
    PassFindsDue(cfg, w, all, Expiry, now);
    PassFindsDue(cfg, w, all, Readiness, now);
    PassFindsDue(cfg, w, all, Recovery, now);
    PassFindsDue(cfg, w, all, Cancellation, now);
    BatchFindsCandidates(cfg, w, all, now);
    QuiescenceIsExact(cfg, w.st.records);
  }

  lemma QuiescenceIsExact(cfg: Config, records: Records)
    ensures ExecutorQuiescent(cfg, records) <==>
              forall id :: id in records ==>
                && !records[id].reconcileRequired && !records[id].leaseActive
                && (records[id].state == Published || Lost(records[id], cfg.maxAttempts))
  {
    assert forall id | id in records ::
        Exhausted(cfg, records[id]) <==>
          records[id].state == Failed && Lost(records[id], cfg.maxAttempts);
    hide Exhausted;
  }
}
