/** Confluence at work: the tasks of an executor's batch may reach the journal in any order. */
module BatchConfluence {
  import opened Domain
  import opened Events
  import opened Reducer
  import opened ReducerSafety
  import opened Planning
  import opened Executor
  import opened Scheduler
  import opened SchedulerClosure
  import opened SchedulerRuns
  import opened ExecutorSafety
  import opened SchedulerProgress
  import opened Confluence

  /** The tasks of a batch move, or fail to record an outcome, in some order, and nothing else happens. */
  predicate BatchSteps(steps: seq<(Label, int)>) {
    forall step | step in steps :: step.0.MoveTask? || step.0.RefuseOutcome?
  }

  /** Where a batch stands: the notes of its tasks follow the journal that it started from. */
  ghost predicate BatchAt(cfg: Config, w: World, after: World, notes: seq<Note>) {
    && Sound(cfg, after) && KeysSound(after)
    && after.tasks.Keys <= w.tasks.Keys
    && after.journal == w.journal + Numbered(notes, w.st.next)
    && TaskNotes(w.st, notes)
    && SameRun(w.st, after.st)
  }

  lemma BegunWorld(cfg: Config, w: World, id: OperationID)
    requires Sound(cfg, w) && id in w.tasks
    ensures w.st.started && !w.st.completed && w.st.runId == cfg.runId && w.st.next == |w.journal| + 1
    ensures id in w.st.records && w.st.records[id].state != Planned && Invariant(cfg.plan, w.st)
    ensures id in cfg.plan.operations && w.st.records[id].op == cfg.plan.operations[id]
  {
    SoundTask(cfg, w, id);
    ActiveRecord(w.st.records[id], w.tasks[id]);
  }

  lemma MoveIsTaskNote(cfg: Config, w: World, current: World, id: OperationID, move: TaskMove, now: int, after: World)
    requires Sound(cfg, w) && Sound(cfg, current) && KeysSound(current) && id in w.tasks && SameRun(w.st, current.st)
    requires Perform(cfg, current, MoveTask(id, move), now) == Some(after) && !after.broken
    ensures Sound(cfg, after) && KeysSound(after) && after.tasks.Keys <= current.tasks.Keys
            && SameRun(current.st, after.st)
    ensures after.journal != [] && after.journal == current.journal + [LastEvent(after)]
    ensures LastEvent(after).schemaVersion == SCHEMA_VERSION && LastEvent(after).sequence == |current.journal| + 1
    ensures TaskNote(w.st, Note(LastEvent(after).entry, LastEvent(after).observedAt))
  {
    hide Perform, Sound, KeysSound, Turned, OperationTransition, SettlesState, MoveShape, Written, TaskInvariant,
      MoveAccepted, LawfulOperationEvent, Carries, ValidEvent, Invariant;
    var outcome := MoveFacts(cfg, current, id, move, now, after);
    MoveTaskKeepsKeys(cfg, current, id, move, now, after);
    WrittenExtends(cfg, current, after);
    var e := LastEvent(after);
    TurnedOwn(cfg, current, after, e);
    BegunWorld(cfg, w, id);
    BegunWorld(cfg, current, id);
    LawfulTarget(cfg, current, current.st.records[id], e);
    AcceptedIsNoStart(current.st.records[id], e, current.tasks[id], move, outcome);
    ShapedTasks(current, after, id, current.tasks[id], move, outcome, after.st.records[id]);
    SoundCore(cfg, current);
    StepNumbers(cfg, current, after, e);
  }

  lemma LawfulTarget(cfg: Config, w: World, r: Record, e: Event)
    requires LawfulOperationEvent(cfg, w, r, e)
    ensures e.entry.targetId == r.op.target
  {
    hide Doomed, Applicable, Interrupted;
  }

  lemma ShapedTasks(w: World, after: World, id: OperationID, t: Task, move: TaskMove, outcome: Outcome, next: Record)
    requires MoveShape(w, after, id, t, move, outcome, next)
    ensures after.tasks.Keys <= w.tasks.Keys
  {
    hide TaskAfter;
  }

  lemma StepNumbers(cfg: Config, w: World, after: World, e: Event)
    requires Written(cfg, w, after) && Core(cfg, w) && e == LastEvent(after)
    requires !RunLifecycle(e.entry.kind)
    ensures e.schemaVersion == SCHEMA_VERSION && e.sequence == |w.journal| + 1
    ensures ValidEvent(Number(Note(e.entry, e.observedAt), 1))
    ensures w.st.cancelled ==> AllowedAfterRunCancellation(e.entry.kind)
  {
    hide ValidEntry, OperationStep, Invariant, GoodPlan, Replay;
  }

  lemma NoNotes(w: World)
    ensures Numbered([], w.st.next) == [] && TaskNotes(w.st, [])
  {
  }

  lemma NotesGrow(w: World, journal: seq<Event>, notes: seq<Note>, note: Note)
    requires journal == w.journal + Numbered(notes, w.st.next) && w.st.next == |w.journal| + 1
    ensures journal + [Number(note, |journal| + 1)] == w.journal + Numbered(notes + [note], w.st.next)
    ensures TaskNotes(w.st, notes) && TaskNote(w.st, note) ==> TaskNotes(w.st, notes + [note])
  {
    hide TaskNote;
    NumberedCount(notes, w.st.next);
    assert (notes + [note])[..|notes|] == notes;
  }

  /** One more step of the batch adds at most one note. */
  lemma BatchTakesStep(cfg: Config, w: World, current: World, notes: seq<Note>, step: Label, now: int, after: World)
    returns (more: seq<Note>)
    requires Sound(cfg, w) && BatchAt(cfg, w, current, notes) && (step.MoveTask? || step.RefuseOutcome?)
    requires Perform(cfg, current, step, now) == Some(after) && !after.broken
    ensures BatchAt(cfg, w, after, more)
  {
    hide Perform, Sound, KeysSound, TaskNote, TaskNotes, Numbered;
    if step.RefuseOutcome? {
      RefusalWritesNothing(cfg, current, step.id, now, after);
      more := notes;
    } else {
      more := BatchMoves(cfg, w, current, notes, step.id, step.move, now, after);
    }
  }

  lemma BatchExtends(cfg: Config, w: World, current: World, notes: seq<Note>, after: World, note: Note)
    requires BatchAt(cfg, w, current, notes) && w.st.next == |w.journal| + 1
    requires Sound(cfg, after) && KeysSound(after) && after.tasks.Keys <= current.tasks.Keys
             && SameRun(current.st, after.st)
    requires TaskNote(w.st, note) && after.journal == current.journal + [Number(note, |current.journal| + 1)]
    ensures BatchAt(cfg, w, after, notes + [note])
  {
    hide Sound, KeysSound, TaskNote, TaskNotes, Numbered;
    NotesGrow(w, current.journal, notes, note);
  }

  lemma BatchFacts(cfg: Config, w: World, current: World, notes: seq<Note>)
    requires BatchAt(cfg, w, current, notes)
    ensures Sound(cfg, current) && KeysSound(current) && current.tasks.Keys <= w.tasks.Keys && SameRun(w.st, current.st)
  {
    hide Sound, KeysSound, SameRun;
  }

  lemma BatchMoves(cfg: Config, w: World, current: World, notes: seq<Note>, id: OperationID, move: TaskMove, now: int,
                   after: World)
    returns (more: seq<Note>)
    requires Sound(cfg, w) && BatchAt(cfg, w, current, notes)
    requires Perform(cfg, current, MoveTask(id, move), now) == Some(after) && !after.broken
    ensures BatchAt(cfg, w, after, more)
  {
    hide Perform, PerformMove, Sound, KeysSound, TaskNote, TaskNotes, Numbered, BatchAt, SameRun;
    BatchFacts(cfg, w, current, notes);
    MoveIsPerformed(cfg, current, id, move, now);
    MovesNeedTasks(cfg, current, id, move, now);
    MoveIsTaskNote(cfg, w, current, id, move, now, after);
    BegunWorld(cfg, w, id);
    var note := Note(LastEvent(after).entry, LastEvent(after).observedAt);
    BatchExtends(cfg, w, current, notes, after, note);
    more := notes + [note];
  }

  /** What the tasks of a batch append are task notes, numbered in the order in which they arrive. */
  lemma {:induction false} BatchWritesNotes(cfg: Config, w: World, steps: seq<(Label, int)>, after: World)
    returns (notes: seq<Note>)
    requires Sound(cfg, w) && KeysSound(w) && BatchSteps(steps) && Run(cfg, w, steps) == Some(after) && !after.broken
    ensures BatchAt(cfg, w, after, notes)
    decreases |steps|
  {
    hide Perform, Sound, KeysSound, TaskNotes, Numbered, BatchAt;
    notes := [];
    if steps == [] {
      EmptyBatch(cfg, w);
    } else {
      var front, last := steps[..|steps| - 1], steps[|steps| - 1];
      var current := Run(cfg, w, front).value;
      assert last in steps;
      BrokenWorldsStop(cfg, current, last.0, last.1);
      notes := BatchWritesNotes(cfg, w, front, current);
      notes := BatchTakesStep(cfg, w, current, notes, last.0, last.1, after);
    }
  }

  lemma EmptyBatch(cfg: Config, w: World)
    requires Sound(cfg, w) && KeysSound(w)
    ensures BatchAt(cfg, w, w, [])
  {
    hide Sound, KeysSound;
    NoNotes(w);
  }

  lemma MoveIsPerformed(cfg: Config, w: World, id: OperationID, move: TaskMove, now: int)
    requires Perform(cfg, w, MoveTask(id, move), now).Some?
    ensures PerformMove(cfg, w, id, move, now).Some?
  {
    hide PerformMove;
  }

  lemma RefusalWritesNothing(cfg: Config, w: World, id: OperationID, now: int, after: World)
    requires Sound(cfg, w) && KeysSound(w) && Perform(cfg, w, RefuseOutcome(id), now) == Some(after)
    ensures Sound(cfg, after) && KeysSound(after) && after.journal == w.journal && after.st == w.st
            && after.tasks.Keys == w.tasks.Keys
  {
    hide Sound, KeysSound;
    RefuseOutcomeAdvances(cfg, w, id, now, after);
    SilentStepsKeepKeys(cfg, w, RefuseOutcome(id), now, after);
  }

  lemma {:induction false} ReplayJoins(planId: PlanID, st: RunState, before: seq<Event>, after: seq<Event>)
    requires ReplayFrom(planId, st, before).Ok?
    ensures ReplayFrom(planId, st, before + after) == ReplayFrom(planId, ReplayFrom(planId, st, before).value, after)
    decreases |after|
  {
    hide Step;
    if after == [] { assert before + after == before; }
    else {
      assert (before + after)[..|before + after| - 1] == before + after[..|after| - 1];
      ReplayJoins(planId, st, before, after[..|after| - 1]);
    }
  }

  /**
   For the journal that a batch has written, every other interleaving of the same events of each
   operation would have been accepted too, and leaves every operation and every target in the same state.
   */
  lemma BatchOrderIsIrrelevant(cfg: Config, w: World, steps: seq<(Label, int)>, after: World)
    returns (notes: seq<Note>)
    requires Sound(cfg, w) && KeysSound(w) && w.tasks != map[] && BatchSteps(steps)
    requires Run(cfg, w, steps) == Some(after) && !after.broken
    ensures after.journal == w.journal + Numbered(notes, w.st.next)
    ensures forall other: seq<Note> :: SameNotes(notes, other) ==>
              var replayed := Replay(cfg.plan, w.journal + Numbered(other, w.st.next));
              replayed.Ok? && Derive(cfg.plan, replayed.value) == Derive(cfg.plan, after.st)
  {
    hide Run, Sound, KeysSound, TaskNote, Derive, Invariant, ReplayFrom;
    notes := BatchWritesNotes(cfg, w, steps, after);
    var id :| id in w.tasks;
    BegunWorld(cfg, w, id);
    SoundReplay(cfg, w);
    SoundReplay(cfg, after);
    var start := InitialState(cfg.plan);
    assert ValidIdentifier(cfg.plan.id) by { SoundReplay(cfg, w); }
    ReplayJoins(cfg.plan.id, start, w.journal, Numbered(notes, w.st.next));
    forall other: seq<Note> | SameNotes(notes, other)
      ensures var replayed := Replay(cfg.plan, w.journal + Numbered(other, w.st.next));
        replayed.Ok? && Derive(cfg.plan, replayed.value) == Derive(cfg.plan, after.st)
    {
      InterleavingsAgree(cfg.plan, w.st, notes, other);
      ReplayJoins(cfg.plan.id, start, w.journal, Numbered(other, w.st.next));
    }
  }
}
