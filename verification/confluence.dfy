/**
 The order in which concurrent tasks reach the journal does not matter: the reducer accepts
 an interleaving of their events exactly when it accepts each operation's own events, and
 every interleaving reduces to the same operations and targets.
 */
module Confluence {
  import opened Domain
  import opened Events
  import opened Reducer
  import opened ReducerSafety

  /** An event before the journal numbers it. */
  datatype Note = Note(entry: Entry, observedAt: int)

  function Number(note: Note, sequence: nat): Event {
    Event(SCHEMA_VERSION, sequence, note.entry, note.observedAt)
  }

  /** The notes as the journal numbers them from its next sequence number on. */
  function Numbered(notes: seq<Note>, next: nat): seq<Event> {
    if notes == [] then []
    else Numbered(notes[..|notes| - 1], next) + [Number(notes[|notes| - 1], next + |notes| - 1)]
  }

  /** The notes about one operation, in their order. */
  function Project(notes: seq<Note>, id: OperationID): seq<Note> {
    if notes == [] then []
    else
      var last := notes[|notes| - 1];
      Project(notes[..|notes| - 1], id) + if last.entry.operationId == id then [last] else []
  }

  /** The operation's own notes applied to its own record, ignoring all others. */
  function LocalRun(r: Record, id: OperationID, notes: seq<Note>): Option<Record> {
    if notes == [] then Some(r)
    else
      var last := notes[|notes| - 1];
      match LocalRun(r, id, notes[..|notes| - 1])
      case None => None
      case Some(before) =>
        if last.entry.operationId != id then Some(before) else OperationTransition(before, Number(last, 1), false)
  }

  /** A task's event: a valid event of an operation that is no longer planned, other than the start of an attempt. */
  predicate TaskNote(st: RunState, note: Note) {
    && ValidEvent(Number(note, 1))
    && note.entry.runId == st.runId
    && !RunLifecycle(note.entry.kind) && !note.entry.kind.AttemptStarted?
    && (st.cancelled ==> AllowedAfterRunCancellation(note.entry.kind))
    && note.entry.operationId in st.records
    && var r := st.records[note.entry.operationId];
       note.entry.targetId == r.op.target && r.state != Planned
  }

  ghost predicate TaskNotes(st: RunState, notes: seq<Note>) {
    forall note :: note in notes ==> TaskNote(st, note)
  }

  ghost predicate LocallyAccepted(records: Records, notes: seq<Note>) {
    forall id :: id in records ==> LocalRun(records[id], id, notes).Some?
  }

  ghost function LocalRecords(records: Records, notes: seq<Note>): Records
    requires LocallyAccepted(records, notes)
  {
    map id | id in records :: LocalRun(records[id], id, notes).value
  }

  lemma NumberedCount(notes: seq<Note>, next: nat)
    ensures |Numbered(notes, next)| == |notes|
  {
  }

  /** An operation's run depends on its own notes only. */
  lemma {:induction false} LocalRunProjects(r: Record, id: OperationID, notes: seq<Note>)
    ensures LocalRun(r, id, notes) == LocalRun(r, id, Project(notes, id))
  {
    hide OperationTransition;
    if notes != [] {
      var front, last := notes[..|notes| - 1], notes[|notes| - 1];
      LocalRunProjects(r, id, front);
      var projected := Project(notes, id);
      if last.entry.operationId == id {
        assert projected[..|projected| - 1] == Project(front, id);
      } else {
        assert projected == Project(front, id);
      }
    }
  }

  /** The sequence number does not influence a transition, and without attempts neither do the dependencies. */
  lemma TransitionIgnoresNumber(r: Record, note: Note, sequence: nat, published: bool)
    requires !note.entry.kind.AttemptStarted?
    ensures OperationTransition(r, Number(note, sequence), published) == OperationTransition(r, Number(note, 1), false)
  {
  }

  /** Along its own notes an operation keeps its invariant, stays released from planning and keeps its operation. */
  ghost predicate Descends(r: Record, after: Record) {
    && RecordInvariant(after) && after.op == r.op
    && (after.state == Planned ==> after == r)
    && (r.state == Published ==> after.state == Published)
  }

  lemma {:induction false} LocalRunDescends(st: RunState, id: OperationID, notes: seq<Note>)
    requires TaskNotes(st, notes) && id in st.records && RecordInvariant(st.records[id])
    requires LocalRun(st.records[id], id, notes).Some?
    ensures Descends(st.records[id], LocalRun(st.records[id], id, notes).value)
    decreases |notes|
  {
    hide OperationTransition, RecordInvariant, ValidEvent;
    if notes != [] {
      var front, last := notes[..|notes| - 1], notes[|notes| - 1];
      LocalRunDescends(st, id, front);
      if last.entry.operationId == id {
        assert TaskNote(st, last);
        ValidIsMeaningful(Number(last, 1));
        TransitionIsSound(LocalRun(st.records[id], id, front).value, Number(last, 1), false);
      }
    }
  }

  /** One more event before or after the refresh: the refreshed records come out the same. */
  lemma RefreshCommutes(records: Records, id: OperationID, next: Record, kind: EventKind)
    requires id in records && next.state != Planned && next.op == records[id].op && records[id].state != Planned
    requires records[id].state == Published ==> next.state == Published
    requires !Refreshes(kind) ==> (next.state == Published <==> records[id].state == Published)
    ensures UpdateRecords(RefreshReady(records), id, next, Refreshes(kind)) == RefreshReady(records[id := next])
  {
    var left, right := UpdateRecords(RefreshReady(records), id, next, Refreshes(kind)),
                       RefreshReady(records[id := next]);
    assert left.Keys == right.Keys;
    forall j | j in right ensures left[j] == right[j] {
      if j != id { RefreshedAlike(records, id, next, kind, j); }
    }
  }

  lemma RefreshedAlike(records: Records, id: OperationID, next: Record, kind: EventKind, j: OperationID)
    requires id in records && j in records && j != id && next.state != Planned && records[id].state != Planned
    requires records[id].state == Published ==> next.state == Published
    requires !Refreshes(kind) ==> (next.state == Published <==> records[id].state == Published)
    ensures UpdateRecords(RefreshReady(records), id, next, Refreshes(kind))[j] == RefreshReady(records[id := next])[j]
  {
    hide DependenciesPublished, Refreshes, RefreshRecord;
    var op := records[j].op;
    var replaced, refreshed := records[id := next], RefreshReady(records)[id := next];
    forall k | k in records
      ensures RefreshRecord(records[k], records).state == Published <==> records[k].state == Published
    {
      RefreshPublishesNothing(records[k], records);
    }
    SamePublished(op, refreshed, replaced);
    MorePublished(op, records, replaced);
    if !Refreshes(kind) { SamePublished(op, records, replaced); }
    RefreshTwice(records[j], records, refreshed, replaced);
  }

  lemma RefreshPublishesNothing(r: Record, records: Records)
    ensures RefreshRecord(r, records).state == Published <==> r.state == Published
  {
    hide DependenciesPublished;
  }

  /** Refreshing before and after a change comes to refreshing after it. */
  lemma RefreshTwice(r: Record, before: Records, between: Records, after: Records)
    requires DependenciesPublished(r.op, between) <==> DependenciesPublished(r.op, after)
    requires DependenciesPublished(r.op, before) ==> DependenciesPublished(r.op, after)
    ensures RefreshRecord(RefreshRecord(r, before), between) == RefreshRecord(r, after)
    ensures (DependenciesPublished(r.op, before) <==> DependenciesPublished(r.op, after)) ==>
              RefreshRecord(r, before) == RefreshRecord(r, after)
  {
    hide DependenciesPublished;
  }

  lemma SamePublished(op: Operation, a: Records, b: Records)
    requires a.Keys == b.Keys && forall j :: j in a ==> (a[j].state == Published <==> b[j].state == Published)
    ensures DependenciesPublished(op, a) <==> DependenciesPublished(op, b)
  {
  }

  lemma MorePublished(op: Operation, a: Records, b: Records)
    requires a.Keys == b.Keys && forall j :: j in a && a[j].state == Published ==> b[j].state == Published
    ensures DependenciesPublished(op, a) ==> DependenciesPublished(op, b)
  {
  }

  /** Where a started run stands after all notes, if every operation accepts its own. */
  ghost function Reached(st: RunState, notes: seq<Note>): RunState
    requires LocallyAccepted(st.records, notes)
  {
    st.(next := st.next + |notes|, records := RefreshReady(LocalRecords(st.records, notes)))
  }

  lemma NothingHappens(plan: Plan, st: RunState)
    requires Invariant(plan, st) && st.started
    ensures LocallyAccepted(st.records, []) && Reached(st, []) == st
  {
    hide RecordInvariant, DependenciesPublished, CancelledInvariant;
    assert LocalRecords(st.records, []) == st.records;
    assert RefreshReady(st.records) == st.records;
  }

  lemma LocalRunExtends(r: Record, j: OperationID, front: seq<Note>, note: Note)
    requires LocalRun(r, j, front).Some?
    ensures LocalRun(r, j, front + [note])
            == if note.entry.operationId != j then LocalRun(r, j, front)
               else OperationTransition(LocalRun(r, j, front).value, Number(note, 1), false)
  {
    hide OperationTransition;
    assert (front + [note])[..|front|] == front;
  }

  lemma LocalRecordsExtend(records: Records, front: seq<Note>, note: Note)
    requires LocallyAccepted(records, front) && note.entry.operationId in records
    ensures var id := note.entry.operationId;
      var next := OperationTransition(LocalRecords(records, front)[id], Number(note, 1), false);
      && (LocallyAccepted(records, front + [note]) <==> next.Some?)
      && (next.Some? ==> LocalRecords(records, front + [note]) == LocalRecords(records, front)[id := next.value])
  {
    hide OperationTransition, LocalRun;
    forall j | j in records
      ensures LocalRun(records[j], j, front + [note])
              == if note.entry.operationId != j then LocalRun(records[j], j, front)
                 else OperationTransition(LocalRun(records[j], j, front).value, Number(note, 1), false)
    {
      LocalRunExtends(records[j], j, front, note);
    }
  }

  /** One more note: it is accepted where the notes before it lead exactly if its own operation accepts it. */
  lemma OneMoreNote(plan: Plan, st: RunState, front: seq<Note>, note: Note)
    requires Invariant(plan, st) && st.started && !st.completed
    requires TaskNotes(st, front + [note]) && LocallyAccepted(st.records, front)
    ensures var after := Step(plan.id, Reached(st, front), Number(note, st.next + |front|));
      && (after.Ok? <==> LocallyAccepted(st.records, front + [note]))
      && (after.Ok? ==> after == Ok(Reached(st, front + [note])))
  {
    hide OperationTransition, RecordInvariant, ValidEvent, Invariant, DependenciesPublished, LocalRun, Step,
      RefreshReady;
    TaskNoteFacts(plan, st, front, note);
    LocalRecordsExtend(st.records, front, note);
    StepOnNote(plan, st, LocalRecords(st.records, front), note, st.next + |front|);
  }

  lemma TaskNoteFacts(plan: Plan, st: RunState, front: seq<Note>, note: Note)
    requires Invariant(plan, st) && TaskNotes(st, front + [note]) && LocallyAccepted(st.records, front)
    ensures TaskNote(st, note)
    ensures var r := LocalRecords(st.records, front)[note.entry.operationId];
      RecordInvariant(r) && r.state != Planned && note.entry.targetId == r.op.target
    ensures ValidEvent(Number(note, st.next + |front|))
  {
    var id := note.entry.operationId;
    assert note in front + [note] && TaskNote(st, note);
    assert TaskNotes(st, front);
    assert RecordInvariant(st.records[id]);
    hide RecordInvariant, ValidEvent, LocalRun, Invariant;
    LocalRunDescends(st, id, front);
    NumbersStart(plan, st);
    NumberIsValid(note, st.next + |front|);
  }

  lemma NumbersStart(plan: Plan, st: RunState)
    requires Invariant(plan, st)
    ensures st.next >= 1
  {
  }

  /** The step on the refreshed records, told by the records before the refresh. */
  lemma StepOnNote(plan: Plan, st: RunState, local: Records, note: Note, number: nat)
    requires var id := note.entry.operationId;
      id in local && RecordInvariant(local[id]) && local[id].state != Planned
      && note.entry.targetId == local[id].op.target
    requires ValidEvent(Number(note, number)) && ValidEvent(Number(note, 1)) && st.started && !st.completed
    requires note.entry.runId == st.runId && !RunLifecycle(note.entry.kind) && !note.entry.kind.AttemptStarted?
    requires st.cancelled ==> AllowedAfterRunCancellation(note.entry.kind)
    ensures var id := note.entry.operationId;
      var next := OperationTransition(local[id], Number(note, 1), false);
      var after := Step(plan.id, st.(next := number, records := RefreshReady(local)), Number(note, number));
      && (after.Ok? <==> next.Some?)
      && (next.Some? ==> after == Ok(st.(next := number + 1, records := RefreshReady(local[id := next.value]))))
  {
    hide OperationTransition, RecordInvariant, ValidEvent, DependenciesPublished, SoundTransition, Step, UpdateRecords;
    var id := note.entry.operationId;
    var r, e, refreshed := local[id], Number(note, number), RefreshReady(local);
    assert refreshed[id] == r;
    TransitionIgnoresNumber(r, note, number, DependenciesPublished(r.op, refreshed));
    NoteIsAdmitted(plan, st.(next := number, records := refreshed), e);
    var next := OperationTransition(r, Number(note, 1), false);
    if next.Some? {
      ValidIsMeaningful(Number(note, 1));
      TransitionIsSound(r, Number(note, 1), false);
      SoundForRefresh(r, next.value, e.entry.kind);
      RefreshCommutes(local, id, next.value, e.entry.kind);
    }
  }

  lemma SoundForRefresh(r: Record, next: Record, kind: EventKind)
    requires SoundTransition(r, next, kind, false) && r.state != Planned
    ensures next.state != Planned && next.op == r.op && (r.state == Published ==> next.state == Published)
    ensures !Refreshes(kind) ==> (next.state == Published <==> r.state == Published)
  {
    hide RecordInvariant, CancelledInvariant;
  }

  lemma NumberIsValid(note: Note, sequence: nat)
    requires ValidEvent(Number(note, 1)) && sequence >= 1
    ensures ValidEvent(Number(note, sequence))
  {
    hide ValidEntry;
  }

  lemma NoteIsAdmitted(plan: Plan, st: RunState, e: Event)
    requires ValidEvent(e) && e.sequence == st.next && e.entry.runId == st.runId && st.started && !st.completed
    requires !RunLifecycle(e.entry.kind) && (st.cancelled ==> AllowedAfterRunCancellation(e.entry.kind))
    ensures Step(plan.id, st, e) == OperationStep(st.(next := st.next + 1), e)
  {
    hide ValidEvent, OperationStep;
    assert Admission(st, e) == None;
  }

  /**
   The closed form of an interleaving: accepted exactly if each operation accepts its own events, and
   then every operation ends where its own events lead, after one refresh of the planned ones.
   */
  lemma {:induction false} InterleavingReduces(plan: Plan, st: RunState, notes: seq<Note>)
    requires Invariant(plan, st) && st.started && !st.completed && TaskNotes(st, notes)
    ensures ReplayFrom(plan.id, st, Numbered(notes, st.next)).Ok? <==> LocallyAccepted(st.records, notes)
    ensures LocallyAccepted(st.records, notes) ==>
              ReplayFrom(plan.id, st, Numbered(notes, st.next)) == Ok(Reached(st, notes))
    decreases |notes|
  {
    hide Step, OperationTransition, Invariant, Reached, TaskNote;
    if notes == [] {
      NothingHappens(plan, st);
    } else {
      var front, last := notes[..|notes| - 1], notes[|notes| - 1];
      InterleavingReduces(plan, st, front);
      var events := Numbered(notes, st.next);
      NumberedCount(front, st.next);
      assert events[..|events| - 1] == Numbered(front, st.next);
      assert notes == front + [last];
      if LocallyAccepted(st.records, front) { OneMoreNote(plan, st, front, last); }
      else { RefusalStays(st.records, front, last); }
    }
  }

  lemma RefusalStays(records: Records, front: seq<Note>, note: Note)
    requires !LocallyAccepted(records, front)
    ensures !LocallyAccepted(records, front + [note])
  {
    hide OperationTransition;
    assert (front + [note])[..|front|] == front;
    var id :| id in records && LocalRun(records[id], id, front).None?;
    assert LocalRun(records[id], id, front + [note]).None?;
  }

  /** Two orders of the same events: each operation's own events come in the same order. */
  ghost predicate SameNotes(a: seq<Note>, b: seq<Note>) {
    forall id :: Project(a, id) == Project(b, id)
  }

  lemma {:induction false} ProjectMembers(notes: seq<Note>, note: Note)
    ensures note in notes <==> note in Project(notes, note.entry.operationId)
  {
    if notes != [] {
      ProjectMembers(notes[..|notes| - 1], note);
      assert notes == notes[..|notes| - 1] + [notes[|notes| - 1]];
    }
  }

  lemma SameMembers(a: seq<Note>, b: seq<Note>, st: RunState)
    requires SameNotes(a, b) && TaskNotes(st, a)
    ensures TaskNotes(st, b)
  {
    hide TaskNote;
    forall note | note in b ensures TaskNote(st, note) {
      ProjectMembers(a, note);
      ProjectMembers(b, note);
      assert Project(a, note.entry.operationId) == Project(b, note.entry.operationId);
    }
  }

  /**
   Confluence: any two interleavings of the operations' events are both accepted or both refused, and
   reduce to the same derived state of the operations and the targets.
   */
  lemma InterleavingsAgree(plan: Plan, st: RunState, a: seq<Note>, b: seq<Note>)
    requires Invariant(plan, st) && st.started && !st.completed
    requires TaskNotes(st, a) && SameNotes(a, b)
    ensures var left, right := ReplayFrom(plan.id, st, Numbered(a, st.next)),
            ReplayFrom(plan.id, st, Numbered(b, st.next));
      && (left.Ok? <==> right.Ok?)
      && (left.Ok? ==> Derive(plan, left.value) == Derive(plan, right.value))
  {
    hide LocalRun, Project, Invariant, ReplayFrom, TaskNote, RefreshReady, DeriveTargetMap;
    SameMembers(a, b, st);
    InterleavingReduces(plan, st, a);
    InterleavingReduces(plan, st, b);
    forall id | id in st.records ensures LocalRun(st.records[id], id, a) == LocalRun(st.records[id], id, b) {
      LocalRunProjects(st.records[id], id, a);
      LocalRunProjects(st.records[id], id, b);
    }
    if LocallyAccepted(st.records, a) { assert LocalRecords(st.records, a) == LocalRecords(st.records, b); }
  }
}
