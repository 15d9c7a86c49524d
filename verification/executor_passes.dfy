/**
 The passes of the executor's loop as they run: each walks over the operations of one reduced
 state and appends to the journal. They append exactly the work that the machine of steps plans.
 */
module ExecutorPasses {
  import opened Domain
  import opened Events
  import opened Reducer
  import opened Executor
  import opened Scheduler
  import opened Frames
  import opened JournalWriter

  /** The machine at the top of the loop; passes look at the reduced state and at the two key sets. */
  function Snapshot(st: RunState, reconciled: set<Key>, deferred: set<Key>, reconcileOnly: bool): World {
    World([], st, false, 1, [], map[], reconciled, deferred, false, reconcileOnly, {})
  }

  function PassWorld(st: RunState): World {
    Snapshot(st, {}, {}, false)
  }

  function WorkEntry(cfg: Config, records: Records, work: Work): Entry
    requires work.id in records
  {
    var report := WorkReport(work, NO_LEASE);
    OperationEntry(cfg, records[work.id].op, report.kind, report.payload)
  }

  /** The entries of the pass, as far as it walks. */
  function PassEntries(cfg: Config, st: RunState, phase: Phase, ids: seq<OperationID>, now: int): seq<Entry>
    requires forall id :: id in ids ==> id in st.records
  {
    if ids == [] then []
    else
      var last := ids[|ids| - 1];
      var work := Decide(cfg, PassWorld(st), phase, last, now);
      PassEntries(cfg, st, phase, ids[..|ids| - 1], now)
      + if work.Some? then [WorkEntry(cfg, st.records, work.value)] else []
  }

  lemma DecidesAbout(cfg: Config, w: World, phase: Phase, id: OperationID, now: int)
    requires id in w.st.records
    ensures Decide(cfg, w, phase, id, now).Some? ==> Decide(cfg, w, phase, id, now).value.id == id
  {
    hide Doomed, Interrupted, LeaseRanOut, ReadyUnjournaled, Applicable;
  }

  function Entries(events: seq<Event>): seq<Entry> {
    seq(|events|, i requires 0 <= i < |events| => events[i].entry)
  }

  /**
   Appending entries one after another: how many succeed, the failure that ends it early, and the
   writer's condition.
   */
  datatype Appends = Appends(count: nat, failure: Option<AppendError>, condition: Condition)

  /** The entries are appended in order until one fails. */
  function AppendAll(codec: Codec, runId: RunID, c: Condition, entries: seq<Entry>, now: int): (a: Appends)
    ensures a.count <= |entries| && (a.failure.None? <==> a.count == |entries|)
  {
    if entries == [] then Appends(0, None, c)
    else
      var before := AppendAll(codec, runId, c, entries[..|entries| - 1], now);
      if before.failure.Some? then before
      else
        match Attempt(codec, runId, before.condition, entries[|entries| - 1], now)
        case (Err(error), condition) => Appends(before.count, Some(error), condition)
        case (Ok(_), condition) => Appends(before.count + 1, None, condition)
  }

  /** A failure on the way is the failure of the whole. */
  lemma {:induction false} FailureEndsAll(codec: Codec, runId: RunID, c: Condition, entries: seq<Entry>, k: nat,
                                          now: int)
    requires k <= |entries| && AppendAll(codec, runId, c, entries[..k], now).failure.Some?
    ensures AppendAll(codec, runId, c, entries, now) == AppendAll(codec, runId, c, entries[..k], now)
    decreases |entries|
  {
    hide Attempt;
    if k == |entries| { assert entries[..k] == entries; }
    else {
      var front := entries[..|entries| - 1];
      assert front[..k] == entries[..k];
      FailureEndsAll(codec, runId, c, front, k, now);
    }
  }

  /**
   A pass appends its entries in order. It ends well, telling whether there were any, exactly if every
   append succeeds; otherwise it ends with the first one that fails, and that append's error.
   */
  ghost predicate PassDone(writer: Writer, before: seq<Event>, c: Condition, entries: seq<Entry>, now: int,
                           result: Result<bool, AppendError>)
    reads writer, writer.file
  {
    var a := AppendAll(writer.codec, writer.runId, c, entries, now);
    && before <= writer.events
    && Entries(writer.events[|before|..]) == entries[..a.count]
    && writer.Status() == a.condition
    && result == if a.failure.Some? then Err(a.failure.value) else Ok(entries != [])
  }

  // The passes and the machine

  function WorkEntries(cfg: Config, records: Records, works: seq<Work>): seq<Entry>
    requires forall x :: x in works ==> x.id in records
  {
    if works == [] then [] else [WorkEntry(cfg, records, works[0])] + WorkEntries(cfg, records, works[1..])
  }

  lemma {:induction false} WorkListSnoc(cfg: Config, w: World, phase: Phase, ids: seq<OperationID>, id: OperationID,
                                        now: int)
    requires id in w.st.records
    ensures var work := Decide(cfg, w, phase, id, now);
      WorkList(cfg, w, phase, ids + [id], now)
      == WorkList(cfg, w, phase, ids, now) + if work.Some? then [work.value] else []
  {
    hide Decide;
    if ids == [] {
      assert [] + [id] == [id] && [id][1..] == [];
      assert WorkList(cfg, w, phase, [id][1..], now) == [];
    } else {
      assert (ids + [id])[1..] == ids[1..] + [id] && (ids + [id])[0] == ids[0];
      WorkListSnoc(cfg, w, phase, ids[1..], id, now);
    }
  }

  lemma {:induction false} WorkEntriesSnoc(cfg: Config, records: Records, works: seq<Work>, work: Work)
    requires work.id in records && forall x :: x in works ==> x.id in records
    ensures WorkEntries(cfg, records, works + [work])
            == WorkEntries(cfg, records, works) + [WorkEntry(cfg, records, work)]
  {
    if works == [] {
      assert [] + [work] == [work] && [work][1..] == [];
    } else {
      assert (works + [work])[1..] == works[1..] + [work];
      WorkEntriesSnoc(cfg, records, works[1..], work);
    }
  }

  /** What a pass appends is what the machine plans for the same operations in the same order. */
  lemma {:induction false} PassPerformsPlan(cfg: Config, st: RunState, phase: Phase, ids: seq<OperationID>, now: int)
    requires forall id :: id in ids ==> id in st.records
    ensures var works := WorkList(cfg, PassWorld(st), phase, ids, now);
      (forall x :: x in works ==> x.id in st.records)
      && PassEntries(cfg, st, phase, ids, now) == WorkEntries(cfg, st.records, works)
  {
    hide Decide, WorkEntry;
    if ids != [] {
      var front, last := ids[..|ids| - 1], ids[|ids| - 1];
      assert ids == front + [last];
      PassPerformsPlan(cfg, st, phase, front, now);
      WorkListSnoc(cfg, PassWorld(st), phase, front, last, now);
      var work := Decide(cfg, PassWorld(st), phase, last, now);
      DecidesAbout(cfg, PassWorld(st), phase, last, now);
      var works := WorkList(cfg, PassWorld(st), phase, front, now);
      if work.Some? { WorkEntriesSnoc(cfg, st.records, works, work.value); } else { assert works + [] == works; }
    }
  }

  // The loops

  lemma EntriesGrow(before: seq<Event>, after: seq<Event>, e: Event)
    requires before <= after
    ensures before <= after + [e] && Entries((after + [e])[|before|..]) == Entries(after[|before|..]) + [e.entry]
  {
    assert (after + [e])[|before|..] == after[|before|..] + [e];
  }

  /** How far a pass has come: before is the journal at its start and c the writer's condition then. */
  ghost predicate Underway(cfg: Config, st: RunState, phase: Phase, ids: seq<OperationID>, i: nat, now: int,
                           before: seq<Event>, c: Condition, writer: Writer, changed: bool)
    requires i <= |ids| && forall id :: id in ids ==> id in st.records
    reads writer, writer.file
  {
    var entries := PassEntries(cfg, st, phase, ids[..i], now);
    && before <= writer.events
    && Entries(writer.events[|before|..]) == entries
    && AppendAll(writer.codec, writer.runId, c, entries, now) == Appends(|entries|, None, writer.Status())
    && (changed <==> entries != [])
  }

  /** The entries so far, and those after one more operation. */
  lemma NextEntry(cfg: Config, st: RunState, phase: Phase, ids: seq<OperationID>, i: nat, now: int)
    requires i < |ids| && forall id :: id in ids ==> id in st.records
    ensures var work := Decide(cfg, PassWorld(st), phase, ids[i], now);
      && (work.Some? ==> work.value.id == ids[i])
      && PassEntries(cfg, st, phase, ids[..i + 1], now)
         == PassEntries(cfg, st, phase, ids[..i], now)
            + if work.Some? then [WorkEntry(cfg, st.records, work.value)] else []
  {
    hide Decide, WorkEntry;
    assert ids[..i + 1][..i] == ids[..i];
    DecidesAbout(cfg, PassWorld(st), phase, ids[i], now);
  }

  /** One more append after those that succeeded. */
  lemma OneMoreAppend(codec: Codec, runId: RunID, c: Condition, entries: seq<Entry>, entry: Entry, now: int,
                      reached: Condition)
    requires AppendAll(codec, runId, c, entries, now) == Appends(|entries|, None, reached)
    ensures AppendAll(codec, runId, c, entries + [entry], now)
            == match Attempt(codec, runId, reached, entry, now)
               case (Err(error), condition) => Appends(|entries|, Some(error), condition)
               case (Ok(_), condition) => Appends(|entries| + 1, None, condition)
  {
    hide Attempt;
    assert (entries + [entry])[..|entries|] == entries;
  }

  lemma {:induction false} PassEntriesExtend(cfg: Config, st: RunState, phase: Phase, ids: seq<OperationID>, i: nat,
                                             now: int)
    requires i <= |ids| && forall id :: id in ids ==> id in st.records
    ensures PassEntries(cfg, st, phase, ids[..i], now) <= PassEntries(cfg, st, phase, ids, now)
    decreases |ids| - i
  {
    hide Decide, WorkEntry;
    if i < |ids| {
      assert ids[..i + 1][..i] == ids[..i];
      PassEntriesExtend(cfg, st, phase, ids, i + 1, now);
    } else {
      assert ids[..i] == ids;
    }
  }

  /** What a pass decides about an operation and which entry it appends, read off its record. */
  lemma Decisions(cfg: Config, st: RunState, id: OperationID, now: int)
    requires id in st.records
    ensures var r, w := st.records[id], PassWorld(st);
      && Decide(cfg, w, Expiry, id, now)
         == (if r.leaseActive && r.lease.expiresAt != 0 && r.lease.expiresAt <= now then Some(ExpireWork(id, r.lease))
             else None)
      && Decide(cfg, w, Readiness, id, now)
         == (if r.state == Ready && !r.readyJournaled then Some(ReadyWork(id)) else None)
      && Decide(cfg, w, Recovery, id, now)
         == (if r.state == Running && !r.reconcileRequired && !r.leaseActive
             then Some(RecoverWork(id, r.attempt, InterruptionCode(r))) else None)
      && Decide(cfg, w, Cancellation, id, now)
         == (if (r.state == Planned || r.state == Ready) && HasTerminalUnpublishedDependency(cfg, r.op, st.records)
             then Some(CancelWork(id)) else None)
  {
    hide HasTerminalUnpublishedDependency, InterruptionCode;
  }

  lemma DecidedEntries(cfg: Config, records: Records, id: OperationID, lease: Lease, attempt: Uint32, code: string)
    requires id in records
    ensures var op := records[id].op;
      && WorkEntry(cfg, records, ExpireWork(id, lease)) == OperationEntry(cfg, op, LeaseExpired, LeasePayload(lease))
      && WorkEntry(cfg, records, ReadyWork(id)) == OperationEntry(cfg, op, OperationReady, EMPTY_PAYLOAD)
      && WorkEntry(cfg, records, CancelWork(id))
         == OperationEntry(cfg, op, OperationCancelled, EMPTY_PAYLOAD.(errorCode := "DEPENDENCY_TERMINAL"))
      && var report := ResultReport(attempt, Failed, "", NoEvidence, code, true);
         WorkEntry(cfg, records, RecoverWork(id, attempt, code)) == OperationEntry(cfg, op, report.kind, report.payload)
  {
  }

  /** One operation's turn in a pass: its entry, if the pass decides on one, is appended. */
  method PassTurn(cfg: Config, writer: Writer, st: RunState, phase: Phase, ids: seq<OperationID>, i: nat, now: int,
                  ghost before: seq<Event>, ghost c: Condition, changed: bool, entry: Option<Entry>)
    returns (error: Option<AppendError>)
    requires writer.Valid() && i < |ids| && forall id :: id in ids ==> id in st.records
    requires Underway(cfg, st, phase, ids, i, now, before, c, writer, changed)
    requires var work := Decide(cfg, PassWorld(st), phase, ids[i], now);
      entry == if work.Some? && work.value.id in st.records then Some(WorkEntry(cfg, st.records, work.value)) else None
    modifies writer, writer.file
    ensures writer.Valid()
    ensures error.None? ==> Underway(cfg, st, phase, ids, i + 1, now, before, c, writer, changed || entry.Some?)
    ensures error.Some? ==>
              PassDone(writer, before, c, PassEntries(cfg, st, phase, ids, now), now, Err(error.value))
  {
    hide Writer.Valid, Entries, PassEntries, AppendAll, Decide, WorkEntry, Attempt;
    NextEntry(cfg, st, phase, ids, i, now);
    ghost var entries, events := PassEntries(cfg, st, phase, ids[..i], now), writer.events;
    if entry.None? {
      assert entries + [] == entries;
      return None;
    }
    OneMoreAppend(writer.codec, writer.runId, c, entries, entry.value, now, writer.Status());
    AttemptsThisEntry(writer.codec, writer.runId, writer.Status(), entry.value, now);
    var appended := writer.Append(entry.value, now);
    if appended.Err? {
      StoppedPass(cfg, writer, st, phase, ids, i, now, c);
      return Some(appended.error);
    }
    EntriesGrow(before, events, appended.value);
    error := None;
  }

  /** A pass that stops at an operation is done with that operation's failure. */
  lemma StoppedPass(cfg: Config, writer: Writer, st: RunState, phase: Phase, ids: seq<OperationID>, i: nat, now: int,
                    c: Condition)
    requires i < |ids| && forall id :: id in ids ==> id in st.records
    requires AppendAll(writer.codec, writer.runId, c, PassEntries(cfg, st, phase, ids[..i + 1], now), now).failure.Some?
    requires AppendAll(writer.codec, writer.runId, c, PassEntries(cfg, st, phase, ids[..i + 1], now), now).count
             == |PassEntries(cfg, st, phase, ids[..i], now)|
    requires PassEntries(cfg, st, phase, ids[..i], now) <= PassEntries(cfg, st, phase, ids[..i + 1], now)
    ensures var entries := PassEntries(cfg, st, phase, ids, now);
      && AppendAll(writer.codec, writer.runId, c, entries, now)
         == AppendAll(writer.codec, writer.runId, c, PassEntries(cfg, st, phase, ids[..i + 1], now), now)
      && PassEntries(cfg, st, phase, ids[..i], now) <= entries
      && entries[..|PassEntries(cfg, st, phase, ids[..i], now)|] == PassEntries(cfg, st, phase, ids[..i], now)
  {
    hide PassEntries, AppendAll;
    PassEntriesExtend(cfg, st, phase, ids, i + 1, now);
    var entries, part := PassEntries(cfg, st, phase, ids, now), PassEntries(cfg, st, phase, ids[..i + 1], now);
    assert entries[..|part|] == part;
    FailureEndsAll(writer.codec, writer.runId, c, entries, |part|, now);
  }

  lemma NothingYet(cfg: Config, st: RunState, phase: Phase, ids: seq<OperationID>, now: int, writer: Writer)
    requires forall id :: id in ids ==> id in st.records
    ensures Underway(cfg, st, phase, ids, 0, now, writer.events, writer.Status(), writer, false)
  {
  }

  lemma PassCompletes(cfg: Config, st: RunState, phase: Phase, ids: seq<OperationID>, now: int, before: seq<Event>,
                      c: Condition, writer: Writer, changed: bool)
    requires forall id :: id in ids ==> id in st.records
    requires Underway(cfg, st, phase, ids, |ids|, now, before, c, writer, changed)
    ensures PassDone(writer, before, c, PassEntries(cfg, st, phase, ids, now), now, Ok(changed))
  {
    hide PassEntries, AppendAll, Entries;
    assert ids[..|ids|] == ids;
    var entries := PassEntries(cfg, st, phase, ids, now);
    assert entries[..|entries|] == entries;
  }

  /** Ends the journal leases that have run out by now. */
  method ExpireJournalLeases(cfg: Config, writer: Writer, st: RunState, ids: seq<OperationID>, now: int)
    returns (result: Result<bool, AppendError>)
    requires writer.Valid() && forall id :: id in ids ==> id in st.records
    modifies writer, writer.file
    ensures writer.Valid()
    ensures PassDone(writer, old(writer.events), old(writer.Status()), PassEntries(cfg, st, Expiry, ids, now), now,
                     result)
  {
    hide Writer.Valid, PassDone, Underway, Decide, WorkEntry, HasTerminalUnpublishedDependency, ResultReport,
      OperationEntry;
    ghost var before, c := writer.events, writer.Status();
    var changed := false;
    NothingYet(cfg, st, Expiry, ids, now, writer);
    for i := 0 to |ids|
      invariant writer.Valid() && Underway(cfg, st, Expiry, ids, i, now, before, c, writer, changed)
    {
      var r := st.records[ids[i]];
      Decisions(cfg, st, ids[i], now);
      DecidedEntries(cfg, st.records, ids[i], r.lease, r.attempt, InterruptionCode(r));
      var entry := None;
      if r.leaseActive && r.lease.expiresAt != 0 && r.lease.expiresAt <= now {
        entry := Some(OperationEntry(cfg, r.op, LeaseExpired, LeasePayload(r.lease)));
      }
      var error := PassTurn(cfg, writer, st, Expiry, ids, i, now, before, c, changed, entry);
      if error.Some? { return Err(error.value); }
      changed := changed || entry.Some?;
    }
    PassCompletes(cfg, st, Expiry, ids, now, before, c, writer, changed);
    result := Ok(changed);
  }

  /** Announces the operations that became ready. */
  method JournalReadyOperations(cfg: Config, writer: Writer, st: RunState, ids: seq<OperationID>, now: int)
    returns (result: Result<bool, AppendError>)
    requires writer.Valid() && forall id :: id in ids ==> id in st.records
    modifies writer, writer.file
    ensures writer.Valid()
    ensures PassDone(writer, old(writer.events), old(writer.Status()), PassEntries(cfg, st, Readiness, ids, now), now,
                     result)
  {
    hide Writer.Valid, PassDone, Underway, Decide, WorkEntry, HasTerminalUnpublishedDependency, ResultReport,
      OperationEntry;
    ghost var before, c := writer.events, writer.Status();
    var changed := false;
    NothingYet(cfg, st, Readiness, ids, now, writer);
    for i := 0 to |ids|
      invariant writer.Valid() && Underway(cfg, st, Readiness, ids, i, now, before, c, writer, changed)
    {
      var r := st.records[ids[i]];
      Decisions(cfg, st, ids[i], now);
      DecidedEntries(cfg, st.records, ids[i], r.lease, r.attempt, InterruptionCode(r));
      var entry := None;
      if r.state == Ready && !r.readyJournaled {
        entry := Some(OperationEntry(cfg, r.op, OperationReady, EMPTY_PAYLOAD));
      }
      var error := PassTurn(cfg, writer, st, Readiness, ids, i, now, before, c, changed, entry);
      if error.Some? { return Err(error.value); }
      changed := changed || entry.Some?;
    }
    PassCompletes(cfg, st, Readiness, ids, now, before, c, writer, changed);
    result := Ok(changed);
  }

  /** Fails, retryably, the attempts that a stopped process left before their dispatch. */
  method RecoverUndispatched(cfg: Config, writer: Writer, st: RunState, ids: seq<OperationID>, now: int)
    returns (result: Result<bool, AppendError>)
    requires writer.Valid() && forall id :: id in ids ==> id in st.records
    modifies writer, writer.file
    ensures writer.Valid()
    ensures PassDone(writer, old(writer.events), old(writer.Status()), PassEntries(cfg, st, Recovery, ids, now), now,
                     result)
  {
    hide Writer.Valid, PassDone, Underway, Decide, WorkEntry, HasTerminalUnpublishedDependency, ResultReport,
      OperationEntry;
    ghost var before, c := writer.events, writer.Status();
    var changed := false;
    NothingYet(cfg, st, Recovery, ids, now, writer);
    for i := 0 to |ids|
      invariant writer.Valid() && Underway(cfg, st, Recovery, ids, i, now, before, c, writer, changed)
    {
      var r := st.records[ids[i]];
      Decisions(cfg, st, ids[i], now);
      DecidedEntries(cfg, st.records, ids[i], r.lease, r.attempt, InterruptionCode(r));
      var entry := None;
      var code := "INTERRUPTED_BEFORE_PROVIDER";
      if r.providerStarted {
        code := if r.op.sideEffecting then "INTERRUPTED_BEFORE_DISPATCH" else "PROVIDER_INTERRUPTED";
      }
      var report := ResultReport(r.attempt, Failed, "", NoEvidence, code, true);
      if r.state == Running && !r.reconcileRequired && !r.leaseActive {
        entry := Some(OperationEntry(cfg, r.op, report.kind, report.payload));
      }
      var error := PassTurn(cfg, writer, st, Recovery, ids, i, now, before, c, changed, entry);
      if error.Some? { return Err(error.value); }
      changed := changed || entry.Some?;
    }
    PassCompletes(cfg, st, Recovery, ids, now, before, c, writer, changed);
    result := Ok(changed);
  }

  method TerminalDependency(cfg: Config, op: Operation, records: Records) returns (found: bool)
    ensures found == HasTerminalUnpublishedDependency(cfg, op, records)
    ensures found <==> exists d :: d in op.dependencies && (d !in records || Lost(records[d], cfg.maxAttempts))
  {
    for i := 0 to |op.dependencies|
      invariant forall j :: 0 <= j < i ==>
                  op.dependencies[j] in records && !TerminalUnpublished(cfg, records[op.dependencies[j]])
    {
      var d := op.dependencies[i];
      if d !in records { return true; }
      match records[d].state {
        case Rejected => return true;
        case Cancelled => return true;
        case Failed => if !records[d].retryable || Used(records[d]) >= cfg.maxAttempts { return true; }
        case _ =>
      }
    }
    found := false;
  }

  /** Cancels the operations below a dependency that will never be published. */
  method CancelBlocked(cfg: Config, writer: Writer, st: RunState, ids: seq<OperationID>, now: int)
    returns (result: Result<bool, AppendError>)
    requires writer.Valid() && forall id :: id in ids ==> id in st.records
    modifies writer, writer.file
    ensures writer.Valid()
    ensures PassDone(writer, old(writer.events), old(writer.Status()), PassEntries(cfg, st, Cancellation, ids, now),
                     now, result)
  {
    hide Writer.Valid, PassDone, Underway, Decide, WorkEntry, HasTerminalUnpublishedDependency, ResultReport,
      OperationEntry;
    ghost var before, c := writer.events, writer.Status();
    var changed := false;
    NothingYet(cfg, st, Cancellation, ids, now, writer);
    for i := 0 to |ids|
      invariant writer.Valid() && Underway(cfg, st, Cancellation, ids, i, now, before, c, writer, changed)
    {
      var r := st.records[ids[i]];
      Decisions(cfg, st, ids[i], now);
      DecidedEntries(cfg, st.records, ids[i], r.lease, r.attempt, InterruptionCode(r));
      var entry := None;
      var doomed := false;
      if r.state == Planned || r.state == Ready { doomed := TerminalDependency(cfg, r.op, st.records); }
      if doomed {
        entry := Some(OperationEntry(cfg, r.op, OperationCancelled,
                                     EMPTY_PAYLOAD.(errorCode := "DEPENDENCY_TERMINAL")));
      }
      var error := PassTurn(cfg, writer, st, Cancellation, ids, i, now, before, c, changed, entry);
      if error.Some? { return Err(error.value); }
      changed := changed || entry.Some?;
    }
    PassCompletes(cfg, st, Cancellation, ids, now, before, c, writer, changed);
    result := Ok(changed);
  }

  method QuiescentForExecutor(cfg: Config, records: Records, ids: seq<OperationID>) returns (quiescent: bool)
    requires forall id :: id in ids <==> id in records
    ensures quiescent == ExecutorQuiescent(cfg, records)
    ensures quiescent <==>
              forall id :: id in records ==>
                !records[id].reconcileRequired && !records[id].leaseActive
                && (records[id].state == Published || Lost(records[id], cfg.maxAttempts))
  {
    for i := 0 to |ids|
      invariant forall j :: 0 <= j < i ==>
                  var r := records[ids[j]];
                  && !r.reconcileRequired && !r.leaseActive
                  && (r.state == Published || r.state == Rejected || r.state == Cancelled || Exhausted(cfg, r))
    {
      var r := records[ids[i]];
      if r.reconcileRequired || r.leaseActive { return false; }
      match r.state {
        case Published =>
        case Rejected =>
        case Cancelled =>
        case Failed => if r.retryable && Used(r) < cfg.maxAttempts { return false; }
        case _ => return false;
      }
    }
    quiescent := true;
  }

  // The next expiry

  /** The least expiry of the active leases. */
  function NextExpiry(records: Records, ids: seq<OperationID>): (next: Option<int>)
    ensures next.None? ==> forall id :: id in ids && id in records && records[id].leaseActive ==>
              records[id].lease.expiresAt == 0
    ensures next.Some? ==>
              && (exists id ::
                    id in ids && id in records && records[id].leaseActive && records[id].lease.expiresAt == next.value)
              && forall id ::
                   id in ids && id in records && records[id].leaseActive && records[id].lease.expiresAt != 0 ==>
                   next.value <= records[id].lease.expiresAt
  {
    if ids == [] then None
    else
      var last := ids[|ids| - 1];
      var next := NextExpiry(records, ids[..|ids| - 1]);
      assert ids == ids[..|ids| - 1] + [last];
      if last !in records || !records[last].leaseActive || records[last].lease.expiresAt == 0 then next
      else if next.None? || records[last].lease.expiresAt < next.value then Some(records[last].lease.expiresAt)
      else next
  }

  method NextLeaseExpiry(records: Records, ids: seq<OperationID>) returns (next: Option<int>)
    requires forall id :: id in ids ==> id in records
    ensures next == NextExpiry(records, ids)
  {
    next := None;
    for i := 0 to |ids|
      invariant next == NextExpiry(records, ids[..i])
    {
      assert ids[..i + 1][..i] == ids[..i];
      var r := records[ids[i]];
      if !r.leaseActive || r.lease.expiresAt == 0 { continue; }
      if next.None? || r.lease.expiresAt < next.value { next := Some(r.lease.expiresAt); }
    }
    assert ids[..|ids|] == ids;
  }

  // What the passes owe, in terms of the records

  /** An operation that will never be published: rejected, cancelled, or failed with no attempt left. */
  predicate Lost(r: Record, maxAttempts: Uint32) {
    || r.state == Rejected || r.state == Cancelled
    || (r.state == Failed && (!r.retryable || (r.attempt - r.blockedAttempts) % 0x1_0000_0000 >= maxAttempts))
  }

  /** The operation gives a pass something to append. */
  predicate Due(cfg: Config, records: Records, phase: Phase, id: OperationID, now: int)
    requires id in records
  {
    var r := records[id];
    match phase
    case Expiry => r.leaseActive && r.lease.expiresAt != 0 && r.lease.expiresAt <= now
    case Readiness => r.state == Ready && !r.readyJournaled
    case Recovery => r.state == Running && !r.reconcileRequired && !r.leaseActive
    case Cancellation =>
      && (r.state == Planned || r.state == Ready)
      && exists d | d in r.op.dependencies :: d !in records || Lost(records[d], cfg.maxAttempts)
    case Batch => false
  }

  /** What it appends then. */
  function DueEntry(cfg: Config, r: Record, op: Operation, phase: Phase): Entry {
    var kind :=
      match phase
      case Expiry => LeaseExpired
      case Readiness => OperationReady
      case Recovery => OperationFailed
      case _ => OperationCancelled;
    var payload :=
      match phase
      case Expiry => EMPTY_PAYLOAD.(lease := Some(r.lease))
      case Readiness => EMPTY_PAYLOAD
      case Recovery =>
        EMPTY_PAYLOAD.(attempt := r.attempt, category := CategoryFailedRetryable, retryable := true,
                       errorCode := if !r.providerStarted then "INTERRUPTED_BEFORE_PROVIDER"
                                    else if r.op.sideEffecting then "INTERRUPTED_BEFORE_DISPATCH"
                                    else "PROVIDER_INTERRUPTED")
      case _ => EMPTY_PAYLOAD.(errorCode := "DEPENDENCY_TERMINAL");
    Entry(cfg.runId, "", kind, op.id, op.target, payload)
  }

  lemma DueIsDecided(cfg: Config, w: World, phase: Phase, id: OperationID, now: int)
    requires id in w.st.records && !phase.Batch?
    ensures var decided := Decide(cfg, w, phase, id, now);
      && (decided.Some? <==> Due(cfg, w.st.records, phase, id, now))
      && (decided.Some? ==>
            decided.value.id == id
            && WorkEntry(cfg, w.st.records, decided.value)
               == DueEntry(cfg, w.st.records[id], w.st.records[id].op, phase))
  {
    hide Decide, Due, DueEntry, WorkEntry, Doomed;
    match phase {
      case Expiry => ExpiryIsDecided(cfg, w, id, now);
      case Readiness => ReadinessIsDecided(cfg, w, id, now);
      case Recovery => RecoveryIsDecided(cfg, w, id, now);
      case _ => CancellationIsDecided(cfg, w, id, now);
    }
  }

  lemma ExpiryIsDecided(cfg: Config, w: World, id: OperationID, now: int)
    requires id in w.st.records
    ensures var decided := Decide(cfg, w, Expiry, id, now);
      && (decided.Some? <==> Due(cfg, w.st.records, Expiry, id, now))
      && (decided.Some? ==>
            decided.value.id == id
            && WorkEntry(cfg, w.st.records, decided.value)
               == DueEntry(cfg, w.st.records[id], w.st.records[id].op, Expiry))
  {
  }

  lemma ReadinessIsDecided(cfg: Config, w: World, id: OperationID, now: int)
    requires id in w.st.records
    ensures var decided := Decide(cfg, w, Readiness, id, now);
      && (decided.Some? <==> Due(cfg, w.st.records, Readiness, id, now))
      && (decided.Some? ==>
            decided.value.id == id
            && WorkEntry(cfg, w.st.records, decided.value)
               == DueEntry(cfg, w.st.records[id], w.st.records[id].op, Readiness))
  {
  }

  lemma RecoveryIsDecided(cfg: Config, w: World, id: OperationID, now: int)
    requires id in w.st.records
    ensures var decided := Decide(cfg, w, Recovery, id, now);
      && (decided.Some? <==> Due(cfg, w.st.records, Recovery, id, now))
      && (decided.Some? ==>
            decided.value.id == id
            && WorkEntry(cfg, w.st.records, decided.value)
               == DueEntry(cfg, w.st.records[id], w.st.records[id].op, Recovery))
  {
  }

  lemma CancellationIsDecided(cfg: Config, w: World, id: OperationID, now: int)
    requires id in w.st.records
    ensures var decided := Decide(cfg, w, Cancellation, id, now);
      && (decided.Some? <==> Due(cfg, w.st.records, Cancellation, id, now))
      && (decided.Some? ==>
            decided.value.id == id
            && WorkEntry(cfg, w.st.records, decided.value)
               == DueEntry(cfg, w.st.records[id], w.st.records[id].op, Cancellation))
  {
    assert forall d | d in w.st.records ::
        TerminalUnpublished(cfg, w.st.records[d]) == Lost(w.st.records[d], cfg.maxAttempts);
    hide TerminalUnpublished, Lost;
  }

  /** The entries of the operations that are due, in the order of the operations. */
  function DueEntries(cfg: Config, records: Records, phase: Phase, ids: seq<OperationID>, now: int): seq<Entry>
    requires forall id :: id in ids ==> id in records
  {
    if ids == [] then []
    else
      (if Due(cfg, records, phase, ids[0], now)
       then [DueEntry(cfg, records[ids[0]], records[ids[0]].op, phase)] else [])
      + DueEntries(cfg, records, phase, ids[1..], now)
  }

  lemma {:induction false} DueEntriesJoin(cfg: Config, records: Records, phase: Phase, ids: seq<OperationID>,
                                          id: OperationID, now: int)
    requires id in records && forall i :: i in ids ==> i in records
    ensures DueEntries(cfg, records, phase, ids + [id], now)
            == DueEntries(cfg, records, phase, ids, now)
               + if Due(cfg, records, phase, id, now) then [DueEntry(cfg, records[id], records[id].op, phase)] else []
  {
    hide Due, DueEntry;
    if ids == [] {
      assert ids + [id] == [id] && [id][1..] == [];
      assert DueEntries(cfg, records, phase, [], now) == [];
    } else {
      DueEntriesJoin(cfg, records, phase, ids[1..], id, now);
      assert (ids + [id])[1..] == ids[1..] + [id];
    }
  }

  /** Every pass appends exactly the entries that are due of its operations, in their order. */
  lemma {:induction false} PassIsExact(cfg: Config, st: RunState, phase: Phase, ids: seq<OperationID>, now: int)
    requires !phase.Batch? && forall id :: id in ids ==> id in st.records
    ensures PassEntries(cfg, st, phase, ids, now) == DueEntries(cfg, st.records, phase, ids, now)
    decreases |ids|
  {
    hide Decide, Due, DueEntry, WorkEntry;
    if ids != [] {
      var front, last := ids[..|ids| - 1], ids[|ids| - 1];
      assert ids == front + [last];
      PassIsExact(cfg, st, phase, front, now);
      DueEntriesJoin(cfg, st.records, phase, front, last, now);
      DueIsDecided(cfg, PassWorld(st), phase, last, now);
    }
  }
}
