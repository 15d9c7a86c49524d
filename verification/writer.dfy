/**
 The journal writer: a file that may accept short writes, fail or lose its unsynced
 tail, and an append-only log above it (internal/journal/writer.go, retry.go).
 */
module JournalWriter {
  import opened Domain
  import opened Events
  import opened Reducer
  import opened ReducerInPlace
  import opened ReducerSafety
  import opened Planning
  import opened Frames

  /** One call of the file's Write: how many bytes it takes at most, and whether it reports an error. */
  datatype WriteOutcome = WriteOutcome(limit: nat, fails: bool)

  /** The next call of a scripted operation fails. */
  predicate Fails(script: seq<bool>) {
    script != [] && script[0]
  }

  function Later<T>(script: seq<T>): seq<T> {
    if script == [] then [] else script[1..]
  }

  /** How many of the offered bytes the next write takes. */
  function Takes(script: seq<WriteOutcome>, offered: nat): (n: nat)
    ensures n <= offered
  {
    if script == [] || offered < script[0].limit then offered else script[0].limit
  }

  /**
   A file as the writer uses it. The scripts decide how the next calls behave; an exhausted script
   means success. Only synced bytes are durable: a crash may lose any suffix of the rest.
   */
  class DurableFile {
    var content: Bytes
    var durable: Bytes
    var writes: seq<WriteOutcome>
    var syncs: seq<bool>
    var truncations: seq<bool>

    constructor (content: Bytes, writes: seq<WriteOutcome>, syncs: seq<bool>, truncations: seq<bool>)
      ensures this.content == content && durable == content
      ensures this.writes == writes && this.syncs == syncs && this.truncations == truncations
    {
      this.content, durable := content, content;
      this.writes, this.syncs, this.truncations := writes, syncs, truncations;
    }

    method Write(data: Bytes) returns (n: nat, failed: bool)
      modifies this`content, this`writes
      ensures n == Takes(old(writes), |data|) && content == old(content) + data[..n]
      ensures failed == (old(writes) != [] && old(writes)[0].fails) && writes == Later(old(writes))
    {
      n, failed := |data|, false;
      if |writes| > 0 {
        n := if writes[0].limit <= |data| then writes[0].limit else |data|;
        failed := writes[0].fails;
        writes := writes[1..];
      }
      content := content + data[..n];
    }

    method Sync() returns (failed: bool)
      modifies this`durable, this`syncs
      ensures failed == Fails(old(syncs)) && syncs == Later(old(syncs))
      ensures durable == if failed then old(durable) else content
    {
      failed := false;
      if |syncs| > 0 {
        failed := syncs[0];
        syncs := syncs[1..];
      }
      if !failed { durable := content; }
    }

    method Truncate(size: nat) returns (failed: bool)
      requires size <= |content|
      modifies this`content, this`truncations
      ensures failed == Fails(old(truncations)) && truncations == Later(old(truncations))
      ensures content == if failed then old(content) else old(content)[..size]
    {
      failed := false;
      if |truncations| > 0 {
        failed := truncations[0];
        truncations := truncations[1..];
      }
      if !failed { content := content[..size]; }
    }
  }

  /** How a full write goes: the bytes taken, whether it failed, and what is left of the script. */
  datatype FullWrite = FullWrite(taken: nat, failed: bool, later: seq<WriteOutcome>)

  /** Writes go on until all is taken; it fails only where a write fails or takes nothing. */
  function FullWriteOf(script: seq<WriteOutcome>, size: nat): (w: FullWrite)
    ensures w.taken <= size && (!w.failed ==> w.taken == size)
    ensures w.failed ==> exists i :: 0 <= i < |script| && (script[i].fails || script[i].limit == 0)
    ensures (forall i :: 0 <= i < |script| ==> !script[i].fails && script[i].limit > 0) ==> !w.failed
    decreases |script|
  {
    if size == 0 then FullWrite(0, false, script)
    else if script == [] then FullWrite(size, false, [])
    else
      var n := Takes(script, size);
      if script[0].fails || n == 0 then FullWrite(n, true, script[1..])
      else
        var more := FullWriteOf(script[1..], size - n);
        FullWrite(n + more.taken, more.failed, more.later)
  }

  function After(n: nat, w: FullWrite): FullWrite {
    w.(taken := n + w.taken)
  }

  /** One turn of a full write. */
  lemma WriteTurn(script: seq<WriteOutcome>, size: nat)
    requires size > 0
    ensures var n := Takes(script, size);
      FullWriteOf(script, size)
      == if (script != [] && script[0].fails) || n == 0 then FullWrite(n, true, Later(script))
         else After(n, FullWriteOf(Later(script), size - n))
  {
  }

  /** writeFull: short writes continue, an error or a write of nothing stops with a prefix written. */
  method WriteFull(file: DurableFile, data: Bytes) returns (failed: bool)
    modifies file`content, file`writes
    ensures var w := FullWriteOf(old(file.writes), |data|);
      failed == w.failed && file.content == old(file.content) + data[..w.taken] && file.writes == w.later
  {
    hide FullWriteOf, Takes;
    ghost var whole := FullWriteOf(file.writes, |data|);
    var rest := data;
    while |rest| != 0
      invariant |rest| <= |data| && rest == data[|data| - |rest|..]
      invariant file.content == old(file.content) + data[..|data| - |rest|]
      invariant whole == After(|data| - |rest|, FullWriteOf(file.writes, |rest|))
      decreases |rest|
    {
      ghost var done := |data| - |rest|;
      WriteTurn(file.writes, |rest|);
      var n, err := file.Write(rest);
      assert data[..done] + rest[..n] == data[..done + n];
      rest := rest[n..];
      if err { return true; }
      if n == 0 { return true; }
    }
    NothingToWrite(file.writes);
    failed := false;
  }

  lemma NothingToWrite(script: seq<WriteOutcome>)
    ensures FullWriteOf(script, 0) == FullWrite(0, false, script)
  {
  }

  datatype AppendError =
    | WriterClosed
    | WriterPoisoned
    | WrongRun
    | MustStartFirst
    | StartedTwice
    | InvalidEntry
    | NotEncodable
    | WriteFailed
    | SyncFailed
    | NotStarted
    | Irreducible(reason: ReduceError)
    | UnknownOperationId

  /** What decides how a writer answers the next append, besides its codec and its run. */
  datatype Condition = Condition(next: nat, poisoned: bool, closed: bool, writes: seq<WriteOutcome>, syncs: seq<bool>)

  /** The checks before anything is written, in their order. */
  function Refusal(codec: Codec, runId: RunID, c: Condition, entry: Entry, now: int): Option<AppendError> {
    if c.closed then Some(WriterClosed)
    else if c.poisoned then Some(WriterPoisoned)
    else if entry.runId != runId then Some(WrongRun)
    else if c.next == 1 && !entry.kind.RunStarted? then Some(MustStartFirst)
    else if c.next > 1 && entry.kind.RunStarted? then Some(StartedTwice)
    else if !ValidEntry(entry) then Some(InvalidEntry)
    else if !Encodable(codec, Event(SCHEMA_VERSION, c.next, entry, now)) then Some(NotEncodable)
    else None
  }

  /** An append: it succeeds exactly if nothing refuses it, the whole frame is written and the file synced. */
  function Attempt(codec: Codec, runId: RunID, c: Condition, entry: Entry, now: int)
    : (Result<Event, AppendError>, Condition)
  {
    var refusal := Refusal(codec, runId, c, entry, now);
    if refusal.Some? then (Err(refusal.value), c)
    else
      var e := Event(SCHEMA_VERSION, c.next, entry, now);
      var w := FullWriteOf(c.writes, |Frame(codec, e)|);
      if w.failed then (Err(WriteFailed), c.(poisoned := true, writes := w.later))
      else if Fails(c.syncs) then (Err(SyncFailed), c.(poisoned := true, writes := w.later, syncs := Later(c.syncs)))
      else (Ok(e), c.(next := c.next + 1, writes := w.later, syncs := Later(c.syncs)))
  }

  /**
   An append succeeds exactly if the writer is open and did not fail before, the entry is of its run, starts
   the run if and only if it is the first, is valid and short enough, every write takes its bytes and the
   sync succeeds. It poisons the writer exactly if a write or the sync fails, and a refusal changes nothing.
   */
  lemma AttemptIsExact(codec: Codec, runId: RunID, c: Condition, entry: Entry, now: int)
    requires c.next >= 1
    ensures var (result, after) := Attempt(codec, runId, c, entry, now);
      var e := Event(SCHEMA_VERSION, c.next, entry, now);
      var admitted :=
        && !c.closed && !c.poisoned && entry.runId == runId && (entry.kind.RunStarted? <==> c.next == 1)
        && ValidEntry(entry) && now != 0 && |codec.encode(e)| <= 0x10_0000;
      var written := admitted && !FullWriteOf(c.writes, |Frame(codec, e)|).failed;
      && (result.Ok? <==> written && !Fails(c.syncs))
      && (result.Ok? ==> result.value == e && after.next == c.next + 1 && !after.poisoned)
      && (result == Err(WriteFailed) <==> admitted && !written)
      && (result == Err(SyncFailed) <==> written && Fails(c.syncs))
      && (result.Err? ==> after.next == c.next && (admitted ==> after.poisoned) && (!admitted ==> after == c))
      && after.closed == c.closed
  {
    hide ValidEntry, FullWriteOf, Frame;
    assert ValidEntry(entry) && now != 0 <==> ValidEvent(Event(SCHEMA_VERSION, c.next, entry, now));
    hide ValidEvent;
  }

  /** The entry that authorizes a retry of the operation's present attempt. */
  function AuthorizationEntry(run: RunID, id: OperationID, r: Record): Entry {
    Entry(run, "", RetryAuthorized, id, r.op.target, EMPTY_PAYLOAD.(attempt := r.attempt))
  }

  /** What AuthorizeAmbiguousRetry would append, or why not: the proposed event is replayed first. */
  function Authorization(plan: Plan, run: RunID, id: OperationID, events: seq<Event>, checkedAt: int)
    : Result<Entry, AppendError>
  {
    if events == [] then Err(NotStarted)
    else
      match Replay(plan, events)
      case Err(reason) => Err(Irreducible(reason))
      case Ok(st) =>
        if id !in st.records then Err(UnknownOperationId)
        else
          var entry := AuthorizationEntry(run, id, st.records[id]);
          match Replay(plan, events + [Event(SCHEMA_VERSION, |events| + 1, entry, checkedAt)])
          case Err(reason) => Err(Irreducible(reason))
          case Ok(_) => Ok(entry)
  }

  class Writer {
    const codec: Codec
    const file: DurableFile
    const runId: RunID
    var next: nat
    var events: seq<Event>
    var poisoned: bool
    var closed: bool
    /** The event whose frame the failed append of a poisoned writer may have begun to write. */
    ghost var begun: Option<Event>

    /** The bytes read back as the writer's events; a poisoned writer left at most a prefix of one more frame. */
    ghost predicate Valid()
      reads this, file
    {
      && Faithful(codec)
      && next == |events| + 1
      && (events != [] ==> events[0].entry.runId == runId)
      && file.durable <= file.content
      && ReadJournal(codec, file.durable) == Ok(ReadResult(events, false, |file.durable|))
      && (!poisoned ==> file.content == file.durable)
      && (poisoned ==>
            && begun.Some? && InFlight(codec, events, begun.value)
            && file.content <= file.durable + Frame(codec, begun.value))
    }

    function Status(): Condition
      reads this, file
    {
      Condition(next, poisoned, closed, file.writes, file.syncs)
    }

    constructor (codec: Codec, file: DurableFile, runId: RunID, events: seq<Event>)
      requires Faithful(codec) && file.content == file.durable
      requires ReadJournal(codec, file.content) == Ok(ReadResult(events, false, |file.content|))
      requires events != [] ==> events[0].entry.runId == runId
      ensures Valid() && this.events == events && !poisoned && !closed
      ensures this.codec == codec && this.file == file && this.runId == runId
    {
      this.codec, this.file, this.runId, this.events := codec, file, runId, events;
      next, poisoned, closed, begun := |events| + 1, false, false, None;
    }

    /**
     The append under the lock: it succeeds, refuses or fails exactly as Attempt says. A success adds one
     durable event, a refusal writes nothing, and a failure leaves at most a prefix of this entry's frame.
     */
    method Append(entry: Entry, now: int) returns (result: Result<Event, AppendError>)
      requires Valid()
      modifies this, file
      ensures Valid()
      ensures (result, Status()) == Attempt(codec, runId, old(Status()), entry, now)
      ensures match result
        case Ok(e) =>
          && InFlight(codec, old(events), e) && events == old(events) + [e]
          && file.content == old(file.content) + Frame(codec, e)
        case Err(error) =>
          && events == old(events)
          && (error == WriteFailed || error == SyncFailed ==>
                var e := Event(SCHEMA_VERSION, old(next), entry, now);
                && InFlight(codec, events, e) && begun == Some(e) && file.durable == old(file.durable)
                && old(file.content) <= file.content <= old(file.content) + Frame(codec, e))
          && (error != WriteFailed && error != SyncFailed ==>
                file.content == old(file.content) && file.durable == old(file.durable) && begun == old(begun))
    {
      hide ReadFrom, Frame, Faithful, ValidEntry, FullWriteOf;
      if closed { return Err(WriterClosed); }
      if poisoned { return Err(WriterPoisoned); }
      if entry.runId != runId { return Err(WrongRun); }
      if next == 1 && !entry.kind.RunStarted? { return Err(MustStartFirst); }
      if next > 1 && entry.kind.RunStarted? { return Err(StartedTwice); }
      if !ValidEntry(entry) { return Err(InvalidEntry); }
      var e := Event(SCHEMA_VERSION, next, entry, now);
      var frame := EncodeFrame(codec, e);
      if frame.None? { return Err(NotEncodable); }
      ghost var before := file.content;
      ghost var bytes := Frame(codec, e);
      var failed := WriteFull(file, frame.value[..]);
      if failed {
        poisoned, begun := true, Some(e);
        return Err(WriteFailed);
      }
      failed := file.Sync();
      if failed {
        poisoned, begun := true, Some(e);
        return Err(SyncFailed);
      }
      assert InFlight(codec, events, e);
      assert bytes[..|bytes|] == bytes;
      ReadAfterCutAppend(codec, before, NOTHING, ReadResult(events, false, |before|), e, |bytes|);
      events := events + [e];
      next := next + 1;
      result := Ok(e);
    }

    method Close()
      requires Valid()
      modifies this`closed
      ensures Valid() && Status() == old(Status()).(closed := true)
    {
      closed := true;
    }

    /**
     AuthorizeAmbiguousRetry: the proposed event is replayed before it is appended, and appended exactly
     if the replay accepts it. Whatever happens to the append, a journal that was reducible stays
     reducible, and what it leaves behind is at most a prefix of the authorization's frame.
     */
    method AuthorizeAmbiguousRetry(plan: Plan, run: RunID, id: OperationID, checkedAt: int, now: int)
      returns (result: Result<Event, AppendError>)
      requires Valid() && checkedAt != 0 && now != 0
      modifies this, file
      ensures Valid()
      ensures (result, Status()) ==
        var before := old(Status());
        if !ValidIdentifier(id) then (Err(UnknownOperationId), before)
        else if before.closed then (Err(WriterClosed), before)
        else if before.poisoned then (Err(WriterPoisoned), before)
        else if runId != run then (Err(WrongRun), before)
        else
          match Authorization(plan, run, id, old(events), checkedAt)
          case Err(error) => (Err(error), before)
          case Ok(entry) => Attempt(codec, runId, before, entry, now)
      ensures result.Err? ==> events == old(events)
      ensures result.Ok? ==> events == old(events) + [result.value] && Reducible(plan, events)
      ensures Reducible(plan, old(events)) ==> Reducible(plan, events)
      ensures result == Err(WriteFailed) || result == Err(SyncFailed) ==>
                && Authorization(plan, run, id, old(events), checkedAt).Ok?
                && var e := Event(SCHEMA_VERSION, old(next), Authorization(plan, run, id, old(events), checkedAt).value,
                                  now);
                && InFlight(codec, events, e) && Reducible(plan, events + [e])
                && old(file.content) <= file.content <= old(file.content) + Frame(codec, e)
    {
      hide Attempt, Frame, Faithful, ReadFrom, ValidIdentifier;
      if !ValidIdentifier(id) { return Err(UnknownOperationId); }
      if closed { return Err(WriterClosed); }
      if poisoned { return Err(WriterPoisoned); }
      if runId != run { return Err(WrongRun); }
      if |events| == 0 { return Err(NotStarted); }
      var state := Reduce(plan, events);
      if state.Err? { return Err(Irreducible(state.error)); }
      if id !in state.value.operations { return Err(UnknownOperationId); }
      var entry := AuthorizationEntry(run, id, state.value.operations[id]);
      var proposed := Event(SCHEMA_VERSION, next, entry, checkedAt);
      var check := Reduce(plan, events + [proposed]);
      if check.Err? { return Err(Irreducible(check.error)); }
      AuthorizationAccepted(plan, events, proposed, Event(SCHEMA_VERSION, next, entry, now));
      AttemptsThisEntry(codec, runId, Status(), entry, now);
      result := Append(entry, now);
    }
  }

  lemma AttemptsThisEntry(codec: Codec, runId: RunID, c: Condition, entry: Entry, now: int)
    ensures var result := Attempt(codec, runId, c, entry, now).0;
      result.Ok? ==> result.value == Event(SCHEMA_VERSION, c.next, entry, now)
  {
    hide FullWriteOf, Frame;
  }

  /** e is the event whose frame a failed append may have begun to write. */
  ghost predicate InFlight(codec: Codec, events: seq<Event>, e: Event) {
    Encodable(codec, e) && Continuation(events, e) == None
  }

  /** Authorizations do not depend on the observation time, and name an eligible record. */
  lemma AuthorizationAccepted(plan: Plan, events: seq<Event>, proposed: Event, appended: Event)
    requires Reducible(plan, events + [proposed]) && proposed.entry.kind.RetryAuthorized?
    requires appended == proposed.(observedAt := appended.observedAt) && appended.observedAt != 0
    ensures Reducible(plan, events) && Reducible(plan, events + [appended])
    ensures var id, records := proposed.entry.operationId, Replay(plan, events).value.records;
      id in records && RetryAuthorizable(records[id])
  {
    assert (events + [proposed])[..|events|] == events;
    assert (events + [appended])[..|events|] == events;
    var st := Replay(plan, events).value;
    var admitted := st.(runId := proposed.entry.runId, next := st.next + 1);
    SameAuthorization(admitted, proposed, appended);
  }

  lemma SameAuthorization(st: RunState, proposed: Event, appended: Event)
    requires proposed.entry.kind.RetryAuthorized? && OperationStep(st, proposed).Ok?
    requires appended == proposed.(observedAt := appended.observedAt)
    ensures OperationStep(st, appended) == OperationStep(st, proposed)
    ensures RetryAuthorizable(st.records[proposed.entry.operationId])
  {
  }

  // Crash recovery

  /**
   After a crash at any moment, the surviving bytes contain the durable ones and are a prefix of
   what was written. Reading them recovers the old events, or the old events plus the one in flight.
   */
  lemma CrashRecovery(codec: Codec, durable: Bytes, events: seq<Event>, e: Event, survived: Bytes)
    requires Faithful(codec) && ReadJournal(codec, durable) == Ok(ReadResult(events, false, |durable|))
    requires InFlight(codec, events, e)
    requires durable <= survived <= durable + Frame(codec, e)
    ensures ReadJournal(codec, survived) ==
              if survived == durable + Frame(codec, e) then Ok(ReadResult(events + [e], false, |survived|))
              else Ok(ReadResult(events, survived != durable, |durable|))
  {
    hide ReadFrom, Frame, Faithful, Encodable;
    var f := Frame(codec, e);
    var cut := |survived| - |durable|;
    assert survived == durable + f[..cut];
    if cut == |f| { assert f[..cut] == f; }
    ReadAfterCutAppend(codec, durable, NOTHING, ReadResult(events, false, |durable|), e, cut);
  }

  /** The same for a writer that failed: what survives reads as its events, or as those and the event it had begun. */
  lemma InterruptedWriterRecovers(w: Writer, survived: Bytes)
    requires w.Valid() && w.file.durable <= survived <= w.file.content
    ensures ReadJournal(w.codec, survived).Ok?
    ensures var found := ReadJournal(w.codec, survived).value.events;
      found == w.events || (w.poisoned && found == w.events + [w.begun.value])
  {
    hide ReadFrom, Frame, Faithful, Encodable;
    if w.poisoned {
      CrashRecovery(w.codec, w.file.durable, w.events, w.begun.value, survived);
    } else {
      assert |survived| == |w.file.durable|;
      assert survived == w.file.durable;
    }
  }

  datatype OpenError = Unreadable(reason: ReadError) | OtherRun | TruncateFailed | TruncationSyncFailed

  /**
   OpenWriter on arbitrary surviving bytes: it refuses exactly corrupt bytes and other runs, truncates a
   torn tail, which fails exactly if the file's truncation or sync does, and otherwise resumes the events
   that the reader found.
   */
  method OpenWriter(codec: Codec, file: DurableFile, runId: RunID) returns (result: Result<Writer, OpenError>)
    requires Faithful(codec) && file.content == file.durable && ValidIdentifier(runId)
    modifies file
    ensures match ReadJournal(codec, old(file.content))
      case Err(error) => result == Err(Unreadable(error)) && file.content == old(file.content)
      case Ok(read) =>
        if read.events != [] && read.events[0].entry.runId != runId then
          result == Err(OtherRun) && file.content == old(file.content)
        else if read.truncatedTail && Fails(old(file.truncations)) then
          result == Err(TruncateFailed) && file.content == old(file.content)
        else if read.truncatedTail && Fails(old(file.syncs)) then result == Err(TruncationSyncFailed)
        else
          && result.Ok? && fresh(result.value) && result.value.Valid()
          && result.value.codec == codec && result.value.file == file && result.value.runId == runId
          && result.value.events == read.events && !result.value.poisoned && !result.value.closed
          && read.validBytes <= |old(file.content)| && file.content == old(file.content)[..read.validBytes]
  {
    var read := Read(codec, file.content);
    if read.Err? { return Err(Unreadable(read.error)); }
    var found := read.value;
    if |found.events| != 0 && found.events[0].entry.runId != runId { return Err(OtherRun); }
    RereadValidPrefix(codec, file.content, NOTHING, found);
    ReadStopsInside(codec, file.content, NOTHING);
    if found.truncatedTail {
      var failed := file.Truncate(found.validBytes);
      if failed { return Err(TruncateFailed); }
      failed := file.Sync();
      if failed { return Err(TruncationSyncFailed); }
    } else {
      assert file.content[..found.validBytes] == file.content;
    }
    var writer := new Writer(codec, file, runId, found.events);
    result := Ok(writer);
  }

  /** The bytes between the two lengths are the event's whole frame. */
  ghost predicate WroteWhole(codec: Codec, e: Event, from: nat, to: nat) {
    Encodable(codec, e) && to == from + |Frame(codec, e)|
  }

  /**
   What survives of an append, refused, failed or done, reads as the old events, or with its event if its
   frame is whole.
   */
  lemma SurvivingCut(codec: Codec, before: Bytes, events: seq<Event>, e: Event, content: Bytes, cut: nat)
    requires Faithful(codec) && ReadJournal(codec, before) == Ok(ReadResult(events, false, |before|))
    requires before <= content && |before| <= cut <= |content|
    requires content == before || (InFlight(codec, events, e) && content <= before + Frame(codec, e))
    ensures var read := ReadJournal(codec, content[..cut]);
      && read.Ok?
      && var whole := WroteWhole(codec, e, |before|, |content|) && cut == |content|;
      && read.value.events == events + (if whole then [e] else [])
      && (read.value.truncatedTail <==> cut > |before| && !whole)
  {
    hide ReadFrom, Faithful, Encodable;
    if content == before {
      assert content[..cut] == before;
      assert Encodable(codec, e) ==> |Frame(codec, e)| > 0;
    } else {
      hide Frame;
      CrashRecovery(codec, before, events, e, content[..cut]);
    }
  }

  /**
   A crash anywhere in an append, and the writer that opens what survived. survived is any cut of the
   file between what was durable before the append and everything that the append wrote. The new writer
   holds the old events, and the event of this very entry exactly if its whole frame was written and
   survived. Opening fails only on a torn frame, and exactly if cutting that off fails.
   */
  method AppendCrashReopen(w: Writer, entry: Entry, now: int, survived: nat, syncs: seq<bool>, truncations: seq<bool>)
    returns (appended: Result<Event, AppendError>, reopened: Result<Writer, OpenError>)
    requires w.Valid() && !w.poisoned && !w.closed && ValidIdentifier(w.runId)
    modifies w, w.file
    ensures (appended, w.Status()) == Attempt(w.codec, w.runId, old(w.Status()), entry, now)
    ensures var e, from, to := Event(SCHEMA_VERSION, old(w.next), entry, now), |old(w.file.content)|, |w.file.content|;
      var whole := WroteWhole(w.codec, e, from, to) && survived >= to;
      var torn := from < to && from < survived && !whole;
      && (appended.Ok? ==> WroteWhole(w.codec, e, from, to))
      && (reopened.Err? <==> torn && (Fails(truncations) || Fails(syncs)))
      && (reopened.Err? ==> reopened.error == if Fails(truncations) then TruncateFailed else TruncationSyncFailed)
      && (reopened.Ok? ==>
            && fresh(reopened.value) && reopened.value.Valid() && reopened.value.runId == w.runId
            && !reopened.value.poisoned && !reopened.value.closed
            && reopened.value.events == old(w.events) + if whole then [e] else [])
  {
    ghost var before, events := w.file.durable, w.events;
    ghost var e := Event(SCHEMA_VERSION, w.next, entry, now);
    var kept := |w.file.durable|;
    hide ReadFrom, Frame, Faithful, Encodable, Attempt;
    AttemptsThisEntry(w.codec, w.runId, w.Status(), entry, now);
    appended := w.Append(entry, now);
    var cut := if survived < kept then kept else if survived > |w.file.content| then |w.file.content| else survived;
    SurvivingCut(w.codec, before, events, e, w.file.content, cut);
    var file := new DurableFile(w.file.content[..cut], [], syncs, truncations);
    reopened := OpenWriter(w.codec, file, w.runId);
  }

  // When a retry is authorized

  /**
   The proposed authorization is accepted exactly for a record that may be authorized, in a run that is
   neither completed nor cancelled.
   */
  lemma AuthorizationIsExact(plan: Plan, run: RunID, id: OperationID, events: seq<Event>, st: RunState, checkedAt: int)
    requires events != [] && events[0].entry.runId == run && Replay(plan, events) == Ok(st) && checkedAt != 0
    requires GoodPlan(plan) && id in st.records
    ensures var r := st.records[id];
      Authorization(plan, run, id, events, checkedAt).Ok? <==>
        && !st.completed && !st.cancelled
        && r.state == WaitingExternal && r.reconcileRequired && r.ambiguous && r.observedAbsent
        && !r.reconciling && !r.leaseActive
        && r.op.sideEffecting && r.op.provider.name == "npm" && r.op.kind == "publish"
  {
    AuthorizableMeans(st.records[id]);
    hide ValidEvent, ValidIdentifier, Invariant, RetryAuthorizable, Step, RecordInvariant, GoodPlan;
    ReducibleJournalsKeepInvariant(plan, events);
    PlannedIdentifiers(plan, st, id);
    ReplayCounts(plan, events, st);
    var r := st.records[id];
    var e := Event(SCHEMA_VERSION, |events| + 1, AuthorizationEntry(run, id, r), checkedAt);
    assert (events + [e])[..|events|] == events;
    assert RecordInvariant(r) by { InvariantOfRecord(plan, st, id); }
    AuthorizationStep(plan.id, st, id, e);
  }

  lemma AuthorizableMeans(r: Record)
    ensures RetryAuthorizable(r) <==>
              && r.state == WaitingExternal && r.reconcileRequired && r.ambiguous && r.observedAbsent
              && !r.reconciling && !r.leaseActive
              && r.op.sideEffecting && r.op.provider.name == "npm" && r.op.kind == "publish"
  {
  }

  lemma PlannedIdentifiers(plan: Plan, st: RunState, id: OperationID)
    requires GoodPlan(plan) && Invariant(plan, st) && id in st.records
    ensures ValidIdentifier(id) && ValidIdentifier(st.records[id].op.target)
  {
    hide RecordInvariant, ValidIdentifier;
  }

  lemma InvariantOfRecord(plan: Plan, st: RunState, id: OperationID)
    requires Invariant(plan, st) && id in st.records
    ensures RecordInvariant(st.records[id])
  {
    hide RecordInvariant;
  }

  lemma AuthorizationStep(planId: PlanID, st: RunState, id: OperationID, e: Event)
    requires id in st.records && RecordInvariant(st.records[id]) && st.started && e.sequence == st.next
             && e.sequence >= 1
    requires e.schemaVersion == SCHEMA_VERSION && e.observedAt != 0 && st.runId == e.entry.runId
             && ValidIdentifier(st.runId)
    requires e.entry == AuthorizationEntry(st.runId, id, st.records[id])
    requires ValidIdentifier(id) && ValidIdentifier(st.records[id].op.target)
    ensures Step(planId, st, e).Ok? <==> !st.completed && !st.cancelled && RetryAuthorizable(st.records[id])
  {
    hide ValidIdentifier, RecordInvariant, RetryAuthorizable;
    if RetryAuthorizable(st.records[id]) {
      AuthorizableAttempt(st.records[id]);
      assert ValidEvent(e);
      assert st.completed || st.cancelled || Admission(st, e) == None;
    }
  }

  lemma AuthorizableAttempt(r: Record)
    requires RecordInvariant(r) && RetryAuthorizable(r)
    ensures r.attempt > 0
  {
  }
}
