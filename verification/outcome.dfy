/**
 The outcome of a run, computed three times: by the command for its exit code, and from its
 printed state by the GitHub Action and by the Gradle plugin, which both reject a report whose
 exit code is not the one they compute.
 */
module Outcome {
  import opened Domain
  import opened Events
  import opened Reducer
  import opened ReducerSafety
  import opened Planning

  const EXIT_OK := 0
  const EXIT_PENDING := 4
  const EXIT_REJECTED := 5
  const EXIT_FAILED := 6
  const LIST_LIMIT := 1024
  const AFFECTED_LIMIT := 5

  datatype Row =
    | TargetRow(id: string, state: NormalizedState, reconcileRequired: bool, ambiguous: bool)
    | OperationRow(id: string, targetId: string, state: NormalizedState, attempt: Uint32, reconcileRequired: bool,
                   ambiguous: bool, retryable: bool, providerState: string, evidence: Evidence, errorCode: string)

  /** The printed state of a run; its rows come in the order of their IDs. */
  datatype View = View(
    planId: PlanID, runId: RunID, completed: bool, cancelled: bool, truncated: bool, targets: seq<Row>,
    operations: seq<Row>)

  function TargetRowOf(id: TargetID, t: TargetState): Row {
    TargetRow(id, t.state, t.reconcileRequired, t.ambiguous)
  }

  function OperationRowOf(id: OperationID, r: Record): Row {
    OperationRow(id, r.op.target, r.state, r.attempt, r.reconcileRequired, r.ambiguous, r.retryable, r.providerState,
                 r.evidence, r.errorCode)
  }

  /** The lists enumerate the derived targets and operations. */
  ghost predicate Enumerates(d: DerivedState, targets: seq<TargetID>, operations: seq<OperationID>) {
    && (forall id :: id in targets <==> id in d.targets)
    && (forall id :: id in operations <==> id in d.operations)
  }

  ghost predicate ShowsState(view: View, plan: Plan, d: DerivedState, truncated: bool, targets: seq<TargetID>,
                             operations: seq<OperationID>)
  {
    && view.planId == plan.id && view.runId == d.runId
    && view.completed == d.completed && view.cancelled == d.cancelled && view.truncated == truncated
    && |view.targets| == |targets| && |view.operations| == |operations|
    && (forall i :: 0 <= i < |targets| ==>
        targets[i] in d.targets && view.targets[i] == TargetRowOf(targets[i], d.targets[targets[i]]))
    && (forall i :: 0 <= i < |operations| ==>
          operations[i] in d.operations
          && view.operations[i] == OperationRowOf(operations[i], d.operations[operations[i]]))
  }

  method StateView(plan: Plan, d: DerivedState, truncated: bool, targets: seq<TargetID>, operations: seq<OperationID>)
    returns (view: View)
    requires Enumerates(d, targets, operations)
    ensures ShowsState(view, plan, d, truncated, targets, operations)
  {
    var targetRows, operationRows := [], [];
    for i := 0 to |targets|
      invariant |targetRows| == i
      invariant forall j :: 0 <= j < i ==>
                  targets[j] in d.targets && targetRows[j] == TargetRowOf(targets[j], d.targets[targets[j]])
    {
      targetRows := targetRows + [TargetRowOf(targets[i], d.targets[targets[i]])];
    }
    for i := 0 to |operations|
      invariant |operationRows| == i
      invariant forall j :: 0 <= j < i ==>
                  operations[j] in d.operations
                  && operationRows[j] == OperationRowOf(operations[j], d.operations[operations[j]])
    {
      operationRows := operationRows + [OperationRowOf(operations[i], d.operations[operations[i]])];
    }
    view := View(plan.id, d.runId, d.completed, d.cancelled, truncated, targetRows, operationRows);
  }

  // What the rows say together

  predicate Failing(state: NormalizedState) {
    state == Failed || state == Cancelled
  }

  ghost predicate AnyState(rows: seq<Row>, state: NormalizedState) {
    exists i :: 0 <= i < |rows| && rows[i].state == state
  }

  ghost predicate AnyFailing(rows: seq<Row>) {
    exists i :: 0 <= i < |rows| && Failing(rows[i].state)
  }

  ghost predicate AnyOpen(rows: seq<Row>) {
    exists i :: 0 <= i < |rows| && !Terminal(rows[i].state)
  }

  ghost predicate AnyReconcile(rows: seq<Row>) {
    exists i :: 0 <= i < |rows| && rows[i].reconcileRequired
  }

  ghost predicate AnyAmbiguous(rows: seq<Row>) {
    exists i :: 0 <= i < |rows| && rows[i].ambiguous
  }

  predicate Clean(row: Row) {
    row.state == Published && !row.reconcileRequired && !row.ambiguous
  }

  ghost predicate AllClean(rows: seq<Row>) {
    forall i :: 0 <= i < |rows| ==> Clean(rows[i])
  }

  function Verdict(failed: bool, rejected: bool, pending: bool): int {
    if failed then EXIT_FAILED else if rejected then EXIT_REJECTED else if pending then EXIT_PENDING else EXIT_OK
  }

  /** The exit code of the command: failures before rejections before anything still open. */
  ghost function ExitCode(completed: bool, cancelled: bool, operations: seq<Row>): int {
    Verdict(cancelled || AnyFailing(operations), AnyState(operations, Rejected),
            !completed || AnyOpen(operations) || AnyReconcile(operations))
  }

  /** How the facts about the first rows change when the next row joins them. */
  lemma RowJoins(rows: seq<Row>, i: nat)
    requires i < |rows|
    ensures AnyFailing(rows[..i + 1]) <==> AnyFailing(rows[..i]) || Failing(rows[i].state)
    ensures AnyOpen(rows[..i + 1]) <==> AnyOpen(rows[..i]) || !Terminal(rows[i].state)
    ensures AnyReconcile(rows[..i + 1]) <==> AnyReconcile(rows[..i]) || rows[i].reconcileRequired
    ensures AnyAmbiguous(rows[..i + 1]) <==> AnyAmbiguous(rows[..i]) || rows[i].ambiguous
    ensures AllClean(rows[..i + 1]) <==> AllClean(rows[..i]) && Clean(rows[i])
    ensures forall state :: AnyState(rows[..i + 1], state) <==> AnyState(rows[..i], state) || rows[i].state == state
  {
    assert rows[..i + 1] == rows[..i] + [rows[i]];
    AppendedRow(rows[..i], rows[i]);
  }

  lemma AppendedRow(rows: seq<Row>, row: Row)
    ensures AnyFailing(rows + [row]) <==> AnyFailing(rows) || Failing(row.state)
    ensures AnyOpen(rows + [row]) <==> AnyOpen(rows) || !Terminal(row.state)
    ensures AnyReconcile(rows + [row]) <==> AnyReconcile(rows) || row.reconcileRequired
    ensures AnyAmbiguous(rows + [row]) <==> AnyAmbiguous(rows) || row.ambiguous
    ensures AllClean(rows + [row]) <==> AllClean(rows) && Clean(row)
    ensures forall state :: AnyState(rows + [row], state) <==> AnyState(rows, state) || row.state == state
  {
    var more := rows + [row];
    assert more[|rows|] == row && forall i :: 0 <= i < |rows| ==> more[i] == rows[i];
    if AnyFailing(rows) { var i :| 0 <= i < |rows| && Failing(rows[i].state); assert Failing(more[i].state); }
    if AnyOpen(rows) { var i :| 0 <= i < |rows| && !Terminal(rows[i].state); assert !Terminal(more[i].state); }
    if AnyReconcile(rows) { var i :| 0 <= i < |rows| && rows[i].reconcileRequired; assert more[i].reconcileRequired; }
    if AnyAmbiguous(rows) { var i :| 0 <= i < |rows| && rows[i].ambiguous; assert more[i].ambiguous; }
    forall state ensures AnyState(more, state) <==> AnyState(rows, state) || row.state == state {
      if AnyState(rows, state) { var i :| 0 <= i < |rows| && rows[i].state == state; assert more[i].state == state; }
    }
  }

  predicate HasFailed(state: NormalizedState) {
    state == Failed || state == Cancelled
  }

  /** The operation has no final state, or waits for a reconciliation. */
  predicate IsOpen(r: Record) {
    || r.reconcileRequired
    || !(r.state == Published || r.state == Rejected || r.state == Failed || r.state == Cancelled)
  }

  /** What the exit code says about the operations themselves. */
  lemma ExitCodeMeaning(d: DerivedState, operations: seq<OperationID>, rows: seq<Row>)
    requires |rows| == |operations|
    requires forall i :: 0 <= i < |operations| ==>
               operations[i] in d.operations && rows[i] == OperationRowOf(operations[i], d.operations[operations[i]])
    ensures var failed := d.cancelled || exists id :: id in operations && HasFailed(d.operations[id].state);
      var rejected := exists id :: id in operations && d.operations[id].state == Rejected;
      var open := !d.completed || exists id :: id in operations && IsOpen(d.operations[id]);
      ExitCode(d.completed, d.cancelled, rows) == if failed then 6 else if rejected then 5 else if open then 4 else 0
  {
    forall id | id in operations
      ensures HasFailed(d.operations[id].state) ==> AnyFailing(rows)
      ensures d.operations[id].state == Rejected ==> AnyState(rows, Rejected)
      ensures IsOpen(d.operations[id]) ==> AnyOpen(rows) || AnyReconcile(rows)
    {
      var i :| 0 <= i < |operations| && operations[i] == id;
      assert rows[i] == OperationRowOf(id, d.operations[id]);
    }
    forall i | 0 <= i < |rows|
      ensures operations[i] in operations && rows[i].state == d.operations[operations[i]].state
      ensures rows[i].reconcileRequired == d.operations[operations[i]].reconcileRequired
    {
    }
    if AnyFailing(rows) {
      var i :| 0 <= i < |rows| && Failing(rows[i].state);
      assert HasFailed(d.operations[operations[i]].state);
    }
    if AnyState(rows, Rejected) {
      var i :| 0 <= i < |rows| && rows[i].state == Rejected;
      assert operations[i] in operations;
    }
    if AnyOpen(rows) {
      var i :| 0 <= i < |rows| && !Terminal(rows[i].state);
      assert IsOpen(d.operations[operations[i]]);
    }
    if AnyReconcile(rows) {
      var i :| 0 <= i < |rows| && rows[i].reconcileRequired;
      assert IsOpen(d.operations[operations[i]]);
    }
  }

  method StateExit(d: DerivedState, operations: seq<OperationID>, ghost rows: seq<Row>) returns (code: int)
    requires |rows| == |operations|
    requires forall i :: 0 <= i < |operations| ==>
               operations[i] in d.operations && rows[i] == OperationRowOf(operations[i], d.operations[operations[i]])
    ensures code == ExitCode(d.completed, d.cancelled, rows)
    ensures var failed := d.cancelled || exists id :: id in operations && HasFailed(d.operations[id].state);
      var rejected := exists id :: id in operations && d.operations[id].state == Rejected;
      var open := !d.completed || exists id :: id in operations && IsOpen(d.operations[id]);
      && (code == 6 <==> failed)
      && (code == 5 <==> !failed && rejected)
      && (code == 4 <==> !failed && !rejected && open)
      && (code == 0 <==> !failed && !rejected && !open)
  {
    ExitCodeMeaning(d, operations, rows);
    hide AnyFailing, AnyState, AnyOpen, AnyReconcile;
    NoExitRowsYet(rows);
    var pending, rejected, failed := !d.completed, false, d.cancelled;
    for i := 0 to |operations|
      invariant failed <==> d.cancelled || AnyFailing(rows[..i])
      invariant rejected <==> AnyState(rows[..i], Rejected)
      invariant pending <==> !d.completed || AnyOpen(rows[..i]) || AnyReconcile(rows[..i])
    {
      RowJoins(rows, i);
      var operation := d.operations[operations[i]];
      assert rows[i].state == operation.state && rows[i].reconcileRequired == operation.reconcileRequired;
      match operation.state {
        case Failed => failed := true;
        case Cancelled => failed := true;
        case Rejected => rejected := true;
        case Published =>
        case Blocked => pending := true;
        case _ => pending := true;
      }
      if operation.reconcileRequired { pending := true; }
    }
    assert rows[..|operations|] == rows;
    if failed { return EXIT_FAILED; }
    if rejected { return EXIT_REJECTED; }
    if pending { return EXIT_PENDING; }
    return EXIT_OK;
  }

  lemma NoExitRowsYet(rows: seq<Row>)
    ensures !AnyFailing(rows[..0]) && !AnyState(rows[..0], Rejected) && !AnyOpen(rows[..0]) && !AnyReconcile(rows[..0])
  {
  }

  // The limits of the two readers

  predicate Alphanumeric(c: char) {
    'A' <= c <= 'Z' || 'a' <= c <= 'z' || '0' <= c <= '9'
  }

  predicate IdentityChar(c: char) {
    Alphanumeric(c) || c == '.' || c == '_' || c == '-'
  }

  /** An identifier of at most 128 letters, digits, dots, underscores and hyphens that starts with a letter or digit. */
  predicate Identity(text: string) {
    && 1 <= |text| <= 128 && Alphanumeric(text[0])
    && forall i | 0 <= i < |text| :: IdentityChar(text[i])
  }

  predicate ReadableRow(row: Row) {
    && Identity(row.id) && row.state != Unset
    && (row.OperationRow? ==> Identity(row.targetId))
  }

  ghost predicate ReadableRows(rows: seq<Row>) {
    1 <= |rows| <= LIST_LIMIT && forall i :: 0 <= i < |rows| ==> ReadableRow(rows[i])
  }

  ghost predicate Readable(view: View) {
    Identity(view.planId) && Identity(view.runId) && ReadableRows(view.targets) && ReadableRows(view.operations)
  }

  // The GitHub Action

  datatype ActionOutcome =
    | JournalTruncated
    | MixedOutcomes
    | UncertainOutcome
    | WaitingForReview
    | BlockedBeforeCompletion
    | FailedOrCancelled
    | RejectedByDestination
    | RecordedAsPublished
    | RecordedIncomplete

  datatype Affected = Affected(id: string, state: NormalizedState, ambiguous: bool)

  datatype Summary = Summary(
    outcome: ActionOutcome, pending: bool, ambiguous: bool, truncated: bool, affected: seq<Affected>, published: bool,
    mixed: bool)

  /** The exit code that the Action expects, over the rows of targets and operations together. */
  ghost function ActionCode(view: View): int {
    var rows := view.targets + view.operations;
    Verdict(view.cancelled || AnyFailing(rows), AnyState(rows, Rejected),
            !view.completed || AnyOpen(rows) || AnyReconcile(rows) || AnyAmbiguous(rows))
  }

  ghost function AffectedOf(targets: seq<Row>): seq<Affected> {
    if targets == [] then []
    else
      var before, last := AffectedOf(targets[..|targets| - 1]), targets[|targets| - 1];
      if last.state != Published && |before| < AFFECTED_LIMIT
      then before + [Affected(last.id, last.state, last.ambiguous)] else before
  }

  /** The targets that are not published. */
  ghost function Unpublished(targets: seq<Row>): seq<Affected> {
    if targets == [] then []
    else
      (if targets[0].state == Published then []
       else [Affected(targets[0].id, targets[0].state, targets[0].ambiguous)]) + Unpublished(targets[1..])
  }

  lemma {:induction false} UnpublishedJoin(targets: seq<Row>, row: Row)
    ensures Unpublished(targets + [row])
            == Unpublished(targets)
               + if row.state == Published then [] else [Affected(row.id, row.state, row.ambiguous)]
  {
    if targets == [] {
      assert [row][1..] == [] && targets + [row] == [row];
    } else {
      UnpublishedJoin(targets[1..], row);
      assert (targets + [row])[1..] == targets[1..] + [row];
    }
  }

  /** A summary lists the first five targets that are not published. */
  lemma {:induction false} AffectedAreFirst(targets: seq<Row>)
    ensures var all := Unpublished(targets); AffectedOf(targets) == if |all| <= 5 then all else all[..5]
    decreases |targets|
  {
    if targets != [] {
      var front, last := targets[..|targets| - 1], targets[|targets| - 1];
      assert targets == front + [last];
      AffectedAreFirst(front);
      UnpublishedJoin(front, last);
    }
  }

  ghost predicate TypedRows(view: View) {
    && (forall i :: 0 <= i < |view.targets| ==> view.targets[i].TargetRow?)
    && (forall i :: 0 <= i < |view.operations| ==> view.operations[i].OperationRow?)
  }

  /** What the Action's loop learns from the rows. */
  datatype Flags = Flags(
    ambiguous: bool, external: bool, blocked: bool, rejected: bool, failed: bool, outstanding: bool, allPublished: bool)

  function FlagsBefore(view: View): Flags {
    Flags(false, false, false, false, false, !view.completed, view.completed && !view.cancelled)
  }

  function FlagsWith(f: Flags, row: Row): Flags {
    Flags(
      f.ambiguous || row.ambiguous,
      f.external || row.state == WaitingExternal || row.reconcileRequired,
      f.blocked || row.state == Blocked,
      f.rejected || row.state == Rejected,
      f.failed || row.state == Failed || row.state == Cancelled,
      f.outstanding || !Terminal(row.state) || row.reconcileRequired || row.ambiguous,
      f.allPublished && !(row.state != Published || row.reconcileRequired || row.ambiguous))
  }

  ghost predicate FlagsOf(view: View, rows: seq<Row>, f: Flags) {
    && (f.ambiguous <==> AnyAmbiguous(rows))
    && (f.external <==> AnyState(rows, WaitingExternal) || AnyReconcile(rows))
    && (f.blocked <==> AnyState(rows, Blocked))
    && (f.rejected <==> AnyState(rows, Rejected))
    && (f.failed <==> AnyFailing(rows))
    && (f.outstanding <==> !view.completed || AnyOpen(rows) || AnyReconcile(rows) || AnyAmbiguous(rows))
    && (f.allPublished <==> view.completed && !view.cancelled && AllClean(rows))
  }

  lemma FlagsJoin(view: View, rows: seq<Row>, i: nat, f: Flags)
    requires i < |rows| && FlagsOf(view, rows[..i], f)
    ensures FlagsOf(view, rows[..i + 1], FlagsWith(f, rows[i]))
  {
    RowJoins(rows, i);
    hide AnyFailing, AnyState, AnyOpen, AnyReconcile, AnyAmbiguous, AllClean;
  }

  function ActionOutcomeOf(f: Flags, truncated: bool, mixed: bool): ActionOutcome {
    if truncated then JournalTruncated
    else if mixed then MixedOutcomes
    else if f.ambiguous then UncertainOutcome
    else if f.external && !f.allPublished then WaitingForReview
    else if f.blocked then BlockedBeforeCompletion
    else if f.failed then FailedOrCancelled
    else if f.rejected then RejectedByDestination
    else if f.allPublished then RecordedAsPublished
    else RecordedIncomplete
  }

  /** Each outcome is told exactly under its own condition on the rows. */
  ghost predicate ActionTells(view: View, outcome: ActionOutcome) {
    var rows := view.targets + view.operations;
    var failed, rejected := view.cancelled || AnyFailing(rows), AnyState(rows, Rejected);
    var uncertain, blocked := AnyAmbiguous(rows), AnyState(rows, Blocked);
    var waiting := AnyState(rows, WaitingExternal) || AnyReconcile(rows);
    var unfinished := !view.completed || AnyOpen(rows) || AnyReconcile(rows) || uncertain;
    var whole := !view.truncated;
    && (outcome.JournalTruncated? <==> view.truncated)
    && (outcome.MixedOutcomes? <==>
          whole && (failed || rejected) && (uncertain || waiting || blocked || unfinished))
    && (outcome.UncertainOutcome? <==> whole && !failed && !rejected && uncertain)
    && (outcome.WaitingForReview? <==> whole && !failed && !rejected && !uncertain && waiting)
    && (outcome.BlockedBeforeCompletion? <==> whole && !failed && !rejected && !uncertain && !waiting && blocked)
    && (outcome.FailedOrCancelled? <==> whole && failed && !uncertain && !waiting && !blocked && !unfinished)
    && (outcome.RejectedByDestination? <==>
          whole && rejected && !failed && !uncertain && !waiting && !blocked && !unfinished)
    && (outcome.RecordedAsPublished? <==> whole && view.completed && !view.cancelled && AllClean(rows))
  }

  /**
   The report is readable, with the code that the Action expects, which is 0 only if everything is
   published and settled.
   */
  ghost predicate ActionAccepts(view: View, exitCode: int) {
    && Readable(view) && exitCode == ActionCode(view)
    && (exitCode == EXIT_OK ==> view.completed && AllClean(view.targets + view.operations))
  }

  /** The end of state_from, once all rows are read. */
  method Summarize(view: View, f: Flags, affected: seq<Affected>, exitCode: int) returns (result: Option<Summary>)
    requires FlagsOf(view, view.targets + view.operations, f)
    ensures result.Some? <==>
              exitCode == ActionCode(view)
              && (exitCode == EXIT_OK ==> view.completed && AllClean(view.targets + view.operations))
    ensures result.Some? ==>
              && (result.value.published <==> exitCode == EXIT_OK && !view.truncated)
              && (result.value.outcome.RecordedAsPublished? <==> result.value.published)
              && ActionTells(view, result.value.outcome)
              && result.value.affected == affected
              && (result.value.ambiguous <==> AnyAmbiguous(view.targets + view.operations))
              && (result.value.pending <==> exitCode == EXIT_PENDING)
  {
    CleanRows(view.targets + view.operations);
    hide AnyFailing, AnyState, AnyOpen, AnyReconcile, AnyAmbiguous, AllClean;
    var flags := f.(failed := f.failed || view.cancelled);
    var expected := Verdict(flags.failed, flags.rejected, flags.outstanding);
    if expected != exitCode || (exitCode == EXIT_OK && !flags.allPublished) { return None; }
    if view.truncated { flags := flags.(allPublished := false); }
    var mixed := (flags.failed || flags.rejected)
                 && (flags.ambiguous || flags.external || flags.blocked || flags.outstanding);
    result := Some(Summary(ActionOutcomeOf(flags, view.truncated, mixed), exitCode == EXIT_PENDING, flags.ambiguous,
                           view.truncated, affected, flags.allPublished, mixed));
  }

  /** state_from: a summary of the report, or none if it is unreadable or contradicts its exit code. */
  method StateFrom(view: View, exitCode: int) returns (result: Option<Summary>)
    requires TypedRows(view)
    ensures result.Some? <==> ActionAccepts(view, exitCode)
    ensures result.Some? ==>
              && (result.value.published <==> exitCode == EXIT_OK && !view.truncated)
              && (result.value.outcome.RecordedAsPublished? <==> result.value.published)
              && ActionTells(view, result.value.outcome)
              && result.value.affected == AffectedOf(view.targets)
              && (result.value.ambiguous <==> AnyAmbiguous(view.targets + view.operations))
              && (result.value.pending <==> exitCode == EXIT_PENDING)
  {
    hide FlagsOf, FlagsWith, AffectedOf, Identity, ReadableRow, ActionCode, AllClean;
    if !Identity(view.planId) || !Identity(view.runId) { return None; }
    if |view.targets| == 0 || |view.operations| == 0 || |view.targets| > LIST_LIMIT || |view.operations| > LIST_LIMIT {
      return None;
    }
    var flags := FlagsBefore(view);
    var affected: seq<Affected> := [];
    var rows := view.targets + view.operations;
    NoRowsYet(view);
    for i := 0 to |rows|
      invariant forall j :: 0 <= j < i ==> ReadableRow(rows[j])
      invariant FlagsOf(view, rows[..i], flags)
      invariant affected == AffectedOf(if i <= |view.targets| then view.targets[..i] else view.targets)
    {
      var row := rows[i];
      if !ReadableRow(row) { UnreadableRow(view, i); return None; }
      FlagsJoin(view, rows, i, flags);
      flags := FlagsWith(flags, row);
      if i < |view.targets| {
        AffectedJoins(view.targets, i);
        if row.state != Published && |affected| < AFFECTED_LIMIT {
          affected := affected + [Affected(row.id, row.state, row.ambiguous)];
        }
      }
      assert view.targets[..|view.targets|] == view.targets;
    }
    assert rows[..|rows|] == rows && view.targets[..|view.targets|] == view.targets;
    ReadableTogether(view);
    result := Summarize(view, flags, affected, exitCode);
  }

  lemma NoRowsYet(view: View)
    ensures FlagsOf(view, (view.targets + view.operations)[..0], FlagsBefore(view))
            && AffectedOf(view.targets[..0]) == []
  {
  }

  lemma AffectedJoins(targets: seq<Row>, i: nat)
    requires i < |targets|
    ensures var before, last := AffectedOf(targets[..i]), targets[i];
      AffectedOf(targets[..i + 1])
      == if last.state != Published && |before| < AFFECTED_LIMIT then
           before + [Affected(last.id, last.state, last.ambiguous)] else before
  {
    assert targets[..i + 1][..i] == targets[..i];
  }

  lemma UnreadableRow(view: View, i: nat)
    requires i < |view.targets + view.operations| && !ReadableRow((view.targets + view.operations)[i])
    ensures !Readable(view)
  {
    if i < |view.targets| {
      assert !ReadableRow(view.targets[i]);
    } else {
      assert !ReadableRow(view.operations[i - |view.targets|]);
    }
  }

  lemma ReadableTogether(view: View)
    requires Identity(view.planId) && Identity(view.runId)
    requires 1 <= |view.targets| <= LIST_LIMIT && 1 <= |view.operations| <= LIST_LIMIT
    requires forall j :: 0 <= j < |view.targets + view.operations| ==> ReadableRow((view.targets + view.operations)[j])
    ensures Readable(view)
  {
    var rows := view.targets + view.operations;
    forall i | 0 <= i < |view.targets| ensures ReadableRow(view.targets[i]) { assert rows[i] == view.targets[i]; }
    forall i | 0 <= i < |view.operations| ensures ReadableRow(view.operations[i]) {
      assert rows[|view.targets| + i] == view.operations[i];
    }
  }

  /** When every row is published and settled, nothing else is the case. */
  lemma CleanRows(rows: seq<Row>)
    ensures AllClean(rows) ==>
              && !AnyAmbiguous(rows) && !AnyReconcile(rows) && !AnyFailing(rows) && !AnyOpen(rows)
              && !AnyState(rows, WaitingExternal) && !AnyState(rows, Blocked) && !AnyState(rows, Rejected)
  {
  }

  // The Gradle plugin

  datatype PluginOutcome =
    | PluginTruncated
    | PluginMixed
    | PluginAmbiguous
    | AwaitingAcceptance
    | BlockedByCredentials
    | PluginBlocked
    | PluginFailed
    | PluginRejected
    | PluginPublished
    | PluginPending

  datatype PluginFlags = PluginFlags(
    ambiguous: bool, external: bool, blocked: bool, credentialBlocked: bool, rejected: bool, failed: bool,
    pending: bool, allPublished: bool)

  const CREDENTIAL_CODES := {"CREDENTIAL_UNAVAILABLE", "CREDENTIAL_RESOLUTION_FAILED"}

  function PluginFlagsBefore(view: View): PluginFlags {
    PluginFlags(false, false, false, false, false, view.cancelled, !view.completed, view.completed && !view.cancelled)
  }

  function PluginFlagsWithTarget(f: PluginFlags, row: Row): PluginFlags {
    f.(ambiguous := f.ambiguous || row.ambiguous,
       external := f.external || (row.reconcileRequired && !row.ambiguous),
       allPublished := f.allPublished && !(row.state != Published || row.reconcileRequired || row.ambiguous))
  }

  function PluginFlagsWithOperation(f: PluginFlags, row: Row): PluginFlags
    requires row.OperationRow?
  {
    var g := PluginFlagsWithTarget(f, row);
    var failed := row.state == Failed || row.state == Cancelled;
    PluginFlags(
      g.ambiguous,
      g.external,
      g.blocked || row.state == Blocked,
      g.credentialBlocked || (row.state == Blocked && row.errorCode in CREDENTIAL_CODES),
      g.rejected || row.state == Rejected,
      g.failed || failed,
      g.pending || (!failed && row.state != Rejected && (row.state != Published || row.reconcileRequired)),
      g.allPublished)
  }

  /** An operation that is neither rejected nor failed and not a settled publication. */
  predicate Waits(row: Row) {
    !Failing(row.state) && row.state != Rejected && (row.state != Published || row.reconcileRequired)
  }

  ghost predicate AnyWaits(rows: seq<Row>) {
    exists i :: 0 <= i < |rows| && Waits(rows[i])
  }

  /** Something outside decides, and what happened so far is certain. */
  ghost predicate AnyExternal(rows: seq<Row>) {
    exists i :: 0 <= i < |rows| && rows[i].reconcileRequired && !rows[i].ambiguous
  }

  predicate CredentialBlocked(row: Row) {
    row.OperationRow? && row.state == Blocked && row.errorCode in CREDENTIAL_CODES
  }

  ghost predicate AnyCredentialBlocked(rows: seq<Row>) {
    exists i :: 0 <= i < |rows| && CredentialBlocked(rows[i])
  }

  /** The exit code that the plugin expects: the operations alone decide it. */
  ghost function PluginCode(view: View): int {
    Verdict(view.cancelled || AnyFailing(view.operations), AnyState(view.operations, Rejected),
            !view.completed || AnyWaits(view.operations))
  }

  lemma PluginRowJoins(rows: seq<Row>, i: nat)
    requires i < |rows|
    ensures AnyExternal(rows[..i + 1]) <==> AnyExternal(rows[..i]) || (rows[i].reconcileRequired && !rows[i].ambiguous)
    ensures AnyCredentialBlocked(rows[..i + 1]) <==> AnyCredentialBlocked(rows[..i]) || CredentialBlocked(rows[i])
  {
    var less, more := rows[..i], rows[..i + 1];
    assert more[i] == rows[i] && forall j :: 0 <= j < i ==> more[j] == less[j];
    if AnyExternal(less) {
      var j :| 0 <= j < i && less[j].reconcileRequired && !less[j].ambiguous;
      assert more[j].reconcileRequired;
    }
    if AnyCredentialBlocked(less) {
      var j :| 0 <= j < i && CredentialBlocked(less[j]);
      assert CredentialBlocked(more[j]);
    }
  }

  lemma WaitingRowJoins(rows: seq<Row>, i: nat)
    requires i < |rows|
    ensures AnyWaits(rows[..i + 1]) <==> AnyWaits(rows[..i]) || Waits(rows[i])
  {
    var more := rows[..i + 1];
    assert more[i] == rows[i];
    if AnyWaits(rows[..i]) { var j :| 0 <= j < i && Waits(rows[..i][j]); assert Waits(more[j]); }
  }

  function PluginOutcomeOf(f: PluginFlags, truncated: bool): PluginOutcome {
    if truncated then PluginTruncated
    else if (f.failed || f.rejected) && (f.ambiguous || f.external || f.blocked) then PluginMixed
    else if f.ambiguous then PluginAmbiguous
    else if f.external then AwaitingAcceptance
    else if f.blocked then (if f.credentialBlocked then BlockedByCredentials else PluginBlocked)
    else if f.failed then PluginFailed
    else if f.rejected then PluginRejected
    else if f.allPublished then PluginPublished
    else PluginPending
  }

  ghost predicate PluginFlagsOf(view: View, targets: seq<Row>, operations: seq<Row>, f: PluginFlags) {
    && (f.ambiguous <==> AnyAmbiguous(targets) || AnyAmbiguous(operations))
    && (f.external <==> AnyExternal(targets) || AnyExternal(operations))
    && (f.blocked <==> AnyState(operations, Blocked))
    && (f.credentialBlocked <==> AnyCredentialBlocked(operations))
    && (f.rejected <==> AnyState(operations, Rejected))
    && (f.failed <==> view.cancelled || AnyFailing(operations))
    && (f.pending <==> !view.completed || AnyWaits(operations))
    && (f.allPublished <==> view.completed && !view.cancelled && AllClean(targets) && AllClean(operations))
  }

  lemma PluginTargetJoins(view: View, i: nat, f: PluginFlags)
    requires i < |view.targets| && PluginFlagsOf(view, view.targets[..i], [], f)
    ensures PluginFlagsOf(view, view.targets[..i + 1], [], PluginFlagsWithTarget(f, view.targets[i]))
  {
    RowJoins(view.targets, i);
    PluginRowJoins(view.targets, i);
    hide AnyFailing, AnyState, AnyReconcile, AnyAmbiguous, AllClean, AnyWaits, AnyExternal;
  }

  lemma PluginOperationJoins(view: View, i: nat, f: PluginFlags)
    requires i < |view.operations| && view.operations[i].OperationRow?
    requires PluginFlagsOf(view, view.targets, view.operations[..i], f)
    ensures PluginFlagsOf(view, view.targets, view.operations[..i + 1], PluginFlagsWithOperation(f, view.operations[i]))
  {
    OperationRowJoins(view.operations, i);
    WaitingRowJoins(view.operations, i);
    PluginRowJoins(view.operations, i);
    FlagsWithOperation(f, view.operations[i]);
    hide AnyFailing, AnyState, AnyReconcile, AnyAmbiguous, AllClean, AnyWaits, AnyExternal, AnyCredentialBlocked,
      PluginFlagsWithOperation, Clean, Failing, Waits, CredentialBlocked;
  }

  /** Each flag by itself. */
  lemma FlagsWithOperation(f: PluginFlags, row: Row)
    requires row.OperationRow?
    ensures var g := PluginFlagsWithOperation(f, row);
      && g.ambiguous == (f.ambiguous || row.ambiguous)
      && g.external == (f.external || (row.reconcileRequired && !row.ambiguous))
      && g.blocked == (f.blocked || row.state == Blocked)
      && g.credentialBlocked == (f.credentialBlocked || CredentialBlocked(row))
      && g.rejected == (f.rejected || row.state == Rejected)
      && g.failed == (f.failed || Failing(row.state))
      && g.pending == (f.pending || Waits(row))
      && g.allPublished == (f.allPublished && Clean(row))
  {
  }

  lemma OperationRowJoins(rows: seq<Row>, i: nat)
    requires i < |rows|
    ensures AnyFailing(rows[..i + 1]) <==> AnyFailing(rows[..i]) || Failing(rows[i].state)
    ensures AnyReconcile(rows[..i + 1]) <==> AnyReconcile(rows[..i]) || rows[i].reconcileRequired
    ensures AnyAmbiguous(rows[..i + 1]) <==> AnyAmbiguous(rows[..i]) || rows[i].ambiguous
    ensures AllClean(rows[..i + 1]) <==> AllClean(rows[..i]) && Clean(rows[i])
    ensures AnyState(rows[..i + 1], Blocked) <==> AnyState(rows[..i], Blocked) || rows[i].state == Blocked
    ensures AnyState(rows[..i + 1], Rejected) <==> AnyState(rows[..i], Rejected) || rows[i].state == Rejected
  {
    RowJoins(rows, i);
    hide AnyFailing, AnyState, AnyReconcile, AnyAmbiguous, AllClean;
  }

  ghost predicate PluginAccepts(view: View, exitCode: int) {
    && Readable(view) && exitCode == PluginCode(view)
    && (exitCode == EXIT_OK ==> view.completed && AllClean(view.targets) && AllClean(view.operations))
  }

  /** Each outcome is told exactly under its own condition on the rows. */
  ghost predicate PluginTells(view: View, outcome: PluginOutcome) {
    var failed, rejected := view.cancelled || AnyFailing(view.operations), AnyState(view.operations, Rejected);
    var uncertain := AnyAmbiguous(view.targets) || AnyAmbiguous(view.operations);
    var external, blocked := AnyExternal(view.targets) || AnyExternal(view.operations),
                             AnyState(view.operations, Blocked);
    var whole := !view.truncated;
    && (outcome.PluginTruncated? <==> view.truncated)
    && (outcome.PluginMixed? <==> whole && (failed || rejected) && (uncertain || external || blocked))
    && (outcome.PluginAmbiguous? <==> whole && !failed && !rejected && uncertain)
    && (outcome.AwaitingAcceptance? <==> whole && !failed && !rejected && !uncertain && external)
    && (outcome.BlockedByCredentials? || outcome.PluginBlocked? <==>
          whole && !failed && !rejected && !uncertain && !external && blocked)
    && (outcome.BlockedByCredentials? ==> AnyCredentialBlocked(view.operations))
    && (outcome.PluginBlocked? ==> !AnyCredentialBlocked(view.operations))
    && (outcome.PluginFailed? <==> whole && failed && !uncertain && !external && !blocked)
    && (outcome.PluginRejected? <==> whole && rejected && !failed && !uncertain && !external && !blocked)
    && (outcome.PluginPublished? <==>
          whole && view.completed && !view.cancelled && AllClean(view.targets) && AllClean(view.operations))
  }

  /** CliFeedback.state: the outcome that the plugin reports, or none where it throws. */
  method PluginState(view: View, exitCode: int) returns (result: Option<PluginOutcome>)
    requires TypedRows(view)
    ensures result.Some? <==> PluginAccepts(view, exitCode)
    ensures result.Some? ==> (result.value.PluginPublished? <==> exitCode == EXIT_OK && !view.truncated)
    ensures result.Some? ==> PluginTells(view, result.value)
  {
    hide PluginFlagsOf, PluginFlagsWithTarget, PluginFlagsWithOperation, Identity, ReadableRow, PluginCode, AllClean,
      PluginTells;
    if !Identity(view.planId) || !Identity(view.runId) { return None; }
    if |view.targets| > LIST_LIMIT || |view.operations| > LIST_LIMIT || |view.targets| == 0 || |view.operations| == 0 {
      return None;
    }
    var flags := PluginFlagsBefore(view);
    NoPluginRowsYet(view);
    for i := 0 to |view.targets|
      invariant forall j :: 0 <= j < i ==> ReadableRow(view.targets[j])
      invariant PluginFlagsOf(view, view.targets[..i], [], flags)
    {
      if !ReadableRow(view.targets[i]) { return None; }
      PluginTargetJoins(view, i, flags);
      flags := PluginFlagsWithTarget(flags, view.targets[i]);
    }
    assert view.targets[..|view.targets|] == view.targets && view.operations[..0] == [];
    for i := 0 to |view.operations|
      invariant forall j :: 0 <= j < i ==> ReadableRow(view.operations[j])
      invariant PluginFlagsOf(view, view.targets, view.operations[..i], flags)
    {
      if !ReadableRow(view.operations[i]) { return None; }
      PluginOperationJoins(view, i, flags);
      flags := PluginFlagsWithOperation(flags, view.operations[i]);
    }
    assert view.operations[..|view.operations|] == view.operations;
    result := PluginVerdict(view, flags, exitCode);
  }

  lemma NoPluginRowsYet(view: View)
    ensures PluginFlagsOf(view, view.targets[..0], [], PluginFlagsBefore(view))
  {
  }

  method PluginVerdict(view: View, flags: PluginFlags, exitCode: int) returns (result: Option<PluginOutcome>)
    requires PluginFlagsOf(view, view.targets, view.operations, flags)
    ensures result.Some? <==>
              exitCode == PluginCode(view)
              && (exitCode == EXIT_OK ==> view.completed && AllClean(view.targets) && AllClean(view.operations))
    ensures result.Some? ==> (result.value.PluginPublished? <==> exitCode == EXIT_OK && !view.truncated)
    ensures result.Some? ==> PluginTells(view, result.value)
  {
    CleanRows(view.targets);
    CleanRows(view.operations);
    CleanRowsDoNotWait(view.operations);
    CleanRowsAreInternal(view.targets);
    CleanRowsAreInternal(view.operations);
    hide AnyFailing, AnyState, AnyReconcile, AnyAmbiguous, AllClean, AnyWaits, AnyOpen, AnyExternal,
      AnyCredentialBlocked;
    var expected := Verdict(flags.failed, flags.rejected, flags.pending);
    if expected != exitCode || (exitCode == EXIT_OK && !flags.allPublished) { return None; }
    result := Some(PluginOutcomeOf(flags, view.truncated));
  }

  lemma CleanRowsAreInternal(rows: seq<Row>)
    ensures AllClean(rows) ==> !AnyExternal(rows)
  {
  }

  lemma CleanRowsDoNotWait(rows: seq<Row>)
    ensures AllClean(rows) ==> !AnyWaits(rows)
  {
  }

  // Agreement

  lemma {:induction false} FirstPresentIsPresent(records: Records, target: TargetID, order: seq<NormalizedState>)
    requires exists state :: state in order && TargetHas(records, target, state)
    ensures FirstPresent(records, target, order) in order
    ensures TargetHas(records, target, FirstPresent(records, target, order))
  {
    if !TargetHas(records, target, order[0]) {
      var state :| state in order && TargetHas(records, target, state);
      assert state in order[1..];
      FirstPresentIsPresent(records, target, order[1..]);
    }
  }

  /** A started target shows published, when all its operations are, or the state of one that is not. */
  lemma TargetShowsAnOperation(records: Records, target: TargetID)
    requires RecordInvariants(records) && AggregateTarget(records, target) != Published
    ensures TargetHas(records, target, AggregateTarget(records, target))
  {
    hide RecordInvariant;
    var id :| id in records && records[id].op.target == target && records[id].state != Published;
    assert records[id].state in AGGREGATION_ORDER by { KnownState(records[id]); }
    assert TargetHas(records, target, records[id].state);
    FirstPresentIsPresent(records, target, AGGREGATION_ORDER);
  }

  lemma KnownState(r: Record)
    requires RecordInvariant(r)
    ensures r.state != Unset
  {
  }

  /** Each fact about a target's row is a fact about some operation's row, or the run has not started. */
  predicate Reflects(target: Row, operations: seq<Row>, started: bool) {
    && target.state != Unset
    && (started && target.state != Published ==>
        exists i :: 0 <= i < |operations| && operations[i].state == target.state)
    && (!started ==> target.state == Planned)
    && (target.reconcileRequired ==> exists i :: 0 <= i < |operations| && operations[i].reconcileRequired)
    && (target.ambiguous ==> exists i :: 0 <= i < |operations| && operations[i].ambiguous)
  }

  ghost predicate Shows(view: View, plan: Plan, st: RunState, truncated: bool, targets: seq<TargetID>,
                        operations: seq<OperationID>) {
    Enumerates(Derive(plan, st), targets, operations)
    && ShowsState(view, plan, Derive(plan, st), truncated, targets, operations)
  }

  lemma OperationHasRow(view: View, plan: Plan, st: RunState, truncated: bool, targets: seq<TargetID>,
                        operations: seq<OperationID>, id: OperationID) returns (i: nat)
    requires Shows(view, plan, st, truncated, targets, operations) && id in st.records
    ensures i < |view.operations| && view.operations[i] == OperationRowOf(id, st.records[id])
  {
    assert id in operations;
    i :| 0 <= i < |operations| && operations[i] == id;
  }

  lemma TargetStateReflects(view: View, plan: Plan, st: RunState, truncated: bool, targets: seq<TargetID>,
                            operations: seq<OperationID>, t: TargetID)
    requires Shows(view, plan, st, truncated, targets, operations) && RecordInvariants(st.records) && st.started
    requires AggregateTarget(st.records, t) != Published
    ensures AggregateTarget(st.records, t) != Unset
    ensures exists i :: 0 <= i < |view.operations| && view.operations[i].state == AggregateTarget(st.records, t)
  {
    hide RecordInvariant, FirstPresent, AggregateTarget;
    TargetShowsAnOperation(st.records, t);
    var id :| id in st.records && st.records[id].op.target == t
              && st.records[id].state == AggregateTarget(st.records, t);
    var i := OperationHasRow(view, plan, st, truncated, targets, operations, id);
    KnownState(st.records[id]);
  }

  lemma TargetFlagsReflect(view: View, plan: Plan, st: RunState, truncated: bool, targets: seq<TargetID>,
                           operations: seq<OperationID>, t: TargetID)
    requires Shows(view, plan, st, truncated, targets, operations)
    ensures var derived := DeriveTarget(st.started, st.records, t);
      && (derived.reconcileRequired ==> AnyReconcile(view.operations))
      && (derived.ambiguous ==> AnyAmbiguous(view.operations))
  {
    hide FirstPresent, AggregateTarget, Shows;
    var derived := DeriveTarget(st.started, st.records, t);
    if derived.reconcileRequired {
      var id :| id in st.records && st.records[id].op.target == t && st.records[id].reconcileRequired;
      var i := OperationHasRow(view, plan, st, truncated, targets, operations, id);
    }
    if derived.ambiguous {
      var id :| id in st.records && st.records[id].op.target == t && st.records[id].ambiguous;
      var i := OperationHasRow(view, plan, st, truncated, targets, operations, id);
    }
  }

  lemma TargetHasRow(view: View, plan: Plan, st: RunState, truncated: bool, targets: seq<TargetID>,
                     operations: seq<OperationID>, k: nat)
    requires Shows(view, plan, st, truncated, targets, operations) && k < |view.targets|
    ensures k < |targets| && view.targets[k]
            == TargetRowOf(targets[k], DeriveTarget(st.started, st.records, targets[k]))
  {
    hide DeriveTarget;
    assert Derive(plan, st).targets[targets[k]] == DeriveTarget(st.started, st.records, targets[k]);
  }

  lemma TargetReflectsOperations(view: View, plan: Plan, st: RunState, truncated: bool, targets: seq<TargetID>,
                                 operations: seq<OperationID>, k: nat)
    requires Shows(view, plan, st, truncated, targets, operations) && RecordInvariants(st.records) && k < |view.targets|
    ensures Reflects(view.targets[k], view.operations, st.started)
  {
    hide RecordInvariants, AggregateTarget, Shows;
    TargetHasRow(view, plan, st, truncated, targets, operations, k);
    TargetFlagsReflect(view, plan, st, truncated, targets, operations, targets[k]);
    if st.started && view.targets[k].state != Published {
      TargetStateReflects(view, plan, st, truncated, targets, operations, targets[k]);
    }
  }

  /** What holds of the operations' rows of a reduced state. */
  predicate SoundRow(row: Row, completed: bool) {
    && row.state != Unset && (row.ambiguous ==> row.reconcileRequired)
    && (row.reconcileRequired ==> row.state == WaitingExternal || row.state == Running)
    && (completed ==> !row.reconcileRequired && Terminal(row.state))
  }

  lemma OperationRowsAreSound(view: View, plan: Plan, st: RunState, truncated: bool, targets: seq<TargetID>,
                              operations: seq<OperationID>, k: nat)
    requires Shows(view, plan, st, truncated, targets, operations) && Invariant(plan, st) && k < |view.operations|
    ensures SoundRow(view.operations[k], view.completed)
  {
    assert RecordInvariant(st.records[operations[k]]);
    hide CancelledInvariants, DependenciesPublished;
  }

  lemma RowsDecideAlone(view: View, started: bool)
    requires forall k :: 0 <= k < |view.targets| ==> Reflects(view.targets[k], view.operations, started)
    requires forall k :: 0 <= k < |view.operations| ==> SoundRow(view.operations[k], view.completed)
    requires view.completed ==> started
    ensures var rows := view.targets + view.operations;
      && (AnyFailing(rows) <==> AnyFailing(view.operations))
      && (AnyState(rows, Rejected) <==> AnyState(view.operations, Rejected))
      && (AnyOpen(rows) || !view.completed <==> AnyOpen(view.operations) || !view.completed)
      && (AnyReconcile(rows) <==> AnyReconcile(view.operations))
      && (AnyAmbiguous(rows) ==> AnyReconcile(view.operations))
  {
    var rows := view.targets + view.operations;
    forall i | 0 <= i < |view.operations| ensures rows[|view.targets| + i] == view.operations[i] { }
    forall i | 0 <= i < |rows|
      ensures Failing(rows[i].state) ==> AnyFailing(view.operations)
      ensures rows[i].state == Rejected ==> AnyState(view.operations, Rejected)
      ensures !Terminal(rows[i].state) ==> AnyOpen(view.operations) || !view.completed
      ensures rows[i].reconcileRequired ==> AnyReconcile(view.operations)
      ensures rows[i].ambiguous ==> AnyReconcile(view.operations)
    {
      if i < |view.targets| { assert Reflects(view.targets[i], view.operations, started); }
      else { assert rows[i] == view.operations[i - |view.targets|]; }
    }
    OperationsAmongRows(view);
  }

  lemma OperationsAmongRows(view: View)
    ensures var rows := view.targets + view.operations;
      && (AnyFailing(view.operations) ==> AnyFailing(rows))
      && (AnyState(view.operations, Rejected) ==> AnyState(rows, Rejected))
      && (AnyOpen(view.operations) ==> AnyOpen(rows))
      && (AnyReconcile(view.operations) ==> AnyReconcile(rows))
  {
    var rows := view.targets + view.operations;
    forall i | 0 <= i < |view.operations| ensures rows[|view.targets| + i] == view.operations[i] { }
    if AnyFailing(view.operations) {
      var i :| 0 <= i < |view.operations| && Failing(view.operations[i].state);
      assert Failing(rows[|view.targets| + i].state);
    }
    if AnyState(view.operations, Rejected) {
      var i :| 0 <= i < |view.operations| && view.operations[i].state == Rejected;
      assert rows[|view.targets| + i].state == Rejected;
    }
    if AnyOpen(view.operations) {
      var i :| 0 <= i < |view.operations| && !Terminal(view.operations[i].state);
      assert !Terminal(rows[|view.targets| + i].state);
    }
    if AnyReconcile(view.operations) {
      var i :| 0 <= i < |view.operations| && view.operations[i].reconcileRequired;
      assert rows[|view.targets| + i].reconcileRequired;
    }
  }

  lemma WaitingIsOpen(view: View)
    requires forall k :: 0 <= k < |view.operations| ==> SoundRow(view.operations[k], view.completed)
    requires !AnyFailing(view.operations) && !AnyState(view.operations, Rejected)
    ensures AnyWaits(view.operations) <==> AnyOpen(view.operations) || AnyReconcile(view.operations)
  {
    if AnyWaits(view.operations) {
      var i :| 0 <= i < |view.operations| && Waits(view.operations[i]);
      assert !Terminal(view.operations[i].state) || view.operations[i].reconcileRequired;
    }
    if AnyOpen(view.operations) {
      var i :| 0 <= i < |view.operations| && !Terminal(view.operations[i].state);
      assert Waits(view.operations[i]);
    }
    if AnyReconcile(view.operations) {
      var i :| 0 <= i < |view.operations| && view.operations[i].reconcileRequired;
      assert Waits(view.operations[i]);
    }
  }

  /** The command prints identifiers and list sizes that the readers accept. */
  ghost predicate Printable(plan: Plan, runId: RunID, targets: seq<TargetID>, operations: seq<OperationID>) {
    && Identity(plan.id) && Identity(runId)
    && |targets| <= LIST_LIMIT && 1 <= |operations| <= LIST_LIMIT
    && (forall t :: t in TargetIDs(plan) ==> Identity(t))
    && (forall id :: id in plan.operations ==> Identity(id))
  }

  /**
   Agreement: of every state that a journal reduces to, the three programs compute one exit code, and
   it is 0 exactly if the run is completed with every operation published.
   */
  lemma ThreeProgramsAgree(view: View, plan: Plan, journal: seq<Event>, st: RunState, truncated: bool,
                           targets: seq<TargetID>, operations: seq<OperationID>)
    requires Replay(plan, journal) == Ok(st) && Shows(view, plan, st, truncated, targets, operations)
    ensures var code := ExitCode(view.completed, view.cancelled, view.operations);
      && code == ActionCode(view) == PluginCode(view)
      && (code == EXIT_OK <==> st.completed && forall id :: id in st.records ==> st.records[id].state == Published)
  {
    ReducibleJournalsKeepInvariant(plan, journal);
    hide Replay, Verdict, AnyFailing, AnyOpen, AnyReconcile, AnyAmbiguous, AnyState, AnyWaits;
    ReducedRows(view, plan, st, truncated, targets, operations);
    RowsDecideAlone(view, st.started);
    if !AnyFailing(view.operations) && !AnyState(view.operations, Rejected) { WaitingIsOpen(view); }
    CodesMatch(view);
    CompletedAndPublished(view, plan, st, truncated, targets, operations);
  }

  lemma ReducedRows(view: View, plan: Plan, st: RunState, truncated: bool, targets: seq<TargetID>,
                    operations: seq<OperationID>)
    requires Invariant(plan, st) && Shows(view, plan, st, truncated, targets, operations)
    ensures forall k :: 0 <= k < |view.targets| ==> Reflects(view.targets[k], view.operations, st.started)
    ensures forall k :: 0 <= k < |view.operations| ==> SoundRow(view.operations[k], view.completed)
    ensures (view.completed <==> st.completed) && (view.completed ==> st.started && !view.cancelled)
  {
    forall k | 0 <= k < |view.targets| ensures Reflects(view.targets[k], view.operations, st.started) {
      TargetReflectsOperations(view, plan, st, truncated, targets, operations, k);
    }
    forall k | 0 <= k < |view.operations| ensures SoundRow(view.operations[k], view.completed) {
      OperationRowsAreSound(view, plan, st, truncated, targets, operations, k);
    }
  }

  lemma CodesMatch(view: View)
    requires var rows := view.targets + view.operations;
      && (AnyFailing(rows) <==> AnyFailing(view.operations))
      && (AnyState(rows, Rejected) <==> AnyState(view.operations, Rejected))
      && (AnyOpen(rows) || !view.completed <==> AnyOpen(view.operations) || !view.completed)
      && (AnyReconcile(rows) <==> AnyReconcile(view.operations))
      && (AnyAmbiguous(rows) ==> AnyReconcile(view.operations))
    requires !AnyFailing(view.operations) && !AnyState(view.operations, Rejected) ==>
               (AnyWaits(view.operations) <==> AnyOpen(view.operations) || AnyReconcile(view.operations))
    ensures ExitCode(view.completed, view.cancelled, view.operations) == ActionCode(view) == PluginCode(view)
  {
    hide AnyFailing, AnyOpen, AnyReconcile, AnyAmbiguous, AnyState, AnyWaits;
  }

  lemma CompletedAndPublished(view: View, plan: Plan, st: RunState, truncated: bool, targets: seq<TargetID>,
                              operations: seq<OperationID>)
    requires Shows(view, plan, st, truncated, targets, operations)
    requires forall k :: 0 <= k < |view.operations| ==> SoundRow(view.operations[k], view.completed)
    requires (view.completed <==> st.completed) && (view.completed ==> !view.cancelled)
    ensures ExitCode(view.completed, view.cancelled, view.operations) == EXIT_OK
            <==> st.completed && forall id :: id in st.records ==> st.records[id].state == Published
  {
    if st.completed && forall id :: id in st.records ==> st.records[id].state == Published {
      assert forall k :: 0 <= k < |view.operations| ==> view.operations[k].state == Published;
    } else if st.completed {
      var id :| id in st.records && st.records[id].state != Published;
      var i := OperationHasRow(view, plan, st, truncated, targets, operations, id);
      assert SoundRow(view.operations[i], view.completed);
      assert Failing(view.operations[i].state) || view.operations[i].state == Rejected;
    }
  }

  /**
   And neither reader rejects the report: of any reduced state of a started run with at least one
   operation and identifiers and lists within the readers' limits, both accept the command's exit code.
   */
  lemma ReadersAcceptReports(view: View, plan: Plan, journal: seq<Event>, st: RunState, truncated: bool,
                             targets: seq<TargetID>, operations: seq<OperationID>)
    requires GoodPlan(plan) && Replay(plan, journal) == Ok(st) && Shows(view, plan, st, truncated, targets, operations)
    requires Printable(plan, st.runId, targets, operations)
    ensures var code := ExitCode(view.completed, view.cancelled, view.operations);
      ActionAccepts(view, code) && PluginAccepts(view, code)
  {
    ReducibleJournalsKeepInvariant(plan, journal);
    ThreeProgramsAgree(view, plan, journal, st, truncated, targets, operations);
    ReducedRows(view, plan, st, truncated, targets, operations);
    RowsAreReadable(view, plan, st, truncated, targets, operations);
    hide Replay, ActionCode, PluginCode, Readable, GoodPlan;
    if ExitCode(view.completed, view.cancelled, view.operations) == EXIT_OK {
      PublishedRowsAreClean(view, plan, st, truncated, targets, operations);
      AllCleanTogether(view);
    }
  }

  lemma RowsAreReadable(view: View, plan: Plan, st: RunState, truncated: bool, targets: seq<TargetID>,
                        operations: seq<OperationID>)
    requires GoodPlan(plan) && Invariant(plan, st) && Shows(view, plan, st, truncated, targets, operations)
    requires Printable(plan, st.runId, targets, operations)
    requires forall k :: 0 <= k < |view.targets| ==> Reflects(view.targets[k], view.operations, st.started)
    requires forall k :: 0 <= k < |view.operations| ==> SoundRow(view.operations[k], view.completed)
    ensures Readable(view)
  {
    hide Identity, RecordInvariants, CancelledInvariants, ExactFrontier, AggregateTarget;
    assert plan.targets[0] in TargetIDs(plan);
    assert plan.targets[0] in targets;
    forall k | 0 <= k < |view.targets| ensures ReadableRow(view.targets[k]) { assert targets[k] in TargetIDs(plan); }
    forall k | 0 <= k < |view.operations| ensures ReadableRow(view.operations[k]) {
      assert operations[k] in plan.operations && st.records[operations[k]].op == plan.operations[operations[k]];
      assert plan.operations[operations[k]].target in TargetIDs(plan);
      assert SoundRow(view.operations[k], view.completed);
    }
  }

  lemma PublishedRowsAreClean(view: View, plan: Plan, st: RunState, truncated: bool, targets: seq<TargetID>,
                              operations: seq<OperationID>)
    requires Shows(view, plan, st, truncated, targets, operations)
    requires forall k :: 0 <= k < |view.targets| ==> Reflects(view.targets[k], view.operations, st.started)
    requires forall k :: 0 <= k < |view.operations| ==> SoundRow(view.operations[k], view.completed)
    requires st.completed && st.started && forall id :: id in st.records ==> st.records[id].state == Published
    ensures view.completed && AllClean(view.targets) && AllClean(view.operations)
  {
    hide AggregateTarget;
    forall k | 0 <= k < |view.operations| ensures Clean(view.operations[k]) {
      assert SoundRow(view.operations[k], view.completed);
    }
    forall k | 0 <= k < |view.targets| ensures Clean(view.targets[k]) {
      assert Reflects(view.targets[k], view.operations, st.started);
    }
  }

  lemma AllCleanTogether(view: View)
    requires AllClean(view.targets) && AllClean(view.operations)
    ensures AllClean(view.targets + view.operations)
  {
  }
}
