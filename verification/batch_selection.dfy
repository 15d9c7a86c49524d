/**
 The next batch: the candidates with the reconciliations first, each kind in the order of the
 IDs, cut to the executor's concurrency (internal/executor/executor.go).
 */
module BatchSelection {
  import opened Domain
  import opened Reducer
  import opened Scheduler
  import opened SchedulerRuns
  import opened ExecutorPasses

  // The order of candidates

  /** Strings in the order of their characters, which is the order of their bytes. */
  predicate Precedes(a: string, b: string) {
    b != "" && (a == "" || a[0] < b[0] || (a[0] == b[0] && Precedes(a[1..], b[1..])))
  }

  lemma {:induction false} OneOrderOfStrings(a: string, b: string)
    ensures (Precedes(a, b) || Precedes(b, a)) <==> a != b
    ensures !(Precedes(a, b) && Precedes(b, a))
  {
    if a != "" && b != "" && a[0] == b[0] {
      OneOrderOfStrings(a[1..], b[1..]);
      assert a == [a[0]] + a[1..] && b == [b[0]] + b[1..];
    }
  }

  /** A string comes after its beginnings, and the first difference decides between two others. */
  lemma {:induction false} OrderIsLexicographic(common: string, x: char, y: char, a: string, b: string)
    ensures Precedes(common, common + [x] + a)
    ensures x < y ==> Precedes(common + [x] + a, common + [y] + b)
  {
    if common != "" {
      OrderIsLexicographic(common[1..], x, y, a, b);
      assert (common + [x] + a)[1..] == common[1..] + [x] + a && (common + [y] + b)[1..] == common[1..] + [y] + b;
    }
  }

  lemma {:induction false} StringsTransitive(a: string, b: string, c: string)
    requires Precedes(a, b) && Precedes(b, c)
    ensures Precedes(a, c)
  {
    if a != "" && a[0] == b[0] && b[0] == c[0] { StringsTransitive(a[1..], b[1..], c[1..]); }
  }

  /** Reconciliations come before applications, and each kind in the order of the IDs. */
  predicate Before(a: Work, b: Work)
    requires a.LaunchWork? && b.LaunchWork?
  {
    if a.kind != b.kind then a.kind.ReconcileTask? else Precedes(a.id, b.id)
  }

  ghost predicate Launches(works: seq<Work>) {
    forall x :: x in works ==> x.LaunchWork?
  }

  ghost predicate Ordered(works: seq<Work>)
    requires Launches(works)
  {
    forall i, j :: 0 <= i < j < |works| ==> Before(works[i], works[j])
  }

  function Insert(works: seq<Work>, x: Work): seq<Work>
    requires Launches(works) && x.LaunchWork?
  {
    if works == [] then [x]
    else if Before(works[0], x) then [works[0]] + Insert(works[1..], x)
    else [x] + works
  }

  function Sorted(works: seq<Work>): seq<Work>
    requires Launches(works)
    ensures Launches(Sorted(works)) && multiset(Sorted(works)) == multiset(works)
  {
    if works == [] then []
    else
      InsertKeeps(Sorted(works[..|works| - 1]), works[|works| - 1]);
      assert works == works[..|works| - 1] + [works[|works| - 1]];
      Insert(Sorted(works[..|works| - 1]), works[|works| - 1])
  }

  lemma {:induction false} InsertKeeps(works: seq<Work>, x: Work)
    requires Launches(works) && x.LaunchWork?
    ensures Launches(Insert(works, x)) && multiset(Insert(works, x)) == multiset(works) + multiset{x}
  {
    if works != [] && Before(works[0], x) {
      InsertKeeps(works[1..], x);
      assert works == [works[0]] + works[1..];
    }
  }

  lemma {:induction false} InsertOrdered(works: seq<Work>, x: Work)
    requires Launches(works) && Ordered(works) && x.LaunchWork? && forall y :: y in works ==> y.id != x.id
    ensures Launches(Insert(works, x)) && Ordered(Insert(works, x))
  {
    InsertKeeps(works, x);
    var inserted := Insert(works, x);
    if works != [] {
      var rest := works[1..];
      assert forall i, j :: 0 <= i < j < |rest| ==> rest[i] == works[i + 1] && rest[j] == works[j + 1];
      if Before(works[0], x) {
        InsertOrdered(rest, x);
        InsertKeeps(rest, x);
        forall j | 0 < j < |inserted| ensures Before(inserted[0], inserted[j]) {
          assert inserted[j] in multiset(Insert(rest, x));
        }
      } else {
        OneOrderOfStrings(works[0].id, x.id);
        forall j | 0 < j < |inserted| ensures Before(x, inserted[j]) {
          if j > 1 { BeforeTransitive(x, works[0], works[j - 1]); }
        }
      }
    }
  }

  lemma BeforeTransitive(a: Work, b: Work, c: Work)
    requires a.LaunchWork? && b.LaunchWork? && c.LaunchWork? && Before(a, b) && Before(b, c)
    ensures Before(a, c)
  {
    if a.kind == b.kind == c.kind { StringsTransitive(a.id, b.id, c.id); }
  }

  /** Sorting puts operations in their one order. */
  lemma {:induction false} SortedIsOrdered(works: seq<Work>)
    requires Launches(works) && DistinctWork(works)
    ensures Ordered(Sorted(works))
  {
    if works != [] {
      var front, last := works[..|works| - 1], works[|works| - 1];
      SortedIsOrdered(front);
      forall y | y in Sorted(front) ensures y.id != last.id {
        assert y in multiset(front);
      }
      InsertOrdered(Sorted(front), last);
    }
  }

  // The batch

  lemma {:induction false} BatchOfLaunches(cfg: Config, w: World, ids: seq<OperationID>, now: int)
    ensures Launches(WorkList(cfg, w, Batch, ids, now))
  {
    if ids != [] { BatchOfLaunches(cfg, w, ids[1..], now); }
    hide ReconcileCandidate, ApplyCandidate, Increment32;
  }

  function Ranked(cfg: Config, w: World, ids: seq<OperationID>, now: int): seq<Work> {
    BatchOfLaunches(cfg, w, ids, now);
    Sorted(WorkList(cfg, w, Batch, ids, now))
  }

  function NextBatch(cfg: Config, w: World, ids: seq<OperationID>, limit: nat, now: int): seq<Work> {
    var ranked := Ranked(cfg, w, ids, now);
    if |ranked| > limit then ranked[..limit] else ranked
  }

  function WorkIds(works: seq<Work>): seq<OperationID> {
    seq(|works|, i requires 0 <= i < |works| => works[i].id)
  }

  /** A listed piece of work is what the pass decides about its operation. */
  lemma {:induction false} ListedIsDecided(cfg: Config, w: World, phase: Phase, ids: seq<OperationID>, now: int)
    ensures forall x :: x in WorkList(cfg, w, phase, ids, now) ==>
              x.id in ids && x.id in w.st.records && Decide(cfg, w, phase, x.id, now) == Some(x)
  {
    if ids != [] {
      ListedIsDecided(cfg, w, phase, ids[1..], now);
      if ids[0] in w.st.records { DecidesAbout(cfg, w, phase, ids[0], now); }
    }
    hide Decide;
  }

  lemma {:induction false} DistinctListed(cfg: Config, w: World, phase: Phase, ids: seq<OperationID>, now: int)
    requires DistinctIds(ids)
    ensures DistinctWork(WorkList(cfg, w, phase, ids, now))
  {
    hide Decide;
    if ids != [] {
      assert forall i, j :: 0 <= i < j < |ids[1..]| ==> ids[1..][i] == ids[i + 1] && ids[1..][j] == ids[j + 1];
      DistinctListed(cfg, w, phase, ids[1..], now);
      ListedIsDecided(cfg, w, phase, ids[1..], now);
      assert ids[0] !in ids[1..];
      if ids[0] in w.st.records { DecidesAbout(cfg, w, phase, ids[0], now); }
      var rest := WorkList(cfg, w, phase, ids[1..], now);
      forall j | 0 <= j < |rest| ensures rest[j].id != ids[0] { assert rest[j] in rest; }
    }
  }

  /** Planning exactly the decided operations of a list gives that list. */
  lemma {:induction false} DecidedIsPlanned(cfg: Config, w: World, phase: Phase, works: seq<Work>, now: int)
    requires forall x :: x in works ==> x.id in w.st.records && Decide(cfg, w, phase, x.id, now) == Some(x)
    ensures WorkList(cfg, w, phase, WorkIds(works), now) == works
  {
    hide Decide;
    if works != [] {
      assert WorkIds(works)[1..] == WorkIds(works[1..]);
      DecidedIsPlanned(cfg, w, phase, works[1..], now);
    }
  }

  /**
   The machine can plan the executor's next batch: its operations are distinct, and planning them gives
   that batch in that order.
   */
  lemma NextBatchIsPlanned(cfg: Config, w: World, ids: seq<OperationID>, limit: nat, now: int)
    requires DistinctIds(ids)
    ensures var batch := NextBatch(cfg, w, ids, limit, now);
      && Launches(batch) && |batch| <= limit
      && (forall i, j :: 0 <= i < j < |batch| && batch[i].kind.ApplyTask? ==> batch[j].kind.ApplyTask?)
      && (forall i, j :: 0 <= i < j < |batch| && batch[i].kind == batch[j].kind ==>
            Precedes(batch[i].id, batch[j].id))
      && DistinctIds(WorkIds(batch)) && WorkList(cfg, w, Batch, WorkIds(batch), now) == batch
      && (forall x :: x in batch ==> x in WorkList(cfg, w, Batch, ids, now))
  {
    hide Decide, WorkList;
    var works, batch := WorkList(cfg, w, Batch, ids, now), NextBatch(cfg, w, ids, limit, now);
    BatchOfLaunches(cfg, w, ids, now);
    ListedIsDecided(cfg, w, Batch, ids, now);
    DistinctListed(cfg, w, Batch, ids, now);
    SortedIsOrdered(works);
    forall x | x in batch ensures x in works {
      assert x in multiset(Sorted(works));
    }
    forall i, j | 0 <= i < j < |batch| ensures batch[i].id != batch[j].id {
      assert Before(batch[i], batch[j]) && batch[i] in batch && batch[j] in batch;
      OneOrderOfStrings(batch[i].id, batch[j].id);
    }
    DecidedIsPlanned(cfg, w, Batch, batch, now);
  }

  /** Every candidate is in the batch, or the batch is full of candidates that come before it. */
  lemma BatchTakesTheFirst(cfg: Config, w: World, ids: seq<OperationID>, limit: nat, now: int, x: Work)
    requires DistinctIds(ids) && x in WorkList(cfg, w, Batch, ids, now)
    ensures var batch := NextBatch(cfg, w, ids, limit, now);
      x in batch || (|batch| == limit && x.LaunchWork? && forall y :: y in batch ==> y.LaunchWork? && Before(y, x))
  {
    hide Decide, WorkList;
    var works, ranked := WorkList(cfg, w, Batch, ids, now), Ranked(cfg, w, ids, now);
    BatchOfLaunches(cfg, w, ids, now);
    DistinctListed(cfg, w, Batch, ids, now);
    SortedIsOrdered(works);
    assert x in multiset(ranked);
    var j :| 0 <= j < |ranked| && ranked[j] == x;
    if j >= limit {
      forall y | y in ranked[..limit] ensures Before(y, x) {
        var i :| 0 <= i < limit && ranked[i] == y;
      }
    } else {
      assert x in NextBatch(cfg, w, ids, limit, now);
    }
  }

  /** The operation is to be reconciled, and has been neither reconciled nor put off by this execution. */
  predicate Reconcilable(id: OperationID, r: Record, reconciled: set<Key>, deferred: set<Key>) {
    !r.leaseActive && r.reconcileRequired && (id, r.attempt) !in reconciled && (id, r.attempt) !in deferred
  }

  /**
   An attempt of the operation may start: the run is not cancelled and the execution may do more than
   reconcile, and the operation is ready, or blocked without having been put off, or has failed retryably
   with attempts left.
   */
  predicate Launchable(id: OperationID, r: Record, maxAttempts: Uint32, cancelled: bool, reconcileOnly: bool,
                       deferred: set<Key>) {
    && !r.leaseActive && !r.reconcileRequired && !cancelled && !reconcileOnly
    && (|| r.state == Ready
        || (r.state == Blocked && (id, r.attempt) !in deferred)
        || (r.state == Failed && r.retryable && (r.attempt - r.blockedAttempts) % 0x1_0000_0000 < maxAttempts))
  }

  /** The works are a reconciliation of each operation to reconcile and the next attempt of each to launch. */
  ghost predicate Selects(cfg: Config, st: RunState, reconciled: set<Key>, deferred: set<Key>, reconcileOnly: bool,
                          ids: seq<OperationID>, works: seq<Work>)
    requires forall id :: id in ids ==> id in st.records
  {
    forall x :: x in works <==>
      && x.LaunchWork? && x.id in ids
      && var r := st.records[x.id];
      && x.wasAmbiguous == r.ambiguous
      && if x.kind.ReconcileTask? then Reconcilable(x.id, r, reconciled, deferred) && x.attempt == r.attempt
         else
           && Launchable(x.id, r, cfg.maxAttempts, st.cancelled, reconcileOnly, deferred)
           && x.attempt == (r.attempt + 1) % 0x1_0000_0000
  }

  /** What the pass decides about each of its operations is in its list. */
  lemma {:induction false} DecidedIsListed(cfg: Config, w: World, phase: Phase, ids: seq<OperationID>, now: int,
                                           id: OperationID)
    requires id in ids && id in w.st.records && Decide(cfg, w, phase, id, now).Some?
    ensures Decide(cfg, w, phase, id, now).value in WorkList(cfg, w, phase, ids, now)
  {
    hide Decide;
    if ids[0] != id { DecidedIsListed(cfg, w, phase, ids[1..], now, id); }
  }

  lemma DecidesByConditions(cfg: Config, w: World, id: OperationID, now: int, x: Work)
    requires id in w.st.records
    ensures var r := w.st.records[id];
      Decide(cfg, w, Batch, id, now) == Some(x) <==>
        && x.LaunchWork? && x.id == id && x.wasAmbiguous == r.ambiguous
        && if x.kind.ReconcileTask? then Reconcilable(id, r, w.reconciled, w.deferred) && x.attempt == r.attempt
           else
             && Launchable(id, r, cfg.maxAttempts, w.st.cancelled, w.reconcileOnly, w.deferred)
             && x.attempt == (r.attempt + 1) % 0x1_0000_0000
  {
  }

  lemma RankedSelects(cfg: Config, st: RunState, reconciled: set<Key>, deferred: set<Key>, reconcileOnly: bool,
                      ids: seq<OperationID>)
    requires forall id :: id in ids ==> id in st.records
    ensures Selects(cfg, st, reconciled, deferred, reconcileOnly, ids,
                    Ranked(cfg, Snapshot(st, reconciled, deferred, reconcileOnly), ids, 0))
  {
    hide Decide, WorkList, Reconcilable, Launchable, Sorted;
    var w := Snapshot(st, reconciled, deferred, reconcileOnly);
    var works, ranked := WorkList(cfg, w, Batch, ids, 0), Ranked(cfg, w, ids, 0);
    BatchOfLaunches(cfg, w, ids, 0);
    ListedIsDecided(cfg, w, Batch, ids, 0);
    forall x: Work ensures x in ranked <==> x.id in ids && Decide(cfg, w, Batch, x.id, 0) == Some(x) {
      assert x in multiset(ranked) <==> x in multiset(works);
      if x.id in ids && Decide(cfg, w, Batch, x.id, 0) == Some(x) { DecidedIsListed(cfg, w, Batch, ids, 0, x.id); }
    }
    forall x: Work | x.id in ids { DecidesByConditions(cfg, w, x.id, 0, x); }
  }

  /** The operations that the next batch may take up, in the order in which it does. */
  method Candidates(cfg: Config, st: RunState, reconciled: set<Key>, deferred: set<Key>, reconcileOnly: bool,
                    ids: seq<OperationID>)
    returns (result: seq<Work>)
    requires forall id :: id in ids ==> id in st.records
    ensures result == Ranked(cfg, Snapshot(st, reconciled, deferred, reconcileOnly), ids, 0)
    ensures Selects(cfg, st, reconciled, deferred, reconcileOnly, ids, result)
  {
    hide Selects;
    result := [];
    ghost var w := Snapshot(st, reconciled, deferred, reconcileOnly);
    for i := 0 to |ids|
      invariant result == WorkList(cfg, w, Batch, ids[..i], 0)
    {
      hide WorkList, Used, Increment32;
      assert ids[..i + 1] == ids[..i] + [ids[i]];
      WorkListSnoc(cfg, w, Batch, ids[..i], ids[i], 0);
      assert WorkList(cfg, w, Batch, ids[..i], 0) + [] == WorkList(cfg, w, Batch, ids[..i], 0);
      var r, key := st.records[ids[i]], (ids[i], st.records[ids[i]].attempt);
      if r.leaseActive { continue; }
      if r.reconcileRequired {
        if key in reconciled { continue; }
        if key in deferred { continue; }
        result := result + [LaunchWork(ids[i], ReconcileTask, r.attempt, r.ambiguous)];
        continue;
      }
      if st.cancelled || reconcileOnly { continue; }
      if r.state == Blocked {
        // A missing credential is corrected between invocations.
        if key in deferred { continue; }
      }
      if r.state == Ready || r.state == Blocked || (r.state == Failed && r.retryable && Used(r) < cfg.maxAttempts) {
        result := result + [LaunchWork(ids[i], ApplyTask, Increment32(r.attempt), r.ambiguous)];
      }
    }
    assert ids[..|ids|] == ids;
    BatchOfLaunches(cfg, w, ids, 0);
    result := Sorted(result);
    RankedSelects(cfg, st, reconciled, deferred, reconcileOnly, ids);
  }
}
