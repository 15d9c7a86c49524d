/**
 Kahn's algorithm as the plan and the provider protocol run it, with a map-order
 scan and a last-in-first-out queue, and what its verdict means.
 */
module DependencyOrder {

  /** Each node's list of dependencies. */
  type Graph<T(==)> = map<T, seq<T>>

  /** A topological ranking: every dependency is a node of smaller rank. */
  ghost predicate Ranking<T(!new)>(deps: Graph<T>, rank: map<T, nat>) {
    && rank.Keys == deps.Keys
    && forall x, d :: x in deps && d in deps[x] ==> d in deps && rank[d] < rank[x]
  }

  ghost predicate Acyclic<T(!new)>(deps: Graph<T>) {
    exists rank :: Ranking(deps, rank)
  }

  ghost predicate Closed<T(!new)>(deps: Graph<T>) {
    forall x, d :: x in deps && d in deps[x] ==> d in deps
  }

  /** A walk from a node to one of its dependencies, to one of that node's dependencies, and so on. */
  ghost predicate Walk<T>(deps: Graph<T>, walk: seq<T>) {
    && (forall i :: 0 <= i < |walk| ==> walk[i] in deps)
    && (forall i, j :: 0 <= i && j == i + 1 && j < |walk| ==> walk[j] in deps[walk[i]])
  }

  ghost predicate Cycle<T>(deps: Graph<T>, walk: seq<T>) {
    |walk| >= 2 && Walk(deps, walk) && walk[0] == walk[|walk| - 1]
  }

  /** x still waits for one of the nodes in stuck. */
  ghost predicate WaitsFor<T>(deps: Graph<T>, stuck: set<T>, x: T)
    requires x in deps
  {
    exists d :: d in deps[x] && d in stuck
  }

  // Counting the dependencies that are still unprocessed

  ghost function Remaining<T>(ds: seq<T>, done: set<T>): nat {
    if ds == [] then 0 else (if ds[0] in done then 0 else 1) + Remaining(ds[1..], done)
  }

  lemma {:induction false} RemainingZero<T>(ds: seq<T>, done: set<T>)
    ensures Remaining(ds, done) == 0 <==> forall d :: d in ds ==> d in done
  {
    if ds != [] {
      RemainingZero(ds[1..], done);
      assert ds == [ds[0]] + ds[1..];
    }
  }

  lemma {:induction false} RemainingAll<T>(ds: seq<T>)
    ensures Remaining(ds, {}) == |ds|
  {
    if ds != [] { RemainingAll(ds[1..]); }
  }

  lemma {:induction false} RemainingDrops<T>(ds: seq<T>, done: set<T>, x: T)
    requires x !in done
    ensures Remaining(ds, done + {x}) + multiset(ds)[x] == Remaining(ds, done)
  {
    if ds != [] {
      RemainingDrops(ds[1..], done, x);
      assert ds == [ds[0]] + ds[1..];
    }
  }

  // The algorithm

  function Lookup<T>(m: Graph<T>, x: T): seq<T> {
    if x in m then m[x] else []
  }

  ghost predicate Distinct<T>(s: seq<T>) {
    forall i, j :: 0 <= i < j < |s| ==> s[i] != s[j]
  }

  /** The inverted graph lists x under d as often as d occurs among the dependencies of x. */
  ghost predicate Inverts<T(!new)>(dependents: Graph<T>, deps: Graph<T>, scanned: set<T>) {
    forall d, x :: multiset(Lookup(dependents, d))[x] == if x in deps && x in scanned then multiset(deps[x])[d] else 0
  }

  /** The first i dependencies of id are inverted, on top of what was. */
  ghost predicate InvertedUpTo<T(!new)>(dependents: Graph<T>, extended: Graph<T>, ds: seq<T>, i: nat, id: T)
    requires i <= |ds|
  {
    forall d, x ::
      multiset(Lookup(extended, d))[x]
      == if x == id then multiset(ds[..i])[d] else multiset(Lookup(dependents, d))[x]
  }

  lemma InvertEdge<T(!new)>(dependents: Graph<T>, extended: Graph<T>, ds: seq<T>, i: nat, id: T)
    requires i < |ds| && InvertedUpTo(dependents, extended, ds, i, id)
    ensures InvertedUpTo(dependents, extended[ds[i] := Lookup(extended, ds[i]) + [id]], ds, i + 1, id)
  {
    assert ds[..i + 1] == ds[..i] + [ds[i]];
    var longer := extended[ds[i] := Lookup(extended, ds[i]) + [id]];
    forall d, x
      ensures multiset(Lookup(longer, d))[x]
              == if x == id then multiset(ds[..i + 1])[d] else multiset(Lookup(dependents, d))[x]
    {
      assert multiset(Lookup(extended, d))[x]
             == if x == id then multiset(ds[..i])[d] else multiset(Lookup(dependents, d))[x];
      if d == ds[i] {
        assert Lookup(longer, d) == Lookup(extended, d) + [id];
      } else {
        assert Lookup(longer, d) == Lookup(extended, d);
      }
    }
  }

  method InvertNode<T(==,!new)>(dependents: Graph<T>, deps: Graph<T>, ghost scanned: set<T>, id: T)
    returns (extended: Graph<T>)
    requires id in deps && id !in scanned && Inverts(dependents, deps, scanned)
    ensures Inverts(extended, deps, scanned + {id})
  {
    extended := dependents;
    NothingInverted(dependents, deps, scanned, id);
    for i := 0 to |deps[id]|
      invariant InvertedUpTo(dependents, extended, deps[id], i, id)
    {
      InvertEdge(dependents, extended, deps[id], i, id);
      hide InvertedUpTo;
      extended := extended[deps[id][i] := Lookup(extended, deps[id][i]) + [id]];
    }
    assert deps[id][..|deps[id]|] == deps[id];
  }

  lemma NothingInverted<T(!new)>(dependents: Graph<T>, deps: Graph<T>, scanned: set<T>, id: T)
    requires id in deps && id !in scanned && Inverts(dependents, deps, scanned)
    ensures InvertedUpTo(dependents, dependents, deps[id], 0, id)
  {
  }

  /** What the scan has recorded about the nodes visited so far. */
  ghost predicate Scanned<T(!new)>(deps: Graph<T>, indegree: map<T, int>, queue: seq<T>, visited: set<T>) {
    && visited <= deps.Keys && indegree.Keys == visited
    && (forall x :: x in visited ==> indegree[x] == |deps[x]|)
    && Distinct(queue)
    && (forall x :: x in queue <==> x in visited && |deps[x]| == 0)
  }

  lemma ScanCompletes<T(!new)>(deps: Graph<T>, indegree: map<T, int>, queue: seq<T>)
    requires Scanned(deps, indegree, queue, deps.Keys)
    ensures Queued(deps, indegree, queue, {}) && Counts(deps, indegree, {}, [])
  {
    forall x | x in deps ensures indegree[x] == Remaining(deps[x], {}) { RemainingAll(deps[x]); }
  }

  lemma ScanOne<T(!new)>(deps: Graph<T>, indegree: map<T, int>, queue: seq<T>, visited: set<T>, id: T)
    requires Scanned(deps, indegree, queue, visited) && id in deps && id !in visited
    ensures Scanned(deps, indegree[id := |deps[id]|], if |deps[id]| == 0 then queue + [id] else queue, visited + {id})
  {
  }

  method ScanGraph<T(==,!new)>(deps: Graph<T>)
    returns (indegree: map<T, int>, dependents: Graph<T>, queue: seq<T>)
    ensures Queued(deps, indegree, queue, {}) && Counts(deps, indegree, {}, [])
    ensures Inverts(dependents, deps, deps.Keys)
  {
    indegree, dependents, queue := map[], map[], [];
    var pending := deps.Keys;
    ghost var visited: set<T> := {};
    while pending != {}
      invariant pending !! visited && pending + visited == deps.Keys
      invariant Scanned(deps, indegree, queue, visited) && Inverts(dependents, deps, visited)
      decreases pending
    {
      var id :| id in pending;
      ScanOne(deps, indegree, queue, visited, id);
      indegree := indegree[id := |deps[id]|];
      if |deps[id]| == 0 { queue := queue + [id]; }
      dependents := InvertNode(dependents, deps, visited, id);
      pending, visited := pending - {id}, visited + {id};
    }
    assert visited == deps.Keys;
    ScanCompletes(deps, indegree, queue);
  }

  /** The queue holds, once each, the unprocessed nodes whose in-degree has reached zero. */
  ghost predicate Queued<T(!new)>(deps: Graph<T>, indegree: map<T, int>, queue: seq<T>, done: set<T>) {
    && indegree.Keys == deps.Keys
    && Distinct(queue)
    && (forall x :: x in queue ==> x in deps && x !in done)
    && (forall x :: x in deps && indegree[x] == 0 && x !in done ==> x in queue)
    && (forall x :: x in queue || x in done ==> x in indegree && indegree[x] == 0)
  }

  /** The processed nodes are closed under dependencies and ranked in the order of processing. */
  ghost predicate Ranked<T(!new)>(deps: Graph<T>, done: set<T>, rank: map<T, nat>) {
    && done <= deps.Keys && rank.Keys == done
    && (forall x :: x in done ==> rank[x] < |done|)
    && (forall x, d :: x in done && d in deps[x] ==> d in done && rank[d] < rank[x])
  }

  /** Every in-degree counts the unprocessed dependencies, plus the charges still to be released. */
  ghost predicate Counts<T(!new)>(deps: Graph<T>, indegree: map<T, int>, done: set<T>, charges: seq<T>) {
    && indegree.Keys == deps.Keys
    && forall x :: x in deps ==> indegree[x] == Remaining(deps[x], done) + multiset(charges)[x]
  }

  method ReleaseOne<T(==,!new)>(deps: Graph<T>, before: map<T, int>, waiting: seq<T>, ghost done: set<T>, x: T)
    returns (indegree: map<T, int>, queue: seq<T>)
    requires Queued(deps, before, waiting, done) && x in deps && before[x] > 0
    ensures Queued(deps, indegree, queue, done)
    ensures indegree == before[x := before[x] - 1]
  {
    indegree, queue := before[x := before[x] - 1], waiting;
    if indegree[x] == 0 { queue := queue + [x]; }
  }

  method ReleaseDependents<T(==,!new)>(deps: Graph<T>, dependents: seq<T>, before: map<T, int>, waiting: seq<T>,
                                       ghost done: set<T>)
    returns (indegree: map<T, int>, queue: seq<T>)
    requires Queued(deps, before, waiting, done)
    requires forall x :: x in dependents ==> x in deps
    requires Counts(deps, before, done, dependents)
    ensures Queued(deps, indegree, queue, done)
    ensures Counts(deps, indegree, done, [])
  {
    indegree, queue := before, waiting;
    assert dependents[0..] == dependents;
    for i := 0 to |dependents|
      invariant Queued(deps, indegree, queue, done)
      invariant Counts(deps, indegree, done, dependents[i..])
    {
      var x := dependents[i];
      assert dependents[i..] == [x] + dependents[i + 1..];
      assert multiset(dependents[i..]) == multiset{x} + multiset(dependents[i + 1..]);
      indegree, queue := ReleaseOne(deps, indegree, queue, done, x);
    }
  }

  /** Processing a queued node extends the ranking: its dependencies were all processed before it. */
  lemma RankedGrows<T(!new)>(deps: Graph<T>, done: set<T>, rank: map<T, nat>, id: T)
    requires Ranked(deps, done, rank) && id in deps && id !in done
    requires forall d :: d in deps[id] ==> d in done
    ensures Ranked(deps, done + {id}, rank[id := |done|])
  {
    var wider, longer := done + {id}, rank[id := |done|];
    forall x, d | x in wider && d in deps[x] ensures d in wider && longer[d] < longer[x] {
      assert d in done;
    }
  }

  /** Processing a node charges its dependents once for every time that they depend on it. */
  lemma DependentsCharged<T(!new)>(deps: Graph<T>, dependents: Graph<T>, done: set<T>, id: T)
    requires Inverts(dependents, deps, deps.Keys) && id !in done
    ensures forall x :: x in deps ==>
              Remaining(deps[x], done) == Remaining(deps[x], done + {id}) + multiset(Lookup(dependents, id))[x]
    ensures forall x :: x in Lookup(dependents, id) ==> x in deps
  {
    forall x | x in deps
      ensures Remaining(deps[x], done) == Remaining(deps[x], done + {id}) + multiset(Lookup(dependents, id))[x]
    {
      RemainingDrops(deps[x], done, id);
    }
    forall x | x in Lookup(dependents, id) ensures x in deps {
      assert multiset(Lookup(dependents, id))[x] > 0;
    }
  }

  lemma QueueLosesLast<T(!new)>(deps: Graph<T>, indegree: map<T, int>, queue: seq<T>, done: set<T>, id: T)
    requires |queue| > 0 && id == queue[|queue| - 1]
    requires Queued(deps, indegree, queue, done)
    ensures Queued(deps, indegree, queue[..|queue| - 1], done + {id})
  {
    var rest := queue[..|queue| - 1];
    assert queue == rest + [id];
  }

  lemma ProcessNode<T(!new)>(deps: Graph<T>, indegree: map<T, int>, queue: seq<T>, dependents: Graph<T>,
                             done: set<T>, rank: map<T, nat>, id: T)
    requires |queue| > 0 && id == queue[|queue| - 1]
    requires Queued(deps, indegree, queue, done) && Ranked(deps, done, rank) && Inverts(dependents, deps, deps.Keys)
    requires Counts(deps, indegree, done, [])
    ensures Queued(deps, indegree, queue[..|queue| - 1], done + {id})
    ensures Ranked(deps, done + {id}, rank[id := |done|])
    ensures Counts(deps, indegree, done + {id}, Lookup(dependents, id))
    ensures forall x :: x in Lookup(dependents, id) ==> x in deps
    ensures id in deps && id !in done
  {
    RemainingZero(deps[id], done);
    RankedGrows(deps, done, rank, id);
    DependentsCharged(deps, dependents, done, id);
    QueueLosesLast(deps, indegree, queue, done, id);
  }

  lemma UnprocessedWait<T(!new)>(deps: Graph<T>, indegree: map<T, int>, done: set<T>, x: T)
    requires Queued(deps, indegree, [], done) && Closed(deps) && x in deps && x !in done
    requires indegree[x] == Remaining(deps[x], done)
    ensures WaitsFor(deps, deps.Keys - done, x)
  {
    RemainingZero(deps[x], done);
  }

  /** If processing stopped early, no ranking exists. */
  lemma StoppedEarly<T(!new)>(deps: Graph<T>, indegree: map<T, int>, done: set<T>)
    requires Queued(deps, indegree, [], done) && done <= deps.Keys && done != deps.Keys
    requires Counts(deps, indegree, done, [])
    ensures !Acyclic(deps)
  {
    if rank :| Ranking(deps, rank) {
      forall x | x in deps && x !in done ensures WaitsFor(deps, deps.Keys - done, x) {
        UnprocessedWait(deps, indegree, done, x);
      }
      var stuck :| stuck in deps && stuck !in done;
      NoRankingWhenStuck(deps, done, rank, stuck);
    }
  }

  lemma Verdict<T(!new)>(deps: Graph<T>, indegree: map<T, int>, queue: seq<T>, done: set<T>, rank: map<T, nat>)
    requires Queued(deps, indegree, queue, done) && |queue| == 0 && Ranked(deps, done, rank)
    requires Counts(deps, indegree, done, [])
    ensures |done| == |deps| <==> Acyclic(deps)
  {
    assert |deps| == |deps.Keys|;
    assert queue == [];
    if |done| == |deps| {
      SubsetOfSameSize(done, deps.Keys);
      assert Ranking(deps, rank);
    } else {
      StoppedEarly(deps, indegree, done);
    }
  }

  /**
   validateAcyclic, and its twin validateOperationGraph: it accepts exactly the graphs
   that have a topological ranking, in whatever order the map is scanned.
   */
  method ValidateAcyclic<T(==,!new)>(deps: Graph<T>) returns (ok: bool)
    ensures ok <==> Acyclic(deps)
  {
    var indegree, dependents, queue := ScanGraph(deps);
    ghost var done: set<T>, rank: map<T, nat> := {}, map[];
    var processed := 0;
    while |queue| > 0
      invariant Queued(deps, indegree, queue, done) && Ranked(deps, done, rank) && processed == |done|
      invariant Counts(deps, indegree, done, [])
      decreases deps.Keys - done
    {
      var id := queue[|queue| - 1];
      ProcessNode(deps, indegree, queue, dependents, done, rank, id);
      done, rank := done + {id}, rank[id := |done|];
      queue := queue[..|queue| - 1];
      processed := processed + 1;
      indegree, queue := ReleaseDependents(deps, Lookup(dependents, id), indegree, queue, done);
    }
    Verdict(deps, indegree, queue, done, rank);
    ok := processed == |deps|;
  }

  lemma SubsetOfSameSize<T>(a: set<T>, b: set<T>)
    requires a <= b && |a| == |b|
    ensures a == b
  {
    if x :| x in b && x !in a {
      assert a <= b - {x};
      SubsetIsSmaller(a, b - {x});
    }
  }

  lemma {:induction false} SubsetIsSmaller<T>(a: set<T>, b: set<T>)
    requires a <= b
    ensures |a| <= |b|
  {
    if a != {} {
      var x :| x in a;
      SubsetIsSmaller(a - {x}, b - {x});
    }
  }

  /** If every unprocessed node waits for an unprocessed one, no ranking exists. */
  lemma {:induction false} NoRankingWhenStuck<T(!new)>(deps: Graph<T>, done: set<T>, rank: map<T, nat>, x: T)
    requires Ranking(deps, rank) && x in deps && x !in done
    requires forall y :: y in deps && y !in done ==> WaitsFor(deps, deps.Keys - done, y)
    ensures false
    decreases rank[x]
  {
    assert WaitsFor(deps, deps.Keys - done, x);
    var d :| d in deps[x] && d in deps.Keys - done;
    assert rank[d] < rank[x];
    NoRankingWhenStuck(deps, done, rank, d);
  }

  // Rankings and cycles

  lemma {:induction false} RankFallsAlongWalk<T(!new)>(deps: Graph<T>, rank: map<T, nat>, walk: seq<T>)
    requires Ranking(deps, rank) && Walk(deps, walk) && |walk| >= 2
    ensures rank[walk[|walk| - 1]] < rank[walk[0]]
  {
    assert walk[1] in deps[walk[0]];
    if |walk| > 2 { RankFallsAlongWalk(deps, rank, walk[1..]); }
  }

  lemma {:induction false} Pigeonhole<T>(walk: seq<T>, room: set<T>) returns (i: nat, j: nat)
    requires |walk| > |room| && forall k :: 0 <= k < |walk| ==> walk[k] in room
    ensures i < j < |walk| && walk[i] == walk[j]
  {
    var last := walk[|walk| - 1];
    var front := walk[..|walk| - 1];
    if k :| 0 <= k < |front| && front[k] == last {
      return k, |walk| - 1;
    }
    assert forall k :: 0 <= k < |front| ==> front[k] == walk[k] && front[k] in room - {last};
    assert walk[|walk| - 1] in room;
    i, j := Pigeonhole(front, room - {last});
  }

  lemma {:induction false} LongWalk<T(!new)>(deps: Graph<T>, stuck: set<T>, x: T, length: nat) returns (walk: seq<T>)
    requires stuck <= deps.Keys && x in stuck
    requires forall y :: y in stuck ==> WaitsFor(deps, stuck, y)
    ensures |walk| == length + 1 && walk[0] == x && Walk(deps, walk)
    ensures forall k :: 0 <= k < |walk| ==> walk[k] in stuck
  {
    if length == 0 { return [x]; }
    var d :| d in deps[x] && d in stuck;
    var rest := LongWalk(deps, stuck, d, length - 1);
    walk := [x] + rest;
  }

  lemma StuckNodesCycle<T(!new)>(deps: Graph<T>, stuck: set<T>) returns (cycle: seq<T>)
    requires stuck <= deps.Keys && stuck != {}
    requires forall y :: y in stuck ==> WaitsFor(deps, stuck, y)
    ensures Cycle(deps, cycle)
  {
    var x :| x in stuck;
    var walk := LongWalk(deps, stuck, x, |stuck|);
    var i, j := Pigeonhole(walk, stuck);
    cycle := walk[i..j + 1];
  }

  lemma NextToRank<T(!new)>(deps: Graph<T>, done: set<T>) returns (x: T)
    requires Closed(deps) && forall walk :: !Cycle(deps, walk)
    requires done <= deps.Keys && done != deps.Keys
    ensures x in deps && x !in done && forall d :: d in deps[x] ==> d in done
  {
    var stuck := deps.Keys - done;
    assert done + stuck == deps.Keys;
    if forall y :: y in stuck ==> WaitsFor(deps, stuck, y) {
      var cycle := StuckNodesCycle(deps, stuck);
      assert false;
    }
    x :| x in stuck && !WaitsFor(deps, stuck, x);
  }

  lemma {:induction false} RankWithoutCycles<T(!new)>(deps: Graph<T>, done: set<T>, rank: map<T, nat>)
    returns (total: map<T, nat>)
    requires Closed(deps) && forall walk :: !Cycle(deps, walk)
    requires Ranked(deps, done, rank)
    ensures Ranking(deps, total)
    decreases deps.Keys - done
  {
    if done == deps.Keys { return rank; }
    var x := NextToRank(deps, done);
    RankedGrows(deps, done, rank, x);
    total := RankWithoutCycles(deps, done + {x}, rank[x := |done|]);
  }

  /** Having a topological ranking is the same as being closed and having no cycle. */
  lemma AcyclicMeansNoCycle<T(!new)>(deps: Graph<T>)
    ensures Acyclic(deps) <==> Closed(deps) && forall walk :: !Cycle(deps, walk)
  {
    if Acyclic(deps) {
      var rank :| Ranking(deps, rank);
      forall walk ensures !Cycle(deps, walk) {
        if Cycle(deps, walk) { RankFallsAlongWalk(deps, rank, walk); }
      }
    }
    if Closed(deps) && forall walk :: !Cycle(deps, walk) {
      var rank := RankWithoutCycles(deps, {}, map[]);
    }
  }
}
