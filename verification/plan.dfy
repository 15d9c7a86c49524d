/** Building a plan: NewPlan accepts exactly the well-formed target and operation lists. */
module Planning {
  import opened Domain
  import opened DependencyOrder

  function DependencyGraph(operations: map<OperationID, Operation>): Graph<OperationID> {
    map id | id in operations :: operations[id].dependencies
  }

  ghost predicate DistinctTargets(targets: seq<Target>) {
    forall i, j :: 0 <= i < j < |targets| ==> targets[i].id != targets[j].id
  }

  ghost predicate DistinctOperations(operations: seq<Operation>) {
    forall i, j :: 0 <= i < j < |operations| ==> operations[i].id != operations[j].id
  }

  predicate ValidTarget(target: Target) {
    && ValidIdentifier(target.id)
    && ValidIdentifier(target.provider.name) && ValidIdentifier(target.provider.version)
    && target.configuration.raw != "" && target.configuration.wellFormed
  }

  /** The target that an operation names exists and has the operation's provider. */
  ghost predicate Placed(operation: Operation, targets: seq<Target>) {
    exists t :: t in targets && t.id == operation.target && t.provider == operation.provider
  }

  /** index maps exactly the listed operations by their IDs. */
  ghost predicate Indexes(index: map<OperationID, Operation>, operations: seq<Operation>) {
    && (forall id :: id in index ==> index[id] in operations && index[id].id == id)
    && (forall o :: o in operations ==> o.id in index && index[o.id] == o)
  }

  ghost predicate KnownDependencies(operations: seq<Operation>, known: set<OperationID>) {
    forall o, d :: o in operations && d in o.dependencies ==> d in known
  }

  /** What a plan carries besides its targets and operations. */
  datatype Heading = Heading(id: PlanID, schemaVersion: string, protocolVersion: string, release: Release)

  predicate ValidHeading(h: Heading) {
    && ValidIdentifier(h.id)
    && ValidText(h.schemaVersion) && ValidText(h.protocolVersion)
    && ValidIdentifier(h.release.id) && h.release.artifacts != []
  }

  ghost predicate WellFormed(heading: Heading, targets: seq<Target>, operations: seq<Operation>) {
    && ValidHeading(heading)
    && targets != []
    && (forall t :: t in targets ==> ValidTarget(t))
    && DistinctTargets(targets)
    && (forall o :: o in operations ==> ValidIdentifier(o.id) && Placed(o, targets))
    && DistinctOperations(operations)
    && exists index :: Indexes(index, operations) && KnownDependencies(operations, index.Keys)
                       && Acyclic(DependencyGraph(index))
  }

  /** What every plan built by NewPlan guarantees to the reducer and the executor. */
  ghost predicate GoodPlan(plan: Plan) {
    && ValidIdentifier(plan.id)
    && plan.targets != []
    && (forall t :: t in plan.targets ==> ValidIdentifier(t))
    && (forall id :: id in plan.operations ==>
          plan.operations[id].id == id && ValidIdentifier(id) && plan.operations[id].target in plan.targets)
    && Acyclic(DependencyGraph(plan.operations))
  }

  method IndexTargets(targets: seq<Target>) returns (index: Option<map<TargetID, Target>>)
    ensures index.Some? <==> (forall t :: t in targets ==> ValidTarget(t)) && DistinctTargets(targets)
    ensures index.Some? ==> forall id, t :: id in index.value && index.value[id] == t <==> t in targets && t.id == id
  {
    var found: map<TargetID, Target> := map[];
    for i := 0 to |targets|
      invariant forall t :: t in targets[..i] ==> ValidTarget(t)
      invariant DistinctTargets(targets[..i])
      invariant forall id, t :: id in found && found[id] == t <==> t in targets[..i] && t.id == id
    {
      var target := targets[i];
      if !ValidTarget(target) { assert target in targets; return None; }
      if target.id in found {
        var earlier := found[target.id];
        assert earlier in targets[..i] && earlier.id == target.id;
        return None;
      }
      assert targets[..i + 1] == targets[..i] + [target];
      forall j | 0 <= j < i ensures targets[j].id != target.id { assert targets[j] in targets[..i]; }
      found := found[target.id := target];
    }
    assert targets[..|targets|] == targets;
    index := Some(found);
  }

  method IndexOperations(operations: seq<Operation>, targets: map<TargetID, Target>, ghost listed: seq<Target>)
    returns (index: Option<map<OperationID, Operation>>)
    requires forall id, t :: id in targets && targets[id] == t <==> t in listed && t.id == id
    ensures index.Some? <==>
              && (forall o :: o in operations ==> ValidIdentifier(o.id) && Placed(o, listed))
              && DistinctOperations(operations)
    ensures index.Some? ==> Indexes(index.value, operations)
  {
    var found: map<OperationID, Operation> := map[];
    for i := 0 to |operations|
      invariant forall o :: o in operations[..i] ==> ValidIdentifier(o.id) && Placed(o, listed)
      invariant DistinctOperations(operations[..i])
      invariant Indexes(found, operations[..i])
    {
      var operation := operations[i];
      if !ValidIdentifier(operation.id) { assert operation in operations; return None; }
      if operation.id in found {
        var earlier := found[operation.id];
        assert earlier in operations[..i] && earlier.id == operation.id;
        return None;
      }
      if operation.target !in targets || operation.provider != targets[operation.target].provider {
        UnplacedOperation(operation, targets, listed);
        assert operation in operations;
        return None;
      }
      assert targets[operation.target] in listed;
      assert operations[..i + 1] == operations[..i] + [operation];
      forall j | 0 <= j < i ensures operations[j].id != operation.id { assert operations[j] in operations[..i]; }
      found := found[operation.id := operation];
    }
    assert operations[..|operations|] == operations;
    index := Some(found);
  }

  lemma UnplacedOperation(operation: Operation, targets: map<TargetID, Target>, listed: seq<Target>)
    requires forall id, t :: id in targets && targets[id] == t <==> t in listed && t.id == id
    requires operation.target !in targets || operation.provider != targets[operation.target].provider
    ensures !Placed(operation, listed)
  {
    assert forall t :: t in listed ==> t.id in targets && targets[t.id] == t;
  }

  method DependenciesKnown(operations: seq<Operation>, index: map<OperationID, Operation>) returns (known: bool)
    ensures known <==> KnownDependencies(operations, index.Keys)
  {
    for i := 0 to |operations|
      invariant KnownDependencies(operations[..i], index.Keys)
    {
      var operation := operations[i];
      assert operations[..i + 1] == operations[..i] + [operation];
      for j := 0 to |operation.dependencies|
        invariant forall d :: d in operation.dependencies[..j] ==> d in index
      {
        if operation.dependencies[j] !in index {
          assert operation in operations && operation.dependencies[j] in operation.dependencies;
          return false;
        }
      }
      assert operation.dependencies[..|operation.dependencies|] == operation.dependencies;
    }
    assert operations[..|operations|] == operations;
    known := true;
  }

  function TargetIdList(targets: seq<Target>): seq<TargetID> {
    seq(|targets|, i requires 0 <= i < |targets| => targets[i].id)
  }

  lemma IndexIsUnique(a: map<OperationID, Operation>, b: map<OperationID, Operation>, operations: seq<Operation>)
    requires Indexes(a, operations) && Indexes(b, operations)
    ensures a == b
  {
    assert forall id :: id in a ==> a[id] in operations && id in b && b[id] == a[id];
    assert forall id :: id in b ==> b[id] in operations && id in a;
  }

  lemma AcceptedPlanIsGood(heading: Heading, targets: seq<Target>, operations: seq<Operation>,
                           index: map<OperationID, Operation>)
    requires WellFormed(heading, targets, operations) && Indexes(index, operations)
    ensures GoodPlan(Plan(heading.id, TargetIdList(targets), index))
  {
    var other :| Indexes(other, operations) && KnownDependencies(operations, other.Keys)
                 && Acyclic(DependencyGraph(other));
    IndexIsUnique(index, other, operations);
    var ids := TargetIdList(targets);
    forall t | t in targets ensures t.id in ids {
      var i :| 0 <= i < |targets| && targets[i] == t;
      assert ids[i] == t.id;
    }
    forall t | t in ids ensures ValidIdentifier(t) {
      var i :| 0 <= i < |ids| && ids[i] == t;
      assert targets[i] in targets;
    }
  }

  /** NewPlan: it succeeds exactly on well-formed input, and what it returns is a good plan. */
  method NewPlan(heading: Heading, targets: seq<Target>, operations: seq<Operation>) returns (result: Option<Plan>)
    ensures result.Some? <==> WellFormed(heading, targets, operations)
    ensures result.Some? ==>
              && GoodPlan(result.value) && result.value.id == heading.id
              && result.value.targets == TargetIdList(targets) && Indexes(result.value.operations, operations)
  {
    if !ValidIdentifier(heading.id) { return None; }
    if !ValidText(heading.schemaVersion) || !ValidText(heading.protocolVersion) { return None; }
    if !ValidIdentifier(heading.release.id) || |heading.release.artifacts| == 0 { return None; }
    if |targets| == 0 { return None; }
    var targetIndex := IndexTargets(targets);
    if targetIndex.None? { return None; }
    var operationIndex := IndexOperations(operations, targetIndex.value, targets);
    if operationIndex.None? { return None; }
    var index := operationIndex.value;
    var known := DependenciesKnown(operations, index);
    var acyclic := false;
    if known { acyclic := ValidateAcyclic(DependencyGraph(index)); }
    if !acyclic {
      forall other | Indexes(other, operations) ensures other == index { IndexIsUnique(other, index, operations); }
      return None;
    }
    AcceptedPlanIsGood(heading, targets, operations, index);
    result := Some(Plan(heading.id, TargetIdList(targets), index));
  }
}
