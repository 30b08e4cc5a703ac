/** Descendant closures: the breadth-first search of rerun-from and the scheduler's fixpoint. */
module Descendants {
  import opened Dag
  import opened TopologicalSort

  datatype DescendantsError = NodeNotFound | DagInvalid
  datatype Selection = Selected(ids: seq<Id>) | Refused(error: DescendantsError)

  /** The nodes that are, or transitively depend on, one of `roots`. */
  ghost function DescendantsOf(def: Definition, roots: set<Id>): set<Id> {
    set id | id in IdSet(def) && exists r :: r in roots && Reaches(def, r, id)
  }

  lemma DescendantsClosed(def: Definition, roots: set<Id>)
    ensures Closed(def, roots + DescendantsOf(def, roots))
  {
    var s := roots + DescendantsOf(def, roots);
    forall id, d | DependsOn(def, id, d) && d in s ensures id in s {
      if d in roots { ReachesSelf(def, d); }
      var r :| r in roots && Reaches(def, r, d);
      ReachesStep(def, r, d, id);
    }
  }

  /** The least set that holds `roots` and is closed under dependents. */
  lemma DescendantsLeast(def: Definition, roots: set<Id>, s: set<Id>)
    requires roots <= s && Closed(def, s)
    ensures DescendantsOf(def, roots) <= s
  {
    forall id | id in DescendantsOf(def, roots) ensures id in s {
      var r :| r in roots && Reaches(def, r, id);
      ClosedContainsReached(def, s, r, id);
    }
  }

  /** The scheduler's closure: sweep the definition until nothing changes. */
  method DescendantsIncludingRoots(def: Definition, roots: set<Id>) returns (result: set<Id>)
    requires UniqueIds(def)
    ensures result == roots + DescendantsOf(def, roots)
  {
    result := roots;
    var changed := true;
    DescendantsClosed(def, roots);
    while changed
      invariant roots <= result <= roots + DescendantsOf(def, roots)
      invariant !changed ==> Closed(def, result)
      decreases IdSet(def) - result, changed
    {
      changed := false;
      ghost var before := result;
      var i := 0;
      while i < |def|
        invariant i <= |def|
        invariant before <= result <= roots + DescendantsOf(def, roots)
        invariant !changed ==> result == before
        invariant changed ==> IdSet(def) - result < IdSet(def) - before
        invariant forall k :: 0 <= k < i && def[k].id !in result && !changed ==>
          forall d :: d in def[k].dependsOn ==> d !in result
      {
        IndexOf(def, i);
        if def[i].id !in result && exists d :: d in def[i].dependsOn && d in result {
          ghost var d :| d in def[i].dependsOn && d in result;
          assert DependsOn(def, def[i].id, d);
          assert def[i].id in IdSet(def) - before;
          result := result + {def[i].id};
          changed := true;
        }
        i := i + 1;
      }
      if !changed {
        forall id, d | DependsOn(def, id, d) && d in result ensures id in result {
          assert def[Index(def, id)].id == id;
        }
      }
    }
    DescendantsLeast(def, roots, result);
  }

  /** No node names itself, an unknown node or the same node twice. */
  ghost predicate ValidDependencies(def: Definition) {
    forall i :: 0 <= i < |def| ==> ValidNode(def, i)
  }

  ghost predicate ValidNode(def: Definition, i: nat)
    requires i < |def|
  {
    && Distinct(def[i].dependsOn)
    && def[i].id !in def[i].dependsOn
    && forall d :: d in def[i].dependsOn ==> d in IdSet(def)
  }

  lemma ValidKnown(def: Definition)
    requires ValidDependencies(def)
    ensures KnownDependencies(def)
  {
    forall i | 0 <= i < |def| ensures forall d :: d in def[i].dependsOn ==> d in IdSet(def) {
      assert ValidNode(def, i);
    }
  }

  method CheckUnique(def: Definition) returns (unique: bool)
    ensures unique <==> UniqueIds(def)
  {
    var seen: set<Id> := {};
    var i := 0;
    while i < |def|
      invariant i <= |def| && seen == set k | 0 <= k < i :: def[k].id
      invariant forall j, k :: 0 <= j < k < i ==> def[j].id != def[k].id
    {
      if def[i].id in seen { return false; }
      seen := seen + {def[i].id};
      i := i + 1;
    }
    unique := true;
  }

  method CheckDependencies(def: Definition) returns (valid: bool)
    ensures valid <==> ValidDependencies(def)
  {
    var i := 0;
    while i < |def|
      invariant i <= |def| && forall k :: 0 <= k < i ==> ValidNode(def, k)
    {
      var deps := def[i].dependsOn;
      var seen: set<Id> := {};
      var j := 0;
      while j < |deps|
        invariant j <= |deps| && seen == set k | 0 <= k < j :: deps[k]
        invariant forall a, b :: 0 <= a < b < j ==> deps[a] != deps[b]
        invariant forall k :: 0 <= k < j ==> deps[k] != def[i].id && deps[k] in IdSet(def)
      {
        if deps[j] == def[i].id || deps[j] in seen || deps[j] !in IdSet(def) {
          assert !ValidNode(def, i);
          return false;
        }
        seen := seen + {deps[j]};
        j := j + 1;
      }
      i := i + 1;
    }
    valid := true;
  }

  /** Kahn's loop over a plain queue, only counting the nodes it visits. */
  method CountVisited(def: Definition, dependents: map<Id, seq<Id>>) returns (visited: nat)
    requires UniqueIds(def) && IsDependents(def, dependents) && KnownDependencies(def)
    ensures visited == |def| <==> Acyclic(def)
  {
    var indegree, ready := CountDependencies(def);
    ghost var order: seq<Id>, done: set<Id> := [], {};
    visited := 0;
    while ready != []
      invariant Respects(def, order) && done == Elements(order) && done <= IdSet(def) && visited == |order|
      invariant Counts(def, done, indegree) && IsReadyQueue(def, done, ready)
      decreases IdSet(def) - done
    {
      var current := ready[0];
      visited := visited + 1;
      assert Free(def, done, current);
      FreeIffReady(def, done, current);
      PlacedWaitForNothing(def, order);
      QueueTail(def, done, ready);
      indegree, ready := Place(def, dependents, done, current, indegree, ready[1..]);
      RespectsSnoc(def, order, current);
      order, done := order + [current], done + {current};
    }
    forall id ensures !Ready(def, done, id) { FreeIffReady(def, done, id); }
    ExhaustedCompleteIffAcyclic(def, order);
    CompleteIffAllCounted(def, order);
  }

  lemma QueueTail(def: Definition, done: set<Id>, ready: seq<Id>)
    requires IsReadyQueue(def, done, ready) && ready != []
    ensures Distinct(ready[1..]) && forall id :: id in ready[1..] <==> id != ready[0] && Free(def, done, id)
  {
    forall id ensures id in ready[1..] <==> id != ready[0] && id in ready {
      if id in ready && id != ready[0] {
        var k :| 0 <= k < |ready| && ready[k] == id;
        assert ready[1..][k - 1] == id;
      }
    }
  }

  lemma RespectsSnoc(def: Definition, order: seq<Id>, next: Id)
    requires Respects(def, order) && Ready(def, Elements(order), next)
    ensures Respects(def, order + [next]) && Elements(order + [next]) == Elements(order) + {next}
  {
    var longer := order + [next];
    forall k | 0 <= k < |longer| ensures Ready(def, Elements(longer[..k]), longer[k]) {
      if k < |order| {
        assert longer[..k] == order[..k];
        assert Ready(def, Elements(order[..k]), order[k]);
      } else {
        assert longer[..k] == order;
      }
    }
  }

  /** Every dependent of a selected node that left the queue is selected. */
  ghost predicate Expanded(def: Definition, selected: set<Id>, queue: seq<Id>) {
    forall d, x :: d in selected && d !in queue && DependsOn(def, x, d) ==> x in selected
  }

  lemma ExpandNext(def: Definition, selected: set<Id>, queue: seq<Id>, listed: seq<Id>,
                   selected': set<Id>, queue': seq<Id>)
    requires UniqueIds(def) && queue != [] && Expanded(def, selected, queue)
    requires listed == Listed(def, |def|, 0, queue[0])
    requires selected' == selected + Elements(listed)
    requires forall x :: x in queue' <==> x in queue[1..] || (x in selected' && x !in selected)
    ensures Expanded(def, selected', queue')
  {
    forall d, x | d in selected' && d !in queue' && DependsOn(def, x, d) ensures x in selected' {
      ListedIffDepends(def, x, queue[0]);
      if d in queue {
        var k :| 0 <= k < |queue| && queue[k] == d;
        if k > 0 { assert queue[1..][k - 1] == d; }
        assert d == queue[0];
      }
    }
  }

  lemma ExpandInside(def: Definition, all: set<Id>, current: Id, listed: seq<Id>)
    requires UniqueIds(def) && Closed(def, all) && current in all
    requires listed == Listed(def, |def|, 0, current)
    ensures Elements(listed) <= all
  {
    forall x | x in listed ensures x in all {
      ListedIffDepends(def, x, current);
    }
  }

  lemma LessIsLeft(all: set<Id>, a: set<Id>, b: set<Id>)
    requires a <= b <= all
    ensures a != b ==> all - b < all - a
  {
    if a != b {
      var x :| x in b && x !in a;
      assert x in all - a && x !in all - b;
    }
  }

  /** Breadth-first search along the dependent lists, which never leaves a closed set. */
  method Search(def: Definition, dependents: map<Id, seq<Id>>, root: Id, ghost all: set<Id>)
    returns (selected: set<Id>)
    requires UniqueIds(def) && IsDependents(def, dependents)
    requires root in all && all <= IdSet(def) && Closed(def, all)
    ensures root in selected && selected <= all && Closed(def, selected)
  {
    selected := {root};
    var queue := [root];
    while queue != []
      invariant root in selected && selected <= all
      invariant forall x :: x in queue ==> x in selected
      invariant Expanded(def, selected, queue)
      decreases all - selected, |queue|
    {
      var current := queue[0];
      assert current in queue;
      ExpandInside(def, all, current, dependents[current]);
      var selected', queue' := Enqueue(dependents[current], selected, queue[1..]);
      ExpandNext(def, selected, queue, dependents[current], selected', queue');
      LessIsLeft(all, selected, selected');
      selected, queue := selected', queue';
    }
  }

  method SelectDescendants(def: Definition, dependents: map<Id, seq<Id>>, root: Id) returns (selected: set<Id>)
    requires UniqueIds(def) && IsDependents(def, dependents) && root in IdSet(def)
    ensures selected == DescendantsOf(def, {root})
  {
    DescendantsOfOne(def, root);
    selected := Search(def, dependents, root, DescendantsOf(def, {root}));
    DescendantsLeast(def, {root}, selected);
  }

  lemma DescendantsOfOne(def: Definition, root: Id)
    requires root in IdSet(def)
    ensures root in DescendantsOf(def, {root}) && Closed(def, DescendantsOf(def, {root}))
  {
    ReachesSelf(def, root);
    DescendantsClosed(def, {root});
    assert {root} + DescendantsOf(def, {root}) == DescendantsOf(def, {root});
  }

  /** Every dependent not selected yet is selected and queued. */
  method Enqueue(dependents: seq<Id>, selected0: set<Id>, queue0: seq<Id>) returns (selected: set<Id>, queue: seq<Id>)
    requires forall x :: x in queue0 ==> x in selected0
    ensures selected == selected0 + Elements(dependents)
    ensures forall x :: x in queue <==> x in queue0 || (x in selected && x !in selected0)
    ensures selected == selected0 ==> queue == queue0
  {
    selected, queue := selected0, queue0;
    var j := 0;
    while j < |dependents|
      invariant j <= |dependents| && selected == selected0 + Elements(dependents[..j])
      invariant forall x :: x in queue <==> x in queue0 || (x in selected && x !in selected0)
      invariant selected == selected0 ==> queue == queue0
    {
      var dependent := dependents[j];
      assert dependents[..j + 1] == dependents[..j] + [dependent];
      if dependent !in selected {
        assert dependent !in selected0;
        selected, queue := selected + {dependent}, queue + [dependent];
      }
      j := j + 1;
    }
    assert dependents[..j] == dependents;
  }

  lemma {:induction false} OccursIffMember(s: seq<Id>, j: nat, x: Id)
    requires j <= |s|
    ensures Occurrences(s, j, x) > 0 <==> x in s[..j]
  {
    if j > 0 {
      OccursIffMember(s, j - 1, x);
      assert s[..j] == s[..j - 1] + [s[j - 1]];
    }
  }

  lemma ListedIffDepends(def: Definition, x: Id, d: Id)
    requires UniqueIds(def)
    ensures x in Listed(def, |def|, 0, d) <==> DependsOn(def, x, d)
  {
    var listed := Listed(def, |def|, 0, d);
    ListedIds(def, |def|, 0, d);
    if x in IdSet(def) {
      DependentsCount(def, d, x);
      OccursIffMember(listed, |listed|, x);
      OccursIffMember(Deps(def, x), |Deps(def, x)|, d);
      assert listed[..|listed|] == listed && Deps(def, x)[..|Deps(def, x)|] == Deps(def, x);
    }
  }

  /** The selected node and all its transitive descendants in definition order. */
  method DescendantsIncludingSelf(def: Definition, nodeId: Id) returns (r: Selection)
    ensures r == Refused(NodeNotFound) <==> UniqueIds(def) && nodeId !in IdSet(def)
    ensures r.Selected? <==>
      UniqueIds(def) && nodeId in IdSet(def) && ValidDependencies(def) && Acyclic(def)
    ensures r.Selected? ==> r.ids == InDefinitionOrder(def, DescendantsOf(def, {nodeId}))
  {
    var unique := CheckUnique(def);
    if !unique { return Refused(DagInvalid); }
    if nodeId !in IdSet(def) { return Refused(NodeNotFound); }
    var valid := CheckDependencies(def);
    if !valid { return Refused(DagInvalid); }
    ValidKnown(def);
    var dependents := BuildDependents(def);
    var visited := CountVisited(def, dependents);
    if visited != |def| { return Refused(DagInvalid); }
    var selected := SelectDescendants(def, dependents, nodeId);
    return Selected(InDefinitionOrder(def, selected));
  }

  /** The selection of rerun-from and the exclusion sweep of the scheduler find the same nodes below a root. */
  method SearchEqualsFixpoint(def: Definition, root: Id) returns (selection: Selection, closure: set<Id>)
    ensures selection.Selected? ==> selection.ids == InDefinitionOrder(def, closure) && Elements(selection.ids) == closure
  {
    selection := DescendantsIncludingSelf(def, root);
    closure := {};
    if selection.Selected? {
      closure := DescendantsIncludingRoots(def, {root});
      ReachesSelf(def, root);
      assert closure == DescendantsOf(def, {root});
    }
  }
}
