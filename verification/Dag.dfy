/** The network DAG: definitions, dependency paths and topological orders. */
module Dag {
  type Id = string

  datatype Node = Node(id: Id, dependsOn: seq<Id>, idempotent: bool)

  /** The nodes of a network in definition order. */
  type Definition = seq<Node>

  ghost predicate UniqueIds(def: Definition) {
    forall i, j :: 0 <= i < j < |def| ==> def[i].id != def[j].id
  }

  function Ids(def: Definition): (ids: seq<Id>)
    ensures |ids| == |def| && forall i :: 0 <= i < |def| ==> ids[i] == def[i].id
  {
    seq(|def|, i requires 0 <= i < |def| => def[i].id)
  }

  function IdSet(def: Definition): set<Id> {
    set i | 0 <= i < |def| :: def[i].id
  }

  /** The definition index of a node; with unique ids there is only one. */
  function Index(def: Definition, id: Id): (i: nat)
    requires id in IdSet(def)
    ensures i < |def| && def[i].id == id
  {
    if def[0].id == id then 0
    else assert id in IdSet(def[1..]) by {
           var j :| 0 <= j < |def| && def[j].id == id;
           assert def[1..][j - 1].id == id;
         }
         1 + Index(def[1..], id)
  }

  lemma IndexOf(def: Definition, i: nat)
    requires UniqueIds(def) && i < |def|
    ensures def[i].id in IdSet(def) && Index(def, def[i].id) == i
  {
    var j := Index(def, def[i].id);
    if i < j || j < i { assert false; }
  }

  function Deps(def: Definition, id: Id): seq<Id>
    requires id in IdSet(def)
  {
    def[Index(def, id)].dependsOn
  }

  ghost predicate DependsOn(def: Definition, id: Id, dependency: Id) {
    id in IdSet(def) && dependency in Deps(def, id)
  }

  ghost predicate KnownDependencies(def: Definition) {
    forall i :: 0 <= i < |def| ==> forall d :: d in def[i].dependsOn ==> d in IdSet(def)
  }

  lemma KnownDeps(def: Definition, id: Id, dependency: Id)
    requires KnownDependencies(def) && DependsOn(def, id, dependency)
    ensures dependency in IdSet(def)
  {
  }

  // ---- Topological orders -------------------------------------------------

  function Elements(s: seq<Id>): set<Id> {
    set x | x in s
  }

  ghost predicate Distinct(s: seq<Id>) {
    forall i, j :: 0 <= i < j < |s| ==> s[i] != s[j]
  }

  /** `id` may come next once `done` has been placed. */
  ghost predicate Ready(def: Definition, done: set<Id>, id: Id) {
    id in IdSet(def) && id !in done && forall d :: d in Deps(def, id) ==> d in done
  }

  /** A partial order: nothing is placed twice or before a dependency. */
  ghost predicate Respects(def: Definition, order: seq<Id>) {
    forall k :: 0 <= k < |order| ==> Ready(def, Elements(order[..k]), order[k])
  }

  ghost predicate IsTopological(def: Definition, order: seq<Id>) {
    Respects(def, order) && Elements(order) == IdSet(def)
  }

  ghost predicate Acyclic(def: Definition) {
    exists order :: IsTopological(def, order)
  }

  /** Every placed node is the ready one of least definition index. */
  ghost predicate Greedy(def: Definition, order: seq<Id>) {
    && Respects(def, order)
    && forall k, id :: 0 <= k < |order| && Ready(def, Elements(order[..k]), id) ==>
         Index(def, order[k]) <= Index(def, id)
  }

  ghost predicate Exhausted(def: Definition, order: seq<Id>) {
    forall id :: !Ready(def, Elements(order), id)
  }

  /** `a` precedes `b` at their first difference, compared by definition index. */
  ghost predicate LexBefore(def: Definition, a: seq<Id>, b: seq<Id>) {
    exists k :: 0 <= k < |a| && k < |b| && a[..k] == b[..k] &&
      a[k] in IdSet(def) && b[k] in IdSet(def) && Index(def, a[k]) < Index(def, b[k])
  }

  lemma RespectsDistinct(def: Definition, order: seq<Id>)
    requires Respects(def, order)
    ensures Distinct(order) && Elements(order) <= IdSet(def)
  {
    forall i, j | 0 <= i < j < |order| ensures order[i] != order[j] {
      assert order[i] == order[..j][i];
      assert Ready(def, Elements(order[..j]), order[j]);
    }
  }

  lemma {:induction false} DistinctSize(s: seq<Id>)
    requires Distinct(s)
    ensures |Elements(s)| == |s|
  {
    if s != [] {
      var t := s[..|s| - 1];
      DistinctSize(t);
      assert Elements(s) == Elements(t) + {s[|s| - 1]};
    }
  }

  lemma IdSetSize(def: Definition)
    requires UniqueIds(def)
    ensures |IdSet(def)| == |def|
  {
    DistinctSize(Ids(def));
    assert Elements(Ids(def)) == IdSet(def) by {
      forall x | x in IdSet(def) ensures x in Ids(def) {
        assert Ids(def)[Index(def, x)] == x;
      }
    }
  }

  /** The first place where two different complete orders part. */
  lemma FirstDifference(a: seq<Id>, b: seq<Id>) returns (k: nat)
    requires |a| == |b| && a != b
    ensures k < |a| && a[..k] == b[..k] && a[k] != b[k]
  {
    k := 0;
    while k < |a| && a[k] == b[k]
      invariant k <= |a| && a[..k] == b[..k]
    {
      assert a[..k + 1] == a[..k] + [a[k]] && b[..k + 1] == b[..k] + [b[k]];
      k := k + 1;
    }
    assert a[..|a|] == a && b[..|a|] == b;
  }

  /** A greedy order that places every node is the least of all topological orders. */
  lemma GreedyIsLeast(def: Definition, order: seq<Id>, other: seq<Id>)
    requires UniqueIds(def) && Greedy(def, order)
    requires IsTopological(def, order) && IsTopological(def, other)
    ensures order == other || LexBefore(def, order, other)
  {
    RespectsDistinct(def, order);
    RespectsDistinct(def, other);
    DistinctSize(order);
    DistinctSize(other);
    if order != other {
      var k := FirstDifference(order, other);
      assert Ready(def, Elements(other[..k]), other[k]);
      assert Ready(def, Elements(order[..k]), order[k]);
      assert Index(def, order[k]) <= Index(def, other[k]);
      assert Index(def, order[k]) != Index(def, other[k]);
    }
  }

  /** Every member waits for another member: nothing in `s` can ever be placed. */
  ghost predicate Deadlocked(def: Definition, s: set<Id>) {
    s <= IdSet(def) && forall id {:trigger WaitsFor(def, s, id)} :: id in s ==> WaitsFor(def, s, id)
  }

  ghost predicate WaitsFor(def: Definition, s: set<Id>, id: Id) {
    exists d :: d in s && DependsOn(def, id, d)
  }

  lemma DeadlockedNeverPlaced(def: Definition, order: seq<Id>, s: set<Id>)
    requires Respects(def, order) && Deadlocked(def, s)
    ensures Elements(order) !! s
  {
    var k := 0;
    while k < |order|
      invariant k <= |order|
      invariant forall i :: 0 <= i < k ==> order[i] !in s
    {
      assert Ready(def, Elements(order[..k]), order[k]);
      assert order[k] in s ==> WaitsFor(def, s, order[k]);
      k := k + 1;
    }
  }

  /** What an exhausted order leaves out is the largest deadlocked set. */
  lemma LeftOverIsDeadlocked(def: Definition, order: seq<Id>)
    requires KnownDependencies(def)
    requires Respects(def, order) && Exhausted(def, order)
    ensures Deadlocked(def, IdSet(def) - Elements(order))
    ensures forall s :: Deadlocked(def, s) ==> s <= IdSet(def) - Elements(order)
  {
    var rest := IdSet(def) - Elements(order);
    forall id | id in rest ensures WaitsFor(def, rest, id) {
      assert !Ready(def, Elements(order), id);
      var d :| d in Deps(def, id) && d !in Elements(order);
      KnownDeps(def, id, d);
      assert d in rest && DependsOn(def, id, d);
    }
    forall s | Deadlocked(def, s) ensures s <= rest {
      DeadlockedNeverPlaced(def, order, s);
    }
  }

  /** An exhausted order is complete exactly when the network is acyclic. */
  lemma ExhaustedCompleteIffAcyclic(def: Definition, order: seq<Id>)
    requires KnownDependencies(def)
    requires Respects(def, order) && Exhausted(def, order)
    ensures Elements(order) == IdSet(def) <==> Acyclic(def)
  {
    if Elements(order) == IdSet(def) {
      assert IsTopological(def, order);
    }
    if Acyclic(def) {
      var rest := IdSet(def) - Elements(order);
      var other :| IsTopological(def, other);
      assert Elements(other) !! rest by {
        LeftOverIsDeadlocked(def, order);
        DeadlockedNeverPlaced(def, other, rest);
      }
      assert Elements(order) <= IdSet(def) by { RespectsDistinct(def, order); }
    }
  }

  /** Counting the placed nodes is enough to see whether all were placed. */
  lemma CompleteIffAllCounted(def: Definition, order: seq<Id>)
    requires UniqueIds(def) && Respects(def, order)
    ensures Elements(order) == IdSet(def) <==> |order| == |def|
  {
    RespectsDistinct(def, order);
    DistinctSize(order);
    IdSetSize(def);
    if |order| == |def| {
      SubsetOfSameSize(Elements(order), IdSet(def));
    }
  }

  lemma SubsetOfSameSize(a: set<Id>, b: set<Id>)
    requires a <= b && |a| == |b|
    ensures a == b
  {
    assert b == a + (b - a);
    assert |b| == |a| + |b - a|;
  }

  /** What the order says at one place: the node is known and its dependencies came before. */
  lemma PlacedAfterDependencies(def: Definition, order: seq<Id>, k: nat)
    requires Respects(def, order) && k < |order|
    ensures order[k] in IdSet(def)
    ensures forall d :: d in Deps(def, order[k]) ==> exists i :: 0 <= i < k && order[i] == d
  {
    assert Ready(def, Elements(order[..k]), order[k]);
    forall d | d in Deps(def, order[k]) ensures exists i :: 0 <= i < k && order[i] == d {
      assert d in order[..k];
    }
  }

  // ---- Dependency paths ---------------------------------------------------

  /** A chain of nodes, each depending on the one before it. */
  ghost predicate IsPath(def: Definition, p: seq<Id>) {
    p != [] && forall i {:trigger DependsOn(def, p[i], p[i - 1])} :: 0 < i < |p| ==> DependsOn(def, p[i], p[i - 1])
  }

  /** `to` is `from` or one of its transitive descendants. */
  ghost predicate Reaches(def: Definition, from: Id, to: Id) {
    exists p :: IsPath(def, p) && p[0] == from && p[|p| - 1] == to
  }

  lemma ReachesSelf(def: Definition, id: Id)
    ensures Reaches(def, id, id)
  {
    assert IsPath(def, [id]);
  }

  lemma ReachesStep(def: Definition, from: Id, via: Id, to: Id)
    requires Reaches(def, from, via) && DependsOn(def, to, via)
    ensures Reaches(def, from, to)
  {
    var p :| IsPath(def, p) && p[0] == from && p[|p| - 1] == via;
    var q := p + [to];
    forall i | 0 < i < |q| ensures DependsOn(def, q[i], q[i - 1]) {
      if i < |p| { assert DependsOn(def, p[i], p[i - 1]); }
    }
    assert IsPath(def, q) && q[0] == from && q[|q| - 1] == to;
  }

  /** Closed under taking dependents. */
  ghost predicate Closed(def: Definition, s: set<Id>) {
    forall id, d :: DependsOn(def, id, d) && d in s ==> id in s
  }

  lemma {:induction false} PathStaysInside(def: Definition, s: set<Id>, p: seq<Id>)
    requires Closed(def, s) && IsPath(def, p) && p[0] in s
    ensures p[|p| - 1] in s
  {
    if |p| > 1 {
      var last := |p| - 1;
      assert DependsOn(def, p[last], p[last - 1]);
      assert IsPath(def, p[..last]) by {
        forall i | 0 < i < last ensures DependsOn(def, p[..last][i], p[..last][i - 1]) {
          assert DependsOn(def, p[i], p[i - 1]);
        }
      }
      PathStaysInside(def, s, p[..last]);
    }
  }

  lemma ClosedContainsReached(def: Definition, s: set<Id>, from: Id, to: Id)
    requires Closed(def, s) && from in s && Reaches(def, from, to)
    ensures to in s
  {
    var p :| IsPath(def, p) && p[0] == from && p[|p| - 1] == to;
    PathStaysInside(def, s, p);
  }

  /** The part of the definition order that lies in `s`. */
  function InDefinitionOrder(def: Definition, s: set<Id>): (r: seq<Id>)
    ensures Elements(r) == IdSet(def) * s
  {
    if def == [] then []
    else
      var rest := InDefinitionOrder(def[1..], s);
      IdSetCons(def);
      if def[0].id in s then
        assert Elements([def[0].id] + rest) == {def[0].id} + Elements(rest);
        [def[0].id] + rest
      else rest
  }

  lemma IdSetCons(def: Definition)
    requires def != []
    ensures IdSet(def) == {def[0].id} + IdSet(def[1..])
  {
    forall x | x in IdSet(def) ensures x == def[0].id || x in IdSet(def[1..]) {
      var i :| 0 <= i < |def| && def[i].id == x;
      if i > 0 { assert def[1..][i - 1].id == x; }
    }
    forall x | x in IdSet(def[1..]) ensures x in IdSet(def) {
      var i :| 0 <= i < |def[1..]| && def[1..][i].id == x;
      assert def[i + 1].id == x;
    }
  }
}
