/** Kahn's algorithm with its ready queue kept in definition order. */
module TopologicalSort {
  import opened Dag

  /** How often `x` occurs among the first `j` elements. */
  function Occurrences(s: seq<Id>, j: nat, x: Id): nat
    requires j <= |s|
  {
    if j == 0 then 0 else Occurrences(s, j - 1, x) + (if s[j - 1] == x then 1 else 0)
  }

  function Count(s: seq<Id>, x: Id): nat {
    Occurrences(s, |s|, x)
  }

  lemma {:induction false} OccurrencesOfPrefix(s: seq<Id>, t: seq<Id>, j: nat, x: Id)
    requires j <= |s|
    ensures Occurrences(s + t, j, x) == Occurrences(s, j, x)
  {
    if j > 0 { OccurrencesOfPrefix(s, t, j - 1, x); }
  }

  lemma CountSnoc(s: seq<Id>, y: Id, x: Id)
    ensures Count(s + [y], x) == Count(s, x) + (if y == x then 1 else 0)
  {
    OccurrencesOfPrefix(s, [y], |s|, x);
  }

  lemma {:induction false} OccurrencesGrow(s: seq<Id>, j: nat, k: nat, x: Id)
    requires j <= k <= |s|
    ensures Occurrences(s, j, x) <= Occurrences(s, k, x)
  {
    if j < k { OccurrencesGrow(s, j, k - 1, x); }
  }

  /** How many of the first `j` dependency slots wait for a node outside `done`. */
  function WaitingUpTo(deps: seq<Id>, j: nat, done: set<Id>): nat
    requires j <= |deps|
  {
    if j == 0 then 0 else WaitingUpTo(deps, j - 1, done) + (if deps[j - 1] in done then 0 else 1)
  }

  function Waiting(deps: seq<Id>, done: set<Id>): nat {
    WaitingUpTo(deps, |deps|, done)
  }

  lemma {:induction false} WaitingZero(deps: seq<Id>, j: nat, done: set<Id>)
    requires j <= |deps|
    ensures WaitingUpTo(deps, j, done) == 0 <==> forall k :: 0 <= k < j ==> deps[k] in done
  {
    if j > 0 { WaitingZero(deps, j - 1, done); }
  }

  /** Placing one more node frees exactly the slots that name it. */
  lemma {:induction false} WaitingPlace(deps: seq<Id>, j: nat, done: set<Id>, c: Id)
    requires j <= |deps| && c !in done
    ensures WaitingUpTo(deps, j, done + {c}) == WaitingUpTo(deps, j, done) - Occurrences(deps, j, c)
  {
    if j > 0 { WaitingPlace(deps, j - 1, done, c); }
  }

  lemma {:induction false} WaitingNothingDone(deps: seq<Id>, j: nat)
    requires j <= |deps|
    ensures WaitingUpTo(deps, j, {}) == j
  {
    if j > 0 { WaitingNothingDone(deps, j - 1); }
  }

  /** Readiness as Kahn's algorithm sees it: unplaced, and its count is zero. */
  predicate Free(def: Definition, done: set<Id>, id: Id) {
    id in IdSet(def) && id !in done && Waiting(Deps(def, id), done) == 0
  }

  lemma FreeIffReady(def: Definition, done: set<Id>, id: Id)
    ensures Free(def, done, id) <==> Ready(def, done, id)
  {
    if id in IdSet(def) { WaitingZero(Deps(def, id), |Deps(def, id)|, done); }
  }

  // ---- Dependent lists ----------------------------------------------------

  /** The entries node `def[i]` adds to the list of `d` through its first `j` slots. */
  function Listed(def: Definition, i: nat, j: nat, d: Id): seq<Id>
    requires if i < |def| then j <= |def[i].dependsOn| else i == |def| && j == 0
    decreases i, j
  {
    if j > 0 then Listed(def, i, j - 1, d) + (if def[i].dependsOn[j - 1] == d then [def[i].id] else [])
    else if i > 0 then Listed(def, i - 1, |def[i - 1].dependsOn|, d)
    else []
  }

  /** Each node is listed once per slot in which it names `d`. */
  lemma {:induction false} ListedCount(def: Definition, i: nat, j: nat, d: Id, m: nat)
    requires UniqueIds(def) && m < |def|
    requires if i < |def| then j <= |def[i].dependsOn| else i == |def| && j == 0
    ensures Count(Listed(def, i, j, d), def[m].id) ==
      if m < i then Count(def[m].dependsOn, d) else if m == i then Occurrences(def[m].dependsOn, j, d) else 0
    decreases i, j
  {
    if j > 0 {
      ListedCount(def, i, j - 1, d, m);
      CountSnoc(Listed(def, i, j - 1, d), def[i].id, def[m].id);
      assert def[i].id == def[m].id <==> i == m;
      assert Listed(def, i, j - 1, d) + [] == Listed(def, i, j - 1, d);
    } else if i > 0 {
      ListedCount(def, i - 1, |def[i - 1].dependsOn|, d, m);
    }
  }

  lemma {:induction false} ListedIds(def: Definition, i: nat, j: nat, d: Id)
    requires if i < |def| then j <= |def[i].dependsOn| else i == |def| && j == 0
    ensures forall x :: x in Listed(def, i, j, d) ==> x in IdSet(def)
    decreases i, j
  {
    if j > 0 {
      ListedIds(def, i, j - 1, d);
    } else if i > 0 {
      ListedIds(def, i - 1, |def[i - 1].dependsOn|, d);
    }
  }

  /** `dependents[d]` lists every node once per slot in which it names `d`. */
  ghost predicate IsDependents(def: Definition, dependents: map<Id, seq<Id>>) {
    dependents.Keys == IdSet(def) && forall d :: d in dependents ==> dependents[d] == Listed(def, |def|, 0, d)
  }

  lemma DependentsCount(def: Definition, d: Id, x: Id)
    requires UniqueIds(def) && x in IdSet(def)
    ensures Count(Listed(def, |def|, 0, d), x) == Count(Deps(def, x), d)
  {
    ListedCount(def, |def|, 0, d, Index(def, x));
  }

  method BuildDependents(def: Definition) returns (dependents: map<Id, seq<Id>>)
    ensures IsDependents(def, dependents)
  {
    dependents := map id | id in IdSet(def) :: [];
    var i := 0;
    while i < |def|
      invariant i <= |def| && dependents.Keys == IdSet(def)
      invariant forall d :: d in dependents ==> dependents[d] == Listed(def, i, 0, d)
    {
      var j := 0;
      while j < |def[i].dependsOn|
        invariant j <= |def[i].dependsOn| && dependents.Keys == IdSet(def)
        invariant forall d :: d in dependents ==> dependents[d] == Listed(def, i, j, d)
      {
        var dependency := def[i].dependsOn[j];
        if dependency in dependents {
          dependents := dependents[dependency := dependents[dependency] + [def[i].id]];
        }
        j := j + 1;
      }
      i := i + 1;
    }
  }

  // ---- Kahn's loop --------------------------------------------------------

  /** `indegree` counts the unplaced dependencies of every node. */
  ghost predicate Counts(def: Definition, done: set<Id>, indegree: map<Id, int>) {
    indegree.Keys == IdSet(def) &&
    forall id :: id in indegree ==> indegree[id] == Waiting(Deps(def, id), done)
  }

  /** `ready` holds exactly the nodes that may come next, each once. */
  ghost predicate IsReadyQueue(def: Definition, done: set<Id>, ready: seq<Id>) {
    Distinct(ready) && forall id :: id in ready <==> Free(def, done, id)
  }

  method CountDependencies(def: Definition) returns (indegree: map<Id, int>, ready: seq<Id>)
    requires UniqueIds(def)
    ensures Counts(def, {}, indegree) && IsReadyQueue(def, {}, ready)
  {
    indegree := map id | id in IdSet(def) :: |Deps(def, id)|;
    ready := [];
    var i := 0;
    while i < |def|
      invariant i <= |def| && Distinct(ready)
      invariant forall id :: id in ready <==> id in IdSet(def) && Index(def, id) < i && |Deps(def, id)| == 0
    {
      IndexOf(def, i);
      if indegree[def[i].id] == 0 { ready := ready + [def[i].id]; }
      i := i + 1;
    }
    forall id | id in IdSet(def)
      ensures indegree[id] == Waiting(Deps(def, id), {})
    {
      WaitingNothingDone(Deps(def, id), |Deps(def, id)|);
    }
  }

  /** One decrement per listed dependent; a node joins the queue when its count reaches zero. */
  method Decrement(dependents: seq<Id>, indegree0: map<Id, int>, ready0: seq<Id>)
    returns (indegree: map<Id, int>, ready: seq<Id>)
    requires Distinct(ready0) && forall x :: x in dependents ==> x in indegree0
    requires forall x :: x in indegree0 ==> Count(dependents, x) <= indegree0[x]
    requires forall x :: x in ready0 ==> x in indegree0 && indegree0[x] == 0
    ensures indegree.Keys == indegree0.Keys
    ensures forall x :: x in indegree ==> indegree[x] == indegree0[x] - Count(dependents, x)
    ensures Distinct(ready)
    ensures forall x :: x in ready <==> x in ready0 || (x in indegree && indegree0[x] > 0 && indegree[x] == 0)
  {
    indegree, ready := indegree0, ready0;
    var j := 0;
    while j < |dependents|
      invariant j <= |dependents| && indegree.Keys == indegree0.Keys && Distinct(ready)
      invariant forall x :: x in indegree ==> indegree[x] == indegree0[x] - Occurrences(dependents, j, x)
      invariant forall x :: x in ready <==> x in ready0 || (x in indegree && indegree0[x] > 0 && indegree[x] == 0)
    {
      var dependent := dependents[j];
      OccurrencesGrow(dependents, j + 1, |dependents|, dependent);
      var remaining := indegree[dependent] - 1;
      assert dependent !in ready;
      indegree := indegree[dependent := remaining];
      if remaining == 0 { ready := ready + [dependent]; }
      j := j + 1;
    }
  }

  /** Decrementing the dependents of `current` accounts for placing it. */
  lemma Placed(def: Definition, done: set<Id>, current: Id, id: Id)
    requires UniqueIds(def) && id in IdSet(def) && current !in done
    ensures Waiting(Deps(def, id), done + {current}) ==
            Waiting(Deps(def, id), done) - Count(Listed(def, |def|, 0, current), id)
  {
    DependentsCount(def, current, id);
    WaitingPlace(Deps(def, id), |Deps(def, id)|, done, current);
  }

  method Place(def: Definition, dependents: map<Id, seq<Id>>, ghost done: set<Id>,
               current: Id, indegree0: map<Id, int>, ready0: seq<Id>)
    returns (indegree: map<Id, int>, ready: seq<Id>)
    requires UniqueIds(def) && IsDependents(def, dependents) && Counts(def, done, indegree0)
    requires Free(def, done, current) && Distinct(ready0)
    requires forall id :: id in ready0 <==> id != current && Free(def, done, id)
    requires forall id :: id in done && id in IdSet(def) ==> indegree0[id] == 0
    ensures Counts(def, done + {current}, indegree)
    ensures IsReadyQueue(def, done + {current}, ready)
  {
    forall id | id in IdSet(def)
      ensures Waiting(Deps(def, id), done + {current}) == indegree0[id] - Count(dependents[current], id)
    {
      Placed(def, done, current, id);
    }
    ListedIds(def, |def|, 0, current);
    indegree, ready := Decrement(dependents[current], indegree0, ready0);
    forall id ensures id in ready <==> Free(def, done + {current}, id) {
      FreeAfter(def, done, current, indegree0, indegree, id);
    }
  }

  /** A node may come next after `current` if it might before, or has just lost its last open dependency. */
  lemma FreeAfter(def: Definition, done: set<Id>, current: Id, before: map<Id, int>, after: map<Id, int>, id: Id)
    requires Counts(def, done, before) && Counts(def, done + {current}, after) && Free(def, done, current)
    requires id in before && id in done ==> before[id] == 0
    requires id in before && id in after ==> after[id] <= before[id]
    ensures Free(def, done + {current}, id) <==>
      id != current && (Free(def, done, id) || (id in after && before[id] > 0 && after[id] == 0))
  {
  }

  /** The queue member of least definition index: what sorting and shifting yields. */
  method TakeLeast(def: Definition, queue: seq<Id>) returns (least: Id, rest: seq<Id>)
    requires queue != [] && Distinct(queue) && forall id :: id in queue ==> id in IdSet(def)
    ensures least in queue && forall id :: id in queue ==> Index(def, least) <= Index(def, id)
    ensures Distinct(rest) && forall id :: id in rest <==> id in queue && id != least
  {
    var m, k := 0, 1;
    while k < |queue|
      invariant m < k <= |queue|
      invariant forall i :: 0 <= i < k ==> Index(def, queue[m]) <= Index(def, queue[i])
    {
      if Index(def, queue[k]) < Index(def, queue[m]) { m := k; }
      k := k + 1;
    }
    least, rest := queue[m], queue[..m] + queue[m + 1..];
  }

  lemma PlacedWaitForNothing(def: Definition, order: seq<Id>)
    requires Respects(def, order)
    ensures forall id :: id in order && id in IdSet(def) ==> Waiting(Deps(def, id), Elements(order)) == 0
  {
    forall id | id in order && id in IdSet(def) ensures Waiting(Deps(def, id), Elements(order)) == 0 {
      var k :| 0 <= k < |order| && order[k] == id;
      assert Ready(def, Elements(order[..k]), order[k]);
      forall i | 0 <= i < |Deps(def, id)| ensures Deps(def, id)[i] in Elements(order) {
        assert Deps(def, id)[i] in Elements(order[..k]);
      }
      WaitingZero(Deps(def, id), |Deps(def, id)|, Elements(order));
    }
  }

  lemma GreedySnoc(def: Definition, order: seq<Id>, next: Id)
    requires Greedy(def, order) && Ready(def, Elements(order), next)
    requires forall id :: Ready(def, Elements(order), id) ==> Index(def, next) <= Index(def, id)
    ensures Greedy(def, order + [next]) && Elements(order + [next]) == Elements(order) + {next}
  {
    var longer := order + [next];
    forall k | 0 <= k < |longer|
      ensures Ready(def, Elements(longer[..k]), longer[k])
      ensures forall id :: Ready(def, Elements(longer[..k]), id) ==> Index(def, longer[k]) <= Index(def, id)
    {
      if k < |order| {
        assert longer[..k] == order[..k];
        assert Ready(def, Elements(order[..k]), order[k]);
      } else {
        assert longer[..k] == order;
      }
    }
  }

  /** The order, and in definition order the nodes that could not be placed. */
  method StableTopologicalSort(def: Definition) returns (order: seq<Id>, cyclicNodeIds: seq<Id>)
    requires UniqueIds(def)
    ensures Greedy(def, order) && Exhausted(def, order)
    ensures cyclicNodeIds == InDefinitionOrder(def, IdSet(def) - Elements(order))
  {
    var dependents := BuildDependents(def);
    var indegree, ready := CountDependencies(def);
    order := [];
    ghost var done: set<Id> := {};
    while ready != []
      invariant Greedy(def, order) && done == Elements(order) && done <= IdSet(def)
      invariant Counts(def, done, indegree) && IsReadyQueue(def, done, ready)
      decreases IdSet(def) - done
    {
      var current, rest := TakeLeast(def, ready);
      assert Free(def, done, current);
      forall id { FreeIffReady(def, done, id); }
      PlacedWaitForNothing(def, order);
      indegree, ready := Place(def, dependents, done, current, indegree, rest);
      GreedySnoc(def, order, current);
      order, done := order + [current], done + {current};
    }
    forall id { FreeIffReady(def, done, id); }
    var cyclic := set id | id in indegree && indegree[id] > 0;
    cyclicNodeIds := InDefinitionOrder(def, cyclic);
    LeftOver(def, order, indegree, cyclic);
  }

  lemma LeftOver(def: Definition, order: seq<Id>, indegree: map<Id, int>, cyclic: set<Id>)
    requires Respects(def, order) && Counts(def, Elements(order), indegree) && Exhausted(def, order)
    requires cyclic == set id | id in indegree && indegree[id] > 0
    ensures cyclic == IdSet(def) - Elements(order)
  {
    PlacedWaitForNothing(def, order);
    forall id | id in IdSet(def) && id !in Elements(order) ensures indegree[id] > 0 {
      assert !Ready(def, Elements(order), id);
      FreeIffReady(def, Elements(order), id);
    }
  }

  /**
   * With known dependencies the nodes left over are the largest set whose every
   * member depends on a member, and an acyclic network gets the least of all
   * its topological orders.
   */
  lemma SortResult(def: Definition, order: seq<Id>, cyclic: set<Id>)
    requires UniqueIds(def) && KnownDependencies(def)
    requires Greedy(def, order) && Exhausted(def, order) && cyclic == IdSet(def) - Elements(order)
    ensures Deadlocked(def, cyclic) && forall s :: Deadlocked(def, s) ==> s <= cyclic
    ensures cyclic == {} <==> Acyclic(def)
    ensures Acyclic(def) ==> IsTopological(def, order)
    ensures forall other :: IsTopological(def, other) ==> order == other || LexBefore(def, order, other)
  {
    LeftOverIsDeadlocked(def, order);
    ExhaustedCompleteIffAcyclic(def, order);
    RespectsDistinct(def, order);
    assert IdSet(def) == cyclic + Elements(order);
    forall other | IsTopological(def, other) ensures order == other || LexBefore(def, order, other) {
      GreedyIsLeast(def, order, other);
    }
  }
}
