/** What the scheduler does with one node, and why visiting nodes in order computes the meaning of the network. */
module Choices {
  import opened Dag
  import opened Domain
  import opened Meaning
  import opened Descendants

  datatype Mode = New | Resume | RerunFrom

  datatype Choice = Preserve | SkipUnselected | Exclude | Block(failed: seq<Id>) | Defer | Start

  /** Every node of a well-formed network has a status. */
  ghost predicate Covers(def: Definition, m: map<Id, Status>) {
    m.Keys == IdSet(def) && KnownDependencies(def)
  }

  /** The dependencies that ended in FAILED, BLOCKED, CANCELLED or UNKNOWN, in the order they are declared. */
  function FailedAmong(deps: seq<Id>, m: map<Id, Status>): (failed: seq<Id>)
    requires forall d :: d in deps ==> d in m
    ensures forall d :: d in failed <==> d in deps && BlocksDependents(m[d])
  {
    if deps == [] then []
    else (if BlocksDependents(m[deps[0]]) then [deps[0]] else []) + FailedAmong(deps[1..], m)
  }

  /** Each dependency counts for itself, in its place. */
  lemma {:induction false} FailedInPlace(xs: seq<Id>, ys: seq<Id>, m: map<Id, Status>)
    requires (forall d :: d in xs ==> d in m) && forall d :: d in ys ==> d in m
    ensures FailedAmong(xs + ys, m) == FailedAmong(xs, m) + FailedAmong(ys, m)
  {
    if xs == [] {
      assert xs + ys == ys;
    } else {
      var rest := xs[1..];
      assert xs == [xs[0]] + rest && xs + ys == [xs[0]] + (rest + ys);
      FailedInPlace(rest, ys, m);
      FailedFirst(xs[0], rest, ys, m);
    }
  }

  lemma FailedFirst(d: Id, rest: seq<Id>, ys: seq<Id>, m: map<Id, Status>)
    requires d in m && (forall e :: e in rest ==> e in m) && forall e :: e in ys ==> e in m
    requires FailedAmong(rest + ys, m) == FailedAmong(rest, m) + FailedAmong(ys, m)
    ensures FailedAmong([d] + (rest + ys), m) == FailedAmong([d] + rest, m) + FailedAmong(ys, m)
  {
    FailedCons(d, rest, m);
    FailedCons(d, rest + ys, m);
    Glue(if BlocksDependents(m[d]) then [d] else [], FailedAmong(rest, m), FailedAmong(ys, m));
  }

  lemma Glue(h: seq<Id>, a: seq<Id>, b: seq<Id>)
    ensures h + (a + b) == (h + a) + b
  {
  }

  lemma FailedCons(d: Id, rest: seq<Id>, m: map<Id, Status>)
    requires d in m && forall e :: e in rest ==> e in m
    ensures FailedAmong([d] + rest, m) == (if BlocksDependents(m[d]) then [d] else []) + FailedAmong(rest, m)
  {
    assert ([d] + rest)[1..] == rest;
  }

  /** Some dependency blocks exactly if one is listed. */
  lemma FailedIff(deps: seq<Id>, m: map<Id, Status>)
    requires forall d :: d in deps ==> d in m
    ensures FailedAmong(deps, m) != [] <==> exists d :: d in deps && BlocksDependents(m[d])
  {
    var failed := FailedAmong(deps, m);
    if failed != [] { assert failed[0] in failed; }
  }

  lemma FailedAlone(d: Id, m: map<Id, Status>)
    requires d in m
    ensures FailedAmong([d], m) == if BlocksDependents(m[d]) then [d] else []
  {
    assert [d][1..] == [];
  }

  predicate Unfinished(s: Status) {
    s.Waiting? || s.Running?
  }

  /** The checks of one visit, in their order. */
  function Choose(def: Definition, mode: Mode, selected: set<Id>, excluded: set<Id>, m: map<Id, Status>, n: Id): Choice
    requires Covers(def, m) && n in m
  {
    if mode.RerunFrom? && n !in selected then (if m[n].Success? then Preserve else SkipUnselected)
    else if m[n].Success? then Preserve
    else if n in excluded && !m[n].Waiting? then Exclude
    else
      var failed := FailedAmong(Deps(def, n), m);
      if failed != [] || n in excluded then Block(failed)
      else if exists d :: d in Deps(def, n) && Unfinished(m[d]) then Defer
      else if !m[n].Waiting? then Exclude
      else Start
  }

  /** Why each choice is made. */
  lemma ChoiceTells(def: Definition, mode: Mode, selected: set<Id>, excluded: set<Id>, m: map<Id, Status>, n: Id)
    requires Covers(def, m) && n in m
    ensures var choice := Choose(def, mode, selected, excluded, m, n);
      && (choice.Preserve? <==> m[n].Success?)
      && (choice.SkipUnselected? <==> mode.RerunFrom? && n !in selected && !m[n].Success?)
      && (choice.Exclude? ==> !m[n].Waiting?)
      && (choice.Block? ==> n in excluded || exists d :: d in Deps(def, n) && BlocksDependents(m[d]))
      && (choice.Defer? ==> exists d :: d in Deps(def, n) && Unfinished(m[d]))
      && (choice.Start? ==> m[n].Waiting? && n !in excluded &&
                            forall d :: d in Deps(def, n) ==> !BlocksDependents(m[d]) && !Unfinished(m[d]))
  {
    FailedIff(Deps(def, n), m);
  }

  /** The status of `n` after its visit; `worked` is what its turn would come to. */
  function StatusAfter(choice: Choice, worked: Status, m: map<Id, Status>, n: Id): Status
    requires n in m
  {
    match choice
    case Block(_) => Blocked
    case Start => worked
    case _ => m[n]
  }

  // ---- Visiting in topological order --------------------------------------

  /** No node is SKIPPED and a started node has only SUCCESS dependencies. */
  ghost predicate SafeStatuses(def: Definition, m: map<Id, Status>) {
    && (forall n :: n in m ==> !m[n].Skipped?)
    && (forall n, d :: n in m && DependsOn(def, n, d) && HasStarted(m[n]) ==> d in m && m[d].Success?)
  }

  /** Roots of exclusion ended badly and are not retried. */
  ghost predicate AreRoots(base: map<Id, Status>, roots: set<Id>) {
    forall r :: r in roots ==> r in base && EndedBadly(base[r])
  }

  /** After `k` visits: the visited nodes have their meaning, the excluded ones block, the others are untouched. */
  ghost predicate Reached(def: Definition, base: map<Id, Status>, job: Id -> Status, order: seq<Id>, k: nat,
                          excluded: set<Id>, m: map<Id, Status>)
    requires k <= |order|
  {
    && base.Keys == m.Keys && Covers(def, m)
    && (forall i :: 0 <= i < k ==> HasMeaning(def, base, job, m, order[i]))
    && (forall i :: 0 <= i < k ==> order[i] in excluded ==> BlocksDependents(m[order[i]]))
    && (forall i :: k <= i < |order| && order[i] in m ==> m[order[i]] == base[order[i]])
  }

  ghost predicate HasMeaning(def: Definition, base: map<Id, Status>, job: Id -> Status, m: map<Id, Status>, n: Id)
    requires base.Keys == m.Keys && Covers(def, m)
  {
    n in m && m[n] == NodeMeaning(def, base, job, m, n)
  }

  /** An excluded node that is not a root depends on an excluded node. */
  lemma ExcludedThrough(def: Definition, roots: set<Id>, n: Id)
    requires n in DescendantsOf(def, roots) && n !in roots
    ensures exists d :: DependsOn(def, n, d) && d in roots + DescendantsOf(def, roots)
  {
    var r :| r in roots && Reaches(def, r, n);
    var p :| IsPath(def, p) && p[0] == r && p[|p| - 1] == n;
    var last := |p| - 1;
    assert DependsOn(def, p[last], p[last - 1]);
    if last > 1 {
      var q := p[..last];
      forall i | 0 < i < |q| ensures DependsOn(def, q[i], q[i - 1]) { assert DependsOn(def, p[i], p[i - 1]); }
      assert IsPath(def, q) && q[0] == r && q[|q| - 1] == p[last - 1];
      assert DependsOn(def, p[last - 1], p[last - 2]);
      assert Reaches(def, r, p[last - 1]);
      assert p[last - 1] in DescendantsOf(def, roots);
    }
  }

  /** In a safe network an excluded node is a root or has a dependency that blocks it. */
  lemma ExcludedIsBlocked(def: Definition, base: map<Id, Status>, job: Id -> Status, order: seq<Id>, k: nat,
                          roots: set<Id>, m: map<Id, Status>)
    requires Respects(def, order) && k < |order|
    requires Reached(def, base, job, order, k, roots + DescendantsOf(def, roots), m)
    requires order[k] in roots + DescendantsOf(def, roots) && order[k] !in roots
    ensures order[k] in m && exists d :: d in Deps(def, order[k]) && BlocksDependents(m[d])
  {
    ExcludedThrough(def, roots, order[k]);
    var d :| DependsOn(def, order[k], d) && d in roots + DescendantsOf(def, roots);
    PlacedAfterDependencies(def, order, k);
    var i :| 0 <= i < k && order[i] == d;
  }

  /** What a visit relies on: failed dependencies only occur where the node has not started. */
  ghost predicate Visitable(def: Definition, excluded: set<Id>, roots: set<Id>, m: map<Id, Status>, n: Id) {
    && Covers(def, m) && n in m && !m[n].Skipped?
    && (n in roots ==> EndedBadly(m[n]) && n in excluded)
    && (FailedAmong(Deps(def, n), m) != [] ==> m[n].Waiting? || m[n].Blocked?)
    && (n in excluded && n !in roots ==> FailedAmong(Deps(def, n), m) != [])
    && (n in excluded && n !in roots ==> m[n].Waiting? || m[n].Blocked?)
  }

  lemma ReachedVisitable(def: Definition, base: map<Id, Status>, job: Id -> Status, order: seq<Id>, k: nat,
                         roots: set<Id>, m: map<Id, Status>)
    requires Respects(def, order) && k < |order| && SafeStatuses(def, m)
    requires AreRoots(base, roots) && Reached(def, base, job, order, k, roots + DescendantsOf(def, roots), m)
    ensures Visitable(def, roots + DescendantsOf(def, roots), roots, m, order[k])
  {
    var n := order[k];
    PlacedAfterDependencies(def, order, k);
    assert m[n] == base[n];
    if n in DescendantsOf(def, roots) && n !in roots {
      ExcludedIsBlocked(def, base, job, order, k, roots, m);
      var d :| d in Deps(def, n) && BlocksDependents(m[d]);
      assert d in FailedAmong(Deps(def, n), m) && DependsOn(def, n, d);
    }
    if FailedAmong(Deps(def, n), m) != [] {
      assert FailedAmong(Deps(def, n), m)[0] in FailedAmong(Deps(def, n), m);
      assert DependsOn(def, n, FailedAmong(Deps(def, n), m)[0]) && !HasStarted(m[n]);
    }
  }

  /** One visit of a safe network gives its node the node's meaning. */
  lemma VisitedMeaning(def: Definition, base: map<Id, Status>, job: Id -> Status, m: map<Id, Status>, n: Id,
                       mode: Mode, selected: set<Id>, excluded: set<Id>, roots: set<Id>)
    requires !mode.RerunFrom? && Visitable(def, excluded, roots, m, n) && n in base && base[n] == m[n]
    ensures var choice := Choose(def, mode, selected, excluded, m, n);
      && (choice.Block? ==> choice.failed != [])
      && StatusAfter(choice, job(n), m, n) == NodeMeaning(def, base, job, m, n)
      && (n in excluded ==> BlocksDependents(StatusAfter(choice, job(n), m, n)))
  {
    FailedIff(Deps(def, n), m);
  }

  /** So one more node is reached. */
  lemma ReachedOneMore(def: Definition, base: map<Id, Status>, job: Id -> Status, order: seq<Id>, k: nat,
                       excluded: set<Id>, m: map<Id, Status>, status: Status)
    requires Respects(def, order) && k < |order| && order[k] in m && Reached(def, base, job, order, k, excluded, m)
    requires status == NodeMeaning(def, base, job, m, order[k])
    requires order[k] in excluded ==> BlocksDependents(status)
    ensures Reached(def, base, job, order, k + 1, excluded, m[order[k] := status])
  {
    var m' := m[order[k] := status];
    RespectsDistinct(def, order);
    assert m'.Keys == m.Keys;
    forall i | 0 <= i <= k ensures HasMeaning(def, base, job, m', order[i]) {
      assert i < k ==> HasMeaning(def, base, job, m, order[i]);
      PlacedAfterDependencies(def, order, i);
      SameDependencies(def, base, job, m, m', order[i]);
    }
  }

  /** All nodes visited: the statuses are the meaning. */
  lemma ReachedAll(def: Definition, base: map<Id, Status>, job: Id -> Status, order: seq<Id>,
                   excluded: set<Id>, m: map<Id, Status>)
    requires IsTopological(def, order) && Reached(def, base, job, order, |order|, excluded, m)
    ensures IsMeaning(def, base, job, m)
  {
    forall n | n in m ensures m[n] == NodeMeaning(def, base, job, m, n) {
      assert n in Elements(order);
      var i :| 0 <= i < |order| && order[i] == n;
      assert HasMeaning(def, base, job, m, order[i]);
    }
  }

  // ---- Reruns -------------------------------------------------------------

  /** What becomes of a selected node that was WAITING when the walk began, given how its dependencies end. */
  function RerunStatus(def: Definition, job: Id -> Status, excluded: set<Id>, m: map<Id, Status>, n: Id): Status
    requires Covers(def, m) && n in m
  {
    if n in excluded || (exists d :: d in Deps(def, n) && BlocksDependents(m[d])) then Blocked
    else if exists d :: d in Deps(def, n) && (m[d].Waiting? || m[d].Running?) then Waiting
    else job(n)
  }

  /** Nodes outside the selection stay as they were, and each selected node that was WAITING has got its status. */
  ghost predicate RerunMeaning(def: Definition, base: map<Id, Status>, job: Id -> Status, selection: set<Id>, excluded: set<Id>,
                               m: map<Id, Status>) {
    && base.Keys == m.Keys && Covers(def, m)
    && (forall n :: n in m && n !in selection ==> m[n] == base[n])
    && (forall n :: n in m && n in selection && base[n].Waiting? ==> m[n] == RerunStatus(def, job, excluded, m, n))
  }

  ghost predicate RerunNode(def: Definition, base: map<Id, Status>, job: Id -> Status, selection: set<Id>, excluded: set<Id>,
                            m: map<Id, Status>, n: Id)
    requires base.Keys == m.Keys && Covers(def, m)
  {
    && n in m && (n !in selection ==> m[n] == base[n])
    && (n in selection && base[n].Waiting? ==> m[n] == RerunStatus(def, job, excluded, m, n))
  }

  /** After `k` visits of a rerun. */
  ghost predicate RerunReached(def: Definition, base: map<Id, Status>, job: Id -> Status, selection: set<Id>, excluded: set<Id>,
                               order: seq<Id>, k: nat, m: map<Id, Status>)
    requires k <= |order|
  {
    && base.Keys == m.Keys && Covers(def, m)
    && (forall i :: 0 <= i < k ==> RerunNode(def, base, job, selection, excluded, m, order[i]))
    && (forall i :: k <= i < |order| && order[i] in m ==> m[order[i]] == base[order[i]])
  }

  /** The choice of a rerun gives its node what the rerun means for it. */
  lemma RerunChoice(def: Definition, job: Id -> Status, selection: set<Id>, excluded: set<Id>, m: map<Id, Status>, n: Id)
    requires Covers(def, m) && n in m
    ensures var status := StatusAfter(Choose(def, RerunFrom, selection, excluded, m, n), job(n), m, n);
      && (n !in selection ==> status == m[n])
      && (n in selection && m[n].Waiting? ==> status == RerunStatus(def, job, excluded, m, n))
  {
    FailedIff(Deps(def, n), m);
  }

  lemma RerunOneMore(def: Definition, base: map<Id, Status>, job: Id -> Status, selection: set<Id>, excluded: set<Id>,
                     order: seq<Id>, k: nat, m: map<Id, Status>, choice: Choice)
    requires Respects(def, order) && k < |order| && order[k] in m
    requires RerunReached(def, base, job, selection, excluded, order, k, m)
    requires choice == Choose(def, RerunFrom, selection, excluded, m, order[k])
    ensures RerunReached(def, base, job, selection, excluded, order, k + 1, m[order[k] := StatusAfter(choice, job(order[k]), m, order[k])])
  {
    var m' := m[order[k] := StatusAfter(choice, job(order[k]), m, order[k])];
    RespectsDistinct(def, order);
    RerunChoice(def, job, selection, excluded, m, order[k]);
    assert m'.Keys == m.Keys;
    forall i | 0 <= i <= k ensures RerunNode(def, base, job, selection, excluded, m', order[i]) {
      assert i < k ==> RerunNode(def, base, job, selection, excluded, m, order[i]);
      PlacedAfterDependencies(def, order, i);
      SameRerun(def, job, excluded, m, m', order[i]);
    }
  }

  lemma SameRerun(def: Definition, job: Id -> Status, excluded: set<Id>, m: map<Id, Status>, m': map<Id, Status>, n: Id)
    requires Covers(def, m) && Covers(def, m') && n in m && forall d :: d in Deps(def, n) ==> m'[d] == m[d]
    ensures RerunStatus(def, job, excluded, m', n) == RerunStatus(def, job, excluded, m, n)
  {
  }

  lemma RerunReachedAll(def: Definition, base: map<Id, Status>, job: Id -> Status, selection: set<Id>, excluded: set<Id>,
                        order: seq<Id>, m: map<Id, Status>)
    requires IsTopological(def, order) && RerunReached(def, base, job, selection, excluded, order, |order|, m)
    ensures RerunMeaning(def, base, job, selection, excluded, m)
  {
    forall n | n in m ensures RerunNode(def, base, job, selection, excluded, m, n) {
      assert n in Elements(order);
      var i :| 0 <= i < |order| && order[i] == n;
    }
  }
}
