/** What a network run means, independently of any execution order. */
module Meaning {
  import opened Dag
  import opened Domain

  /**
   * The status a node ends with, given where it starts, what its job would do,
   * and how its dependencies end.
   */
  function NodeMeaning(def: Definition, base: map<Id, Status>, job: Id -> Status, m: map<Id, Status>, n: Id): Status
    requires n in IdSet(def) && n in base && forall d :: d in Deps(def, n) ==> d in m
  {
    if !base[n].Waiting? then base[n]
    else if exists d :: d in Deps(def, n) && BlocksDependents(m[d]) then Blocked
    else if exists d :: d in Deps(def, n) && (m[d].Waiting? || m[d].Running?) then Waiting
    else job(n)
  }

  /** `m` gives every node its meaning. */
  ghost predicate IsMeaning(def: Definition, base: map<Id, Status>, job: Id -> Status, m: map<Id, Status>) {
    && base.Keys == m.Keys == IdSet(def) && KnownDependencies(def)
    && forall n :: n in m ==> m[n] == NodeMeaning(def, base, job, m, n)
  }

  /** A job leaves its node in one of these statuses. */
  ghost predicate IsJob(job: Id -> Status) {
    forall n :: job(n).Waiting? || TerminalAttempt(job(n))
  }

  lemma SameDependencies(def: Definition, base: map<Id, Status>, job: Id -> Status,
                         m1: map<Id, Status>, m2: map<Id, Status>, n: Id)
    requires n in IdSet(def) && n in base
    requires forall d :: d in Deps(def, n) ==> d in m1 && d in m2 && m1[d] == m2[d]
    ensures NodeMeaning(def, base, job, m1, n) == NodeMeaning(def, base, job, m2, n)
  {
  }

  lemma {:induction false} UniqueUpTo(def: Definition, base: map<Id, Status>, job: Id -> Status,
                                      m1: map<Id, Status>, m2: map<Id, Status>, order: seq<Id>, k: nat)
    requires Respects(def, order) && k <= |order|
    requires IsMeaning(def, base, job, m1) && IsMeaning(def, base, job, m2)
    ensures forall i :: 0 <= i < k ==> order[i] in m1 && m1[order[i]] == m2[order[i]]
  {
    if k > 0 {
      UniqueUpTo(def, base, job, m1, m2, order, k - 1);
      PlacedAfterDependencies(def, order, k - 1);
      var n := order[k - 1];
      SameDependencies(def, base, job, m1, m2, n);
    }
  }

  /** There is one meaning: whichever topological order produced it. */
  lemma MeaningIsUnique(def: Definition, base: map<Id, Status>, job: Id -> Status, m1: map<Id, Status>, m2: map<Id, Status>)
    requires Acyclic(def) && IsMeaning(def, base, job, m1) && IsMeaning(def, base, job, m2)
    ensures m1 == m2
  {
    var order :| IsTopological(def, order);
    UniqueUpTo(def, base, job, m1, m2, order, |order|);
    forall n | n in m1 ensures m1[n] == m2[n] {
      assert n in Elements(order);
    }
  }

  /** A node whose own job, or its absence of a result, ended its branch. */
  predicate EndedBadly(s: Status) {
    s.Failed? || s.Cancelled? || s.Unknown?
  }

  /** Some strict ancestor of `n` ended badly. */
  ghost predicate UnderFailure(def: Definition, m: map<Id, Status>, n: Id) {
    exists r :: r in m && r != n && EndedBadly(m[r]) && Reaches(def, r, n)
  }

  ghost predicate AllWaiting(base: map<Id, Status>) {
    forall n :: n in base ==> base[n].Waiting?
  }

  /** Below a node that ended badly everything is BLOCKED. */
  lemma {:induction false} BlockedAlongPath(def: Definition, base: map<Id, Status>, job: Id -> Status,
                                            m: map<Id, Status>, p: seq<Id>)
    requires IsMeaning(def, base, job, m) && AllWaiting(base)
    requires IsPath(def, p) && |p| >= 2 && p[0] in m && BlocksDependents(m[p[0]])
    ensures p[|p| - 1] in m && m[p[|p| - 1]].Blocked?
  {
    var last := |p| - 1;
    assert DependsOn(def, p[last], p[last - 1]);
    if last > 1 {
      var q := p[..last];
      forall i | 0 < i < |q| ensures DependsOn(def, q[i], q[i - 1]) { assert DependsOn(def, p[i], p[i - 1]); }
      BlockedAlongPath(def, base, job, m, q);
    }
  }

  lemma FailureBlocks(def: Definition, base: map<Id, Status>, job: Id -> Status, m: map<Id, Status>, n: Id)
    requires IsMeaning(def, base, job, m) && AllWaiting(base) && n in m && UnderFailure(def, m, n)
    ensures m[n].Blocked?
  {
    var r :| r in m && r != n && EndedBadly(m[r]) && Reaches(def, r, n);
    var p :| IsPath(def, p) && p[0] == r && p[|p| - 1] == n;
    BlockedAlongPath(def, base, job, m, p);
  }

  lemma BlockedHasCause(def: Definition, base: map<Id, Status>, job: Id -> Status, m: map<Id, Status>, n: Id)
    requires IsMeaning(def, base, job, m) && AllWaiting(base) && IsJob(job) && n in m && m[n].Blocked?
    requires forall d :: d in Deps(def, n) ==> (m[d].Blocked? ==> UnderFailure(def, m, d))
    ensures UnderFailure(def, m, n)
  {
    assert m[n] == NodeMeaning(def, base, job, m, n);
    var d :| d in Deps(def, n) && BlocksDependents(m[d]);
    if m[d].Blocked? {
      var r :| r in m && r != d && EndedBadly(m[r]) && Reaches(def, r, d);
      ReachesStep(def, r, d, n);
    } else {
      ReachesSelf(def, d);
      ReachesStep(def, d, d, n);
    }
  }

  /** Following an order backwards, every BLOCKED node is reached from a bad end. */
  lemma {:induction false} CauseOf(def: Definition, base: map<Id, Status>, job: Id -> Status, m: map<Id, Status>,
                                   order: seq<Id>, k: nat)
    requires Respects(def, order) && k < |order| && order[k] in m
    requires IsMeaning(def, base, job, m) && AllWaiting(base) && IsJob(job)
    ensures m[order[k]].Blocked? ==> UnderFailure(def, m, order[k])
    decreases k
  {
    if m[order[k]].Blocked? {
      PlacedAfterDependencies(def, order, k);
      forall d | d in Deps(def, order[k]) ensures m[d].Blocked? ==> UnderFailure(def, m, d) {
        var i :| 0 <= i < k && order[i] == d;
        CauseOf(def, base, job, m, order, i);
      }
      BlockedHasCause(def, base, job, m, order[k]);
    }
  }

  /** In a new run exactly the strict descendants of nodes that ended badly are BLOCKED. */
  lemma BlockedIffUnderFailure(def: Definition, base: map<Id, Status>, job: Id -> Status, m: map<Id, Status>, n: Id)
    requires Acyclic(def) && IsMeaning(def, base, job, m) && AllWaiting(base) && IsJob(job) && n in m
    ensures m[n].Blocked? <==> UnderFailure(def, m, n)
  {
    if UnderFailure(def, m, n) {
      FailureBlocks(def, base, job, m, n);
    } else {
      var order :| IsTopological(def, order);
      assert n in Elements(order);
      var k :| 0 <= k < |order| && order[k] == n;
      CauseOf(def, base, job, m, order, k);
    }
  }
}
