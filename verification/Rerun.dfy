/** Preparing a Run: missing node states are created, and rerun-from resets a node with all its descendants. */
module Rerun {
  import opened Dag
  import opened Domain
  import opened StoreContract
  import opened Repository
  import opened Invariants
  import opened Writes
  import opened StoreWrites
  import opened GuardedWrites
  import opened Descendants
  import opened Examples

  datatype PrepareError =
    | SnapshotMismatch
    | DagInvalid
    | NodeNotFound
    | SuccessRun
    | UnknownState
    | NonIdempotent
    | PrepareFailed(error: Error)

  // ---- Missing states -----------------------------------------------------

  function InitialState(node: Node): NodeState {
    NodeState(node.id, Waiting, 0, None, 1, node.idempotent, [])
  }

  /** A first record: WAITING, never attempted, blocked by nothing, repeatable as the network says. */
  predicate Untried(def: Definition, n: Id, stored: Stored<NodeState>) {
    var v := stored.value;
    && stored.revision == v.revision == 1 && v.nodeId == n && v.status.Waiting? && v.latestAttemptNo == 0
    && v.activeAttemptId.None? && v.blockedBy == [] && n in IdSet(def) && v.idempotent == def[Index(def, n)].idempotent
  }

  lemma InitialIsUntried(def: Definition, i: nat)
    requires UniqueIds(def) && i < |def|
    ensures Untried(def, def[i].id, Stored(InitialState(def[i]), 1))
  {
    IndexOf(def, i);
  }

  /** `states` extended by a fresh record for each of the first `k` nodes that had none. */
  ghost predicate FilledUpTo(def: Definition, before: map<Id, Stored<NodeState>>, states: map<Id, Stored<NodeState>>, k: nat)
    requires k <= |def|
  {
    && states.Keys == before.Keys + (set i | 0 <= i < k :: def[i].id)
    && (forall n :: n in before ==> states[n] == before[n])
    && (forall n :: n in states && n !in before ==> Untried(def, n, states[n]))
  }

  ghost function Filled(def: Definition, before: map<Id, Stored<NodeState>>, k: nat): iset<map<Id, Stored<NodeState>>>
    requires k <= |def|
  {
    iset states: map<Id, Stored<NodeState>> | FilledUpTo(def, before, states, k)
  }

  lemma FilledNext(def: Definition, before: map<Id, Stored<NodeState>>, k: nat, states: map<Id, Stored<NodeState>>)
    requires UniqueIds(def) && k < |def| && states in Filled(def, before, k)
    ensures def[k].id in states ==> states in Filled(def, before, k + 1)
    ensures def[k].id !in states ==> states[def[k].id := Stored(InitialState(def[k]), 1)] in Filled(def, before, k + 1)
  {
    InitialIsUntried(def, k);
  }

  method CreateState(repo: Repository, def: Definition, ghost plain: bool, i: nat) returns (r: Result<(), Error>)
    requires UniqueIds(def) && i < |def| && repo.Contents() in Consistent(def, plain) && def[i].id !in repo.states
    modifies repo`states
    ensures repo.Contents() in Preserving(def, plain, old(repo.Contents()))
    ensures r.Ok? ==> repo.states == old(repo.states)[def[i].id := Stored(InitialState(def[i]), 1)]
    ensures r.Err? ==> repo.states == old(repo.states) && r.error.ProcessDied?
  {
    IndexOf(def, i);
    ghost var s := repo.Contents();
    var write := NodeStateWrite(InitialState(def[i]), None, None);
    var created := repo.UpsertNodeState(write);
    if created.Err? { return Err(created.error); }
    StateCreated(def, s, repo.Contents(), write, plain);
    if NoWindow(s) { WindowsElsewhere(s, repo.Contents(), def[i].id); }
    if DependencySafe(def, s.states) { SafeWrite(def, s.states, def[i].id, Stored(InitialState(def[i]), 1)); }
    return Ok(());
  }

  /** Every stored record belongs to this network. */
  predicate SnapshotMatches(def: Definition, states: map<Id, Stored<NodeState>>) {
    forall n {:trigger MatchesNode(def, states, n)} :: n in states ==> MatchesNode(def, states, n)
  }

  /**
   * Creates the missing node states of `def`; the stored ones, of whatever network they are,
   * have to match it.
   */
  method EnsureNodeStates(repo: Repository, ghost stored: Definition, def: Definition, ghost plain: bool)
    returns (r: Result<(), PrepareError>)
    requires UniqueIds(def) && repo.Contents() in Consistent(stored, plain)
    modifies repo`states
    ensures r == Err(SnapshotMismatch) <==> !SnapshotMatches(def, old(repo.states))
    ensures r == Err(SnapshotMismatch) ==> repo.states == old(repo.states)
    ensures r != Err(SnapshotMismatch) ==> repo.Contents() in Preserving(def, plain, old(repo.Contents()))
    ensures r.Ok? ==> FilledUpTo(def, old(repo.states), repo.states, |def|) && repo.states.Keys == IdSet(def)
    ensures r.Err? ==> r.error.SnapshotMismatch? || r.error == PrepareFailed(ProcessDied)
  {
    if !SnapshotMatches(def, repo.states) { return Err(SnapshotMismatch); }
    assert repo.Contents() in Preserving(def, plain, repo.Contents());
    r := CreateMissing(repo, def, plain);
  }

  method CreateMissing(repo: Repository, def: Definition, ghost plain: bool) returns (r: Result<(), PrepareError>)
    requires UniqueIds(def) && repo.Contents() in Consistent(def, plain)
    modifies repo`states
    ensures repo.Contents() in Preserving(def, plain, old(repo.Contents()))
    ensures r.Ok? ==> FilledUpTo(def, old(repo.states), repo.states, |def|) && repo.states.Keys == IdSet(def)
    ensures r.Err? ==> r.error == PrepareFailed(ProcessDied)
  {
    var i := 0;
    assert repo.Contents() in Preserving(def, plain, repo.Contents());
    while i < |def|
      invariant i <= |def| && repo.states in Filled(def, old(repo.states), i)
      invariant repo.Contents() in Preserving(def, plain, old(repo.Contents()))
    {
      FilledNext(def, old(repo.states), i, repo.states);
      if def[i].id !in repo.states {
        ghost var before := repo.Contents();
        var created := CreateState(repo, def, plain, i);
        PreservingChain(def, plain, old(repo.Contents()), before, repo.Contents());
        if created.Err? { return Err(PrepareFailed(created.error)); }
      }
      i := i + 1;
    }
    KnownOnly(def, plain, repo.Contents());
    return Ok(());
  }

  lemma KnownOnly(def: Definition, plain: bool, s: Store)
    requires s in Consistent(def, plain)
    ensures s.states.Keys <= IdSet(def)
  {
    forall n | n in s.states ensures n in IdSet(def) { assert MatchesNode(def, s.states, n); }
  }

  // ---- Rerun-from ---------------------------------------------------------

  function ResetState(state: NodeState): NodeState {
    state.(status := Waiting, activeAttemptId := None, blockedBy := [])
  }

  /** The states once the nodes in `done` have been reset. */
  function ResetStates(base: map<Id, Stored<NodeState>>, done: set<Id>): map<Id, Stored<NodeState>> {
    map n | n in base :: if n in done then NextRecord(base[n], ResetState(base[n].value)) else base[n]
  }

  /** The refusals of rerun-from, in the order they are checked. */
  function RerunRefusal(run: Run, states: map<Id, Stored<NodeState>>, selected: set<Id>): Option<PrepareError> {
    if !(selected <= states.Keys) then Some(PrepareError.DagInvalid)
    else if run.status.RunSuccess? then Some(SuccessRun)
    else if exists n :: n in selected && states[n].value.status.Unknown? then Some(UnknownState)
    else if exists n :: n in selected && !states[n].value.idempotent && states[n].value.latestAttemptNo > 0
      then Some(NonIdempotent)
    else None
  }

  /** Nothing stands against running these nodes again: the Run has not succeeded, and each of them may be repeated. */
  predicate Rerunnable(run: Run, states: map<Id, Stored<NodeState>>, selected: set<Id>) {
    !run.status.RunSuccess? && forall n :: n in selected ==> n in states && MayRepeat(states[n].value)
  }

  /** It is known how the node ended, and it was never attempted or its job may be repeated. */
  predicate MayRepeat(state: NodeState) {
    !state.status.Unknown? && (state.idempotent || state.latestAttemptNo == 0)
  }

  /** The reason fits, and no reason that is named before it does. */
  predicate RefusedFor(error: PrepareError, run: Run, states: map<Id, Stored<NodeState>>, selected: set<Id>) {
    match error
    case DagInvalid => exists n :: n in selected && n !in states
    case SuccessRun => run.status.RunSuccess? && selected <= states.Keys
    case UnknownState =>
      !run.status.RunSuccess? && selected <= states.Keys && exists n :: n in selected && states[n].value.status.Unknown?
    case NonIdempotent =>
      && !run.status.RunSuccess? && selected <= states.Keys
      && (forall n :: n in selected ==> !states[n].value.status.Unknown?)
      && (exists n :: n in selected && !MayRepeat(states[n].value))
    case _ => false
  }

  lemma RefusalIsRight(run: Run, states: map<Id, Stored<NodeState>>, selected: set<Id>)
    ensures RerunRefusal(run, states, selected).None? <==> Rerunnable(run, states, selected)
    ensures RerunRefusal(run, states, selected).Some? ==>
      RefusedFor(RerunRefusal(run, states, selected).value, run, states, selected)
  {
    if !(selected <= states.Keys) {
      var n :| n in selected && n !in states;
    } else if RerunRefusal(run, states, selected) == Some(NonIdempotent) {
      var n :| n in selected && !states[n].value.idempotent && states[n].value.latestAttemptNo > 0;
      assert !MayRepeat(states[n].value);
    }
  }

  /** One reset; the record is overwritten at the revision it was checked at. */
  method ResetNode(repo: Repository, ghost def: Definition, ghost plain: bool, n: Id, state: Stored<NodeState>)
    returns (r: Result<(), Error>)
    requires repo.Contents() in Consistent(def, plain) && NoWindow(repo.Contents())
    requires n in repo.states && repo.states[n] == state
    requires state.value.idempotent || state.value.latestAttemptNo == 0
    modifies repo`states
    ensures repo.Contents() in Consistent(def, false) && NoWindow(repo.Contents())
    ensures r.Ok? ==> repo.states == old(repo.states)[n := NextRecord(state, ResetState(state.value))]
    ensures r.Err? ==> repo.states == old(repo.states)
  {
    ghost var s := repo.Contents();
    var value := ResetState(state.value);
    ResetSound(def, plain, s, n);
    WeakerConsistency(def, plain, s);
    var written := PutState(repo, def, plain, false, n, state, value, None);
    WeakerConsistency(def, plain, s);
    if written.Err? { return Err(written.error); }
    return Ok(());
  }

  lemma ResetSound(def: Definition, plain: bool, s: Store, n: Id)
    requires s in Consistent(def, plain) && n in s.states && NoWindow(s)
    requires s.states[n].value.idempotent || s.states[n].value.latestAttemptNo == 0
    ensures s.states[n].value.nodeId == n
    ensures var w' := WithState(ViewOf(s, n), ResetState(s.states[n].value)); w' in Sound(false) && !Window(w')
  {
    var w := ViewOf(s, n);
    assert IndexedState(s, n);
    assert w in Sound(plain) && !Window(w);
    Reset(w, ResetState(w.state), plain);
  }

  lemma WeakerConsistency(def: Definition, plain: bool, s: Store)
    requires s in Consistent(def, plain)
    ensures s in Consistent(def, false)
  {
    Weaken(plain, false);
    forall n | n in s.states ensures ViewOf(s, n) in Sound(false) { assert ViewOf(s, n) in Sound(plain); }
  }

  lemma ResetStep(base: map<Id, Stored<NodeState>>, ids: seq<Id>, k: nat)
    requires k < |ids| && ids[k] in base && Distinct(ids)
    ensures ResetStates(base, Elements(ids[..k]))[ids[k]] == base[ids[k]]
    ensures ResetStates(base, Elements(ids[..k]))[ids[k] := NextRecord(base[ids[k]], ResetState(base[ids[k]].value))] ==
            ResetStates(base, Elements(ids[..k + 1]))
  {
    assert Elements(ids[..k + 1]) == Elements(ids[..k]) + {ids[k]} by {
      assert ids[..k + 1] == ids[..k] + [ids[k]];
    }
    assert ids[k] !in ids[..k];
  }

  method ResetAll(repo: Repository, ghost def: Definition, ghost plain: bool, base: map<Id, Stored<NodeState>>, ids: seq<Id>)
    returns (r: Result<(), Error>, k: nat)
    requires repo.Contents() in Consistent(def, plain) && NoWindow(repo.Contents()) && repo.states == base
    requires Distinct(ids) && forall n :: n in ids ==>
      n in base && (base[n].value.idempotent || base[n].value.latestAttemptNo == 0)
    modifies repo`states
    ensures repo.Contents() in Consistent(def, false) && NoWindow(repo.Contents())
    ensures k <= |ids| && repo.states == ResetStates(base, Elements(ids[..k]))
    ensures r.Ok? ==> k == |ids|
  {
    k := 0;
    WeakerConsistency(def, plain, repo.Contents());
    assert repo.states == ResetStates(base, Elements(ids[..0]));
    while k < |ids|
      invariant k <= |ids| && repo.states == ResetStates(base, Elements(ids[..k]))
      invariant repo.Contents() in Consistent(def, false) && NoWindow(repo.Contents())
    {
      assert ids[k] in ids;
      ResetStep(base, ids, k);
      var written := ResetNode(repo, def, false, ids[k], base[ids[k]]);
      if written.Err? { return Err(written.error), k; }
      k := k + 1;
    }
    return Ok(()), k;
  }

  /** The safety checks, then the resets. */
  method RerunSelected(repo: Repository, ghost def: Definition, ghost plain: bool, selected: seq<Id>)
    returns (r: Result<(), PrepareError>, done: nat)
    requires repo.Contents() in Consistent(def, plain) && NoWindow(repo.Contents()) && Distinct(selected)
    modifies repo`states
    ensures repo.Contents() in Consistent(def, false) && NoWindow(repo.Contents())
    ensures done <= |selected| && repo.states == ResetStates(old(repo.states), Elements(selected[..done]))
    ensures r.Ok? ==> done == |selected| && Rerunnable(repo.run.value, old(repo.states), Elements(selected))
    ensures r.Err? && !r.error.PrepareFailed? ==> done == 0
    ensures r.Err? && !r.error.PrepareFailed? ==>
      RefusedFor(r.error, repo.run.value, old(repo.states), Elements(selected))
  {
    RefusalIsRight(repo.run.value, repo.states, Elements(selected));
    var refusal := RerunRefusal(repo.run.value, repo.states, Elements(selected));
    if refusal.Some? {
      WeakerConsistency(def, plain, repo.Contents());
      assert repo.states == ResetStates(repo.states, Elements(selected[..0]));
      return Err(refusal.value), 0;
    }
    assert forall n :: n in selected ==> n in Elements(selected);
    var written, k := ResetAll(repo, def, plain, repo.states, selected);
    if written.Err? { return Err(PrepareFailed(written.error)), k; }
    return Ok(()), k;
  }

  /**
   * Resets a node and all its descendants, in definition order, after every refusal
   * has been checked. `done` counts the resets that were stored.
   */
  method PrepareRerunFrom(repo: Repository, def: Definition, ghost plain: bool, nodeId: Id)
    returns (r: Result<seq<Id>, PrepareError>, done: nat)
    requires repo.Contents() in Consistent(def, plain) && NoWindow(repo.Contents())
    modifies repo`states
    ensures repo.Contents() in Consistent(def, false) && NoWindow(repo.Contents())
    ensures var ids := InDefinitionOrder(def, DescendantsOf(def, {nodeId}));
      done <= |ids| && repo.states == ResetStates(old(repo.states), Elements(ids[..done])) &&
      (r.Ok? ==> done == |ids| && r.value == ids) &&
      (r.Err? && !r.error.PrepareFailed? ==> done == 0)
    ensures r.Ok? || done > 0 ==> UniqueIds(def) && nodeId in IdSet(def)
    ensures r.Ok? ==> Rerunnable(repo.run.value, old(repo.states), DescendantsOf(def, {nodeId}))
    ensures r.Err? && (r.error.NonIdempotent? || r.error.UnknownState? || r.error.SuccessRun?) ==>
      RefusedFor(r.error, repo.run.value, old(repo.states), DescendantsOf(def, {nodeId}))
  {
    var selection := DescendantsIncludingSelf(def, nodeId);
    if selection.Refused? {
      WeakerConsistency(def, plain, repo.Contents());
      ghost var ids := InDefinitionOrder(def, DescendantsOf(def, {nodeId}));
      assert repo.states == ResetStates(repo.states, Elements(ids[..0]));
      return Err(if selection.error.NodeNotFound? then PrepareError.NodeNotFound else PrepareError.DagInvalid), 0;
    }
    OrderIsDistinct(def, DescendantsOf(def, {nodeId}));
    assert Elements(selection.ids) == DescendantsOf(def, {nodeId});
    var written, k := RerunSelected(repo, def, plain, selection.ids);
    if written.Err? { return Err(written.error), k; }
    return Ok(selection.ids), k;
  }

  lemma {:induction false} OrderIsDistinct(def: Definition, s: set<Id>)
    requires UniqueIds(def)
    ensures Distinct(InDefinitionOrder(def, s))
  {
    if def != [] {
      OrderIsDistinct(def[1..], s);
      var rest := InDefinitionOrder(def[1..], s);
      assert def[0].id !in IdSet(def[1..]);
      assert forall i :: 0 <= i < |rest| ==> rest[i] in Elements(rest);
    }
  }

  // ---- Dependency safety of a rerun ---------------------------------------

  /** No started node outside `done` depends on a node inside. */
  ghost predicate NothingStartedBelow(def: Definition, states: map<Id, Stored<NodeState>>, done: set<Id>) {
    forall n, d :: n in states && DependsOn(def, n, d) && d in done && n !in done ==> !HasStarted(states[n].value.status)
  }

  /** Resetting part of a safe network leaves it safe exactly when nothing started depends on that part. */
  lemma ResetSafeIff(def: Definition, states: map<Id, Stored<NodeState>>, done: set<Id>)
    requires DependencySafe(def, states) && done <= states.Keys
    ensures DependencySafe(def, ResetStates(states, done)) <==> NothingStartedBelow(def, states, done)
  {
    var after := ResetStates(states, done);
    if NothingStartedBelow(def, states, done) {
      forall n | n in after && n in IdSet(def) ensures NodeSafe(def, after, n) {
        assert NodeSafe(def, states, n);
        if n !in done && HasStarted(states[n].value.status) {
          forall d | d in Deps(def, n) ensures d in after && after[d].value.status.Success? {
            assert DependsOn(def, n, d);
          }
        }
      }
    } else {
      var n, d :| n in states && DependsOn(def, n, d) && d in done && n !in done && HasStarted(states[n].value.status);
      assert !NodeSafe(def, after, n);
    }
  }

  /** A rerun that stored all its resets keeps the network safe. */
  lemma CompletedRerunIsSafe(def: Definition, states: map<Id, Stored<NodeState>>, nodeId: Id)
    requires DependencySafe(def, states) && nodeId in IdSet(def) && DescendantsOf(def, {nodeId}) <= states.Keys
    ensures DependencySafe(def, ResetStates(states, DescendantsOf(def, {nodeId})))
  {
    DescendantsOfOne(def, nodeId);
    ResetSafeIff(def, states, DescendantsOf(def, {nodeId}));
  }

  // ---- The interrupted rerun ----------------------------------------------

  /** b depends on a; c stands alone. */
  function Example(): Definition {
    [Node("a", [], true), Node("b", ["a"], true), Node("c", [], true)]
  }

  /** a and b succeeded, c failed: the Run is FAILED and may be rerun from a. */
  function ExampleStore(): Store {
    EndedStore(map["a" := Success, "b" := Success, "c" := Failed], Stored(Run(RunFailed, true, false), 1))
  }

  lemma ExampleNetwork()
    ensures UniqueIds(Example()) && IdSet(Example()) == {"a", "b", "c"}
    ensures Index(Example(), "a") == 0 && Index(Example(), "b") == 1 && Index(Example(), "c") == 2
    ensures Deps(Example(), "a") == [] && Deps(Example(), "b") == ["a"] && Deps(Example(), "c") == []
  {
    var def := Example();
    assert def[0].id == "a" && def[1].id == "b" && def[2].id == "c";
    assert UniqueIds(def);
    IndexOf(def, 0);
    IndexOf(def, 1);
    IndexOf(def, 2);
    assert IdSet(def) == {"a", "b", "c"};
  }

  lemma ExampleIsSafe()
    ensures DependencySafe(Example(), ExampleStore().states)
  {
    ExampleNetwork();
    OneSuccessSuffices(ExampleStore().states);
  }

  lemma OneSuccessSuffices(states: map<Id, Stored<NodeState>>)
    requires "a" in states && states["a"].value.status.Success?
    requires IdSet(Example()) == {"a", "b", "c"}
    requires Deps(Example(), "a") == [] && Deps(Example(), "b") == ["a"] && Deps(Example(), "c") == []
    ensures DependencySafe(Example(), states)
  {
  }

  /** It is a store that invocations may leave: every node has one attempt, which explains its status. */
  lemma ExampleIsSettled()
    ensures ExampleStore() in Settled(Example(), true)
    ensures forall n :: n in ExampleStore().states ==> AttemptKey(n, 1) in ExampleStore().attempts
  {
    ExampleNetwork();
    EndedStoreIsConsistent(Example(), map["a" := Success, "b" := Success, "c" := Failed], ExampleStore().run);
  }

  lemma ExampleHalfReset()
    ensures !DependencySafe(Example(), ResetStates(ExampleStore().states, {"a"}))
  {
    ExampleNetwork();
    ExampleIsSafe();
    assert DependsOn(Example(), "b", "a");
    ResetSafeIff(Example(), ExampleStore().states, {"a"});
  }

  lemma ExampleMayRerun(all: set<Id>)
    requires all <= {"a", "b", "c"}
    ensures RerunRefusal(ExampleStore().run.value, ExampleStore().states, all).None?
  {
    assert ExampleStore().states.Keys == {"a", "b", "c"};
    forall n | n in ExampleStore().states
      ensures ExampleStore().states[n].value.idempotent && !ExampleStore().states[n].value.status.Unknown?
    {
    }
  }

  lemma FirstOf(def: Definition, s: set<Id>)
    requires def != [] && def[0].id in s
    ensures InDefinitionOrder(def, s) != [] && Elements(InDefinitionOrder(def, s)[..1]) == {def[0].id}
  {
    FirstInOrder(def, s);
    assert InDefinitionOrder(def, s)[..1] == [def[0].id];
  }

  /**
   * Dying after the reset of a leaves b SUCCESS over a WAITING: an interrupted rerun of a
   * safe, settled Run need not be safe.
   */
  lemma InterruptedRerunIsUnsafe()
    ensures ExampleStore() in Settled(Example(), true) && DependencySafe(Example(), ExampleStore().states)
    ensures RerunRefusal(ExampleStore().run.value, ExampleStore().states, DescendantsOf(Example(), {"a"})).None?
    ensures var ids := InDefinitionOrder(Example(), DescendantsOf(Example(), {"a"}));
      ids != [] && !DependencySafe(Example(), ResetStates(ExampleStore().states, Elements(ids[..1])))
  {
    ExampleNetwork();
    ExampleIsSafe();
    ExampleIsSettled();
    DescendantsOfOne(Example(), "a");
    FirstOf(Example(), DescendantsOf(Example(), {"a"}));
    ExampleHalfReset();
    ExampleMayRerun(DescendantsOf(Example(), {"a"}));
  }

  lemma FirstInOrder(def: Definition, s: set<Id>)
    requires def != [] && def[0].id in s
    ensures InDefinitionOrder(def, s) != [] && InDefinitionOrder(def, s)[0] == def[0].id
  {
  }
}
