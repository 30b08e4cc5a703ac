/** What a new invocation does to the node states before it visits anything. */
module ResumeStates {
  import opened Dag
  import opened Domain
  import opened StoreContract
  import opened Repository
  import opened Lease
  import opened Invariants
  import opened Writes
  import opened StoreWrites
  import opened GuardedWrites
  import opened Executor
  import opened Adjudication
  import opened RetryBrake
  import opened Choices
  import opened Rerun

  predicate Retryable(mode: Mode, state: NodeState) {
    mode.Resume? && (state.status.Failed? || state.status.Cancelled?) && state.idempotent
  }

  /** Some failure code ends the history of `n` three times or more. */
  ghost predicate AtLimit(attempts: map<AttemptKey, Stored<Attempt>>, n: Id, latest: nat) {
    exists code :: code != "" && Streak(HistoryOf(attempts, n), latest, code) >= 3
  }

  /** Resume reopens BLOCKED nodes, and idempotent failures that are not at their limit. */
  ghost predicate Reopens(mode: Mode, attempts: map<AttemptKey, Stored<Attempt>>, state: NodeState) {
    mode.Resume? &&
    (state.status.Blocked? || (Retryable(mode, state) && !AtLimit(attempts, state.nodeId, state.latestAttemptNo)))
  }

  /** UNKNOWN, unrepeatable and braked nodes take their descendants out of the invocation. */
  ghost predicate IsRoot(mode: Mode, attempts: map<AttemptKey, Stored<Attempt>>, state: NodeState) {
    || state.status.Unknown?
    || ((state.status.Failed? || state.status.Cancelled?) && !state.idempotent)
    || (Retryable(mode, state) && AtLimit(attempts, state.nodeId, state.latestAttemptNo))
  }

  ghost function ResumedStatus(mode: Mode, attempts: map<AttemptKey, Stored<Attempt>>, state: NodeState): Status {
    if Reopens(mode, attempts, state) then Waiting else state.status
  }

  /**
   * What a resume makes of a node: whatever blocks its dependents is either reopened or taken
   * out together with all below it, and nothing else is touched. Without a resume nothing is
   * reopened.
   */
  lemma ReopenedOrRoot(mode: Mode, attempts: map<AttemptKey, Stored<Attempt>>, state: NodeState)
    ensures mode.Resume? ==>
      (BlocksDependents(state.status) <==> (Reopens(mode, attempts, state) <==> !IsRoot(mode, attempts, state)))
    ensures !mode.Resume? ==> !Reopens(mode, attempts, state)
    ensures IsRoot(mode, attempts, state) <==>
      || state.status.Unknown?
      || ((state.status.Failed? || state.status.Cancelled?) &&
          (!state.idempotent || (mode.Resume? && AtLimit(attempts, state.nodeId, state.latestAttemptNo))))
  {
  }

  /** `after` is the prepared record of `before`. */
  ghost predicate PreparedNode(mode: Mode, attempts: map<AttemptKey, Stored<Attempt>>, before: NodeState, after: NodeState) {
    after == (if Reopens(mode, attempts, before) then ResetState(before) else before).(revision := after.revision)
  }

  lemma AttemptsContiguous(def: Definition, plain: bool, s: Store, n: Id)
    requires s in Consistent(def, plain) && n in s.states
    ensures Contiguous(s.attempts, n, s.states[n].value.latestAttemptNo)
    ensures s.states[n].value.nodeId == n && n in IdSet(def)
  {
    assert ViewOf(s, n) in Sound(plain);
    assert IndexedState(s, n) && MatchesNode(def, s.states, n);
    forall no: nat | 1 <= no <= s.states[n].value.latestAttemptNo ensures AttemptKey(n, no) in s.attempts {
      assert no in ViewOf(s, n).history;
    }
  }

  lemma ReopenSound(def: Definition, plain: bool, s: Store, n: Id, mode: Mode)
    requires s in Consistent(def, plain) && NoWindow(s) && n in s.states
    requires Reopens(mode, s.attempts, s.states[n].value)
    ensures var w' := WithState(ViewOf(s, n), ResetState(s.states[n].value)); w' in Sound(plain) && !Window(w')
  {
    var w := ViewOf(s, n);
    assert IndexedState(s, n);
    assert w in Sound(plain) && !Window(w);
    if !w.state.status.Blocked? {
      forall code | code != "" ensures Streak(w.history, Latest(w), code) <= 2 { }
    }
    Reopened(w, ResetState(w.state), plain);
  }

  /** Stores the node back as WAITING. */
  method ReopenNode(repo: Repository, monitor: LeaseMonitor, ghost def: Definition, ghost plain: bool,
                    n: Id, state: Stored<NodeState>, ghost mode: Mode)
    returns (r: Result<Stored<NodeState>, Failure>)
    requires repo.Contents() in Consistent(def, plain) && NoWindow(repo.Contents())
    requires n in repo.states && repo.states[n] == state && state.value.nodeId == n && n in IdSet(def)
    requires Reopens(mode, repo.attempts, state.value)
    modifies repo`states, monitor
    ensures repo.Contents() in Preserving(def, plain, old(repo.Contents()))
    ensures NeverRegained(old(monitor.state), monitor.state)
    ensures r.Ok? ==> r.value == NextRecord(state, ResetState(state.value))
    ensures r.Ok? ==> repo.states == old(repo.states)[n := r.value]
    ensures r.Err? ==> repo.states == old(repo.states)
  {
    var confirmed := ConfirmOrdinaryWrite(monitor);
    if !confirmed { return Err(LeaseInterrupted); }
    ReopenSound(def, plain, repo.Contents(), n, mode);
    var value := ResetState(state.value);
    var written := PutState(repo, def, plain, plain, n, state, value, None);
    if written.Err? { return Err(StoreFailed(written.error)); }
    if DependencySafe(def, old(repo.states)) { SafeWrite(def, old(repo.states), n, written.value); }
    return Ok(written.value);
  }

  /** Records a retry brake: only the reason in the record changes, which is not part of this model. */
  method RecordBrake(repo: Repository, monitor: LeaseMonitor, ghost def: Definition, ghost plain: bool,
                     n: Id, state: Stored<NodeState>)
    returns (r: Result<Stored<NodeState>, Failure>)
    requires repo.Contents() in Consistent(def, plain) && NoWindow(repo.Contents())
    requires n in repo.states && repo.states[n] == state && state.value.nodeId == n && n in IdSet(def)
    requires !state.value.status.Success?
    modifies repo`states, monitor
    ensures repo.Contents() in Preserving(def, plain, old(repo.Contents()))
    ensures NeverRegained(old(monitor.state), monitor.state)
    ensures r.Ok? ==> r.value == NextRecord(state, state.value) && repo.states == old(repo.states)[n := r.value]
    ensures r.Err? ==> repo.states == old(repo.states)
  {
    var confirmed := ConfirmOrdinaryWrite(monitor);
    if !confirmed { return Err(LeaseInterrupted); }
    assert ViewOf(repo.Contents(), n) in Sound(plain) && !Window(ViewOf(repo.Contents(), n));
    Rewritten(ViewOf(repo.Contents(), n), plain);
    var written := PutState(repo, def, plain, plain, n, state, state.value, None);
    if written.Err? { return Err(StoreFailed(written.error)); }
    if DependencySafe(def, old(repo.states)) {
      assert NodeSafe(def, old(repo.states), n);
      SafeWrite(def, old(repo.states), n, written.value);
    }
    return Ok(written.value);
  }

  lemma BrakeIsLimit(attempts: map<AttemptKey, Stored<Attempt>>, n: Id, latest: nat, brake: Option<Brake>)
    requires brake.None? <==> forall code :: code != "" ==> Streak(HistoryOf(attempts, n), latest, code) <= 2
    ensures brake.Some? <==> AtLimit(attempts, n, latest)
  {
    var h := HistoryOf(attempts, n);
    if brake.Some? {
      var code :| code != "" && Streak(h, latest, code) > 2;
      assert Streak(h, latest, code) >= 3;
    } else {
      forall code | code != "" ensures !(Streak(h, latest, code) >= 3) { }
    }
  }

  /** One node; the result says whether it takes its descendants out of the invocation. */
  method PrepareNode(repo: Repository, monitor: LeaseMonitor, ghost def: Definition, ghost plain: bool, mode: Mode,
                     n: Id, state: Stored<NodeState>)
    returns (r: Result<bool, Failure>)
    requires repo.Contents() in Consistent(def, plain) && NoWindow(repo.Contents())
    requires n in repo.states && repo.states[n] == state
    modifies repo`states, monitor
    ensures repo.Contents() in Preserving(def, plain, old(repo.Contents()))
    ensures NeverRegained(old(monitor.state), monitor.state)
    ensures r.Ok? ==> repo.states.Keys == old(repo.states.Keys) && repo.states == old(repo.states)[n := repo.states[n]]
    ensures r.Ok? ==> PreparedNode(mode, repo.attempts, state.value, repo.states[n].value)
    ensures r.Ok? ==> (r.value <==> IsRoot(mode, repo.attempts, state.value))
    ensures r.Err? ==> repo.states == old(repo.states)
  {
    AttemptsContiguous(def, plain, repo.Contents(), n);
    var status := state.value.status;
    var root := status.Unknown? || ((status.Failed? || status.Cancelled?) && !state.value.idempotent);
    if Retryable(mode, state.value) {
      var brake := RetryBrakeForNode(repo.attempts, n, state.value.latestAttemptNo);
      BrakeIsLimit(repo.attempts, n, state.value.latestAttemptNo, brake);
      if brake.Some? {
        var recorded := RecordBrake(repo, monitor, def, plain, n, state);
        if recorded.Err? { return Err(recorded.error); }
        return Ok(true);
      }
    }
    if (mode.Resume? && status.Blocked?) || Retryable(mode, state.value) {
      var written := ReopenNode(repo, monitor, def, plain, n, state, mode);
      if written.Err? { return Err(written.error); }
    }
    return Ok(root);
  }

  /** The first `i` nodes of the definition have been prepared, the others are untouched. */
  ghost predicate PreparedUpTo(def: Definition, mode: Mode, attempts: map<AttemptKey, Stored<Attempt>>,
                               before: map<Id, Stored<NodeState>>, after: map<Id, Stored<NodeState>>, i: nat)
    requires i <= |def|
  {
    && after.Keys == before.Keys
    && (forall k {:trigger def[k]} :: 0 <= k < i && def[k].id in before ==>
          PreparedNode(mode, attempts, before[def[k].id].value, after[def[k].id].value))
    && (forall k {:trigger def[k]} :: i <= k < |def| && def[k].id in before ==> after[def[k].id] == before[def[k].id])
  }

  ghost function RootsUpTo(def: Definition, mode: Mode, attempts: map<AttemptKey, Stored<Attempt>>,
                           states: map<Id, Stored<NodeState>>, i: nat): set<Id>
    requires i <= |def|
  {
    set k | 0 <= k < i && def[k].id in states && IsRoot(mode, attempts, states[def[k].id].value) :: def[k].id
  }

  /** The nodes an invocation leaves alone together with everything below them. */
  ghost function RootsOf(def: Definition, mode: Mode, s: Store): set<Id> {
    RootsUpTo(def, mode, s.attempts, s.states, |def|)
  }

  /** Every node as the invocation finds it once resume has reopened what it may. */
  ghost predicate ResumedAll(def: Definition, mode: Mode, s: Store, after: map<Id, Stored<NodeState>>) {
    PreparedUpTo(def, mode, s.attempts, s.states, after, |def|)
  }

  /** The state of the loop before node `i`. */
  ghost predicate Preparing(def: Definition, plain: bool, mode: Mode, s: Store, t: Store, roots: set<Id>, i: nat)
    requires i <= |def|
  {
    && PreparedUpTo(def, mode, s.attempts, s.states, t.states, i) && t.attempts == s.attempts
    && roots == RootsUpTo(def, mode, s.attempts, s.states, i)
    && t in Preserving(def, plain, s)
  }

  method PrepareNext(repo: Repository, monitor: LeaseMonitor, def: Definition, ghost plain: bool, mode: Mode,
                     ghost s: Store, roots: set<Id>, i: nat)
    returns (r: Result<set<Id>, Failure>)
    requires UniqueIds(def) && i < |def| && s.states.Keys == IdSet(def) && NoWindow(s)
    requires Preparing(def, plain, mode, s, repo.Contents(), roots, i)
    modifies repo`states, monitor
    ensures r.Ok? ==> Preparing(def, plain, mode, s, repo.Contents(), r.value, i + 1)
    ensures repo.Contents() in Preserving(def, plain, s) && repo.states.Keys == s.states.Keys
    ensures NeverRegained(old(monitor.state), monitor.state)
  {
    IndexOf(def, i);
    ghost var t := repo.Contents();
    var root := PrepareNode(repo, monitor, def, plain, mode, def[i].id, repo.states[def[i].id]);
    PreservingChain(def, plain, s, t, repo.Contents());
    if root.Err? { return Err(root.error); }
    PreparedOneMore(def, mode, s.attempts, s.states, t.states, repo.states, i);
    return Ok(if root.value then roots + {def[i].id} else roots);
  }

  /** Prepares all nodes in definition order and collects the roots of exclusion. */
  method PrepareResumeStates(repo: Repository, monitor: LeaseMonitor, def: Definition, ghost plain: bool, mode: Mode)
    returns (r: Result<set<Id>, Failure>)
    requires UniqueIds(def) && repo.states.Keys == IdSet(def)
    requires repo.Contents() in Consistent(def, plain) && NoWindow(repo.Contents())
    modifies repo`states, monitor
    ensures repo.Contents() in Preserving(def, plain, old(repo.Contents())) && repo.states.Keys == old(repo.states.Keys)
    ensures NeverRegained(old(monitor.state), monitor.state)
    ensures r.Ok? ==> r.value == RootsOf(def, mode, old(repo.Contents()))
    ensures r.Ok? ==> ResumedAll(def, mode, old(repo.Contents()), repo.states)
  {
    ghost var s := repo.Contents();
    var roots: set<Id> := {};
    var i := 0;
    assert Preparing(def, plain, mode, s, s, {}, 0);
    while i < |def|
      invariant i <= |def| && Preparing(def, plain, mode, s, repo.Contents(), roots, i)
      invariant NeverRegained(old(monitor.state), monitor.state)
    {
      var extended := PrepareNext(repo, monitor, def, plain, mode, s, roots, i);
      if extended.Err? { return Err(extended.error); }
      roots, i := extended.value, i + 1;
    }
    return Ok(roots);
  }

  lemma PreparedOneMore(def: Definition, mode: Mode, attempts: map<AttemptKey, Stored<Attempt>>,
                        before: map<Id, Stored<NodeState>>, mid: map<Id, Stored<NodeState>>,
                        after: map<Id, Stored<NodeState>>, i: nat)
    requires UniqueIds(def) && i < |def| && PreparedUpTo(def, mode, attempts, before, mid, i)
    requires def[i].id in before && after.Keys == before.Keys && after == mid[def[i].id := after[def[i].id]]
    requires PreparedNode(mode, attempts, mid[def[i].id].value, after[def[i].id].value)
    ensures PreparedUpTo(def, mode, attempts, before, after, i + 1)
    ensures RootsUpTo(def, mode, attempts, before, i + 1) ==
      RootsUpTo(def, mode, attempts, before, i) + if IsRoot(mode, attempts, mid[def[i].id].value) then {def[i].id} else {}
  {
    assert mid[def[i].id] == before[def[i].id];
  }
}
