/** Single store calls together with the reason they keep the invariant. */
module GuardedWrites {
  import opened Dag
  import opened Domain
  import opened StoreContract
  import opened Repository
  import opened Invariants
  import opened Writes
  import opened StoreWrites

  /** What an accepted write over `current` stores. */
  function NextRecord(current: Stored<NodeState>, value: NodeState): Stored<NodeState> {
    Stored(value.(revision := current.revision + 1), current.revision + 1)
  }

  lemma WindowsElsewhere(s: Store, t: Store, n: Id)
    requires OnlyNode(s, t, n) && NoWindow(s) && !Window(ViewOf(t, n))
    ensures NoWindow(t)
  {
    forall m | m in t.states ensures !Window(ViewOf(t, m)) {
      if m != n { assert ViewOf(t, m) == ViewOf(s, m); }
    }
  }

  lemma RunningHasNoWindow(def: Definition, s: Store, n: Id, plain: bool)
    requires s in Consistent(def, plain) && n in s.states && s.states[n].value.status.Running?
    ensures !Window(ViewOf(s, n))
  {
    assert ViewOf(s, n) in Sound(plain);
  }

  /** The consistent stores with no half-created attempt: what the gate leaves behind when it lets an invocation pass. */
  ghost function Settled(def: Definition, plain: bool): iset<Store> {
    iset s: Store | s in Consistent(def, plain) && NoWindow(s)
  }

  /** The stores a run of guarded writes from `s` may leave: nothing good about `s` is lost. */
  ghost function Preserving(def: Definition, plain: bool, s: Store): iset<Store> {
    iset t: Store | t in Consistent(def, plain) &&
      (NoWindow(s) ==> NoWindow(t)) && (DependencySafe(def, s.states) ==> DependencySafe(def, t.states))
  }

  lemma PreservingChain(def: Definition, plain: bool, s: Store, t: Store, u: Store)
    requires t in Preserving(def, plain, s) && u in Preserving(def, plain, t)
    ensures u in Preserving(def, plain, s)
  {
  }

  /** Writes the record of `n` over the copy the caller holds; `event` names a recorded resolution. */
  method PutState(repo: Repository, ghost def: Definition, ghost plain: bool, ghost plain': bool,
                  n: Id, current: Stored<NodeState>, value: NodeState, event: Option<Resolution>)
    returns (r: Result<Stored<NodeState>, Error>)
    requires repo.Contents() in Consistent(def, plain) && (plain' ==> plain)
    requires n in repo.states && repo.states[n] == current
    requires value.nodeId == n && value.idempotent == current.value.idempotent
    requires WithState(ViewOf(repo.Contents(), n), value) in Sound(plain')
    requires !Window(WithState(ViewOf(repo.Contents(), n), value))
    modifies repo`states
    ensures r.Ok? ==> r.value == NextRecord(current, value) && repo.states == old(repo.states)[n := r.value]
    ensures r.Err? ==> repo.states == old(repo.states)
    ensures r.Err? && !r.error.ProcessDied? ==>
      Upserted(old(repo.Contents()), NodeStateWrite(value, Some(current.revision), event)) == Err(r.error)
    ensures repo.Contents() in Consistent(def, if r.Ok? then plain' else plain)
    ensures old(NoWindow(repo.Contents())) ==> NoWindow(repo.Contents())
    ensures r.Ok? ==> OnlyNode(old(repo.Contents()), repo.Contents(), n)
  {
    ghost var s := repo.Contents();
    var write := NodeStateWrite(value, Some(current.revision), event);
    r := repo.UpsertNodeState(write);
    if r.Ok? {
      StateWritten(def, s, repo.Contents(), write, plain, plain');
      if NoWindow(s) { WindowsElsewhere(s, repo.Contents(), n); }
    }
  }

  /** The attempt carries this terminal status and result code. */
  predicate EndedAs(s: Store, n: Id, no: nat, status: Status, resultCode: string) {
    var key := AttemptKey(n, no);
    key in s.attempts && s.attempts[key].value.status == status && s.attempts[key].value.resultCode == resultCode
  }

  /** Writes the attempt a RUNNING node is working on. */
  method PutAttempt(repo: Repository, ghost def: Definition, ghost plain: bool,
                    n: Id, attempt: Stored<Attempt>, change: AttemptChange)
    returns (r: Result<Stored<Attempt>, Error>)
    requires repo.Contents() in Consistent(def, plain) && NoWindow(repo.Contents())
    requires n in repo.states && repo.states[n].value.status.Running?
    requires repo.states[n].value.activeAttemptId == Some(attempt.value.attemptId)
    requires change.Finalize? ==> TerminalAttempt(change.status)
    modifies repo`attempts
    ensures repo.Contents() in Consistent(def, plain) && NoWindow(repo.Contents())
    ensures r.Ok? ==> AttemptById(repo.Contents(), attempt.value.attemptId) == Some(r.value) &&
                      r.value.value.attemptId == attempt.value.attemptId
    ensures r.Ok? && change.Finalize? ==>
      EndedAs(repo.Contents(), n, repo.states[n].value.latestAttemptNo, change.status, change.resultCode)
    ensures r.Ok? && old(AttemptById(repo.Contents(), attempt.value.attemptId)) == Some(attempt) ==>
      ChangedAttempt(attempt.value, change) == Ok(r.value.value)
    ensures r.Ok? ==> OnlyNode(old(repo.Contents()), repo.Contents(), n)
    ensures r.Ok? ==>
      repo.attempts == old(repo.attempts)[AttemptKey(n, repo.states[n].value.latestAttemptNo) := r.value]
    ensures r.Err? ==> repo.attempts == old(repo.attempts)
    ensures repo.attempts.Keys == old(repo.attempts.Keys)
  {
    ghost var s := repo.Contents();
    r := repo.ChangeAttempt(attempt.value.attemptId, attempt.revision, change);
    if r.Ok? {
      ActiveIsLatest(def, s, n, plain);
      AttemptWritten(def, s, repo.Contents(), n, attempt.revision, change, plain);
      RunningHasNoWindow(def, repo.Contents(), n, plain);
      WindowsElsewhere(s, repo.Contents(), n);
    }
  }
}
