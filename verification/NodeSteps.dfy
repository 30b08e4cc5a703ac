/** The store calls of one scheduler visit: blocking a node, honouring a stop, starting and running an attempt. */
module NodeSteps {
  import opened Dag
  import opened Domain
  import opened StoreContract
  import opened Repository
  import opened Lease
  import opened Invariants
  import opened Writes
  import opened StoreWrites
  import opened GuardedWrites
  import opened Executor
  import opened Adjudication

  /** What a node's turn comes to: a rejected input or output path, or a finished subprocess. */
  datatype Work = PathRejected(code: string) | Ran(baseline: Option<string>, run: JobRun)

  /** How the attempt ends, and what it leaves of the node. */
  function WorkTerminal(work: Work): Terminal {
    match work
    case PathRejected(code) => Terminal(Failed, code, Failed)
    case Ran(_, run) => Decide(run)
  }

  function WorkStatus(work: Work): Status {
    WorkTerminal(work).stateStatus
  }

  /** A rejected path fails the attempt with its own code; a subprocess is judged by its evidence. */
  predicate Justified(work: Work, t: Terminal) {
    match work
    case PathRejected(code) => t.attemptStatus.Failed? && t.resultCode == code && t.stateStatus.Failed?
    case Ran(_, run) => Evidenced(run, t)
  }

  /** How an attempt ends is the one way its work justifies. */
  lemma WorkIsJustified(work: Work)
    ensures Justified(work, WorkTerminal(work)) && IsTerminal(WorkTerminal(work))
    ensures forall t :: Justified(work, t) ==> t == WorkTerminal(work)
  {
    if work.Ran? { DecideIsEvidenceBased(work.run); }
  }

  /** The numbered attempt is stored, and it and the node's status are what the work justifies. */
  predicate EndedJustly(attempts: map<AttemptKey, Stored<Attempt>>, key: AttemptKey, status: Status, work: Work) {
    key in attempts && Justified(work, Terminal(attempts[key].value.status, attempts[key].value.resultCode, status))
  }

  ghost function JustEnds(key: AttemptKey, work: Work): iset<(map<AttemptKey, Stored<Attempt>>, Status)> {
    iset end: (map<AttemptKey, Stored<Attempt>>, Status) | EndedJustly(end.0, key, end.1, work)
  }

  lemma EndsJustly(s: Store, n: Id, no: nat, work: Work)
    requires EndedAs(s, n, no, WorkTerminal(work).attemptStatus, WorkTerminal(work).resultCode)
    ensures (s.attempts, WorkStatus(work)) in JustEnds(AttemptKey(n, no), work)
  {
    WorkIsJustified(work);
  }

  // ---- Run aggregate ------------------------------------------------------

  method ConfirmAggregateWrite(monitor: LeaseMonitor) returns (confirmed: bool)
    modifies monitor
    ensures NeverRegained(old(monitor.state), monitor.state)
    ensures confirmed ==> monitor.CanPersistResults()
    ensures confirmed ==> monitor.state == old(monitor.state)
  {
    if !monitor.CanPersistResults() { return false; }
    if monitor.RequiresInterruptedFinalization() { return true; }
    confirmed := ConfirmOrdinaryWrite(monitor);
  }

  /** Stores the aggregate of the states the scheduler knows. */
  method UpdateAggregate(repo: Repository, monitor: LeaseMonitor, ghost def: Definition, ghost plain: bool,
                         run: Stored<Run>, states: map<Id, Stored<NodeState>>)
    returns (r: Result<Stored<Run>, Failure>)
    requires repo.Contents() in Consistent(def, plain) && NoWindow(repo.Contents()) && repo.run == run
    modifies repo`run, monitor
    ensures repo.Contents() in Consistent(def, plain) && NoWindow(repo.Contents())
    ensures NeverRegained(old(monitor.state), monitor.state)
    ensures r.Ok? ==> repo.run == r.value && monitor.CanPersistResults()
    ensures r.Ok? ==> r.value.value == run.value.(status := RunAggregate(Statuses(states), run.value.started))
    ensures r.Ok? ==> r.value.value.status in Telling(states, run.value.started)
  {
    var confirmed := ConfirmAggregateWrite(monitor);
    if !confirmed { return Err(LeaseInterrupted); }
    var reached := ControlPlane(monitor);
    if !reached { return Err(LeaseInterrupted); }
    ghost var s := repo.Contents();
    var status := RunAggregate(Statuses(states), run.value.started);
    AggregateTells(states, status, run.value.started);
    var updated := repo.UpdateRunAggregate(run.revision, status, run.value.started);
    RecordsUntouched(def, s, repo.Contents(), plain);
    if updated.Err? { return Err(StoreFailed(updated.error)); }
    return Ok(updated.value);
  }

  // ---- Blocking -----------------------------------------------------------

  function BlockedState(state: NodeState, failed: seq<Id>): NodeState {
    state.(status := Blocked, blockedBy := failed)
  }

  lemma BlockSound(def: Definition, plain: bool, s: Store, n: Id, failed: seq<Id>)
    requires s in Consistent(def, plain) && NoWindow(s) && n in s.states && (plain ==> failed != [])
    requires s.states[n].value.status.Waiting? || s.states[n].value.status.Blocked?
    ensures s.states[n].value.nodeId == n && n in IdSet(def)
    ensures var w' := WithState(ViewOf(s, n), BlockedState(s.states[n].value, failed)); w' in Sound(plain) && !Window(w')
  {
    var w := ViewOf(s, n);
    assert IndexedState(s, n) && MatchesNode(def, s.states, n);
    assert w in Sound(plain) && !Window(w);
    BecomesBlocked(w, BlockedState(w.state, failed), plain);
  }

  method BlockNode(repo: Repository, monitor: LeaseMonitor, ghost def: Definition, ghost plain: bool,
                   n: Id, state: Stored<NodeState>, failed: seq<Id>)
    returns (r: Result<Stored<NodeState>, Failure>)
    requires repo.Contents() in Consistent(def, plain) && NoWindow(repo.Contents())
    requires n in repo.states && repo.states[n] == state && state.value.nodeId == n && (plain ==> failed != [])
    modifies repo`states, monitor
    ensures repo.Contents() in Preserving(def, plain, old(repo.Contents()))
    ensures NeverRegained(old(monitor.state), monitor.state)
    ensures r.Ok? ==> r.value == NextRecord(state, BlockedState(state.value, failed))
    ensures r.Ok? ==> r.value.value.status.Blocked? && r.value.value.blockedBy == failed
    ensures r.Ok? ==> repo.states == old(repo.states)[n := r.value] && monitor.state.Held?
    ensures r.Err? ==> repo.states == old(repo.states)
  {
    var confirmed := ConfirmOrdinaryWrite(monitor);
    if !confirmed { return Err(LeaseInterrupted); }
    var value := BlockedState(state.value, failed);
    ghost var s := repo.Contents();
    var written := repo.UpsertNodeState(Overwrite(state, value));
    if written.Err? { return Err(StoreFailed(written.error)); }
    BlockSound(def, plain, s, n, failed);
    StateWritten(def, s, repo.Contents(), Overwrite(state, value), plain, plain);
    WindowsElsewhere(s, repo.Contents(), n);
    if DependencySafe(def, old(repo.states)) { SafeWrite(def, old(repo.states), n, written.value); }
    return Ok(written.value);
  }

  // ---- Stop requests ------------------------------------------------------

  /**
   * What an invocation does and sees. AttemptClosed is the moment after the aggregate that
   * follows an attempt, when the invocation asks whether its lease was lost meanwhile.
   */
  datatype Event =
    | HoldRead(held: bool)
    | LeaseSeen(held: bool)
    | AttemptMade(key: AttemptKey)
    | AttemptClosed(held: bool)
    | NodeBlocked(nodeId: Id)

  /** Reads the stop request, accepts a fresh one, and re-reads when somebody else was faster. */
  method CheckHold(repo: Repository, monitor: LeaseMonitor) returns (r: Result<bool, Failure>, ghost events: seq<Event>)
    modifies repo`cancelRequest, monitor
    ensures NeverRegained(old(monitor.state), monitor.state)
    ensures forall e :: e in events ==> e.HoldRead?
    ensures r.Ok? ==> events != [] && events[|events| - 1] == HoldRead(r.value)
    ensures r.Ok? ==> r.value == IsCancelHold(repo.cancelRequest)
  {
    events := [];
    var reached := ControlPlane(monitor);
    if !reached { return Err(LeaseInterrupted), events; }
    var request := repo.GetCancelRequest();
    events := [HoldRead(IsCancelHold(request))];
    if !IsCancelHold(request) { return Ok(false), events; }
    if !request.value.value.Requested? { return Ok(true), events; }
    reached := ControlPlane(monitor);
    if !reached { return Err(LeaseInterrupted), events; }
    var accepted := repo.UpdateCancelRequest(request.value.revision, Accepted);
    if accepted.Ok? {
      events := events + [HoldRead(true)];
      return Ok(true), events;
    }
    if !accepted.error.RevisionConflict? { return Err(StoreFailed(accepted.error)), events; }
    reached := ControlPlane(monitor);
    if !reached { return Err(LeaseInterrupted), events; }
    var effective := repo.GetCancelRequest();
    events := events + [HoldRead(IsCancelHold(effective))];
    return Ok(IsCancelHold(effective)), events;
  }

  // ---- One attempt --------------------------------------------------------

  function StartedState(state: NodeState, attempt: Attempt): NodeState {
    state.(status := Running, latestAttemptNo := attempt.attemptNo, activeAttemptId := Some(attempt.attemptId),
           blockedBy := [])
  }

  /** What creating the attempt of a WAITING node leaves. */
  lemma AttemptOpened(def: Definition, plain: bool, s: Store, t: Store, n: Id, attemptId: Id, invocationId: Id)
    requires s in Consistent(def, plain) && NoWindow(s) && n in s.states && s.states[n].value.status.Waiting?
    requires AttemptCreated(s, s.states[n], attemptId, invocationId) == Ok(t)
    ensures t in Consistent(def, plain) && t.states == s.states && OnlyNode(s, t, n)
    ensures NextKey(s.states[n].value) in t.attempts && t.attempts.Keys == s.attempts.Keys + {NextKey(s.states[n].value)}
    ensures t.attempts[NextKey(s.states[n].value)] == Stored(NewAttempt(s.states[n], attemptId, invocationId), 1)
    ensures AttemptById(t, attemptId) == Some(t.attempts[NextKey(s.states[n].value)])
    ensures s.states[n].value.nodeId == n && n in IdSet(def)
    ensures Window(ViewOf(t, n))
  {
    assert !Window(ViewOf(s, n));
    assert IndexedState(s, n) && MatchesNode(def, s.states, n);
    AttemptInserted(def, s, t, n, attemptId, invocationId, plain);
  }

  lemma StartSound(def: Definition, plain: bool, s: Store, n: Id, attempt: Stored<Attempt>)
    requires s in Consistent(def, plain) && n in s.states && Window(ViewOf(s, n))
    requires NextKey(s.states[n].value) in s.attempts && s.attempts[NextKey(s.states[n].value)] == attempt
    requires attempt.value.attemptNo == s.states[n].value.latestAttemptNo + 1 && s.states[n].value.nodeId == n
    ensures var w' := WithState(ViewOf(s, n), StartedState(s.states[n].value, attempt.value));
      w' in Sound(plain) && !Window(w')
  {
    Started(ViewOf(s, n), StartedState(s.states[n].value, attempt.value), plain);
  }

  /** `t` follows `s` by the start of one attempt of node `n`. */
  ghost predicate AttemptStarted(s: Store, t: Store, n: Id, attempt: Stored<Attempt>, state: Stored<NodeState>)
    requires n in s.states
  {
    && Prepared(t, n, attempt, state) && attempt.value.attemptNo == s.states[n].value.latestAttemptNo + 1
    && attempt.value.status.Running? && !attempt.value.executionStarted && state.value.blockedBy == []
    && state == NextRecord(s.states[n], StartedState(s.states[n].value, attempt.value))
    && t.states == s.states[n := state]
  }

  ghost function AttemptStarts(s: Store, n: Id): iset<(Store, Stored<Attempt>, Stored<NodeState>)>
    requires n in s.states
  {
    iset t: (Store, Stored<Attempt>, Stored<NodeState>) | AttemptStarted(s, t.0, n, t.1, t.2)
  }

  /** A started attempt may be run. */
  lemma StartedIsPrepared(s: Store, t: Store, n: Id, attempt: Stored<Attempt>, state: Stored<NodeState>)
    requires n in s.states && (t, attempt, state) in AttemptStarts(s, n)
    ensures Prepared(t, n, attempt, state) && t.states == s.states[n := state] && state.value.status.Running?
    ensures state.value.latestAttemptNo == s.states[n].value.latestAttemptNo + 1
  {
  }

  /** The stores in which node `n` of `s` has its next attempt, which may be taken up. */
  ghost function Opened(def: Definition, plain: bool, s: Store, n: Id, attempt: Stored<Attempt>): iset<Store>
    requires n in s.states
  {
    iset t: Store |
      && t in Consistent(def, plain) && t.states == s.states && OnlyNode(s, t, n) && n in t.states
      && t.attempts.Keys == s.attempts.Keys + {NextKey(s.states[n].value)}
      && AttemptById(t, attempt.value.attemptId) == Some(attempt)
      && var w' := WithState(ViewOf(t, n), StartedState(s.states[n].value, attempt.value)); w' in Sound(plain) && !Window(w')
  }

  /** Creates the next attempt of a WAITING node. */
  method OpenAttempt(repo: Repository, ghost def: Definition, ghost plain: bool,
                     n: Id, state: Stored<NodeState>, attemptId: Id, invocationId: Id)
    returns (r: Result<Stored<Attempt>, Error>)
    requires repo.Contents() in Consistent(def, plain) && NoWindow(repo.Contents())
    requires n in repo.states && repo.states[n] == state && state.value.status.Waiting?
    modifies repo`attempts, repo`attemptIds
    ensures r.Ok? ==> repo.Contents() in Opened(def, plain, old(repo.Contents()), n, r.value)
    ensures r.Ok? ==> r.value == Stored(NewAttempt(state, attemptId, invocationId), 1) && state.value.nodeId == n
    ensures r.Err? ==> repo.Contents() == old(repo.Contents())
  {
    ghost var s := repo.Contents();
    r := repo.CreateAttempt(state, attemptId, invocationId);
    if r.Ok? {
      AttemptOpened(def, plain, s, repo.Contents(), n, attemptId, invocationId);
      StartSound(def, plain, repo.Contents(), n, r.value);
    }
  }

  /** Creates the attempt, then writes RUNNING. Dying in between leaves the window that the gate refuses. */
  method StartNode(repo: Repository, ghost def: Definition, ghost plain: bool,
                   n: Id, state: Stored<NodeState>, attemptId: Id, invocationId: Id)
    returns (r: Result<(Stored<Attempt>, Stored<NodeState>), Failure>)
    requires repo.Contents() in Consistent(def, plain) && NoWindow(repo.Contents())
    requires n in repo.states && repo.states[n] == state && state.value.status.Waiting?
    modifies repo`states, repo`attempts, repo`attemptIds
    ensures repo.Contents() in Consistent(def, plain)
    ensures r.Ok? ==> NoWindow(repo.Contents())
    ensures r.Ok? ==> (repo.Contents(), r.value.0, r.value.1) in AttemptStarts(old(repo.Contents()), n)
    ensures r.Ok? ==> r.value.0.value.invocationId == invocationId
    ensures r.Ok? ==> repo.attempts.Keys == old(repo.attempts.Keys) + {NextKey(state.value)}
    ensures r.Err? ==> repo.states == old(repo.states)
    ensures r.Err? ==> repo.attempts.Keys <= old(repo.attempts.Keys) + {NextKey(state.value)}
  {
    ghost var s := repo.Contents();
    var created := OpenAttempt(repo, def, plain, n, state, attemptId, invocationId);
    if created.Err? { return Err(StoreFailed(created.error)); }
    ghost var t := repo.Contents();
    var value := StartedState(state.value, created.value.value);
    var written := PutState(repo, def, plain, plain, n, state, value, None);
    if written.Err? { return Err(StoreFailed(written.error)); }
    RunningHasNoWindow(def, repo.Contents(), n, plain);
    WindowGone(s, t, repo.Contents(), n);
    return Ok((created.value, written.value));
  }

  lemma WindowGone(s: Store, t: Store, u: Store, n: Id)
    requires NoWindow(s) && OnlyNode(s, t, n) && OnlyNode(t, u, n) && !Window(ViewOf(u, n))
    ensures NoWindow(u)
  {
    forall m | m in u.states ensures !Window(ViewOf(u, m)) {
      if m != n { assert ViewOf(u, m) == ViewOf(t, m) == ViewOf(s, m); }
    }
  }

  /** Ends the attempt of a node whose input or output paths were rejected: it never executed. */
  method FinalizeIoPathFailure(repo: Repository, monitor: LeaseMonitor, ghost def: Definition, ghost plain: bool,
                               n: Id, attempt: Stored<Attempt>, nodeState: Stored<NodeState>, code: string)
    returns (r: Result<Stored<NodeState>, Failure>)
    requires repo.Contents() in Consistent(def, plain) && NoWindow(repo.Contents())
    requires Prepared(repo.Contents(), n, attempt, nodeState)
    modifies repo`states, repo`attempts, monitor
    ensures repo.Contents() in Consistent(def, plain) && NoWindow(repo.Contents())
    ensures NeverRegained(old(monitor.state), monitor.state)
    ensures repo.attempts.Keys == old(repo.attempts.Keys)
    ensures r.Ok? ==> r.value == NextRecord(nodeState, EndedState(nodeState.value, Failed))
    ensures r.Ok? ==> repo.states == old(repo.states)[n := r.value]
    ensures r.Ok? ==> EndedAs(repo.Contents(), n, nodeState.value.latestAttemptNo, Failed, code)
    ensures r.Ok? ==> StoredAttempt(repo.Contents(), EndedAttempt(attempt.value, Terminal(Failed, code, Failed)))
    ensures r.Err? ==> repo.states == old(repo.states)
    ensures r.Err? ==> RunningOrEnded(repo.Contents(), n, nodeState.value.latestAttemptNo, attempt.value.invocationId,
                                      Terminal(Failed, code, Failed))
  {
    PreparedRuns(def, plain, repo.Contents(), n, attempt, nodeState, Terminal(Failed, code, Failed));
    var authorized := AuthorizeResults(monitor);
    if !authorized { return Err(LeaseInterrupted); }
    r := RecordTerminal(repo, monitor, def, plain, n, attempt, nodeState, Terminal(Failed, code, Failed));
  }

  /** The attempt with its input baseline, which the store keeps in its message field. */
  function Baselined(a: Attempt, baseline: Option<string>): Attempt {
    if baseline.None? then a else a.(errorMessage := baseline.value)
  }

  /** What the attempt of this work is stored as in the end: a rejected path never counts as started. */
  function WorkedAttempt(a: Attempt, work: Work): Attempt {
    match work
    case PathRejected(code) => EndedAttempt(a, Terminal(Failed, code, Failed))
    case Ran(baseline, run) => EndedAttempt(Baselined(a, baseline).(executionStarted := true), Decide(run))
  }

  /** The attempt counts as started exactly if its subprocess ran, and keeps the input baseline it ran with. */
  predicate StoredWork(s: Store, a: Attempt, work: Work) {
    AttemptById(s, a.attemptId).Some? &&
    var b := AttemptById(s, a.attemptId).value.value;
    && b.executionStarted == (a.executionStarted || work.Ran?)
    && b.errorMessage == (if work.Ran? && work.baseline.Some? then work.baseline.value else a.errorMessage)
  }

  /** The stores that hold the attempt of this work as it ended. */
  ghost function WorkStored(a: Attempt, work: Work): iset<Store> {
    iset s: Store | StoredAttempt(s, WorkedAttempt(a, work)) && StoredWork(s, a, work)
  }

  method PersistInputBaseline(repo: Repository, monitor: LeaseMonitor, ghost def: Definition, ghost plain: bool,
                              n: Id, attempt: Stored<Attempt>, nodeState: Stored<NodeState>, baseline: Option<string>)
    returns (r: Result<Stored<Attempt>, Failure>)
    requires repo.Contents() in Consistent(def, plain) && NoWindow(repo.Contents())
    requires Prepared(repo.Contents(), n, attempt, nodeState)
    modifies repo`attempts, monitor
    ensures repo.Contents() in Consistent(def, plain) && NoWindow(repo.Contents())
    ensures NeverRegained(old(monitor.state), monitor.state)
    ensures repo.attempts.Keys == old(repo.attempts.Keys)
    ensures r.Ok? ==> Prepared(repo.Contents(), n, r.value, nodeState)
    ensures r.Ok? ==> r.value.value == Baselined(attempt.value, baseline)
    ensures r.Err? ==> repo.attempts == old(repo.attempts)
  {
    if baseline.None? { return Ok(attempt); }
    var reached := ControlPlane(monitor);
    if !reached { return Err(LeaseInterrupted); }
    var written := PutAttempt(repo, def, plain, n, attempt, InputBaseline(baseline.value));
    if written.Err? { return Err(StoreFailed(written.error)); }
    return Ok(written.value);
  }

  /** Runs the started attempt to its end. */
  method RunNode(repo: Repository, monitor: LeaseMonitor, ghost def: Definition, ghost plain: bool,
                 n: Id, attempt: Stored<Attempt>, nodeState: Stored<NodeState>, work: Work)
    returns (r: Result<Stored<NodeState>, Failure>)
    requires repo.Contents() in Consistent(def, plain) && NoWindow(repo.Contents())
    requires Prepared(repo.Contents(), n, attempt, nodeState)
    modifies repo`states, repo`attempts, monitor
    ensures repo.Contents() in Consistent(def, plain) && NoWindow(repo.Contents())
    ensures NeverRegained(old(monitor.state), monitor.state)
    ensures repo.attempts.Keys == old(repo.attempts.Keys)
    ensures r.Ok? ==> r.value == NextRecord(nodeState, EndedState(nodeState.value, WorkStatus(work)))
    ensures r.Ok? ==> repo.states == old(repo.states)[n := r.value]
    ensures r.Ok? ==> EndedAs(repo.Contents(), n, nodeState.value.latestAttemptNo,
                              WorkTerminal(work).attemptStatus, WorkTerminal(work).resultCode)
    ensures r.Ok? ==> repo.Contents() in WorkStored(attempt.value, work)
    ensures r.Ok? ==>
      (repo.attempts, r.value.value.status) in JustEnds(AttemptKey(n, nodeState.value.latestAttemptNo), work)
    ensures r.Err? ==> repo.states == old(repo.states)
    ensures r.Err? ==>
      RunningOrEnded(repo.Contents(), n, nodeState.value.latestAttemptNo, attempt.value.invocationId, WorkTerminal(work))
  {
    PreparedRuns(def, plain, repo.Contents(), n, attempt, nodeState, WorkTerminal(work));
    match work {
      case PathRejected(code) =>
        r := FinalizeIoPathFailure(repo, monitor, def, plain, n, attempt, nodeState, code);
        if r.Ok? { EndsJustly(repo.Contents(), n, nodeState.value.latestAttemptNo, work); }
      case Ran(baseline, run) =>
        var based := PersistInputBaseline(repo, monitor, def, plain, n, attempt, nodeState, baseline);
        if based.Err? { return Err(based.error); }
        r := Execute(repo, monitor, def, plain, n, based.value, nodeState, run);
        if r.Ok? { EndsJustly(repo.Contents(), n, nodeState.value.latestAttemptNo, work); }
    }
  }
}
