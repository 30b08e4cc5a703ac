/** One attempt: what its job's evidence decides, and the ordered writes that record it. */
module Executor {
  import opened Dag
  import opened Domain
  import opened StoreContract
  import opened Repository
  import opened Lease
  import opened Invariants
  import opened Writes
  import opened StoreWrites
  import opened GuardedWrites

  datatype JobOutcome = JobSuccess | JobFailed | JobCancelled | LockConflict

  datatype Classification = ValidResult(outcome: JobOutcome, code: string) | InvalidResult | NoResult

  /** The job log's start marker: unreadable, absent, or present with or without a start time. */
  datatype Marker = Unreadable | Absent | Present(runnerStarted: bool)

  /** Everything observed about one finished subprocess. */
  datatype JobRun = JobRun(
    classification: Classification,
    declaresInputs: bool,
    inputReceiptsMatch: bool,
    declaresOutputs: bool,
    outputReceiptsMatch: bool,
    reportsOutputs: bool,
    forced: bool,
    launchFailureConfirmed: bool,
    marker: Marker)

  datatype Terminal = Terminal(attemptStatus: Status, resultCode: string, stateStatus: Status)

  function InputGate(run: JobRun, c: Classification): Classification {
    if c.ValidResult? && run.declaresInputs && !run.inputReceiptsMatch then InvalidResult else c
  }

  function OutputGate(run: JobRun, c: Classification): Classification {
    if !c.ValidResult? then c
    else if run.declaresOutputs then (if run.outputReceiptsMatch then c else InvalidResult)
    else if run.reportsOutputs then InvalidResult else c
  }

  function ForcedGate(run: JobRun, c: Classification): Classification {
    if run.forced then InvalidResult else c
  }

  /** The classification after all evidence gates. */
  function Gated(run: JobRun): Classification {
    ForcedGate(run, OutputGate(run, InputGate(run, run.classification)))
  }

  /** A durable launch failure with no runner start proves the job never ran. */
  predicate NotExecuted(run: JobRun) {
    run.launchFailureConfirmed && (run.marker.Absent? || (run.marker.Present? && !run.marker.runnerStarted))
  }

  const CLOSED_UNSTARTED := Terminal(Cancelled, PREPARE_FAILED, Waiting)

  function Decide(run: JobRun): Terminal {
    match Gated(run)
    case ValidResult(LockConflict, _) => CLOSED_UNSTARTED
    case ValidResult(JobSuccess, code) => Terminal(Success, code, Success)
    case ValidResult(JobFailed, code) => Terminal(Failed, code, Failed)
    case ValidResult(JobCancelled, code) => Terminal(Cancelled, code, Cancelled)
    case _ =>
      if NotExecuted(run) then CLOSED_UNSTARTED
      else
        Terminal(Unknown,
          if run.forced then "FORCED_TERMINATION"
          else if Gated(run).NoResult? then "NO_EXECUTION_RESULT"
          else "INVALID_EXECUTION_RESULT",
          Unknown)
  }

  /** The evidence behind a result is complete: nothing was forced and every receipt agrees. */
  predicate Corroborated(run: JobRun) {
    && run.classification.ValidResult? && !run.forced
    && (run.declaresInputs ==> run.inputReceiptsMatch)
    && (if run.declaresOutputs then run.outputReceiptsMatch else !run.reportsOutputs)
  }

  /** A corroborated result with this outcome. */
  predicate Believed(run: JobRun, outcome: JobOutcome) {
    Corroborated(run) && run.classification.outcome == outcome
  }

  /**
   * A job result is believed exactly when it is corroborated, and then with its own code;
   * a node goes back to WAITING exactly when the job provably did not run, its attempt
   * closed as never started; everything else is UNKNOWN, for a reason that the code tells.
   */
  predicate Evidenced(run: JobRun, t: Terminal) {
    && (t.stateStatus.Success? <==> Believed(run, JobSuccess))
    && (t.stateStatus.Failed? <==> Believed(run, JobFailed))
    && (t.stateStatus.Cancelled? <==> Believed(run, JobCancelled))
    && (t.stateStatus.Waiting? <==> if Corroborated(run) then Believed(run, LockConflict) else NotExecuted(run))
    && (t.stateStatus.Unknown? <==> !Corroborated(run) && !NotExecuted(run))
    && (if t.stateStatus.Waiting? then t.attemptStatus.Cancelled? else t.attemptStatus == t.stateStatus)
    && (t.stateStatus.Waiting? ==> t.resultCode == "PREPARE_FAILED")
    && (!t.stateStatus.Waiting? && Corroborated(run) ==> t.resultCode == run.classification.code)
    && (t.stateStatus.Unknown? ==>
          && (t.resultCode == "FORCED_TERMINATION" <==> run.forced)
          && (t.resultCode == "NO_EXECUTION_RESULT" <==> !run.forced && run.classification.NoResult?)
          && (t.resultCode == "INVALID_EXECUTION_RESULT" <==> !run.forced && !run.classification.NoResult?))
  }

  /** The decision is the one that the evidence asks for. */
  lemma DecideIsEvidenceBased(run: JobRun)
    ensures Evidenced(run, Decide(run)) && IsTerminal(Decide(run))
    ensures forall t :: Evidenced(run, t) ==> t == Decide(run)
    ensures NotExecuted(run) <==> run.launchFailureConfirmed && run.marker != Unreadable && run.marker != Present(true)
  {
    forall t | Evidenced(run, t) ensures t == Decide(run) { OneDecision(run, t); }
  }

  lemma OneDecision(run: JobRun, t: Terminal)
    requires Evidenced(run, t)
    ensures t == Decide(run)
  {
    assert t.stateStatus == Decide(run).stateStatus;
  }

  /** The attempt is stored, and it and the node's status are what the evidence asks for. */
  ghost predicate StoredAsEvidenced(s: Store, attemptId: Id, status: Status, run: JobRun) {
    AttemptById(s, attemptId).Some? &&
    var a := AttemptById(s, attemptId).value.value;
    a.executionStarted && Evidenced(run, Terminal(a.status, a.resultCode, status))
  }

  /** The attempt always ends, and only a closed, unstarted attempt leaves its node WAITING. */
  predicate IsTerminal(t: Terminal) {
    TerminalAttempt(t.attemptStatus) &&
    (t.stateStatus == t.attemptStatus || t == CLOSED_UNSTARTED)
  }

  datatype Failure =
    | StoreFailed(error: Error)
    | NotPrepared
    | LeaseInterrupted
    | ControlPlaneFailed
    | NodeStateMissing
    | ReconciliationRequired

  /** Any number of background heartbeats, with any outcome. */
  method LetTimePass(monitor: LeaseMonitor)
    modifies monitor
    ensures NeverRegained(old(monitor.state), monitor.state)
    ensures !old(monitor.state).Held? ==> monitor.state == old(monitor.state)
  {
    var ticks: int := *;
    while ticks > 0
      invariant NeverRegained(old(monitor.state), monitor.state)
      invariant !old(monitor.state).Held? ==> monitor.state == old(monitor.state)
    {
      var beat: Heartbeat := *;
      var began: int, ended: int := *, *;
      if began <= ended && (beat.Renewed? ==> began <= beat.at <= ended) {
        var _ := monitor.Tick(beat, began, ended);
      }
      ticks := ticks - 1;
    }
  }

  /**
   * A control-plane operation under the drain: a transport failure makes the lease
   * uncertain, and the operation is retried only after the lease is confirmed again.
   */
  method ControlPlane(monitor: LeaseMonitor) returns (reached: bool)
    modifies monitor
    ensures NeverRegained(old(monitor.state), monitor.state)
    ensures reached ==> monitor.state == old(monitor.state) || monitor.state.FinalWriteConfirmed?
  {
    if * { return true; }
    monitor.MarkControlPlaneUnreachable();
    var retries: int := *;
    while retries > 0
      invariant monitor.state.LeaseUncertain?
    {
      retries := retries - 1;
      var beat: Heartbeat := *;
      var confirmed := monitor.ConfirmLeaseForFinalWrite(beat);
      if confirmed {
        if * { return true; }
        monitor.MarkControlPlaneUnreachable();
      }
    }
    return false;
  }

  /** Results may be written while HELD, or after one confirming heartbeat. */
  method AuthorizeResults(monitor: LeaseMonitor) returns (authorized: bool)
    modifies monitor
    ensures NeverRegained(old(monitor.state), monitor.state)
    ensures authorized ==> monitor.CanPersistResults()
  {
    if monitor.CanPersistResults() { return true; }
    var beat: Heartbeat := *;
    authorized := monitor.ConfirmLeaseForFinalWrite(beat);
  }

  /** `n` is RUNNING and these are its own RUNNING attempt and its state as stored. */
  ghost predicate Prepared(s: Store, n: Id, attempt: Stored<Attempt>, nodeState: Stored<NodeState>) {
    && n in s.states && s.states[n] == nodeState && nodeState.value.nodeId == n && nodeState.value.status.Running?
    && nodeState.value.activeAttemptId == Some(attempt.value.attemptId) && attempt.value.status.Running?
    && AttemptById(s, attempt.value.attemptId) == Some(attempt)
  }

  /** The attempt is stored exactly like this, up to its revision. */
  ghost predicate StoredAttempt(s: Store, a: Attempt) {
    AttemptById(s, a.attemptId).Some? && AttemptById(s, a.attemptId).value.value == a
  }

  /** The attempt either still runs or has ended like this. */
  ghost predicate RunningOrEnded(s: Store, n: Id, no: nat, invocationId: Id, terminal: Terminal) {
    var key := AttemptKey(n, no);
    && key in s.attempts && s.attempts[key].value.invocationId == invocationId
    && (s.attempts[key].value.status.Running? || EndedAs(s, n, no, terminal.attemptStatus, terminal.resultCode))
  }

  /** The attempt a RUNNING node calls active is stored as its latest. */
  lemma ActiveStored(def: Definition, plain: bool, s: Store, n: Id, attempt: Stored<Attempt>)
    requires s in Consistent(def, plain) && n in s.states && s.states[n].value.status.Running?
    requires s.states[n].value.activeAttemptId == Some(attempt.value.attemptId)
    requires AttemptById(s, attempt.value.attemptId) == Some(attempt)
    ensures AttemptKey(n, s.states[n].value.latestAttemptNo) in s.attempts
    ensures s.attempts[AttemptKey(n, s.states[n].value.latestAttemptNo)] == attempt
  {
    ActiveIsLatest(def, s, n, plain);
  }

  lemma PreparedRuns(def: Definition, plain: bool, s: Store, n: Id, attempt: Stored<Attempt>, nodeState: Stored<NodeState>,
                     terminal: Terminal)
    requires s in Consistent(def, plain) && Prepared(s, n, attempt, nodeState)
    ensures RunningOrEnded(s, n, nodeState.value.latestAttemptNo, attempt.value.invocationId, terminal)
  {
    ActiveStored(def, plain, s, n, attempt);
  }

  function EndedAttempt(a: Attempt, terminal: Terminal): Attempt {
    a.(status := terminal.attemptStatus, resultCode := terminal.resultCode)
  }

  /** The state record that ends an attempt. */
  function EndedState(state: NodeState, status: Status): NodeState {
    state.(status := status, activeAttemptId := None)
  }

  /** Ending an attempt sets the status of its node and takes the attempt off it; the rest of the record stays. */
  predicate Ends(before: NodeState, after: NodeState, status: Status) {
    && after.status == status && after.activeAttemptId.None? && after.nodeId == before.nodeId
    && after.latestAttemptNo == before.latestAttemptNo && after.idempotent == before.idempotent
    && after.blockedBy == before.blockedBy
  }

  /** The two ordered writes that end an attempt: first the attempt, then its node state. */
  method RecordTerminal(repo: Repository, monitor: LeaseMonitor, ghost def: Definition, ghost plain: bool,
                        n: Id, attempt: Stored<Attempt>, nodeState: Stored<NodeState>, terminal: Terminal)
    returns (r: Result<Stored<NodeState>, Failure>)
    requires repo.Contents() in Consistent(def, plain) && NoWindow(repo.Contents())
    requires Prepared(repo.Contents(), n, attempt, nodeState) && IsTerminal(terminal)
    modifies repo`states, repo`attempts, monitor
    ensures repo.Contents() in Consistent(def, plain) && NoWindow(repo.Contents())
    ensures NeverRegained(old(monitor.state), monitor.state)
    ensures r.Ok? ==> r.value == NextRecord(nodeState, EndedState(nodeState.value, terminal.stateStatus))
    ensures r.Ok? ==> Ends(nodeState.value, r.value.value, terminal.stateStatus)
    ensures r.Ok? ==> repo.states == old(repo.states)[n := r.value]
    ensures r.Ok? ==> EndedAs(repo.Contents(), n, nodeState.value.latestAttemptNo,
                              terminal.attemptStatus, terminal.resultCode)
    ensures r.Ok? ==> StoredAttempt(repo.Contents(), EndedAttempt(attempt.value, terminal))
    ensures r.Err? ==> repo.states == old(repo.states)
    ensures r.Err? ==>
      RunningOrEnded(repo.Contents(), n, nodeState.value.latestAttemptNo, attempt.value.invocationId, terminal)
    ensures repo.attempts.Keys == old(repo.attempts.Keys)
  {
    PreparedRuns(def, plain, repo.Contents(), n, attempt, nodeState, terminal);
    var reached := ControlPlane(monitor);
    if !reached { return Err(LeaseInterrupted); }
    var change := Finalize(terminal.attemptStatus, terminal.resultCode);
    var finalized := PutAttempt(repo, def, plain, n, attempt, change);
    if finalized.Err? { return Err(StoreFailed(finalized.error)); }

    ActiveStored(def, plain, repo.Contents(), n, finalized.value);
    reached := ControlPlane(monitor);
    if !reached { return Err(LeaseInterrupted); }
    var value := EndedState(nodeState.value, terminal.stateStatus);
    EndsSound(def, repo.Contents(), n, nodeState, terminal, plain);
    var written := PutState(repo, def, plain, plain, n, nodeState, value, None);
    if written.Err? { return Err(StoreFailed(written.error)); }
    return Ok(written.value);
  }

  /** A RUNNING node whose attempt ended this way may be given the matching state. */
  lemma EndsSound(def: Definition, s: Store, n: Id, nodeState: Stored<NodeState>, terminal: Terminal, plain: bool)
    requires s in Consistent(def, plain) && n in s.states && s.states[n] == nodeState
    requires nodeState.value.status.Running? && IsTerminal(terminal)
    requires EndedAs(s, n, nodeState.value.latestAttemptNo, terminal.attemptStatus, terminal.resultCode)
    ensures var w' := WithState(ViewOf(s, n), EndedState(nodeState.value, terminal.stateStatus));
      !Window(w') && w' in Sound(plain)
  {
    var w := ViewOf(s, n);
    assert w in Sound(plain);
    var value := EndedState(nodeState.value, terminal.stateStatus);
    if terminal.stateStatus == terminal.attemptStatus {
      Applied(w, value, plain);
    } else {
      BackToWaiting(w, value, plain);
    }
  }

  /** Starts the prepared attempt, runs its job and records what the evidence decides. */
  method Execute(repo: Repository, monitor: LeaseMonitor, ghost def: Definition, ghost plain: bool,
                 n: Id, attempt: Stored<Attempt>, nodeState: Stored<NodeState>, run: JobRun)
    returns (r: Result<Stored<NodeState>, Failure>)
    requires repo.Contents() in Consistent(def, plain) && NoWindow(repo.Contents())
    requires Prepared(repo.Contents(), n, attempt, nodeState)
    modifies repo`states, repo`attempts, monitor
    ensures repo.Contents() in Consistent(def, plain) && NoWindow(repo.Contents())
    ensures NeverRegained(old(monitor.state), monitor.state)
    ensures r.Ok? ==> r.value == NextRecord(nodeState, EndedState(nodeState.value, Decide(run).stateStatus))
    ensures r.Ok? ==> repo.states == old(repo.states)[n := r.value]
    ensures r.Ok? ==> EndedAs(repo.Contents(), n, nodeState.value.latestAttemptNo,
                              Decide(run).attemptStatus, Decide(run).resultCode)
    ensures r.Ok? ==>
      StoredAttempt(repo.Contents(), EndedAttempt(attempt.value.(executionStarted := true), Decide(run)))
    ensures r.Ok? ==> StoredAsEvidenced(repo.Contents(), attempt.value.attemptId, r.value.value.status, run)
    ensures r.Err? ==> repo.states == old(repo.states)
    ensures r.Err? ==>
      RunningOrEnded(repo.Contents(), n, nodeState.value.latestAttemptNo, attempt.value.invocationId, Decide(run))
    ensures repo.attempts.Keys == old(repo.attempts.Keys)
  {
    PreparedRuns(def, plain, repo.Contents(), n, attempt, nodeState, Decide(run));
    var started := PutAttempt(repo, def, plain, n, attempt, ExecutionStarted);
    if started.Err? { return Err(StoreFailed(started.error)); }
    PreparedRuns(def, plain, repo.Contents(), n, started.value, nodeState, Decide(run));
    LetTimePass(monitor);
    var readable := ControlPlane(monitor);
    if !readable { return Err(LeaseInterrupted); }
    if * { return Err(ControlPlaneFailed); }
    var authorized := AuthorizeResults(monitor);
    if !authorized { return Err(LeaseInterrupted); }
    DecideIsEvidenceBased(run);
    r := RecordTerminal(repo, monitor, def, plain, n, started.value, nodeState, Decide(run));
  }
}
