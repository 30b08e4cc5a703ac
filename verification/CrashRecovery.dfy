/** An attempt that breaks off anywhere, and what the next invocation makes of it. */
module CrashRecovery {
  import opened Dag
  import opened Domain
  import opened StoreContract
  import opened Repository
  import opened Lease
  import opened Invariants
  import opened StoreWrites
  import opened GuardedWrites
  import opened Executor
  import opened Reconciliation
  import opened Adjudication
  import opened Recovery
  import opened NodeSteps
  import opened Visit
  import Ensuring = EnsureRun

  /**
   * What becomes of a WAITING node whose attempt broke off: it was never taken up and is as
   * before, or its attempt ended as its work justifies and gave the node its own status, or
   * the job log decides.
   */
  ghost predicate RecoveredAs(before: NodeState, s: Store, after: NodeState, work: Work, jobLog: Id -> Option<string>) {
    || after == before
    || (&& after.latestAttemptNo == before.latestAttemptNo + 1
        && AttemptKey(before.nodeId, after.latestAttemptNo) in s.attempts
        && var a := s.attempts[AttemptKey(before.nodeId, after.latestAttemptNo)].value;
           if a.status.Running? then exists code :: OrphanEnds(jobLog(a.attemptId), Terminal(after.status, code, after.status))
           else after.status == a.status && exists status :: Justified(work, Terminal(a.status, a.resultCode, status)))
  }

  /** A gate that lets a Run pass leaves its WAITING nodes alone. */
  lemma WaitingIsLeftAlone(s: Store, n: Id)
    requires WellKeyed(s) && !Undecidable(s) && n in s.states && s.states[n].value.status.Waiting?
    requires s.states[n].value.activeAttemptId.None?
    ensures Reconciled(s, n) == s.states[n]
  {
    var key := AttemptKey(n, s.states[n].value.latestAttemptNo);
    if key in s.attempts && HasResolution(s, key) { assert !BadResolution(s, key); }
  }

  lemma WaitingHasNoActive(w: View, plain: bool)
    requires w in Sound(plain) && w.state.status.Waiting?
    ensures w.state.activeAttemptId.None?
  {
  }

  lemma NeverTakenUp(def: Definition, plain: bool, s: Store, n: Id)
    requires s in Consistent(def, plain) && !Undecidable(s) && n in s.states && s.states[n].value.status.Waiting?
    ensures Reconciled(s, n) == s.states[n]
  {
    ConsistentIsWellKeyed(def, plain, s);
    WaitingHasNoActive(ViewOf(s, n), plain);
    WaitingIsLeftAlone(s, n);
  }

  lemma StillRunning(def: Definition, plain: bool, s: Store, n: Id, a: Attempt)
    requires s in Consistent(def, plain) && !Undecidable(s) && n in s.states && s.states[n].value.status.Running?
    requires AttemptKey(n, s.states[n].value.latestAttemptNo) in s.attempts
    requires s.attempts[AttemptKey(n, s.states[n].value.latestAttemptNo)].value == a && a.status.Running?
    ensures Reconciled(s, n) == s.states[n] && s.states[n].value.activeAttemptId == Some(a.attemptId)
    ensures AttemptById(s, a.attemptId).Some? && AttemptById(s, a.attemptId).value.value == a
  {
    assert NodeDecidable(s, n);
    ActiveIsLatest(def, s, n, plain);
    RunningIsUnresolved(def, plain, s, n);
    assert ActiveAttempt(s, n) == Some(a);
  }

  lemma EndedIsApplied(def: Definition, plain: bool, s: Store, n: Id, terminal: Terminal)
    requires s in Consistent(def, plain) && !Undecidable(s) && n in s.states && s.states[n].value.status.Running?
    requires IsTerminal(terminal)
    requires EndedAs(s, n, s.states[n].value.latestAttemptNo, terminal.attemptStatus, terminal.resultCode)
    ensures Reconciled(s, n).value.status == terminal.attemptStatus
    ensures Reconciled(s, n).value.latestAttemptNo == s.states[n].value.latestAttemptNo
  {
    assert NodeDecidable(s, n);
    CrashBetweenTerminalWrites(def, plain, s, n, terminal);
  }

  /** What the next invocation decides about one node. */
  function Adjudicated(t: Store, nextId: Id, jobLog: Id -> Option<string>, n: Id): Stored<NodeState>
    requires n in t.states
  {
    Recorded(t.states, Decisions(t, nextId, jobLog), {})[n]
  }

  /**
   * Wherever an attempt breaks off, a gate that passes and the decisions of another
   * invocation leave its node as if nothing had begun, or with the status the attempt
   * would have left it with - except CANCELLED for one closed as never started - or,
   * if it never ended, with what its job log says.
   */
  lemma BrokenOffIsRecovered(def: Definition, plain: bool, before: map<Id, Stored<NodeState>>, s: Store, t: Store, n: Id,
                             work: Work, invocationId: Id, nextId: Id, jobLog: Id -> Option<string>)
    requires n in before && before[n].value.status.Waiting? && before[n].value.nodeId == n
    requires s in Consistent(def, plain) && !Undecidable(s) && s in BrokenOff(before, n, invocationId, work)
    requires t.states == ReconciledStates(s) && t.attempts == s.attempts && t.attemptIds == s.attemptIds
    requires nextId != invocationId
    ensures n in t.states && RecoveredAs(before[n].value, s, Adjudicated(t, nextId, jobLog, n).value, work, jobLog)
  {
    WorkIsJustified(work);
    assert t.states[n] == Reconciled(s, n);
    if s.states == before {
      NeverTakenUp(def, plain, s, n);
    } else {
      var a := s.attempts[AttemptKey(n, s.states[n].value.latestAttemptNo)].value;
      if a.status.Running? {
        StillRunning(def, plain, s, n, a);
        assert IsOrphan(t, nextId, n);
        OrphanDecided(jobLog(a.attemptId));
      } else {
        EndedIsApplied(def, plain, s, n, WorkTerminal(work));
      }
    }
  }

  /** `Done` and `Refused` and `Unfinished` say that there was nothing to recover, or that recovery itself stopped. */
  datatype Recovered = Done | Refused | Unfinished | Recovered

  /** Makes one attempt and, if it breaks off, lets the next invocation recover it. */
  method AttemptAndRecover(repo: Repository, monitor: LeaseMonitor, next: LeaseMonitor, ghost def: Definition, ghost plain: bool,
                           n: Id, state: Stored<NodeState>, work: Work, invocationId: Id, nextId: Id, jobLog: Id -> Option<string>)
    returns (r: Recovered, ghost broken: Store)
    requires repo.Contents() in Settled(def, plain)
    requires n in repo.states && repo.states[n] == state && n in IdSet(def) && state.value.nodeId == n
    requires state.value.status.Waiting? && DependenciesSucceeded(def, repo.states, n)
    requires nextId != invocationId
    modifies repo, monitor, next
    ensures repo.Contents() in Consistent(def, plain)
    ensures r.Refused? ==> Undecidable(broken)
    ensures r.Recovered? ==> repo.Contents() in Settled(def, plain)
    ensures r.Recovered? ==> n in repo.states && RecoveredAs(state.value, broken, repo.states[n].value, work, jobLog)
  {
    var made := StartAndRun(repo, monitor, def, plain, n, state, work, invocationId);
    broken := repo.Contents();
    if made.Ok? { return Done, broken; }
    var gate := Ensuring.PassGate(repo, def, plain);
    if gate.Err? { return if gate.error.ReconciliationRequired? then Refused else Unfinished, broken; }
    BrokenOffIsRecovered(def, plain, old(repo.states), broken, repo.Contents(), n, work, invocationId, nextId, jobLog);
    var decided := AdjudicateOrphans(repo, next, def, plain, nextId, jobLog);
    if decided.Err? { return Unfinished, broken; }
    return Recovered, broken;
  }
}
