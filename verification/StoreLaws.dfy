/** What the guards of the store promise together, whoever writes. */
module StoreLaws {
  import opened Dag
  import opened Domain
  import opened StoreContract

  /** The allowed transitions: staying, being taken up or blocked, going back to WAITING, and ending. */
  lemma TransitionsIff(from: Status, to: Status)
    ensures AllowedTransition(from, to) <==>
      || from == to
      || (from.Waiting? && (to.Running? || to.Blocked?))
      || (to.Waiting? && !from.Unknown? && !from.Skipped?)
      || (TerminalAttempt(to) && (from.Running? || from.Unknown?))
  {
  }

  /** A stop request is accepted once and released at last; only a released one may be made again. */
  lemma StopTransitionsIff(from: CancelState, to: CancelState)
    ensures AllowedCancelTransition(from, to) <==>
      from != to && !(from.Accepted? && to.Requested?) && !(from.Released? && to.Accepted?)
  {
  }

  /** An accepted state write stores its value at the next revision and nothing else. */
  ghost predicate WritesOne(s: Store, t: Store, write: NodeStateWrite) {
    var n := write.value.nodeId;
    && n in t.states && t == s.(states := s.states[n := t.states[n]])
    && t.states[n].revision == t.states[n].value.revision == (if n in s.states then s.states[n].revision + 1 else 1)
    && t.states[n].value == write.value.(revision := t.states[n].revision)
  }

  /** Of two writers that read the same revision of a record at most one is accepted, and so is a creation. */
  lemma OneWriterPerRevision(s: Store, t: Store, write: NodeStateWrite, later: NodeStateWrite)
    requires Upserted(s, write) == Ok(t)
    requires later.value.nodeId == write.value.nodeId && later.expectedRevision == write.expectedRevision
    ensures WritesOne(s, t, write)
    ensures Upserted(t, later) == Err(if later.expectedRevision.Some? then RevisionConflict else DuplicateRecord)
  {
  }

  /**
   * What an accepted write may do to a stored status: a node that ended badly and may not be
   * repeated is never reopened, and FAILED gives way to another end only for a recorded
   * resolution of that outcome.
   */
  lemma EndsAreGuarded(s: Store, t: Store, write: NodeStateWrite)
    requires Upserted(s, write) == Ok(t) && write.value.nodeId in s.states
    ensures var before, after := s.states[write.value.nodeId].value, t.states[write.value.nodeId].value.status;
      && ((before.status.Failed? || before.status.Cancelled?) && !before.idempotent ==> !after.Waiting?)
      && (before.status.Failed? && !after.Failed? && !after.Waiting? ==>
            exists r :: r in s.resolutions && r.outcome == after)
      && (!before.status.Failed? ==> AllowedTransition(before.status, after))
  {
    var before, after := s.states[write.value.nodeId].value, t.states[write.value.nodeId].value.status;
    if before.status.Failed? && !after.Failed? && !after.Waiting? {
      var r := write.resolutionEvent.value;
      assert r in s.resolutions && r.outcome == after;
    }
  }

  /** A new attempt starts as pending, based on the state it was created from. A repeated creation of it is the first one; another attempt does not get its number. */
  lemma OneAttemptPerNumber(s: Store, t: Store, state: Stored<NodeState>, attemptId: Id, invocationId: Id, other: Id)
    requires AttemptCreated(s, state, attemptId, invocationId) == Ok(t) && other != attemptId
    ensures NextKey(state.value) in t.attempts
    ensures NextKey(state.value) !in s.attempts ==>
      var a := t.attempts[NextKey(state.value)].value;
      && a.status.Running? && !a.executionStarted && a.resultCode == "PENDING" && a.errorMessage == ""
      && a.attemptId == attemptId && a.invocationId == invocationId && a.stateRevisionBefore == Some(state.revision)
    ensures AttemptCreated(t, state, attemptId, invocationId) == Ok(t)
    ensures AttemptCreated(t, state, other, invocationId) == Err(AttemptNumberConflict)
  {
  }

  /** Two writers that read the same revision of an attempt: at most one is accepted. */
  lemma OneAttemptWriterPerRevision(s: Store, t: Store, attemptId: Id, revision: nat, change: AttemptChange, later: AttemptChange)
    requires AttemptChanged(s, attemptId, revision, change) == Ok(t)
    ensures AttemptChanged(t, attemptId, revision, later) == Err(RevisionConflict)
    ensures t == s.(attempts := t.attempts) && t.attempts.Keys == s.attempts.Keys
    ensures forall key :: key in s.attempts && key != s.attemptIds[attemptId] ==> t.attempts[key] == s.attempts[key]
  {
  }

  /** An attempt that has ended never changes again. */
  lemma EndedAttemptsStay(a: Attempt, change: AttemptChange)
    requires !a.status.Running?
    ensures ChangedAttempt(a, change) == Err(if change.InputBaseline? then AttemptLifecycleViolation else AttemptTerminal)
  {
  }

  /**
   * Whatever is written to an attempt, it stays the same attempt: it starts at most once, its
   * baseline is fixed by then, and only its end says how it ended.
   */
  lemma AttemptsKeepIdentity(a: Attempt, change: AttemptChange, b: Attempt)
    requires ChangedAttempt(a, change) == Ok(b)
    ensures b.attemptId == a.attemptId && b.nodeId == a.nodeId && b.attemptNo == a.attemptNo && b.invocationId == a.invocationId
    ensures b.stateRevisionBefore == a.stateRevisionBefore && (a.executionStarted ==> b.executionStarted)
    ensures b.executionStarted && !a.executionStarted <==> change.ExecutionStarted?
    ensures b.errorMessage != a.errorMessage ==> change.InputBaseline? && !a.executionStarted
    ensures change.Finalize? ==> b.status == change.status && b.resultCode == change.resultCode
    ensures !change.Finalize? ==> b.status == a.status && b.resultCode == a.resultCode
  {
  }

  /** Whoever wants to resolve an attempt, it has to have ended in UNKNOWN or FAILED. */
  lemma ResolvableIff(s: Store, resolution: Resolution)
    ensures ResolutionAppended(s, resolution).Ok? <==>
      exists key :: resolution.attemptId in s.attemptIds && s.attemptIds[resolution.attemptId] == key && key in s.attempts &&
        (s.attempts[key].value.status.Unknown? || s.attempts[key].value.status.Failed?)
  {
    if ResolutionAppended(s, resolution).Ok? {
      var key := s.attemptIds[resolution.attemptId];
      assert key in s.attempts;
    }
  }

  /** Two aggregates that were computed from the same revision of the Run: at most one is stored. */
  lemma OneAggregatePerRevision(s: Store, t: Store, revision: nat, status: RunStatus, started: bool, other: RunStatus, started': bool)
    requires AggregateUpdated(s, revision, status, started) == Ok(t)
    ensures AggregateUpdated(t, revision, other, started') == Err(RevisionConflict)
    ensures t == s.(run := t.run) && t.run.value == s.run.value.(status := status, started := started)
  {
  }
}
