/**
 * The store as an object changed in place. Every write may also be the moment at
 * which the calling process dies: it then returns ProcessDied and changes nothing,
 * so whatever a caller promises on an error holds at each of its crash points.
 */
module Repository {
  import opened Dag
  import opened Domain
  import opened StoreContract

  class Repository {
    var run: Stored<Run>
    var states: map<Id, Stored<NodeState>>
    var attempts: map<AttemptKey, Stored<Attempt>>
    var attemptIds: map<Id, AttemptKey>
    var resolutions: seq<Resolution>
    var audits: seq<Audit>
    var cancelRequest: Option<Stored<CancelState>>

    ghost function Contents(): Store
      reads this
    {
      Store(run, states, attempts, attemptIds, resolutions, audits)
    }

    /** A Run as createRun leaves it: no nodes yet, nothing attempted. */
    constructor ()
      ensures Contents() == Store(Stored(Run(RunCreated, false, false), 1), map[], map[], map[], [], [])
      ensures cancelRequest.None?
    {
      run := Stored(Run(RunCreated, false, false), 1);
      states, attempts, attemptIds := map[], map[], map[];
      resolutions, audits := [], [];
      cancelRequest := None;
    }

    method UpsertNodeState(write: NodeStateWrite) returns (r: Result<Stored<NodeState>, Error>)
      modifies this`states
      ensures r.Ok? ==> Upserted(old(Contents()), write) == Ok(Contents()) &&
                        write.value.nodeId in states && r.value == states[write.value.nodeId]
      ensures r.Err? ==> Contents() == old(Contents()) &&
                         (r.error.ProcessDied? || Upserted(old(Contents()), write) == Err(r.error))
    {
      if * { return Err(ProcessDied); }
      var n := write.value.nodeId;
      if n !in states {
        if write.expectedRevision.Some? { return Err(RecordNotFound); }
        if !write.value.status.Waiting? { return Err(InvalidStateTransition); }
        states := states[n := Stored(write.value.(revision := 1), 1)];
        return Ok(states[n]);
      }
      var stored := states[n];
      if write.expectedRevision.None? { return Err(DuplicateRecord); }
      if stored.revision != write.expectedRevision.value { return Err(RevisionConflict); }
      if write.resolutionEvent.Some? && write.resolutionEvent.value !in resolutions { return Err(RecordNotFound); }
      if !AcceptsTransition(stored.value, write) { return Err(InvalidStateTransition); }
      var revision := stored.revision + 1;
      states := states[n := Stored(write.value.(revision := revision), revision)];
      return Ok(states[n]);
    }

    method CreateAttempt(state: Stored<NodeState>, attemptId: Id, invocationId: Id)
      returns (r: Result<Stored<Attempt>, Error>)
      modifies this`attempts, this`attemptIds
      ensures r.Ok? ==> AttemptCreated(old(Contents()), state, attemptId, invocationId) == Ok(Contents()) &&
                        NextKey(state.value) in attempts && r.value == attempts[NextKey(state.value)]
      ensures r.Err? ==> Contents() == old(Contents()) && (r.error.ProcessDied? ||
                         AttemptCreated(old(Contents()), state, attemptId, invocationId) == Err(r.error))
    {
      if * { return Err(ProcessDied); }
      var key := NextKey(state.value);
      if key in attempts {
        if attempts[key].value.attemptId == attemptId { return Ok(attempts[key]); }
        return Err(AttemptNumberConflict);
      }
      if attemptId in attemptIds { return Err(DuplicateRecord); }
      attempts := attempts[key := Stored(NewAttempt(state, attemptId, invocationId), 1)];
      attemptIds := attemptIds[attemptId := key];
      return Ok(attempts[key]);
    }

    /** setAttemptInputBaseline, setAttemptExecutionStarted and finalizeAttempt. */
    method ChangeAttempt(attemptId: Id, expectedRevision: nat, change: AttemptChange)
      returns (r: Result<Stored<Attempt>, Error>)
      modifies this`attempts
      ensures r.Ok? ==> AttemptChanged(old(Contents()), attemptId, expectedRevision, change) == Ok(Contents()) &&
                        AttemptById(Contents(), attemptId) == Some(r.value)
      ensures r.Err? ==> Contents() == old(Contents()) && (r.error.ProcessDied? ||
                         AttemptChanged(old(Contents()), attemptId, expectedRevision, change) == Err(r.error))
    {
      if * { return Err(ProcessDied); }
      if attemptId !in attemptIds || attemptIds[attemptId] !in attempts { return Err(RecordNotFound); }
      var key := attemptIds[attemptId];
      var stored := attempts[key];
      if stored.revision != expectedRevision { return Err(RevisionConflict); }
      var value := ChangedAttempt(stored.value, change);
      if value.Err? { return Err(value.error); }
      attempts := attempts[key := Stored(value.value, stored.revision + 1)];
      return Ok(attempts[key]);
    }

    method AppendResolution(resolution: Resolution) returns (r: Result<(), Error>)
      modifies this`resolutions
      ensures r.Ok? ==> ResolutionAppended(old(Contents()), resolution) == Ok(Contents())
      ensures r.Err? ==> Contents() == old(Contents()) && (r.error.ProcessDied? ||
                         ResolutionAppended(old(Contents()), resolution) == Err(r.error))
    {
      if * { return Err(ProcessDied); }
      if resolution.attemptId !in attemptIds || attemptIds[resolution.attemptId] !in attempts {
        return Err(RecordNotFound);
      }
      var attempt := attempts[attemptIds[resolution.attemptId]];
      if !attempt.value.status.Unknown? && !attempt.value.status.Failed? { return Err(AttemptLifecycleViolation); }
      resolutions := resolutions + [resolution];
      return Ok(());
    }

    /** Audit event ids are fresh, so an append only fails with its process. */
    method AppendOperationAudit(audit: Audit) returns (r: Result<(), Error>)
      modifies this`audits
      ensures r.Ok? ==> audits == old(audits) + [audit]
      ensures r.Err? ==> audits == old(audits) && r.error.ProcessDied?
    {
      if * { return Err(ProcessDied); }
      audits := audits + [audit];
      return Ok(());
    }

    method UpdateRunAggregate(expectedRevision: nat, status: RunStatus, started: bool)
      returns (r: Result<Stored<Run>, Error>)
      modifies this`run
      ensures r.Ok? ==> AggregateUpdated(old(Contents()), expectedRevision, status, started) == Ok(Contents()) &&
                        r.value == run
      ensures r.Err? ==> Contents() == old(Contents()) && (r.error.ProcessDied? ||
                         AggregateUpdated(old(Contents()), expectedRevision, status, started) == Err(r.error))
    {
      if * { return Err(ProcessDied); }
      if run.revision != expectedRevision { return Err(RevisionConflict); }
      run := Stored(run.value.(status := status, started := started), run.revision + 1);
      return Ok(run);
    }

    /** An operator may request, release or re-request a stop at any moment. */
    method OperatorActs()
      modifies this`cancelRequest
    {
      if * {
        var state: CancelState := *;
        var revision: nat := *;
        cancelRequest := Some(Stored(state, revision));
      }
    }

    method GetCancelRequest() returns (request: Option<Stored<CancelState>>)
      modifies this`cancelRequest
      ensures request == cancelRequest
    {
      OperatorActs();
      request := cancelRequest;
    }

    method UpdateCancelRequest(expectedRevision: nat, state: CancelState)
      returns (r: Result<Stored<CancelState>, Error>)
      modifies this`cancelRequest
      ensures r.Ok? ==> cancelRequest == Some(r.value) && r.value == Stored(state, expectedRevision + 1)
      ensures r.Err? && r.error.RevisionConflict? ==>
        cancelRequest.Some? && cancelRequest.value.revision != expectedRevision
    {
      OperatorActs();
      if * { return Err(ProcessDied); }
      if cancelRequest.None? { return Err(RecordNotFound); }
      if cancelRequest.value.revision != expectedRevision { return Err(RevisionConflict); }
      if !AllowedCancelTransition(cancelRequest.value.value, state) { return Err(InvalidStateTransition); }
      cancelRequest := Some(Stored(state, expectedRevision + 1));
      return Ok(cancelRequest.value);
    }
  }
}
