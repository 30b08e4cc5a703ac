/** The persistence contract of one Run, on values: unique keys, revisions and lifecycle guards. */
module StoreContract {
  import opened Dag
  import opened Domain

  datatype Store = Store(
    run: Stored<Run>,
    states: map<Id, Stored<NodeState>>,
    attempts: map<AttemptKey, Stored<Attempt>>,
    attemptIds: map<Id, AttemptKey>,
    resolutions: seq<Resolution>,
    audits: seq<Audit>)

  /** ProcessDied stands for a write that never reached the store and ended its caller. */
  datatype Error =
    | RevisionConflict
    | RecordNotFound
    | DuplicateRecord
    | InvalidStateTransition
    | AttemptNumberConflict
    | AttemptTerminal
    | AttemptLifecycleViolation
    | ProcessDied

  datatype NodeStateWrite = NodeStateWrite(
    value: NodeState,
    expectedRevision: Option<nat>,
    resolutionEvent: Option<Resolution>)

  predicate AcceptsTransition(stored: NodeState, write: NodeStateWrite) {
    && (AllowedTransition(stored.status, write.value.status) ||
        (&& write.resolutionEvent.Some?
         && write.resolutionEvent.value.outcome == write.value.status
         && AllowedResolution(stored.status, write.value.status)))
    && !((stored.status.Failed? || stored.status.Cancelled?) && write.value.status.Waiting? && !stored.idempotent)
  }

  function Upserted(s: Store, write: NodeStateWrite): Result<Store, Error> {
    var n := write.value.nodeId;
    if n !in s.states then
      if write.expectedRevision.Some? then Err(RecordNotFound)
      else if !write.value.status.Waiting? then Err(InvalidStateTransition)
      else Ok(s.(states := s.states[n := Stored(write.value.(revision := 1), 1)]))
    else
      var stored := s.states[n];
      if write.expectedRevision.None? then Err(DuplicateRecord)
      else if stored.revision != write.expectedRevision.value then Err(RevisionConflict)
      else if write.resolutionEvent.Some? && write.resolutionEvent.value !in s.resolutions then Err(RecordNotFound)
      else if !AcceptsTransition(stored.value, write) then Err(InvalidStateTransition)
      else
        var revision := stored.revision + 1;
        Ok(s.(states := s.states[n := Stored(write.value.(revision := revision), revision)]))
  }

  function NewAttempt(state: Stored<NodeState>, attemptId: Id, invocationId: Id): Attempt {
    Attempt(attemptId, state.value.nodeId, state.value.latestAttemptNo + 1, invocationId,
            Running, "PENDING", false, "", Some(state.revision))
  }

  function NextKey(state: NodeState): AttemptKey {
    AttemptKey(state.nodeId, state.latestAttemptNo + 1)
  }

  function AttemptCreated(s: Store, state: Stored<NodeState>, attemptId: Id, invocationId: Id): Result<Store, Error> {
    var key := NextKey(state.value);
    if key in s.attempts then
      if s.attempts[key].value.attemptId == attemptId then Ok(s) else Err(AttemptNumberConflict)
    else if attemptId in s.attemptIds then Err(DuplicateRecord)
    else Ok(s.(attempts := s.attempts[key := Stored(NewAttempt(state, attemptId, invocationId), 1)],
               attemptIds := s.attemptIds[attemptId := key]))
  }

  /** The stored attempt with this id, through the id index. */
  function AttemptById(s: Store, attemptId: Id): Option<Stored<Attempt>> {
    if attemptId in s.attemptIds && s.attemptIds[attemptId] in s.attempts
    then Some(s.attempts[s.attemptIds[attemptId]]) else None
  }

  datatype AttemptChange =
    | InputBaseline(errorMessage: string)
    | ExecutionStarted
    | Finalize(status: Status, resultCode: string)

  /** What each attempt write does to the record it finds, or why it is refused. */
  function ChangedAttempt(a: Attempt, change: AttemptChange): Result<Attempt, Error> {
    match change
    case InputBaseline(message) =>
      if !a.status.Running? || a.executionStarted then Err(AttemptLifecycleViolation)
      else Ok(a.(errorMessage := message))
    case ExecutionStarted =>
      if !a.status.Running? then Err(AttemptTerminal)
      else if a.executionStarted then Err(AttemptLifecycleViolation)
      else Ok(a.(executionStarted := true))
    case Finalize(status, resultCode) =>
      if !a.status.Running? then Err(AttemptTerminal)
      else Ok(a.(status := status, resultCode := resultCode))
  }

  function AttemptChanged(s: Store, attemptId: Id, expectedRevision: nat, change: AttemptChange): Result<Store, Error> {
    match AttemptById(s, attemptId)
    case None => Err(RecordNotFound)
    case Some(stored) =>
      if stored.revision != expectedRevision then Err(RevisionConflict)
      else match ChangedAttempt(stored.value, change)
        case Err(error) => Err(error)
        case Ok(value) =>
          Ok(s.(attempts := s.attempts[s.attemptIds[attemptId] := Stored(value, stored.revision + 1)]))
  }

  function ResolutionAppended(s: Store, resolution: Resolution): Result<Store, Error> {
    match AttemptById(s, resolution.attemptId)
    case None => Err(RecordNotFound)
    case Some(stored) =>
      if !stored.value.status.Unknown? && !stored.value.status.Failed? then Err(AttemptLifecycleViolation)
      else Ok(s.(resolutions := s.resolutions + [resolution]))
  }

  function AggregateUpdated(s: Store, expectedRevision: nat, status: RunStatus, started: bool): Result<Store, Error> {
    if s.run.revision != expectedRevision then Err(RevisionConflict)
    else Ok(s.(run := Stored(s.run.value.(status := status, started := started), s.run.revision + 1)))
  }

  function Statuses(states: map<Id, Stored<NodeState>>): set<Status> {
    set n | n in states :: states[n].value.status
  }

  /** Some node has this status. */
  predicate Occurs(states: map<Id, Stored<NodeState>>, status: Status) {
    exists n :: n in states && states[n].value.status == status
  }

  /** Some node is in trouble or at work. */
  predicate Unsettled(states: map<Id, Stored<NodeState>>) {
    Occurs(states, Unknown) || Occurs(states, Running) || Occurs(states, Failed) || Occurs(states, Blocked)
  }

  predicate AllSucceeded(states: map<Id, Stored<NodeState>>) {
    states != map[] && forall n :: n in states ==> states[n].value.status.Success?
  }

  /** What each status of a Run says about its nodes. */
  predicate Tells(status: RunStatus, started: bool, states: map<Id, Stored<NodeState>>) {
    && (status.RunUnknown? <==> Occurs(states, Unknown))
    && (status.RunFailed? <==>
         !Occurs(states, Unknown) && !Occurs(states, Running) && (Occurs(states, Failed) || Occurs(states, Blocked)))
    && (status.RunCancelled? <==> !Unsettled(states) && Occurs(states, Cancelled))
    && (status.RunSuccess? <==> AllSucceeded(states))
    && (status.RunCreated? <==> !started && Undone(states))
    && (status.RunRunning? <==> !Occurs(states, Unknown) && (Occurs(states, Running) || (started && Undone(states))))
  }

  /** The statuses that tell this about the nodes. */
  ghost function Telling(states: map<Id, Stored<NodeState>>, started: bool): iset<RunStatus> {
    iset status: RunStatus | Tells(status, started, states)
  }

  /** Nothing has gone wrong and not everything is done. */
  predicate Undone(states: map<Id, Stored<NodeState>>) {
    !Unsettled(states) && !Occurs(states, Cancelled) && !AllSucceeded(states)
  }

  lemma OccursIff(states: map<Id, Stored<NodeState>>, status: Status)
    ensures Occurs(states, status) <==> status in Statuses(states)
  {
  }

  lemma AllSucceededIff(states: map<Id, Stored<NodeState>>)
    ensures AllSucceeded(states) <==> Statuses(states) == {Success}
  {
    if states != map[] {
      var n :| n in states;
      assert states[n].value.status in Statuses(states);
    }
    if Statuses(states) == {Success} {
      forall n | n in states ensures states[n].value.status.Success? { assert states[n].value.status in Statuses(states); }
    }
  }

  /** The aggregate is the one status that tells this about the nodes. */
  lemma AggregateTells(states: map<Id, Stored<NodeState>>, status: RunStatus, started: bool)
    ensures status == RunAggregate(Statuses(states), started) <==> Tells(status, started, states)
  {
    OccursIff(states, Unknown);
    OccursIff(states, Running);
    OccursIff(states, Failed);
    OccursIff(states, Blocked);
    OccursIff(states, Cancelled);
    AllSucceededIff(states);
  }
}
