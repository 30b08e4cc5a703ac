/** Statuses, records and the aggregate rule of one Network Run. */
module Domain {
  import opened Dag

  datatype Option<+T> = None | Some(value: T)
  datatype Result<+T, +E> = Ok(value: T) | Err(error: E)

  /** Node State statuses; an attempt uses the subset named by IsAttemptStatus. */
  datatype Status = Waiting | Running | Success | Failed | Blocked | Skipped | Cancelled | Unknown

  predicate IsAttemptStatus(s: Status) {
    s.Running? || TerminalAttempt(s)
  }

  predicate TerminalAttempt(s: Status) {
    s.Success? || s.Failed? || s.Cancelled? || s.Unknown?
  }

  predicate TerminalState(s: Status) {
    TerminalAttempt(s) || s.Blocked? || s.Skipped?
  }

  /** A dependency in one of these statuses blocks its dependents. */
  predicate BlocksDependents(s: Status) {
    s.Failed? || s.Blocked? || s.Cancelled? || s.Unknown?
  }

  /** The statuses of a node whose job has been started at least once since its last reset. */
  predicate HasStarted(s: Status) {
    s.Running? || TerminalAttempt(s)
  }

  predicate AllowedTransition(from: Status, to: Status) {
    match from
    case Waiting => to.Waiting? || to.Running? || to.Blocked?
    case Running => to.Running? || to.Waiting? || TerminalAttempt(to)
    case Success => to.Success? || to.Waiting?
    case Failed => to.Failed? || to.Waiting?
    case Blocked => to.Blocked? || to.Waiting?
    case Skipped => to.Skipped?
    case Cancelled => to.Cancelled? || to.Waiting?
    case Unknown => TerminalAttempt(to)
  }

  predicate IsOutcome(s: Status) {
    s.Success? || s.Failed? || s.Cancelled?
  }

  /** What a human may resolve an attempt to. */
  type Outcome = s: Status | IsOutcome(s) witness Success

  predicate AllowedResolution(from: Status, to: Status) {
    from.Failed? && IsOutcome(to)
  }

  datatype RunStatus = RunCreated | RunRunning | RunSuccess | RunFailed | RunCancelled | RunUnknown

  /** The Run status implied by the statuses that occur among its Node States. */
  function RunAggregate(statuses: set<Status>, started: bool): RunStatus {
    if Unknown in statuses then RunUnknown
    else if Running in statuses then RunRunning
    else if Failed in statuses || Blocked in statuses then RunFailed
    else if Cancelled in statuses then RunCancelled
    else if statuses == {Success} then RunSuccess
    else if started then RunRunning else RunCreated
  }

  datatype Stored<T> = Stored(value: T, revision: nat)

  datatype Run = Run(status: RunStatus, started: bool, archived: bool)

  datatype NodeState = NodeState(
    nodeId: Id,
    status: Status,
    latestAttemptNo: nat,
    activeAttemptId: Option<Id>,
    revision: nat,
    idempotent: bool,
    blockedBy: seq<Id>)

  datatype AttemptKey = AttemptKey(nodeId: Id, attemptNo: nat)

  datatype Attempt = Attempt(
    attemptId: Id,
    nodeId: Id,
    attemptNo: nat,
    invocationId: Id,
    status: Status,
    resultCode: string,
    executionStarted: bool,
    errorMessage: string,
    stateRevisionBefore: Option<nat>)

  datatype Resolution = Resolution(attemptId: Id, outcome: Outcome, resolvedAt: int)

  datatype RepairType = TerminalAttemptApplied | AttemptResolutionApplied | RunAggregateRecomputed

  /** One RECONCILIATION_REPAIR event; the target of an aggregate repair is the Run itself. */
  datatype Audit = Audit(repair: RepairType, nodeId: Option<Id>)

  datatype CancelState = Requested | Accepted | Released

  predicate IsCancelHold(request: Option<Stored<CancelState>>) {
    request.Some? && !request.value.value.Released?
  }

  predicate AllowedCancelTransition(from: CancelState, to: CancelState) {
    (from.Requested? && !to.Requested?) || (from.Accepted? && to.Released?) || (from.Released? && to.Requested?)
  }

  const PREPARE_FAILED := "PREPARE_FAILED"

  /** The attempt never ran its job and may be retried by anyone. */
  predicate PrepareFailed(a: Attempt) {
    a.status.Cancelled? && a.resultCode == PREPARE_FAILED
  }
}
