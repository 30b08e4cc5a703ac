/** The only human exit from UNKNOWN: an audited resolution, then the node state it decides. */
module ResolveNode {
  import opened Dag
  import opened Domain
  import opened StoreContract
  import opened Repository
  import opened Invariants
  import opened Writes
  import opened StoreWrites
  import opened GuardedWrites
  import opened ReconcileRun

  datatype ResolutionType = OutcomeConfirmed | ManualCompletionConfirmed | CompensationCompleted

  datatype Input = Input(
    nodeId: Id,
    outcome: Outcome,
    resolutionType: ResolutionType,
    reason: string,
    evidenceRef: string,
    servicePrincipal: string,
    requestedBy: string,
    approvedBy: string,
    stopConfirmedBy: string,
    stopEvidenceRef: string,
    resolvedAt: int)

  datatype ResolveError =
    | AuditInputRequired
    | CompensationCannotSucceed
    | ManualCompletionRequired
    | ManualCompletionRequiresSuccess
    | NodeStateNotUnique
    | NodeNotResolvable
    | DistinctApproverRequired
    | CurrentAttemptNotUnique
    | StateAttemptMismatch
    | ResolutionNotStored(error: Error)
    | StateNotStored(error: Error)

  predicate Blank(text: string) {
    Trim(text) == ""
  }

  /** Someone other than the requester and the service approved it. */
  predicate DistinctlyApproved(input: Input) {
    !Blank(input.approvedBy) && Trim(input.approvedBy) != Trim(input.requestedBy) &&
    Trim(input.approvedBy) != Trim(input.servicePrincipal)
  }

  /** The refusals that need no store, in order. */
  function InputRefusal(input: Input): Option<ResolveError> {
    if Blank(input.nodeId) || Blank(input.reason) || Blank(input.evidenceRef) || Blank(input.servicePrincipal) ||
       Blank(input.requestedBy) || Blank(input.stopConfirmedBy) || Blank(input.stopEvidenceRef)
    then Some(AuditInputRequired)
    else if input.resolutionType.CompensationCompleted? && input.outcome.Success? then Some(CompensationCannotSucceed)
    else if input.outcome.Success? && !input.resolutionType.ManualCompletionConfirmed? then Some(ManualCompletionRequired)
    else if input.resolutionType.ManualCompletionConfirmed? && !input.outcome.Success? then Some(ManualCompletionRequiresSuccess)
    else None
  }

  predicate Eligible(state: NodeState) {
    state.status.Unknown? || (state.status.Failed? && !state.idempotent)
  }

  function StoreRefusal(input: Input, states: map<Id, Stored<NodeState>>, attempts: map<AttemptKey, Stored<Attempt>>):
      Option<ResolveError> {
    if input.nodeId !in states then Some(NodeStateNotUnique)
    else
      var state := states[input.nodeId].value;
      var key := AttemptKey(input.nodeId, state.latestAttemptNo);
      if !Eligible(state) then Some(NodeNotResolvable)
      else if !state.idempotent && input.outcome.Success? && !DistinctlyApproved(input) then Some(DistinctApproverRequired)
      else if key !in attempts then Some(CurrentAttemptNotUnique)
      else if attempts[key].value.status != state.status then Some(StateAttemptMismatch)
      else None
  }

  /** Every text an audit needs is there. */
  predicate Audited(input: Input) {
    forall text :: text in AuditTexts(input) ==> !Blank(text)
  }

  function AuditTexts(input: Input): seq<string> {
    [input.nodeId, input.reason, input.evidenceRef, input.servicePrincipal, input.requestedBy, input.stopConfirmedBy,
     input.stopEvidenceRef]
  }

  /** SUCCESS goes together with a confirmed manual completion. */
  predicate WellFormed(input: Input) {
    Audited(input) && (input.outcome.Success? <==> input.resolutionType.ManualCompletionConfirmed?)
  }

  /** The number of the attempt a resolution is about. */
  function CurrentAttempt(nodeId: Id, states: map<Id, Stored<NodeState>>): AttemptKey
    requires nodeId in states
  {
    AttemptKey(nodeId, states[nodeId].value.latestAttemptNo)
  }

  /** A well-formed input about an unresolved end that its latest attempt bears out. */
  predicate Acceptable(input: Input, states: map<Id, Stored<NodeState>>, attempts: map<AttemptKey, Stored<Attempt>>) {
    && WellFormed(input) && input.nodeId in states && CurrentAttempt(input.nodeId, states) in attempts
    && attempts[CurrentAttempt(input.nodeId, states)].value.status == states[input.nodeId].value.status
    && (states[input.nodeId].value.status.Unknown? || states[input.nodeId].value.status.Failed?)
    && (states[input.nodeId].value.idempotent ==> states[input.nodeId].value.status.Unknown?)
    && (input.outcome.Success? && !states[input.nodeId].value.idempotent ==>
          Trim(input.approvedBy) !in {"", Trim(input.requestedBy), Trim(input.servicePrincipal)})
  }

  /** The reason fits, and no reason that is named before it does. */
  predicate RefusedFor(error: ResolveError, input: Input, states: map<Id, Stored<NodeState>>,
                       attempts: map<AttemptKey, Stored<Attempt>>) {
    match error
    case AuditInputRequired => !Audited(input)
    case CompensationCannotSucceed =>
      Audited(input) && input.outcome.Success? && input.resolutionType.CompensationCompleted?
    case ManualCompletionRequired =>
      Audited(input) && input.outcome.Success? && input.resolutionType.OutcomeConfirmed?
    case ManualCompletionRequiresSuccess =>
      Audited(input) && !input.outcome.Success? && input.resolutionType.ManualCompletionConfirmed?
    case NodeStateNotUnique => WellFormed(input) && input.nodeId !in states
    case NodeNotResolvable => WellFormed(input) && input.nodeId in states && !Eligible(states[input.nodeId].value)
    case DistinctApproverRequired =>
      && WellFormed(input) && input.nodeId in states && Eligible(states[input.nodeId].value)
      && !states[input.nodeId].value.idempotent && input.outcome.Success? && !DistinctlyApproved(input)
    case CurrentAttemptNotUnique =>
      && WellFormed(input) && input.nodeId in states && Eligible(states[input.nodeId].value)
      && CurrentAttempt(input.nodeId, states) !in attempts
    case StateAttemptMismatch =>
      && WellFormed(input) && input.nodeId in states && Eligible(states[input.nodeId].value)
      && CurrentAttempt(input.nodeId, states) in attempts
      && attempts[CurrentAttempt(input.nodeId, states)].value.status != states[input.nodeId].value.status
    case _ => false
  }

  lemma RefusalsAreRight(input: Input, states: map<Id, Stored<NodeState>>, attempts: map<AttemptKey, Stored<Attempt>>)
    ensures InputRefusal(input).None? <==> WellFormed(input)
    ensures InputRefusal(input).None? && StoreRefusal(input, states, attempts).None? <==> Acceptable(input, states, attempts)
    ensures InputRefusal(input).Some? ==> RefusedFor(InputRefusal(input).value, input, states, attempts)
    ensures InputRefusal(input).None? && StoreRefusal(input, states, attempts).Some? ==>
      RefusedFor(StoreRefusal(input, states, attempts).value, input, states, attempts)
  {
    AuditedIff(input);
  }

  lemma AuditedIff(input: Input)
    ensures Audited(input) <==> InputRefusal(input) != Some(AuditInputRequired)
  {
    var texts := AuditTexts(input);
    assert texts[0] in texts && texts[1] in texts && texts[2] in texts && texts[3] in texts;
    assert texts[4] in texts && texts[5] in texts && texts[6] in texts;
  }

  /** A resolution sets the status, ends the active attempt and leaves the rest of the record alone. */
  predicate Resolves(before: NodeState, after: NodeState, outcome: Outcome) {
    && after.status == outcome && after.activeAttemptId.None?
    && after.nodeId == before.nodeId && after.latestAttemptNo == before.latestAttemptNo
    && after.idempotent == before.idempotent && after.blockedBy == before.blockedBy
  }

  /** The resolution of an accepted input: it names the latest attempt. */
  function ResolutionOf(input: Input, states: map<Id, Stored<NodeState>>, attempts: map<AttemptKey, Stored<Attempt>>): Resolution
    requires input.nodeId in states && CurrentAttempt(input.nodeId, states) in attempts
  {
    Resolution(attempts[CurrentAttempt(input.nodeId, states)].value.attemptId, input.outcome, input.resolvedAt)
  }

  function ResolvedState(state: NodeState, outcome: Outcome): NodeState {
    state.(status := outcome, activeAttemptId := None)
  }

  /**
   * Appends the resolution, then moves the state. Dying in between leaves a recorded
   * resolution that the next gate applies.
   */
  method ResolveNode(repo: Repository, ghost def: Definition, ghost plain: bool, input: Input)
    returns (r: Result<Stored<NodeState>, ResolveError>)
    requires repo.Contents() in Consistent(def, plain)
    modifies repo`states, repo`resolutions
    ensures repo.Contents() in Consistent(def, plain)
    ensures old(NoWindow(repo.Contents())) ==> NoWindow(repo.Contents())
    ensures old(DependencySafe(def, repo.states)) ==> DependencySafe(def, repo.states)
    ensures r.Ok? || r.error.ResolutionNotStored? || r.error.StateNotStored? ==>
      Acceptable(input, old(repo.states), repo.attempts)
    ensures r.Err? && !r.error.ResolutionNotStored? && !r.error.StateNotStored? ==>
      RefusedFor(r.error, input, old(repo.states), repo.attempts)
    ensures r.Ok? ==> r.value == NextRecord(old(repo.states)[input.nodeId],
                                            ResolvedState(old(repo.states)[input.nodeId].value, input.outcome))
    ensures r.Ok? ==> Resolves(old(repo.states)[input.nodeId].value, r.value.value, input.outcome)
    ensures r.Ok? ==> repo.states == old(repo.states)[input.nodeId := r.value]
    ensures r.Ok? || r.error.StateNotStored? ==>
      repo.resolutions == old(repo.resolutions) + [ResolutionOf(input, old(repo.states), repo.attempts)]
    ensures r.Err? ==> repo.states == old(repo.states)
    ensures r.Err? && !r.error.StateNotStored? ==> repo.resolutions == old(repo.resolutions)
    ensures r.Err? && r.error.StateNotStored? ==> r.error.error.ProcessDied?
  {
    RefusalsAreRight(input, repo.states, repo.attempts);
    var refused := InputRefusal(input);
    if refused.Some? { return Err(refused.value); }
    refused := StoreRefusal(input, repo.states, repo.attempts);
    if refused.Some? { return Err(refused.value); }
    var state := repo.states[input.nodeId];
    var attempt := repo.attempts[AttemptKey(input.nodeId, state.value.latestAttemptNo)];
    var resolution := Resolution(attempt.value.attemptId, input.outcome, input.resolvedAt);
    r := RecordResolution(repo, def, plain, input.nodeId, state, resolution);
  }

  /** `resolution` decides the latest attempt of `n`, whose record is `state`. */
  ghost predicate Resolvable(s: Store, n: Id, state: Stored<NodeState>, resolution: Resolution) {
    && n in s.states && s.states[n] == state && Eligible(state.value)
    && AttemptKey(n, state.value.latestAttemptNo) in s.attempts
    && s.attempts[AttemptKey(n, state.value.latestAttemptNo)].value.attemptId == resolution.attemptId
  }

  /** The two ordered writes of a resolution. */
  method RecordResolution(repo: Repository, ghost def: Definition, ghost plain: bool,
                          n: Id, state: Stored<NodeState>, resolution: Resolution)
    returns (r: Result<Stored<NodeState>, ResolveError>)
    requires repo.Contents() in Consistent(def, plain)
    requires Resolvable(repo.Contents(), n, state, resolution)
    modifies repo`states, repo`resolutions
    ensures repo.Contents() in Consistent(def, plain)
    ensures old(NoWindow(repo.Contents())) ==> NoWindow(repo.Contents())
    ensures old(DependencySafe(def, repo.states)) ==> DependencySafe(def, repo.states)
    ensures r.Ok? ==> r.value == NextRecord(state, ResolvedState(state.value, resolution.outcome))
    ensures r.Ok? ==> repo.states == old(repo.states)[n := r.value]
    ensures r.Ok? || r.error.StateNotStored? ==> repo.resolutions == old(repo.resolutions) + [resolution]
    ensures r.Err? ==> repo.states == old(repo.states)
    ensures r.Err? ==> r.error.ResolutionNotStored? || (r.error.StateNotStored? && r.error.error.ProcessDied?)
    ensures r.Err? && r.error.ResolutionNotStored? ==> repo.resolutions == old(repo.resolutions)
  {
    ghost var s := repo.Contents();
    var appended := repo.AppendResolution(resolution);
    if appended.Err? { return Err(ResolutionNotStored(appended.error)); }
    ResolutionRecorded(def, s, repo.Contents(), n, resolution, plain);
    r := FollowResolution(repo, def, plain, n, state, resolution);
  }

  /** The state write of a resolution that is already recorded. */
  method FollowResolution(repo: Repository, ghost def: Definition, ghost plain: bool,
                          n: Id, state: Stored<NodeState>, resolution: Resolution)
    returns (r: Result<Stored<NodeState>, ResolveError>)
    requires repo.Contents() in Consistent(def, plain) && Resolvable(repo.Contents(), n, state, resolution)
    requires resolution in repo.resolutions
    modifies repo`states
    ensures repo.Contents() in Consistent(def, plain)
    ensures old(NoWindow(repo.Contents())) ==> NoWindow(repo.Contents())
    ensures old(DependencySafe(def, repo.states)) ==> DependencySafe(def, repo.states)
    ensures r.Ok? ==> r.value == NextRecord(state, ResolvedState(state.value, resolution.outcome))
    ensures r.Ok? ==> repo.states == old(repo.states)[n := r.value]
    ensures r.Err? ==> repo.states == old(repo.states) && r.error == StateNotStored(ProcessDied)
  {
    ghost var t := repo.Contents();
    var value := ResolvedState(state.value, resolution.outcome);
    ResolutionSound(def, plain, t, n, resolution);
    var written := PutState(repo, def, plain, plain, n, state, value, Some(resolution));
    if written.Err? { return Err(StateNotStored(written.error)); }
    if DependencySafe(def, t.states) { SafeStarted(def, t.states, n, written.value); }
    return Ok(written.value);
  }

  /** Once the resolution of the latest attempt is recorded, the state may follow it. */
  lemma ResolutionSound(def: Definition, plain: bool, s: Store, n: Id, resolution: Resolution)
    requires s in Consistent(def, plain) && n in s.states && Eligible(s.states[n].value)
    requires AttemptKey(n, s.states[n].value.latestAttemptNo) in s.attempts
    requires s.attempts[AttemptKey(n, s.states[n].value.latestAttemptNo)].value.attemptId == resolution.attemptId
    requires resolution in s.resolutions
    ensures s.states[n].value.nodeId == n && n in IdSet(def)
    ensures var w' := WithState(ViewOf(s, n), ResolvedState(s.states[n].value, resolution.outcome));
      w' in Sound(plain) && !Window(w')
  {
    var w := ViewOf(s, n);
    assert IndexedState(s, n) && MatchesNode(def, s.states, n);
    assert w in Sound(plain);
    OutcomeListed(s.resolutions, resolution);
    ResolvedTo(w, ResolvedState(w.state, resolution.outcome), plain);
  }

  /** A non-idempotent node is only resolved to SUCCESS with a distinct approver and a confirmed manual completion. */
  lemma SuccessNeedsApproval(input: Input, states: map<Id, Stored<NodeState>>, attempts: map<AttemptKey, Stored<Attempt>>)
    requires InputRefusal(input).None? && StoreRefusal(input, states, attempts).None? && input.outcome.Success?
    ensures input.resolutionType.ManualCompletionConfirmed?
    ensures !states[input.nodeId].value.idempotent ==> DistinctlyApproved(input)
    ensures states[input.nodeId].value.status.Unknown? || !states[input.nodeId].value.idempotent
  {
  }
}
