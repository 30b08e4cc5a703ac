/** From a request to a Run that may be scheduled: refusals, missing states, the gate, rerun-from. */
module EnsureRun {
  import opened Dag
  import opened Domain
  import opened StoreContract
  import opened Repository
  import opened Invariants
  import opened StoreWrites
  import opened GuardedWrites
  import opened Reconciliation
  import opened Gate = ReconcileRun
  import opened Recovery
  import opened Descendants
  import opened Rerun
  import opened Choices

  datatype Request = NewRun | ResumeRun | RerunRun(nodeId: Id)

  datatype Admission = AlreadySuccess | Admitted(mode: Mode, selection: set<Id>)

  datatype EnsureError =
    | RunOnHold
    | NotResumable
    | NotPrepared(why: PrepareError)
    | GateRefused(error: GateError)

  /** The gate as an invocation meets it. */
  method PassGate(repo: Repository, ghost def: Definition, ghost plain: bool) returns (r: Result<(), GateError>)
    requires repo.Contents() in Consistent(def, plain)
    modifies repo`states, repo`audits, repo`run
    ensures repo.Contents() in Consistent(def, plain) && repo.attempts == old(repo.attempts)
    ensures old(DependencySafe(def, repo.states)) ==> DependencySafe(def, repo.states)
    ensures r.Ok? ==> repo.Contents() in Settled(def, plain) && !Undecidable(old(repo.Contents()))
    ensures r.Ok? ==> repo.states == ReconciledStates(old(repo.Contents()))
    ensures r.Ok? ==> Underway(repo.Contents())
    ensures r.Ok? ==> Tells(repo.run.value.status, repo.run.value.started, repo.states)
    ensures r.Err? && r.error.ReconciliationRequired? ==> Undecidable(old(repo.Contents()))
  {
    ghost var s := repo.Contents();
    ConsistentIsWellKeyed(def, plain, s);
    ghost var trail;
    r, trail := Gate.ReconcileRun(repo, def, plain);
    if r.Ok? {
      GateLeavesNoWindow(def, plain, s, repo.Contents());
      GateLeavesUnderway(def, plain, s, repo.Contents());
    }
  }

  /** The refusals of a request for a Run that already exists, before anything is written. */
  function RequestRefusal(run: Run, hold: bool, request: Request): Option<EnsureError> {
    if hold then Some(RunOnHold)
    else if run.archived && !(request.RerunRun? && run.status.RunSuccess?) then Some(NotResumable)
    else None
  }

  /** An archived Run is not taken up again; a rerun of one that succeeded is refused for its success. */
  predicate NotResumed(run: Run, request: Request) {
    match request
    case NewRun => false
    case ResumeRun => run.archived
    case RerunRun(_) => run.archived && !run.status.RunSuccess?
  }

  function PlainAfter(plain: bool, request: Request): bool {
    plain && !request.RerunRun?
  }

  /** Creates missing node states and passes the gate. */
  method Open(repo: Repository, def: Definition, ghost plain: bool) returns (r: Result<(), EnsureError>)
    requires UniqueIds(def) && repo.Contents() in Consistent(def, plain)
    modifies repo`states, repo`audits, repo`run
    ensures repo.Contents() in Consistent(def, plain) && repo.attempts == old(repo.attempts)
    ensures old(DependencySafe(def, repo.states)) ==> DependencySafe(def, repo.states)
    ensures r.Ok? ==> repo.Contents() in Settled(def, plain) && repo.states.Keys == IdSet(def) && Underway(repo.Contents())
    ensures r.Err? ==> r.error.NotPrepared? || r.error.GateRefused?
  {
    var filled := EnsureNodeStates(repo, def, def, plain);
    if filled.Err? { return Err(NotPrepared(filled.error)); }
    ghost var states := repo.states;
    var gate := PassGate(repo, def, plain);
    if gate.Err? { return Err(GateRefused(gate.error)); }
    return Ok(());
  }

  /** Every selected node is WAITING, on no attempt and blocked by nothing. */
  predicate SelectionWaits(states: map<Id, Stored<NodeState>>, selection: set<Id>) {
    forall n :: n in selection ==>
      n in states && states[n].value.status.Waiting? && states[n].value.activeAttemptId.None? && states[n].value.blockedBy == []
  }

  /** `half` says that a rerun-from died between two of its resets. */
  method Reselect(repo: Repository, def: Definition, ghost plain: bool, nodeId: Id)
    returns (r: Result<Admission, EnsureError>, ghost half: bool)
    requires repo.Contents() in Settled(def, plain) && repo.states.Keys == IdSet(def)
    modifies repo`states
    ensures repo.Contents() in Settled(def, false)
    ensures old(DependencySafe(def, repo.states)) && !half ==> DependencySafe(def, repo.states)
    ensures half ==> r.Err?
    ensures r.Err? ==> r.error.NotPrepared?
    ensures r.Ok? ==> repo.states.Keys == IdSet(def)
    ensures old(Underway(repo.Contents())) ==> Underway(repo.Contents())
    ensures r.Ok? ==> r.value == Admitted(RerunFrom, DescendantsOf(def, {nodeId}))
    ensures r.Ok? ==> SelectionWaits(repo.states, DescendantsOf(def, {nodeId}))
    ensures r.Ok? ==> Rerunnable(repo.run.value, old(repo.states), DescendantsOf(def, {nodeId}))
  {
    ghost var s, states := repo.Contents(), repo.states;
    var prepared, done := PrepareRerunFrom(repo, def, plain, nodeId);
    ghost var ids := InDefinitionOrder(def, DescendantsOf(def, {nodeId}));
    half := 0 < done < |ids|;
    assert Elements(ids) == DescendantsOf(def, {nodeId});
    ResetsStayUnderway(s, repo.Contents(), Elements(ids[..done]));
    if DependencySafe(def, states) && !half { WholeRerunIsSafe(def, states, nodeId, ids, done); }
    if prepared.Err? {
      half := 0 < done < |ids|;
      return Err(NotPrepared(prepared.error)), half;
    }
    return Ok(Admitted(RerunFrom, Elements(prepared.value))), false;
  }

  /** A reset only takes RUNNING nodes away. */
  lemma ResetsStayUnderway(s: Store, t: Store, done: set<Id>)
    requires t.attempts == s.attempts && t.attemptIds == s.attemptIds && t.states == ResetStates(s.states, done)
    ensures Underway(s) ==> Underway(t)
  {
    if Underway(s) {
      forall n | n in t.states && t.states[n].value.status.Running? ensures AtWork(t, n) {
        assert AtWork(s, n);
      }
    }
  }

  /** No reset or all of them: the network stays safe. */
  lemma WholeRerunIsSafe(def: Definition, states: map<Id, Stored<NodeState>>, nodeId: Id, ids: seq<Id>, done: nat)
    requires DependencySafe(def, states) && states.Keys == IdSet(def)
    requires ids == InDefinitionOrder(def, DescendantsOf(def, {nodeId}))
    requires done == 0 || (done == |ids| && nodeId in IdSet(def))
    ensures DependencySafe(def, ResetStates(states, Elements(ids[..done])))
  {
    if done > 0 {
      assert ids[..done] == ids && Elements(ids) == DescendantsOf(def, {nodeId});
      CompletedRerunIsSafe(def, states, nodeId);
    } else {
      assert Elements(ids) == DescendantsOf(def, {nodeId});
      assert ResetStates(states, {}) == states;
    }
  }

  /** From a request to a store that the scheduler may walk. */
  method EnsureRun(repo: Repository, def: Definition, ghost plain: bool, request: Request)
    returns (r: Result<Admission, EnsureError>, ghost half: bool)
    requires UniqueIds(def) && repo.Contents() in Consistent(def, plain)
    modifies repo
    ensures repo.Contents() in Consistent(def, PlainAfter(plain, request))
    ensures old(DependencySafe(def, repo.states)) && !half ==> DependencySafe(def, repo.states)
    ensures half ==> request.RerunRun? && r.Err?
    ensures r.Ok? && r.value.Admitted? ==>
      repo.Contents() in Settled(def, PlainAfter(plain, request)) && repo.states.Keys == IdSet(def) && Underway(repo.Contents())
    ensures repo.attempts == old(repo.attempts)
    ensures r.Ok? && r.value.Admitted? ==>
      (r.value.mode.RerunFrom? <==> request.RerunRun?) && (r.value.mode.New? <==> request.NewRun?)
    ensures r.Ok? && r.value.AlreadySuccess? ==>
      repo.Contents() == old(repo.Contents()) && repo.run.value.status.RunSuccess? && request.ResumeRun?
    ensures r.Err? && (r.error.RunOnHold? || r.error.NotResumable?) ==> repo.Contents() == old(repo.Contents())
    ensures r.Err? && r.error.RunOnHold? ==> !request.NewRun? && IsCancelHold(repo.cancelRequest)
    ensures r.Err? && r.error.NotResumable? ==>
      !request.NewRun? && !IsCancelHold(repo.cancelRequest) && NotResumed(repo.run.value, request)
    ensures r.Ok? && r.value.Admitted? && !request.NewRun? ==>
      !IsCancelHold(repo.cancelRequest) && !NotResumed(old(repo.run.value), request)
    ensures r.Ok? && r.value.Admitted? && request.RerunRun? ==> !repo.run.value.status.RunSuccess?
    ensures r.Ok? && r.value.Admitted? && request.RerunRun? ==>
      r.value.selection == DescendantsOf(def, {request.nodeId}) && SelectionWaits(repo.states, r.value.selection)
  {
    half := false;
    WeakerConsistency(def, plain, repo.Contents());
    if !request.NewRun? {
      if repo.run.value.status.RunSuccess? && !request.RerunRun? { return Ok(AlreadySuccess), false; }
      var hold := repo.GetCancelRequest();
      var refusal := RequestRefusal(repo.run.value, IsCancelHold(hold), request);
      if refusal.Some? { return Err(refusal.value), false; }
    }
    var ready := Open(repo, def, plain);
    WeakerConsistency(def, plain, repo.Contents());
    if ready.Err? { return Err(ready.error), false; }
    if request.RerunRun? {
      r, half := Reselect(repo, def, plain, request.nodeId);
    } else {
      r := Ok(Admitted(if request.NewRun? then New else Resume, {}));
    }
  }
}
