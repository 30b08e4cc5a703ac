/** The reconciliation of a Run, its detection-only twin, and what the two say about each other. */
module ReconcileRun {
  import opened Dag
  import opened Domain
  import opened StoreContract
  import opened Repository
  import opened Invariants
  import opened Writes
  import opened StoreWrites
  import opened Reconciliation

  function ActivePlan(s: Store): map<Id, Verdict> {
    map n | n in s.states :: ActiveVerdict(s, n)
  }

  function ResolutionPlan(s: Store): map<Id, Verdict> {
    map n | n in s.states :: CurrentResolution(s, n)
  }

  function CurrentKey(s: Store, n: Id): AttemptKey
    requires n in s.states
  {
    AttemptKey(n, s.states[n].value.latestAttemptNo)
  }

  /** The resolution each planned repair is correlated with: the latest of its attempt. */
  function ResolutionEvents(s: Store): map<Id, Resolution> {
    map n | n in s.states && CurrentKey(s, n) in s.attempts && HasResolution(s, CurrentKey(s, n)) ::
      LatestResolution(Grouped(s.resolutions, s.attempts[CurrentKey(s, n)].value.attemptId))
  }

  // ---- Every planned repair is decided ------------------------------------

  lemma ActiveDecided(def: Definition, plain: bool, s: Store, n: Id)
    requires WellKeyed(s) && n in s.states && ActiveVerdict(s, n).Repair?
    ensures Decided(def, plain, s, n, s.states[n], ActiveVerdict(s, n).status, None)
  {
    var status := ActiveVerdict(s, n).status;
    assert TerminalAttempt(status) && AllowedTransition(s.states[n].value.status, status);
    if s in Consistent(def, plain) {
      var w := ViewOf(s, n);
      assert w in Sound(plain);
      ActiveIsLatest(def, s, n, plain);
      Applied(w, w.state.(status := status, activeAttemptId := None), plain);
    }
  }

  lemma AfterActiveSound(def: Definition, plain: bool, s: Store, n: Id)
    requires WellKeyed(s) && n in s.states && s in Consistent(def, plain)
    ensures ViewWith(s, n, AfterActive(s, n)) in Sound(plain)
  {
    if ActiveVerdict(s, n).Repair? {
      ActiveDecided(def, plain, s, n);
      var w := WithState(ViewWith(s, n, s.states[n]), RepairWrite(s.states[n], ActiveVerdict(s, n).status, None).value);
      assert ViewOf(s, n) in Sound(plain);
      assert w == ViewWith(s, n, AfterActive(s, n));
    } else {
      assert ViewOf(s, n) in Sound(plain);
    }
  }

  /** What a planned resolution repair relies on. */
  lemma ResolutionFacts(s: Store, n: Id)
    requires WellKeyed(s) && n in s.states && CurrentResolution(s, n).Repair?
    ensures n in ResolutionEvents(s) && ResolutionEvents(s)[n] in s.resolutions
    ensures CurrentKey(s, n) in s.attempts
    ensures ResolutionEvents(s)[n].attemptId == s.attempts[CurrentKey(s, n)].value.attemptId
    ensures ResolutionEvents(s)[n].outcome == CurrentResolution(s, n).status
    ensures AfterActive(s, n).value.status.Unknown? ||
      (AfterActive(s, n).value.status.Failed? && !AfterActive(s, n).value.idempotent)
    ensures AfterActive(s, n).value.nodeId == n
    ensures AfterActive(s, n).value.latestAttemptNo == s.states[n].value.latestAttemptNo
  {
    var g := Grouped(s.resolutions, s.attempts[CurrentKey(s, n)].value.attemptId);
    assert LatestResolution(g).outcome == g[0].outcome;
  }

  /** A recorded outcome of the latest attempt decides an UNKNOWN or non-idempotent FAILED record. */
  lemma OutcomeDecided(def: Definition, plain: bool, s: Store, n: Id, current: Stored<NodeState>, event: Resolution)
    requires event in s.resolutions && current.value.nodeId == n
    requires current.value.status.Unknown? || (current.value.status.Failed? && !current.value.idempotent)
    requires AttemptKey(n, current.value.latestAttemptNo) in s.attempts
    requires s.attempts[AttemptKey(n, current.value.latestAttemptNo)].value.attemptId == event.attemptId
    requires s in Consistent(def, plain) ==> ViewWith(s, n, current) in Sound(plain)
    ensures Decided(def, plain, s, n, current, event.outcome, Some(event))
  {
    if s in Consistent(def, plain) {
      var w := ViewWith(s, n, current);
      OutcomeListed(s.resolutions, event);
      ResolvedTo(w, w.state.(status := event.outcome, activeAttemptId := None), plain);
    }
  }

  lemma ResolutionDecided(def: Definition, plain: bool, s: Store, n: Id)
    requires WellKeyed(s) && n in s.states && CurrentResolution(s, n).Repair?
    ensures n in ResolutionEvents(s)
    ensures Decided(def, plain, s, n, AfterActive(s, n), CurrentResolution(s, n).status, Some(ResolutionEvents(s)[n]))
  {
    ResolutionFacts(s, n);
    if s in Consistent(def, plain) { AfterActiveSound(def, plain, s, n); }
    OutcomeDecided(def, plain, s, n, AfterActive(s, n), ResolutionEvents(s)[n]);
  }

  lemma OutcomeListed(resolutions: seq<Resolution>, r: Resolution)
    requires r in resolutions
    ensures (r.attemptId, r.outcome) in ResolvedOutcomes(resolutions)
  {
    var i :| 0 <= i < |resolutions| && resolutions[i] == r;
  }

  // ---- The gate -----------------------------------------------------------

  datatype GateError = WriteFailed(error: Error) | ReconciliationRequired

  function AggregateOf(s: Store): RunStatus {
    RunAggregate(Statuses(ReconciledStates(s)), s.run.value.started)
  }

  /** One event per node and kind of repair, and one for the aggregate. */
  predicate IsRepairEvent(a: Audit, applied: set<Id>, resolved: set<Id>, aggregate: bool) {
    match a
    case Audit(TerminalAttemptApplied, Some(n)) => n in applied
    case Audit(AttemptResolutionApplied, Some(n)) => n in resolved
    case Audit(RunAggregateRecomputed, None) => aggregate
    case _ => false
  }

  /** The trail names each repair exactly once and nothing else. */
  ghost predicate Trail(trail: seq<Audit>, applied: set<Id>, resolved: set<Id>, aggregate: bool) {
    && (forall i, j :: 0 <= i < j < |trail| ==> trail[i] != trail[j])
    && (forall a :: a in trail <==> IsRepairEvent(a, applied, resolved, aggregate))
  }

  lemma TrailsJoin(x: seq<Audit>, y: seq<Audit>, applied: set<Id>, resolved: set<Id>)
    requires Audited(x, TerminalAttemptApplied, applied) && Audited(y, AttemptResolutionApplied, resolved)
    ensures Trail(x + y, applied, resolved, false)
    ensures Trail(x + y + [Audit(RunAggregateRecomputed, None)], applied, resolved, true)
  {
    assert forall a :: a in x <==> IsRepairEvent(a, applied, {}, false);
    assert forall a :: a in y <==> IsRepairEvent(a, {}, resolved, false);
    assert forall a :: a in x + y <==> IsRepairEvent(a, applied, resolved, false);
    assert forall a :: a in x + y + [Audit(RunAggregateRecomputed, None)] <==>
      a in x + y || a == Audit(RunAggregateRecomputed, None);
  }

  lemma ActivePlanDecided(def: Definition, plain: bool, s: Store)
    requires WellKeyed(s)
    ensures PlanDecided(def, plain, s, s.states, ActivePlan(s), map[])
  {
    forall n | n in s.states && ActiveVerdict(s, n).Repair?
      ensures Decided(def, plain, s, n, s.states[n], ActiveVerdict(s, n).status, EventFor(map[], n))
    {
      ActiveDecided(def, plain, s, n);
    }
  }

  function StatesAfterActive(s: Store): map<Id, Stored<NodeState>> {
    map n | n in s.states :: AfterActive(s, n)
  }

  lemma ResolutionPlanDecided(def: Definition, plain: bool, s: Store)
    requires WellKeyed(s)
    ensures PlanDecided(def, plain, s, StatesAfterActive(s), ResolutionPlan(s), ResolutionEvents(s))
  {
    forall n | n in s.states && CurrentResolution(s, n).Repair?
      ensures Decided(def, plain, s, n, AfterActive(s, n), CurrentResolution(s, n).status, EventFor(ResolutionEvents(s), n))
    {
      ResolutionDecided(def, plain, s, n);
    }
  }

  lemma PlansCompose(s: Store)
    ensures AppliedOutside(s.states, ActivePlan(s), {}) == StatesAfterActive(s)
    ensures AppliedOutside(StatesAfterActive(s), ResolutionPlan(s), {}) == ReconciledStates(s)
  {
  }

  /** The two repair stages, each over all nodes. */
  method RepairStates(repo: Repository, ghost def: Definition, ghost plain: bool, ghost s: Store,
                      base: map<Id, Stored<NodeState>>, actives: map<Id, Verdict>,
                      after: map<Id, Stored<NodeState>>, resolutions: map<Id, Verdict>, events: map<Id, Resolution>)
    returns (r: Result<(), Error>, ghost trail: seq<Audit>)
    requires repo.Contents() == s && s.states == base
    requires PlanDecided(def, plain, s, base, actives, map[]) && AppliedOutside(base, actives, {}) == after
    requires PlanDecided(def, plain, s, after, resolutions, events)
    modifies repo`states, repo`audits
    ensures Kept(def, plain, s, repo.Contents())
    ensures r.Err? ==> r.error.ProcessDied?
    ensures repo.audits == s.audits + trail
    ensures r.Ok? ==> repo.states == AppliedOutside(after, resolutions, {})
    ensures r.Ok? ==> Trail(trail, RepairedNodes(actives), RepairedNodes(resolutions), false)
    ensures r.Ok? ==> Trail(trail + [Audit(RunAggregateRecomputed, None)],
                            RepairedNodes(actives), RepairedNodes(resolutions), true)
  {
    var applied, x := ApplyPlan(repo, def, plain, s, base, actives, map[], TerminalAttemptApplied);
    trail := x;
    if applied.Err? { return Err(applied.error), trail; }
    var resolved, y := ApplyPlan(repo, def, plain, s, after, resolutions, events, AttemptResolutionApplied);
    trail := x + y;
    assert repo.audits == s.audits + trail;
    if resolved.Err? { return Err(resolved.error), trail; }
    TrailsJoin(x, y, RepairedNodes(actives), RepairedNodes(resolutions));
    return Ok(()), trail;
  }

  /** Recomputes the Run status if it is stale: the run write and its audit event. */
  method RepairAggregate(repo: Repository, ghost def: Definition, ghost plain: bool, ghost s: Store,
                         run: Stored<Run>, aggregate: RunStatus)
    returns (r: Result<(), Error>, ghost trail: seq<Audit>)
    requires Kept(def, plain, s, repo.Contents()) && repo.run == run
    modifies repo`run, repo`audits
    ensures Kept(def, plain, s, repo.Contents())
    ensures r.Err? ==> r.error.ProcessDied?
    ensures repo.audits == old(repo.audits) + trail
    ensures r.Ok? && aggregate == run.value.status ==> repo.run == run && trail == []
    ensures r.Ok? && aggregate != run.value.status ==>
      repo.run == Stored(run.value.(status := aggregate), run.revision + 1) &&
      trail == [Audit(RunAggregateRecomputed, None)]
  {
    trail := [];
    if aggregate == run.value.status { return Ok(()), trail; }
    ghost var t := repo.Contents();
    var updated := repo.UpdateRunAggregate(run.revision, aggregate, run.value.started);
    AuditKept(def, plain, s, t, repo.Contents());
    if updated.Err? { return Err(updated.error), trail; }
    t := repo.Contents();
    var audited := repo.AppendOperationAudit(Audit(RunAggregateRecomputed, None));
    AuditKept(def, plain, s, t, repo.Contents());
    if audited.Err? { return Err(audited.error), trail; }
    return Ok(()), [Audit(RunAggregateRecomputed, None)];
  }

  /** Everything the gate concludes from its reads. */
  datatype Plan = Plan(
    actives: map<Id, Verdict>,
    after: map<Id, Stored<NodeState>>,
    resolutions: map<Id, Verdict>,
    events: map<Id, Resolution>,
    final: map<Id, Stored<NodeState>>,
    aggregate: RunStatus,
    refuse: bool)

  function PlanOf(s: Store): Plan {
    Plan(ActivePlan(s), StatesAfterActive(s), ResolutionPlan(s), ResolutionEvents(s), ReconciledStates(s),
         AggregateOf(s), Undecidable(s))
  }

  ghost predicate Carriable(def: Definition, plain: bool, s: Store, plan: Plan) {
    && PlanDecided(def, plain, s, s.states, plan.actives, map[])
    && AppliedOutside(s.states, plan.actives, {}) == plan.after
    && PlanDecided(def, plain, s, plan.after, plan.resolutions, plan.events)
    && AppliedOutside(plan.after, plan.resolutions, {}) == plan.final
  }

  lemma PlanCarriable(def: Definition, plain: bool, s: Store)
    requires WellKeyed(s)
    ensures Carriable(def, plain, s, PlanOf(s))
  {
    ActivePlanDecided(def, plain, s);
    ResolutionPlanDecided(def, plain, s);
    PlansCompose(s);
  }

  function RunAfter(run: Stored<Run>, aggregate: RunStatus): Stored<Run> {
    if aggregate == run.value.status then run else Stored(run.value.(status := aggregate), run.revision + 1)
  }

  /** The gate ran to its end: every repair is stored and audited exactly once. */
  ghost predicate CarriedOut(s: Store, plan: Plan, states: map<Id, Stored<NodeState>>, run: Stored<Run>, trail: seq<Audit>) {
    && states == plan.final && run == RunAfter(s.run, plan.aggregate)
    && Trail(trail, RepairedNodes(plan.actives), RepairedNodes(plan.resolutions), plan.aggregate != s.run.value.status)
  }

  method CarryOut(repo: Repository, ghost def: Definition, ghost plain: bool, ghost s: Store, run: Stored<Run>,
                  states: map<Id, Stored<NodeState>>, plan: Plan)
    returns (r: Result<(), Error>, ghost trail: seq<Audit>)
    requires repo.Contents() == s && s.run == run && s.states == states && Carriable(def, plain, s, plan)
    modifies repo`states, repo`audits, repo`run
    ensures Kept(def, plain, s, repo.Contents())
    ensures repo.audits == s.audits + trail
    ensures r.Err? ==> r.error.ProcessDied?
    ensures r.Ok? ==> CarriedOut(s, plan, repo.states, repo.run, trail)
  {
    var repaired, first := RepairStates(repo, def, plain, s, states, plan.actives, plan.after, plan.resolutions, plan.events);
    if repaired.Err? { return Err(repaired.error), first; }
    var aggregated, last := RepairAggregate(repo, def, plain, s, run, plan.aggregate);
    trail := first + last;
    assert repo.audits == s.audits + trail;
    assert last == [] ==> trail == first;
    if aggregated.Err? { return Err(aggregated.error), trail; }
    return Ok(()), trail;
  }

  /** D-09: repairs what is decided, recomputes the aggregate, and refuses the rest. */
  method ReconcileRun(repo: Repository, ghost def: Definition, ghost plain: bool)
    returns (r: Result<(), GateError>, ghost trail: seq<Audit>)
    requires WellKeyed(repo.Contents())
    modifies repo`states, repo`audits, repo`run
    ensures Kept(def, plain, old(repo.Contents()), repo.Contents())
    ensures repo.audits == old(repo.audits) + trail
    ensures r.Err? && r.error.WriteFailed? ==> r.error.error.ProcessDied?
    ensures r.Ok? ==> !Undecidable(old(repo.Contents()))
    ensures r.Err? && r.error.ReconciliationRequired? ==> Undecidable(old(repo.Contents()))
    ensures r.Ok? || r.error.ReconciliationRequired? ==>
      CarriedOut(old(repo.Contents()), PlanOf(old(repo.Contents())), repo.states, repo.run, trail) &&
      Tells(repo.run.value.status, repo.run.value.started, repo.states)
  {
    var s := Store(repo.run, repo.states, repo.attempts, repo.attemptIds, repo.resolutions, repo.audits);
    var plan := PlanOf(s);
    PlanCarriable(def, plain, s);
    var carried;
    carried, trail := CarryOut(repo, def, plain, s, s.run, s.states, plan);
    if carried.Err? { return Err(WriteFailed(carried.error)), trail; }
    AggregateTells(plan.final, plan.aggregate, s.run.value.started);
    if plan.refuse { return Err(ReconciliationRequired), trail; }
    return Ok(()), trail;
  }
}
