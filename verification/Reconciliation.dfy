/**
 * The pre-DAG gate: inspect every node, apply what a terminal attempt or a
 * recorded resolution already decided, and refuse what cannot be decided.
 */
module Reconciliation {
  import opened Dag
  import opened Domain
  import opened StoreContract
  import opened Repository
  import opened Invariants
  import opened Writes
  import opened StoreWrites
  import opened GuardedWrites

  datatype Code =
    | ActiveAttemptIdMissing
    | ActiveAttemptNotFound
    | AttemptNodeStateMissing
    | StateTerminalAttemptRunning
    | StateAttemptStatusMismatch
    | MultipleRunningAttempts
    | RevisionSeriesInverted
    | RevisionSeriesUndetermined
    | ResolutionAttemptNotUnknown
    | ResolutionNotCurrentAttempt
    | ResolutionStateNotUnknown
    | ConflictingAttemptResolutions
    | TerminalAttemptPendingApply
    | AttemptResolutionPendingApply
    | RunAggregateMismatch

  /** What one inspection concludes about a node or an attempt. */
  datatype Verdict = Clean | Repair(status: Status) | Inconsistent(code: Code)

  // ---- Inspections --------------------------------------------------------

  /** The unique keys of the store: one state per node, one attempt per number and per id. */
  ghost predicate WellKeyed(s: Store) {
    && (forall n :: n in s.states ==> s.states[n].value.nodeId == n)
    && (forall k :: k in s.attempts ==>
          && s.attempts[k].value.nodeId == k.nodeId && s.attempts[k].value.attemptNo == k.attemptNo
          && s.attempts[k].value.attemptId in s.attemptIds && s.attemptIds[s.attempts[k].value.attemptId] == k)
    && (forall id :: id in s.attemptIds ==>
          s.attemptIds[id] in s.attempts && s.attempts[s.attemptIds[id]].value.attemptId == id)
  }

  function RunningOf(s: Store, n: Id): set<AttemptKey> {
    set k | k in s.attempts && k.nodeId == n && s.attempts[k].value.status.Running?
  }

  /** The node's own attempt that its state calls active. */
  function ActiveAttempt(s: Store, n: Id): Option<Attempt>
    requires n in s.states
  {
    match s.states[n].value.activeAttemptId
    case None => None
    case Some(id) =>
      if id in s.attemptIds && s.attemptIds[id] in s.attempts && s.attemptIds[id].nodeId == n
      then Some(s.attempts[s.attemptIds[id]].value) else None
  }

  /** A base revision that is missing or not older than the state. */
  predicate Undetermined(a: Attempt, revision: nat) {
    a.stateRevisionBefore.None? || a.stateRevisionBefore.value == revision
  }

  predicate Inverted(a: Attempt, revision: nat) {
    a.stateRevisionBefore.Some? && a.stateRevisionBefore.value > revision
  }

  /** The findings that make a node unsafe to touch. */
  function Structural(s: Store, n: Id): set<Code>
    requires n in s.states
  {
    var v := s.states[n].value;
    Findings(
      |RunningOf(s, n)| > 1,
      v.revision != s.states[n].revision || (exists k :: k in s.attempts && k.nodeId == n && Inverted(s.attempts[k].value, v.revision)),
      exists k :: k in s.attempts && k.nodeId == n && Undetermined(s.attempts[k].value, v.revision),
      v.status.Running? && v.activeAttemptId.None?,
      v.activeAttemptId.Some? && ActiveAttempt(s, n).None?)
  }

  function Findings(many: bool, inverted: bool, undetermined: bool, missing: bool, lost: bool): (found: set<Code>)
    ensures found == {} <==> !many && !inverted && !undetermined && !missing && !lost
    ensures MultipleRunningAttempts in found <==> many
    ensures RevisionSeriesInverted in found <==> inverted
    ensures RevisionSeriesUndetermined in found <==> undetermined
    ensures ActiveAttemptIdMissing in found <==> missing
    ensures ActiveAttemptNotFound in found <==> lost
  {
    (if many then {MultipleRunningAttempts} else {}) + (if inverted then {RevisionSeriesInverted} else {}) +
    (if undetermined then {RevisionSeriesUndetermined} else {}) + (if missing then {ActiveAttemptIdMissing} else {}) +
    (if lost then {ActiveAttemptNotFound} else {})
  }

  predicate Unsafe(s: Store, n: Id)
    requires n in s.states
  {
    Structural(s, n) != {}
  }

  /** Compares a state with the attempt it calls active. */
  function ActiveVerdict(s: Store, n: Id): Verdict
    requires n in s.states
  {
    var v := s.states[n].value;
    if Unsafe(s, n) || ActiveAttempt(s, n).None? then Clean
    else
      var a := ActiveAttempt(s, n).value;
      if a.status == v.status then (if TerminalAttempt(a.status) then Repair(a.status) else Clean)
      else if v.status.Running? && TerminalAttempt(a.status) then Repair(a.status)
      else if TerminalState(v.status) && a.status.Running? then Inconsistent(StateTerminalAttemptRunning)
      else Inconsistent(StateAttemptStatusMismatch)
  }

  function Grouped(resolutions: seq<Resolution>, attemptId: Id): (g: seq<Resolution>)
    ensures forall r :: r in g <==> r in resolutions && r.attemptId == attemptId
  {
    if resolutions == [] then []
    else (if resolutions[0].attemptId == attemptId then [resolutions[0]] else []) + Grouped(resolutions[1..], attemptId)
  }

  function LatestResolution(g: seq<Resolution>): (r: Resolution)
    requires g != []
    ensures r in g && forall x :: x in g ==> x.resolvedAt <= r.resolvedAt
  {
    if |g| == 1 then g[0]
    else
      var earlier := LatestResolution(g[..|g| - 1]);
      if g[|g| - 1].resolvedAt > earlier.resolvedAt then g[|g| - 1] else earlier
  }

  /** Compares the resolutions of one attempt with the state its node has by then. */
  function ResolutionVerdict(s: Store, key: AttemptKey, state: NodeState): Verdict
    requires key in s.attempts && key.nodeId in s.states
    requires Grouped(s.resolutions, s.attempts[key].value.attemptId) != []
  {
    var a := s.attempts[key].value;
    var g := Grouped(s.resolutions, a.attemptId);
    var outcome := g[0].outcome;
    if exists r :: r in g && r.outcome != outcome then Inconsistent(ConflictingAttemptResolutions)
    else if !a.status.Unknown? && !a.status.Failed? then Inconsistent(ResolutionAttemptNotUnknown)
    else if a.attemptNo != state.latestAttemptNo || Unsafe(s, key.nodeId) then Inconsistent(ResolutionNotCurrentAttempt)
    else if state.status == outcome then Clean
    else if state.status.Unknown? || (state.status.Failed? && a.status.Failed? && !state.idempotent) then Repair(outcome)
    else Inconsistent(ResolutionStateNotUnknown)
  }

  predicate HasResolution(s: Store, key: AttemptKey)
    requires key in s.attempts
  {
    Grouped(s.resolutions, s.attempts[key].value.attemptId) != []
  }

  // ---- What reconciliation leaves -----------------------------------------

  /** The record a repair stores. */
  function Repaired(current: Stored<NodeState>, status: Status): Stored<NodeState> {
    NextRecord(current, current.value.(status := status, activeAttemptId := None))
  }

  /** What acting on a verdict makes of a record. */
  function AfterVerdict(current: Stored<NodeState>, verdict: Verdict): Stored<NodeState> {
    if verdict.Repair? then Repaired(current, verdict.status) else current
  }

  /** The record of `n` once its active attempt has been applied. */
  function AfterActive(s: Store, n: Id): Stored<NodeState>
    requires n in s.states
  {
    AfterVerdict(s.states[n], ActiveVerdict(s, n))
  }

  /** What the resolutions of the latest attempt of `n` ask for. */
  function CurrentResolution(s: Store, n: Id): Verdict
    requires n in s.states
  {
    var key := AttemptKey(n, s.states[n].value.latestAttemptNo);
    if key in s.attempts && HasResolution(s, key) then ResolutionVerdict(s, key, AfterActive(s, n).value) else Clean
  }

  /** The record of `n` after both stages. */
  function Reconciled(s: Store, n: Id): Stored<NodeState>
    requires n in s.states
  {
    AfterVerdict(AfterActive(s, n), CurrentResolution(s, n))
  }

  function ReconciledStates(s: Store): map<Id, Stored<NodeState>> {
    map n | n in s.states :: Reconciled(s, n)
  }

  predicate OrphanAttempt(s: Store) {
    exists k :: k in s.attempts && k.nodeId !in s.states
  }

  predicate BadResolution(s: Store, k: AttemptKey)
    requires k in s.attempts
  {
    HasResolution(s, k) && k.nodeId in s.states &&
    ResolutionVerdict(s, k, AfterActive(s, k.nodeId).value).Inconsistent?
  }

  /** The state of `n` and its active attempt leave nothing undecided. */
  predicate NodeDecidable(s: Store, n: Id)
    requires n in s.states
  {
    !Unsafe(s, n) && !ActiveVerdict(s, n).Inconsistent?
  }

  /** Something about the Run cannot be decided. */
  predicate Undecidable(s: Store) {
    || OrphanAttempt(s)
    || (exists n {:trigger NodeDecidable(s, n)} :: n in s.states && !NodeDecidable(s, n))
    || (exists k {:trigger BadResolution(s, k)} :: k in s.attempts && BadResolution(s, k))
  }

  /** No repair is pending for `n`. */
  predicate NodeQuiet(s: Store, n: Id)
    requires n in s.states
  {
    !ActiveVerdict(s, n).Repair? && !CurrentResolution(s, n).Repair?
  }

  /** Nothing to repair and nothing to refuse. */
  predicate Quiet(s: Store) {
    && !Undecidable(s)
    && (forall n {:trigger NodeQuiet(s, n)} :: n in s.states ==> NodeQuiet(s, n))
    && s.run.value.status == RunAggregate(Statuses(s.states), s.run.value.started)
  }

  // ---- One round of repairs -----------------------------------------------

  /** The audit trail `new` has exactly one event per repair of a kind made on the nodes in `done`. */
  ghost predicate Audited(audits: seq<Audit>, repair: RepairType, done: set<Id>) {
    && (forall i, j :: 0 <= i < j < |audits| ==> audits[i] != audits[j])
    && (forall a :: a in audits ==> a.repair == repair && a.nodeId.Some? && a.nodeId.value in done)
    && (forall n :: n in done ==> Audit(repair, Some(n)) in audits)
  }

  lemma AuditedOneMore(audits: seq<Audit>, repair: RepairType, done: set<Id>, n: Id)
    requires Audited(audits, repair, done) && n !in done
    ensures Audited(audits + [Audit(repair, Some(n))], repair, done + {n})
  {
  }

  /** The store and its caller agree on everything the gate only reads. */
  ghost predicate ReadOnlyParts(s: Store, t: Store) {
    t.attempts == s.attempts && t.attemptIds == s.attemptIds && t.resolutions == s.resolutions
  }

  /** What keeps holding while a gate that started on `s` writes to `t`. */
  ghost predicate Kept(def: Definition, plain: bool, s: Store, t: Store) {
    && ReadOnlyParts(s, t)
    && (s in Consistent(def, plain) ==> t in Consistent(def, plain))
    && (s in Consistent(def, plain) && DependencySafe(def, s.states) ==> DependencySafe(def, t.states))
  }

  function RepairWrite(current: Stored<NodeState>, status: Status, event: Option<Resolution>): NodeStateWrite {
    NodeStateWrite(current.value.(status := status, activeAttemptId := None), Some(current.revision), event)
  }

  /** How node `n` of `s` would look with this record. */
  ghost function ViewWith(s: Store, n: Id, stored: Stored<NodeState>): View {
    View(stored.value, stored.revision, HistoryOf(s.attempts, n), ResolvedOutcomes(s.resolutions))
  }

  /** The store accepts the repair, and in a consistent store it keeps the node sound. */
  ghost predicate Decided(def: Definition, plain: bool, s: Store, n: Id, current: Stored<NodeState>,
                          status: Status, event: Option<Resolution>) {
    var write := RepairWrite(current, status, event);
    && current.value.nodeId == n && AcceptsTransition(current.value, write)
    && (event.Some? ==> event.value in s.resolutions)
    && !status.Blocked?
    && (s in Consistent(def, plain) ==>
          WithState(ViewWith(s, n, current), write.value) in Sound(plain) &&
          HasStarted(current.value.status) && !current.value.status.Success?)
  }

  lemma RepairKept(def: Definition, plain: bool, s: Store, t: Store, u: Store, n: Id, current: Stored<NodeState>,
                   status: Status, event: Option<Resolution>)
    requires Kept(def, plain, s, t) && n in t.states && t.states[n] == current
    requires Decided(def, plain, s, n, current, status, event)
    requires Upserted(t, RepairWrite(current, status, event)) == Ok(u)
    ensures Kept(def, plain, s, u)
  {
    if s in Consistent(def, plain) {
      assert ViewOf(t, n) == ViewWith(s, n, current);
      StateWritten(def, t, u, RepairWrite(current, status, event), plain, plain);
      if DependencySafe(def, s.states) {
        assert MatchesNode(def, t.states, n);
        SafeStarted(def, t.states, n, Repaired(current, status));
      }
    }
  }

  lemma AuditKept(def: Definition, plain: bool, s: Store, t: Store, u: Store)
    requires Kept(def, plain, s, t) && u == t.(audits := u.audits, run := u.run)
    ensures Kept(def, plain, s, u)
  {
    if s in Consistent(def, plain) { RecordsUntouched(def, t, u, plain); }
  }

  /** One repair: the state write and its audit event. */
  method RepairState(repo: Repository, ghost def: Definition, ghost plain: bool, ghost s: Store, n: Id,
                     current: Stored<NodeState>, status: Status, event: Option<Resolution>, kind: RepairType)
    returns (r: Result<(), Error>)
    requires Kept(def, plain, s, repo.Contents()) && n in repo.states && repo.states[n] == current
    requires Decided(def, plain, s, n, current, status, event)
    modifies repo`states, repo`audits
    ensures Kept(def, plain, s, repo.Contents())
    ensures r.Ok? ==> repo.states == old(repo.states)[n := Repaired(current, status)]
    ensures r.Ok? ==> repo.audits == old(repo.audits) + [Audit(kind, Some(n))]
    ensures r.Err? ==> r.error.ProcessDied? && repo.audits == old(repo.audits)
    ensures r.Err? ==> repo.states == old(repo.states) || repo.states == old(repo.states)[n := Repaired(current, status)]
  {
    ghost var t := repo.Contents();
    var written := repo.UpsertNodeState(RepairWrite(current, status, event));
    if written.Err? { return Err(written.error); }
    ghost var u := repo.Contents();
    RepairKept(def, plain, s, t, u, n, current, status, event);
    var audited := repo.AppendOperationAudit(Audit(kind, Some(n)));
    AuditKept(def, plain, s, u, repo.Contents());
    if audited.Err? { return Err(audited.error); }
    return Ok(());
  }

  /** The nodes a plan repairs. */
  function RepairedNodes(plan: map<Id, Verdict>): set<Id> {
    set n | n in plan && plan[n].Repair?
  }

  /** The states once every node of the plan outside `todo` has been dealt with. */
  function AppliedOutside(base: map<Id, Stored<NodeState>>, plan: map<Id, Verdict>, todo: set<Id>):
      map<Id, Stored<NodeState>>
    requires base.Keys == plan.Keys
  {
    map n | n in base :: if n in todo then base[n] else AfterVerdict(base[n], plan[n])
  }

  function EventFor(events: map<Id, Resolution>, n: Id): Option<Resolution> {
    if n in events then Some(events[n]) else None
  }

  /** Every repair of the plan is decided. */
  ghost predicate PlanDecided(def: Definition, plain: bool, s: Store, base: map<Id, Stored<NodeState>>,
                              plan: map<Id, Verdict>, events: map<Id, Resolution>) {
    base.Keys == plan.Keys &&
    forall n {:trigger EventFor(events, n)} :: n in plan && plan[n].Repair? ==>
      Decided(def, plain, s, n, base[n], plan[n].status, EventFor(events, n))
  }

  lemma PlanStep(base: map<Id, Stored<NodeState>>, plan: map<Id, Verdict>, todo: set<Id>, n: Id)
    requires base.Keys == plan.Keys && n in todo && todo <= RepairedNodes(plan)
    ensures AppliedOutside(base, plan, todo)[n := Repaired(base[n], plan[n].status)] ==
            AppliedOutside(base, plan, todo - {n})
    ensures RepairedNodes(plan) - todo + {n} == RepairedNodes(plan) - (todo - {n})
    ensures AppliedOutside(base, plan, todo)[n] == base[n]
  {
  }

  /** Acts on a verdict for every node, in any order. */
  method ApplyPlan(repo: Repository, ghost def: Definition, ghost plain: bool, ghost s: Store,
                   base: map<Id, Stored<NodeState>>, plan: map<Id, Verdict>, events: map<Id, Resolution>,
                   kind: RepairType)
    returns (r: Result<(), Error>, ghost trail: seq<Audit>)
    requires Kept(def, plain, s, repo.Contents()) && repo.states == base
    requires PlanDecided(def, plain, s, base, plan, events)
    modifies repo`states, repo`audits
    ensures Kept(def, plain, s, repo.Contents())
    ensures r.Ok? ==> repo.states == AppliedOutside(base, plan, {})
    ensures repo.audits == old(repo.audits) + trail
    ensures r.Ok? ==> Audited(trail, kind, RepairedNodes(plan))
    ensures r.Err? ==> r.error.ProcessDied? && exists todo :: repo.states == AppliedOutside(base, plan, todo)
  {
    var todo := RepairedNodes(plan);
    ghost var done: set<Id> := {};
    trail := [];
    while todo != {}
      invariant todo <= RepairedNodes(plan) && done == RepairedNodes(plan) - todo
      invariant repo.states == AppliedOutside(base, plan, todo)
      invariant Kept(def, plain, s, repo.Contents())
      invariant repo.audits == old(repo.audits) + trail && Audited(trail, kind, done)
    {
      var n :| n in todo;
      PlanStep(base, plan, todo, n);
      var repaired := RepairState(repo, def, plain, s, n, base[n], plan[n].status, EventFor(events, n), kind);
      if repaired.Err? { return Err(repaired.error), trail; }
      AuditedOneMore(trail, kind, done, n);
      trail, done, todo := trail + [Audit(kind, Some(n))], done + {n}, todo - {n};
    }
    return Ok(()), trail;
  }
}
