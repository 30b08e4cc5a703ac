/** What the gate and the adjudication make of whatever a crash left behind. */
module Recovery {
  import opened Dag
  import opened Domain
  import opened StoreContract
  import opened Invariants
  import opened StoreWrites
  import opened GuardedWrites
  import opened Executor
  import opened Reconciliation
  import opened ReconcileRun
  import opened Adjudication
  import opened Examples

  lemma ConsistentIsWellKeyed(def: Definition, plain: bool, s: Store)
    requires s in Consistent(def, plain)
    ensures WellKeyed(s)
  {
    forall n | n in s.states ensures s.states[n].value.nodeId == n { assert IndexedState(s, n); }
    forall k | k in s.attempts ensures IndexedAttempt(s, k) { }
    forall id | id in s.attemptIds ensures IndexedId(s, id) { }
  }

  lemma RepairsKeepNumbers(s: Store, n: Id)
    requires n in s.states
    ensures Reconciled(s, n).value.latestAttemptNo == s.states[n].value.latestAttemptNo
  {
  }

  lemma WindowIsUnsafe(def: Definition, plain: bool, s: Store, n: Id)
    requires s in Consistent(def, plain) && n in s.states && Window(ViewOf(s, n))
    ensures Unsafe(s, n)
  {
    var w := ViewOf(s, n);
    assert w in Sound(plain);
    var k := AttemptKey(n, Latest(w) + 1);
    assert Unapplied(w.history[Latest(w) + 1], w.state.revision);
    assert k in s.attempts && Undetermined(s.attempts[k].value, s.states[n].value.revision);
    assert RevisionSeriesUndetermined in Structural(s, n);
  }

  /** A gate that lets the invocation pass leaves no half-created attempt. */
  lemma GateLeavesNoWindow(def: Definition, plain: bool, s: Store, t: Store)
    requires s in Consistent(def, plain) && !Undecidable(s)
    requires t.states == ReconciledStates(s) && t.attempts == s.attempts
    ensures NoWindow(t)
  {
    forall n | n in t.states ensures !Window(ViewOf(t, n)) {
      assert NodeDecidable(s, n);
      if Window(ViewOf(s, n)) { WindowIsUnsafe(def, plain, s, n); }
      RepairsOpenNoWindow(s, t, n);
    }
  }

  lemma RepairsOpenNoWindow(s: Store, t: Store, n: Id)
    requires n in s.states && t.states == ReconciledStates(s) && t.attempts == s.attempts
    ensures n in t.states && (Window(ViewOf(t, n)) <==> Window(ViewOf(s, n)))
  {
    RepairsKeepNumbers(s, n);
  }

  // ---- The revision series ------------------------------------------------

  lemma RunningIsLatest(w: View, i: nat)
    requires w in Sound(true) && i in w.history && w.history[i].status.Running?
    ensures if Window(w) then i == Latest(w) + 1 else i == Latest(w) && w.state.status.Running?
  {
  }

  lemma NoneUndetermined(def: Definition, plain: bool, s: Store, k: AttemptKey)
    requires s in Consistent(def, plain) && k in s.attempts && k.nodeId in s.states && !Window(ViewOf(s, k.nodeId))
    ensures !Undetermined(s.attempts[k].value, s.states[k.nodeId].value.revision)
    ensures !Inverted(s.attempts[k].value, s.states[k.nodeId].value.revision)
  {
    var w := ViewOf(s, k.nodeId);
    assert w in Sound(plain);
    assert k.attemptNo in w.history && w.history[k.attemptNo] == s.attempts[k].value;
  }

  /** In a history without rerun-from the structural findings fire exactly in the creation window. */
  lemma UnsafeIffWindow(def: Definition, s: Store, n: Id)
    requires s in Consistent(def, true) && n in s.states
    ensures Unsafe(s, n) <==> Window(ViewOf(s, n))
  {
    if Window(ViewOf(s, n)) {
      WindowIsUnsafe(def, true, s, n);
    } else {
      var w := ViewOf(s, n);
      assert w in Sound(true);
      forall k | k in s.attempts && k.nodeId == n
        ensures !Undetermined(s.attempts[k].value, w.state.revision) && !Inverted(s.attempts[k].value, w.state.revision)
      {
        NoneUndetermined(def, true, s, k);
      }
      AtMostOneRunning(s, n, w);
      if w.state.activeAttemptId.Some? { ActiveIsLatest(def, s, n, true); }
    }
  }

  /** And then there is one finding: the attempt's base revision is still that of its node. */
  lemma WindowIsUndetermined(def: Definition, s: Store, n: Id)
    requires s in Consistent(def, true) && n in s.states
    ensures Structural(s, n) == if Window(ViewOf(s, n)) then {RevisionSeriesUndetermined} else {}
  {
    UnsafeIffWindow(def, s, n);
    var w := ViewOf(s, n);
    assert w in Sound(true);
    AtMostOneRunning(s, n, w);
    if Window(w) {
      forall k | k in s.attempts && k.nodeId == n ensures !Inverted(s.attempts[k].value, w.state.revision) {
        assert k.attemptNo in w.history && w.history[k.attemptNo] == s.attempts[k].value;
      }
      WindowIsFound(def, s, n);
    }
  }

  lemma WindowIsFound(def: Definition, s: Store, n: Id)
    requires s in Consistent(def, true) && n in s.states && Window(ViewOf(s, n))
    ensures RevisionSeriesUndetermined in Structural(s, n) && s.states[n].value.status.Waiting?
    ensures s.states[n].value.activeAttemptId.None? && s.states[n].value.revision == s.states[n].revision
  {
    var w := ViewOf(s, n);
    assert w in Sound(true);
    var k := AttemptKey(n, Latest(w) + 1);
    assert k in s.attempts && Undetermined(s.attempts[k].value, s.states[n].value.revision);
  }

  lemma AtMostOneRunning(s: Store, n: Id, w: View)
    requires n in s.states && w == ViewOf(s, n) && w in Sound(true)
    ensures |RunningOf(s, n)| <= 1
  {
    forall k | k in RunningOf(s, n)
      ensures k == AttemptKey(n, if Window(w) then Latest(w) + 1 else Latest(w))
    {
      assert k.attemptNo in w.history;
      RunningIsLatest(w, k.attemptNo);
    }
    var only := {AttemptKey(n, if Window(w) then Latest(w) + 1 else Latest(w))};
    assert RunningOf(s, n) <= only;
    SubsetSize(RunningOf(s, n), only);
  }

  lemma SubsetSize<T>(a: set<T>, b: set<T>)
    requires a <= b
    ensures |a| <= |b|
  {
    assert b == a + (b - a);
  }

  // ---- When the gate refuses ----------------------------------------------

  lemma ActiveNeverInconsistent(def: Definition, plain: bool, s: Store, n: Id)
    requires s in Consistent(def, plain) && n in s.states
    ensures !ActiveVerdict(s, n).Inconsistent?
  {
    var w := ViewOf(s, n);
    assert w in Sound(plain);
    if w.state.status.Running? {
      ActiveIsLatest(def, s, n, plain);
      assert IndexedAttempt(s, AttemptKey(n, Latest(w)));
    }
  }

  /**
   * A recorded resolution does not fit: another one of its attempt says otherwise, the attempt
   * ended neither UNKNOWN nor FAILED, it has been retried since, or its node has moved on to
   * a status that the resolution may not replace.
   */
  predicate Misfits(s: Store, k: AttemptKey, r: Resolution)
    requires k in s.attempts && k.nodeId in s.states
  {
    var a, v := s.attempts[k].value, s.states[k.nodeId].value;
    && r in s.resolutions && r.attemptId == a.attemptId
    && ((exists other :: other in s.resolutions && other.attemptId == a.attemptId && other.outcome != r.outcome)
        || !(a.status.Unknown? || a.status.Failed?)
        || k.attemptNo != v.latestAttemptNo
        || !(v.status == r.outcome || v.status.Unknown? || (v.status.Failed? && a.status.Failed? && !v.idempotent)))
  }

  /** The latest attempt of a node can only have a resolution if the node is not RUNNING. */
  lemma ResolvedIsSettled(def: Definition, plain: bool, s: Store, k: AttemptKey)
    requires s in Consistent(def, plain) && k in s.attempts && HasResolution(s, k) && k.nodeId in s.states
    requires k.attemptNo == s.states[k.nodeId].value.latestAttemptNo
    ensures AfterActive(s, k.nodeId) == s.states[k.nodeId]
  {
    var w := ViewOf(s, k.nodeId);
    assert w in Sound(plain);
    var g := Grouped(s.resolutions, s.attempts[k].value.attemptId);
    assert g[0] in g;
    OutcomeListed(s.resolutions, g[0]);
    assert (s.attempts[k].value.attemptId, g[0].outcome) in w.resolved;
  }

  lemma BadIffMisfit(def: Definition, s: Store, k: AttemptKey)
    requires s in Consistent(def, true) && k in s.attempts && k.nodeId in s.states && !Unsafe(s, k.nodeId)
    ensures BadResolution(s, k) <==> exists r :: Misfits(s, k, r)
  {
    assert IndexedAttempt(s, k);
    var g := Grouped(s.resolutions, s.attempts[k].value.attemptId);
    if g == [] {
      forall r ensures !Misfits(s, k, r) { assert r !in g; }
    } else {
      assert g[0] in g;
      if k.attemptNo == s.states[k.nodeId].value.latestAttemptNo { ResolvedIsSettled(def, true, s, k); }
      if exists r :: r in g && r.outcome != g[0].outcome {
        assert Misfits(s, k, g[0]);
      } else {
        assert forall r :: r in g ==> r.outcome == g[0].outcome;
        assert BadResolution(s, k) <==> Misfits(s, k, g[0]);
      }
    }
  }

  /**
   * Without a rerun-from in its past, a Run is refused exactly when a process died between
   * creating an attempt and the RUNNING write, or when a recorded resolution does not fit -
   * for ever, if it is one of an attempt that has been retried since.
   */
  lemma RefusedIff(def: Definition, s: Store)
    requires s in Consistent(def, true)
    ensures Undecidable(s) <==>
      (exists n {:trigger ViewOf(s, n)} :: n in s.states && Window(ViewOf(s, n))) ||
      (exists k, r {:trigger Misfits(s, k, r)} :: k in s.attempts && k.nodeId in s.states && Misfits(s, k, r))
  {
    forall n | n in s.states ensures NodeDecidable(s, n) <==> !Window(ViewOf(s, n)) {
      UnsafeIffWindow(def, s, n);
      ActiveNeverInconsistent(def, true, s, n);
    }
    forall k | k in s.attempts
      ensures k.nodeId in s.states
      ensures !Window(ViewOf(s, k.nodeId)) ==> (BadResolution(s, k) <==> exists r :: Misfits(s, k, r))
    {
      assert IndexedAttempt(s, k);
      UnsafeIffWindow(def, s, k.nodeId);
      if !Window(ViewOf(s, k.nodeId)) { BadIffMisfit(def, s, k); }
    }
  }

  /** A resolution of an attempt that is no longer the latest is refused, whatever else happens. */
  lemma RetriedResolutionIsRefused(s: Store, k: AttemptKey)
    requires WellKeyed(s) && k in s.attempts && k.nodeId in s.states && HasResolution(s, k)
    requires k.attemptNo != s.states[k.nodeId].value.latestAttemptNo
    ensures BadResolution(s, k) && Undecidable(s)
  {
    assert ResolutionVerdict(s, k, AfterActive(s, k.nodeId).value).Inconsistent?;
    assert BadResolution(s, k);
  }

  /** A store that such a refusal concerns: a failure that was confirmed for an UNKNOWN attempt, then retried. */
  lemma RetriedResolutionExample()
    ensures RetriedStore() in Consistent(RetriedNetwork(), true) && NoWindow(RetriedStore())
    ensures Undecidable(RetriedStore())
  {
    RetriedStoreIsConsistent();
    ConsistentIsWellKeyed(RetriedNetwork(), true, RetriedStore());
    assert RetriedStore().resolutions[0] in Grouped(RetriedStore().resolutions, "first");
    RetriedResolutionIsRefused(RetriedStore(), AttemptKey("a", 1));
  }

  // ---- Crashes around the end of an attempt -------------------------------

  /** Nothing is ever resolved under a RUNNING node. */
  lemma RunningIsUnresolved(def: Definition, plain: bool, s: Store, n: Id)
    requires s in Consistent(def, plain) && n in s.states && s.states[n].value.status.Running?
    ensures CurrentResolution(s, n).Clean?
  {
    var w := ViewOf(s, n);
    assert w in Sound(plain);
    ActiveIsLatest(def, s, n, plain);
    var key := AttemptKey(n, s.states[n].value.latestAttemptNo);
    var g := Grouped(s.resolutions, s.attempts[key].value.attemptId);
    if g != [] {
      assert g[0] in g;
      OutcomeListed(s.resolutions, g[0]);
      assert false;
    }
  }

  /** The gate applies what a finished attempt decided before its node state could follow. */
  lemma GateAppliesEndedAttempt(def: Definition, plain: bool, s: Store, n: Id)
    requires s in Consistent(def, plain) && n in s.states && s.states[n].value.status.Running? && !Unsafe(s, n)
    ensures AttemptKey(n, s.states[n].value.latestAttemptNo) in s.attempts
    ensures var a := s.attempts[AttemptKey(n, s.states[n].value.latestAttemptNo)].value;
      Reconciled(s, n).value.status == a.status
  {
    ActiveIsLatest(def, s, n, plain);
    var k := AttemptKey(n, s.states[n].value.latestAttemptNo);
    assert IndexedAttempt(s, k);
    assert ActiveAttempt(s, n) == Some(s.attempts[k].value);
    RunningIsUnresolved(def, plain, s, n);
  }

  /**
   * Dying between the two writes that end an attempt loses nothing but the way back
   * to WAITING: the gate then leaves the status the invocation would have written,
   * except CANCELLED where the attempt was closed as never started.
   */
  lemma CrashBetweenTerminalWrites(def: Definition, plain: bool, s: Store, n: Id, terminal: Terminal)
    requires s in Consistent(def, plain) && n in s.states && s.states[n].value.status.Running? && !Unsafe(s, n)
    requires IsTerminal(terminal)
    requires EndedAs(s, n, s.states[n].value.latestAttemptNo, terminal.attemptStatus, terminal.resultCode)
    ensures Reconciled(s, n).value.status == if terminal == CLOSED_UNSTARTED then Cancelled else terminal.stateStatus
  {
    GateAppliesEndedAttempt(def, plain, s, n);
  }

  /** A state agrees with an attempt, or with a resolution of it. */
  predicate AgreesWith(s: Store, status: Status, a: Attempt) {
    a.status == status || (a.attemptId, status) in ResolvedOutcomes(s.resolutions)
  }

  /** Every started node is explained by its latest attempt, which has ended. */
  ghost predicate AllExplained(s: Store) {
    forall n {:trigger HasStarted(s.states[n].value.status)} :: n in s.states && HasStarted(s.states[n].value.status) ==>
      var k := AttemptKey(n, s.states[n].value.latestAttemptNo);
      k in s.attempts && TerminalAttempt(s.attempts[k].value.status) &&
      AgreesWith(s, s.states[n].value.status, s.attempts[k].value)
  }

  /** The node is RUNNING on an attempt that has not ended. */
  predicate AtWork(s: Store, n: Id)
    requires n in s.states
  {
    var active := s.states[n].value.activeAttemptId;
    active.Some? && AttemptById(s, active.value).Some? && AttemptById(s, active.value).value.value.status.Running?
  }

  /** Every RUNNING node is at work: nothing that has ended is left to apply. */
  ghost predicate Underway(s: Store) {
    forall n {:trigger AtWork(s, n)} :: n in s.states && s.states[n].value.status.Running? ==> AtWork(s, n)
  }

  lemma StillAtWork(def: Definition, plain: bool, s: Store, t: Store, n: Id)
    requires s in Consistent(def, plain) && !Undecidable(s) && n in s.states
    requires t.states == ReconciledStates(s) && t.attempts == s.attempts && t.attemptIds == s.attemptIds
    requires t in Consistent(def, plain) && t.states[n].value.status.Running?
    ensures AtWork(t, n)
  {
    assert NodeDecidable(s, n);
    ActiveIsLatest(def, t, n, plain);
    ActiveIsLatest(def, s, n, plain);
    var k := AttemptKey(n, s.states[n].value.latestAttemptNo);
    assert IndexedAttempt(s, k);
    assert ActiveAttempt(s, n) == Some(s.attempts[k].value);
  }

  /** A gate that lets the invocation pass leaves nothing that has ended unapplied. */
  lemma GateLeavesUnderway(def: Definition, plain: bool, s: Store, t: Store)
    requires s in Consistent(def, plain) && !Undecidable(s) && t in Consistent(def, plain)
    requires t.states == ReconciledStates(s) && t.attempts == s.attempts && t.attemptIds == s.attemptIds
    ensures Underway(t)
  {
    forall n | n in t.states && t.states[n].value.status.Running? ensures AtWork(t, n) {
      StillAtWork(def, plain, s, t, n);
    }
  }

  /** No attempt of this invocation exists yet. */
  predicate FreshInvocation(attempts: map<AttemptKey, Stored<Attempt>>, invocationId: Id) {
    forall k :: k in attempts ==> attempts[k].value.invocationId != invocationId
  }

  /** A node at work for somebody else is an orphan, so nobody is RUNNING any more afterwards. */
  lemma NobodyStillRuns(t: Store, invocationId: Id, jobLog: Id -> Option<string>, n: Id)
    requires n in t.states && Underway(t) && FreshInvocation(t.attempts, invocationId)
    ensures !Recorded(t.states, Decisions(t, invocationId, jobLog), {})[n].value.status.Running?
  {
    if t.states[n].value.status.Running? {
      assert AtWork(t, n) && IsOrphan(t, invocationId, n);
    }
  }

  /**
   * Wherever the previous invocations died: once the gate has let a fresh invocation pass
   * and the orphans are decided, every started node has an ended attempt that explains it.
   */
  lemma RecoveryIsComplete(def: Definition, plain: bool, t: Store, u: Store, invocationId: Id, jobLog: Id -> Option<string>)
    requires u in Consistent(def, plain) && Underway(t) && FreshInvocation(t.attempts, invocationId)
    requires u.states == Recorded(t.states, Decisions(t, invocationId, jobLog), {})
    ensures AllExplained(u)
  {
    forall n | n in u.states && HasStarted(u.states[n].value.status)
      ensures var k := AttemptKey(n, u.states[n].value.latestAttemptNo);
        k in u.attempts && TerminalAttempt(u.attempts[k].value.status) && AgreesWith(u, u.states[n].value.status, u.attempts[k].value)
    {
      NobodyStillRuns(t, invocationId, jobLog, n);
      assert ViewOf(u, n) in Sound(plain);
    }
  }
}
