/** Detection without repair, and why a reconciled Run has nothing left to detect. */
module Detection {
  import opened Dag
  import opened Domain
  import opened StoreContract
  import opened Repository
  import opened Invariants
  import opened GuardedWrites
  import opened Reconciliation
  import opened ReconcileRun

  /** What detection reports about a node state and its active attempt. */
  function DetectActive(s: Store, n: Id): set<Code>
    requires n in s.states
  {
    var v := s.states[n].value;
    Structural(s, n) +
    if Unsafe(s, n) || ActiveAttempt(s, n).None? then {}
    else
      var a := ActiveAttempt(s, n).value;
      if TerminalAttempt(a.status) && (a.status == v.status || v.status.Running?) then {TerminalAttemptPendingApply}
      else if TerminalState(v.status) && a.status.Running? then {StateTerminalAttemptRunning}
      else if a.status != v.status then {StateAttemptStatusMismatch}
      else {}
  }

  /** What detection reports about the resolutions of an attempt; nothing has been repaired by then. */
  function DetectResolution(s: Store, key: AttemptKey): set<Code>
    requires key in s.attempts
  {
    if !HasResolution(s, key) || key.nodeId !in s.states then {}
    else
      match ResolutionVerdict(s, key, s.states[key.nodeId].value)
      case Clean => {}
      case Repair(_) => {AttemptResolutionPendingApply}
      case Inconsistent(code) => {code}
  }

  /** Some inspection finds this. */
  predicate Finds(s: Store, c: Code) {
    || (c.AttemptNodeStateMissing? && OrphanAttempt(s))
    || (exists n :: n in s.states && c in DetectActive(s, n))
    || (exists k :: k in s.attempts && c in DetectResolution(s, k))
    || (c.RunAggregateMismatch? && !Tells(s.run.value.status, s.run.value.started, s.states))
  }

  /** Reports every finding and writes nothing. */
  method DetectReconciliation(repo: Repository) returns (found: set<Code>)
    ensures forall c :: c in found <==> Finds(repo.Contents(), c)
    ensures found == {} <==>
      && !OrphanAttempt(repo.Contents())
      && (forall n :: n in repo.states ==> DetectActive(repo.Contents(), n) == {})
      && (forall k :: k in repo.attempts ==> DetectResolution(repo.Contents(), k) == {})
      && repo.run.value.status == RunAggregate(Statuses(repo.states), repo.run.value.started)
  {
    var s := Store(repo.run, repo.states, repo.attempts, repo.attemptIds, repo.resolutions, repo.audits);
    found := if OrphanAttempt(s) then {AttemptNodeStateMissing} else {};
    var nodes := s.states.Keys;
    while nodes != {}
      invariant nodes <= s.states.Keys
      invariant forall c :: c in found <==>
        (c.AttemptNodeStateMissing? && OrphanAttempt(s)) || exists n :: n in s.states && n !in nodes && c in DetectActive(s, n)
      invariant found == {} <==>
        !OrphanAttempt(s) && forall n :: n in s.states && n !in nodes ==> DetectActive(s, n) == {}
    {
      var n :| n in nodes;
      found, nodes := found + DetectActive(s, n), nodes - {n};
    }
    var keys := s.attempts.Keys;
    ghost var before := found;
    while keys != {}
      invariant keys <= s.attempts.Keys
      invariant forall c :: c in found <==>
        c in before || exists k :: k in s.attempts && k !in keys && c in DetectResolution(s, k)
      invariant found == {} <==>
        before == {} && forall k :: k in s.attempts && k !in keys ==> DetectResolution(s, k) == {}
    {
      var k :| k in keys;
      found, keys := found + DetectResolution(s, k), keys - {k};
    }
    AggregateTells(s.states, s.run.value.status, s.run.value.started);
    if s.run.value.status != RunAggregate(Statuses(s.states), s.run.value.started) {
      found := found + {RunAggregateMismatch};
    }
  }

  lemma DetectActiveIffVerdict(s: Store, n: Id)
    requires n in s.states
    ensures DetectActive(s, n) == {} <==> NodeDecidable(s, n) && !ActiveVerdict(s, n).Repair?
  {
  }

  /** What the findings about running and active attempts say. */
  lemma StructuralTells(s: Store, n: Id)
    requires n in s.states
    ensures MultipleRunningAttempts in Structural(s, n) <==> |RunningOf(s, n)| > 1
    ensures ActiveAttemptIdMissing in Structural(s, n) <==>
      s.states[n].value.status.Running? && s.states[n].value.activeAttemptId.None?
    ensures ActiveAttemptNotFound in Structural(s, n) <==>
      s.states[n].value.activeAttemptId.Some? && ActiveAttempt(s, n).None?
  {
  }

  /** A base revision is undetermined if it is missing or that of the state, and inverted if it is later. */
  lemma RevisionsTell(s: Store, n: Id)
    requires n in s.states
    ensures RevisionSeriesUndetermined in Structural(s, n) <==>
      exists k :: k in s.attempts && k.nodeId == n && Undetermined(s.attempts[k].value, s.states[n].value.revision)
    ensures RevisionSeriesInverted in Structural(s, n) && s.states[n].value.revision == s.states[n].revision ==>
      exists k :: k in s.attempts && k.nodeId == n && Inverted(s.attempts[k].value, s.states[n].value.revision)
  {
  }

  /** Detection announces exactly the repairs and the refusals of the gate, and calls the refusals by the same names. */
  lemma DetectActiveTells(s: Store, n: Id)
    requires n in s.states && !Unsafe(s, n)
    ensures TerminalAttemptPendingApply in DetectActive(s, n) <==> ActiveVerdict(s, n).Repair?
    ensures ActiveVerdict(s, n).Inconsistent? ==> DetectActive(s, n) == {ActiveVerdict(s, n).code}
    ensures ActiveVerdict(s, n).Repair? ==> ActiveAttempt(s, n).value.status == ActiveVerdict(s, n).status
  {
  }

  /** What stands against a resolution, and by which name: the first of these that holds. */
  lemma ResolutionRefusals(s: Store, key: AttemptKey, state: NodeState)
    requires key in s.attempts && key.nodeId in s.states && HasResolution(s, key)
    ensures var a, verdict := s.attempts[key].value, ResolutionVerdict(s, key, state);
      && (verdict == Inconsistent(ConflictingAttemptResolutions) <==>
           exists x, y :: x in s.resolutions && y in s.resolutions && x.attemptId == y.attemptId == a.attemptId &&
                          x.outcome != y.outcome)
      && (verdict == Inconsistent(ResolutionAttemptNotUnknown) ==> !a.status.Unknown? && !a.status.Failed?)
      && (verdict == Inconsistent(ResolutionNotCurrentAttempt) ==> a.attemptNo != state.latestAttemptNo || Unsafe(s, key.nodeId))
      && (verdict == Inconsistent(ResolutionStateNotUnknown) ==> !state.status.Unknown?)
      && (verdict.Repair? ==> !Unsafe(s, key.nodeId) && a.attemptNo == state.latestAttemptNo)
      && (verdict.Repair? ==> exists x :: x in s.resolutions && x.attemptId == a.attemptId && x.outcome == verdict.status)
  {
    var g := Grouped(s.resolutions, s.attempts[key].value.attemptId);
    assert g[0] in g;
  }

  lemma DetectResolutionIffVerdict(s: Store, k: AttemptKey)
    requires WellKeyed(s) && k in s.attempts && k.nodeId in s.states && !ActiveVerdict(s, k.nodeId).Repair?
    ensures DetectResolution(s, k) == {} <==>
      !BadResolution(s, k) && (k == CurrentKey(s, k.nodeId) ==> !CurrentResolution(s, k.nodeId).Repair?)
  {
  }

  lemma DetectNodeIffQuiet(s: Store, n: Id)
    requires WellKeyed(s) && n in s.states
    requires DetectActive(s, n) == {}
    requires CurrentKey(s, n) in s.attempts ==> DetectResolution(s, CurrentKey(s, n)) == {}
    ensures NodeDecidable(s, n) && NodeQuiet(s, n)
  {
    DetectActiveIffVerdict(s, n);
    if CurrentKey(s, n) in s.attempts { DetectResolutionIffVerdict(s, CurrentKey(s, n)); }
  }

  lemma QuietIsUndetected(s: Store)
    requires WellKeyed(s) && Quiet(s)
    ensures (forall n :: n in s.states ==> DetectActive(s, n) == {}) && forall k :: k in s.attempts ==> DetectResolution(s, k) == {}
  {
    forall n | n in s.states ensures DetectActive(s, n) == {} {
      assert NodeDecidable(s, n) && NodeQuiet(s, n);
      DetectActiveIffVerdict(s, n);
    }
    forall k | k in s.attempts ensures DetectResolution(s, k) == {} {
      assert k.nodeId in s.states && NodeQuiet(s, k.nodeId) && !BadResolution(s, k);
      DetectResolutionIffVerdict(s, k);
    }
  }

  lemma UndetectedIsQuiet(s: Store)
    requires WellKeyed(s) && !OrphanAttempt(s) && (forall n :: n in s.states ==> DetectActive(s, n) == {})
    requires forall k :: k in s.attempts ==> DetectResolution(s, k) == {}
    ensures !Undecidable(s) && forall n {:trigger NodeQuiet(s, n)} :: n in s.states ==> NodeQuiet(s, n)
  {
    forall n | n in s.states ensures NodeDecidable(s, n) && NodeQuiet(s, n) {
      DetectNodeIffQuiet(s, n);
    }
    forall k | k in s.attempts ensures !BadResolution(s, k) {
      assert k.nodeId in s.states && NodeQuiet(s, k.nodeId);
      DetectResolutionIffVerdict(s, k);
    }
  }

  /** Nothing is reported exactly when the Run is quiet. */
  lemma DetectsNothingIffQuiet(s: Store)
    requires WellKeyed(s)
    ensures Quiet(s) <==>
      && !OrphanAttempt(s)
      && (forall n :: n in s.states ==> DetectActive(s, n) == {})
      && (forall k :: k in s.attempts ==> DetectResolution(s, k) == {})
      && s.run.value.status == RunAggregate(Statuses(s.states), s.run.value.started)
  {
    if Quiet(s) {
      QuietIsUndetected(s);
    } else if !OrphanAttempt(s) && (forall n :: n in s.states ==> DetectActive(s, n) == {}) &&
              (forall k :: k in s.attempts ==> DetectResolution(s, k) == {}) {
      UndetectedIsQuiet(s);
    }
  }

  /** A repair is always visible: it raises the revision. */
  lemma RepairIsVisible(s: Store, n: Id)
    requires n in s.states
    ensures Reconciled(s, n) == s.states[n] <==> NodeQuiet(s, n)
  {
    assert AfterActive(s, n).revision >= s.states[n].revision;
  }

  /** Detection reports nothing exactly when the gate neither writes nor refuses. */
  lemma QuietIffGateDoesNothing(s: Store)
    requires WellKeyed(s)
    ensures Quiet(s) <==>
      !PlanOf(s).refuse && PlanOf(s).final == s.states && RunAfter(s.run, PlanOf(s).aggregate) == s.run
  {
    FinalUnchanged(s);
  }

  lemma FinalUnchanged(s: Store)
    ensures ReconciledStates(s) == s.states <==>
      forall n {:trigger NodeQuiet(s, n)} :: n in s.states ==> NodeQuiet(s, n)
  {
    var final := ReconciledStates(s);
    assert final.Keys == s.states.Keys;
    forall n | n in s.states
      ensures final[n] == s.states[n] <==> NodeQuiet(s, n)
    {
      RepairIsVisible(s, n);
    }
  }

  // ---- A second run -------------------------------------------------------

  /** The structural findings, read as a property of the record and the attempts. */
  ghost predicate Sane(s: Store, n: Id)
    requires n in s.states
  {
    var v := s.states[n].value;
    && v.revision == s.states[n].revision && |RunningOf(s, n)| <= 1
    && (forall k :: k in s.attempts && k.nodeId == n ==> BasedBefore(s.attempts[k].value, v.revision))
    && (v.status.Running? ==> v.activeAttemptId.Some?)
    && (v.activeAttemptId.Some? ==> ActiveAttempt(s, n).Some?)
  }

  lemma UnsafeIffNotSane(s: Store, n: Id)
    requires n in s.states
    ensures Unsafe(s, n) <==> !Sane(s, n)
  {
    var v := s.states[n].value;
    assert forall k :: k in s.attempts && k.nodeId == n ==>
      (BasedBefore(s.attempts[k].value, v.revision) <==>
        !Undetermined(s.attempts[k].value, v.revision) && !Inverted(s.attempts[k].value, v.revision));
    assert Unsafe(s, n) <==> !Sane(s, n);
  }

  /** A settled record: nothing active, or an attempt that is still running. */
  ghost predicate Settled(s: Store, n: Id, stored: Stored<NodeState>)
    requires n in s.states
  {
    && stored.value.revision == stored.revision >= s.states[n].value.revision
    && stored.value.latestAttemptNo == s.states[n].value.latestAttemptNo
    && (stored == s.states[n] || (stored.value.activeAttemptId.None? && !stored.value.status.Running?))
  }

  lemma ReconciledIsSettled(s: Store, n: Id)
    requires n in s.states && Sane(s, n)
    ensures Settled(s, n, Reconciled(s, n))
  {
  }

  lemma SettledIsSane(s: Store, t: Store, n: Id)
    requires n in s.states && n in t.states && Sane(s, n) && ReadOnlyParts(s, t) && Settled(s, n, t.states[n])
    ensures Sane(t, n)
  {
    assert RunningOf(t, n) == RunningOf(s, n);
  }

  /** `t` is what an accepted gate leaves of `s`. */
  ghost predicate GatePassed(s: Store, t: Store) {
    && !Undecidable(s) && ReadOnlyParts(s, t)
    && t.states == ReconciledStates(s) && t.run == RunAfter(s.run, AggregateOf(s))
  }

  lemma NothingActiveToApply(s: Store, t: Store, n: Id)
    requires n in s.states && n in t.states && ReadOnlyParts(s, t) && t.states[n] == Reconciled(s, n)
    requires Sane(s, n) && Sane(t, n) && !ActiveVerdict(s, n).Inconsistent?
    ensures ActiveVerdict(t, n).Clean?
  {
    UnsafeIffNotSane(s, n);
    UnsafeIffNotSane(t, n);
  }

  lemma StillSafe(s: Store, t: Store, n: Id)
    requires GatePassed(s, t) && n in s.states
    ensures t.states[n] == Reconciled(s, n) && !Unsafe(t, n) && ActiveVerdict(t, n).Clean?
  {
    assert NodeDecidable(s, n);
    assert Sane(s, n) by { UnsafeIffNotSane(s, n); }
    ReconciledIsSettled(s, n);
    SettledIsSane(s, t, n);
    assert !Unsafe(t, n) by { UnsafeIffNotSane(t, n); }
    NothingActiveToApply(s, t, n);
  }

  /** A resolution that was neither refused nor pending agrees with the record it left. */
  lemma VerdictAfterwards(s: Store, t: Store, k: AttemptKey)
    requires WellKeyed(s) && ReadOnlyParts(s, t) && k in s.attempts && HasResolution(s, k)
    requires k.nodeId in s.states && k.nodeId in t.states && !BadResolution(s, k)
    requires !Unsafe(t, k.nodeId)
    ensures k == CurrentKey(s, k.nodeId)
    ensures ResolutionVerdict(t, k, Reconciled(s, k.nodeId).value).Clean?
  {
    assert !ResolutionVerdict(s, k, AfterActive(s, k.nodeId).value).Inconsistent?;
    assert AfterActive(s, k.nodeId).value.latestAttemptNo == s.states[k.nodeId].value.latestAttemptNo;
  }

  lemma ResolutionsSettled(s: Store, t: Store, k: AttemptKey)
    requires WellKeyed(s) && GatePassed(s, t) && k in s.attempts && HasResolution(s, k)
    ensures k.nodeId in s.states && k == CurrentKey(s, k.nodeId)
    ensures ResolutionVerdict(t, k, t.states[k.nodeId].value).Clean?
  {
    assert k.nodeId in s.states && !BadResolution(s, k);
    StillSafe(s, t, k.nodeId);
    VerdictAfterwards(s, t, k);
  }

  lemma NodeQuietAfterwards(s: Store, t: Store, n: Id)
    requires WellKeyed(s) && GatePassed(s, t) && n in t.states
    ensures NodeDecidable(t, n) && NodeQuiet(t, n)
  {
    StillSafe(s, t, n);
    var k := CurrentKey(t, n);
    if k in s.attempts && HasResolution(s, k) { ResolutionsSettled(s, t, k); }
  }

  lemma AttemptQuietAfterwards(s: Store, t: Store, k: AttemptKey)
    requires WellKeyed(s) && GatePassed(s, t) && k in t.attempts
    ensures k.nodeId in t.states && !BadResolution(t, k)
  {
    assert k.nodeId in s.states;
    StillSafe(s, t, k.nodeId);
    if HasResolution(s, k) { ResolutionsSettled(s, t, k); }
  }

  /** After the gate has accepted a Run, a second gate finds nothing to write and nothing to refuse. */
  lemma SecondGateIsQuiet(s: Store, t: Store)
    requires WellKeyed(s) && GatePassed(s, t)
    ensures Quiet(t)
  {
    forall n | n in t.states ensures NodeDecidable(t, n) && NodeQuiet(t, n) {
      NodeQuietAfterwards(s, t, n);
    }
    forall k | k in t.attempts ensures k.nodeId in t.states && !BadResolution(t, k) {
      AttemptQuietAfterwards(s, t, k);
    }
  }
}
