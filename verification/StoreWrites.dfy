/** From the one node a store write touches to the whole store. */
module StoreWrites {
  import opened Dag
  import opened Domain
  import opened StoreContract
  import opened Invariants
  import opened Writes

  /** Everything but the records named by the invariant may differ. */
  lemma RecordsUntouched(def: Definition, s: Store, t: Store, plain: bool)
    requires s in Consistent(def, plain)
    requires t.states == s.states && t.attempts == s.attempts && t.attemptIds == s.attemptIds
    requires t.resolutions == s.resolutions
    ensures t in Consistent(def, plain)
    ensures NoWindow(s) <==> NoWindow(t)
  {
    assert forall n :: n in s.states ==> ViewOf(t, n) == ViewOf(s, n);
    SameIndex(s, t);
    SameWindows(s, t);
  }

  lemma StateViews(s: Store, t: Store, write: NodeStateWrite)
    requires Indexed(s) && Upserted(s, write) == Ok(t)
    ensures Indexed(t) && OnlyNode(s, t, write.value.nodeId)
    ensures t == s.(states := s.states[write.value.nodeId := t.states[write.value.nodeId]])
  {
    forall n | n in t.states ensures IndexedState(t, n) { assert n in s.states ==> IndexedState(s, n); }
    forall k | k in t.attempts ensures IndexedAttempt(t, k) { assert IndexedAttempt(s, k); }
    forall id | id in t.attemptIds ensures IndexedId(t, id) { assert IndexedId(s, id); }
  }

  lemma StateRewritten(s: Store, t: Store, write: NodeStateWrite)
    requires Upserted(s, write) == Ok(t) && write.value.nodeId in s.states
    ensures ViewOf(t, write.value.nodeId) == WithState(ViewOf(s, write.value.nodeId), write.value)
  {
  }

  lemma StateWritten(def: Definition, s: Store, t: Store, write: NodeStateWrite, plain: bool, plain': bool)
    requires s in Consistent(def, plain) && Upserted(s, write) == Ok(t) && (plain' ==> plain)
    requires write.value.nodeId in s.states
    requires write.value.idempotent == s.states[write.value.nodeId].value.idempotent
    requires WithState(ViewOf(s, write.value.nodeId), write.value) in Sound(plain')
    ensures t in Consistent(def, plain') && OnlyNode(s, t, write.value.nodeId)
    ensures ViewOf(t, write.value.nodeId) == WithState(ViewOf(s, write.value.nodeId), write.value)
  {
    StateViews(s, t, write);
    StateRewritten(s, t, write);
    assert MatchesNode(def, s.states, write.value.nodeId);
    OneNodeChanged(def, s, t, write.value.nodeId, plain, plain');
  }

  /** A node nobody has seen yet: waiting, nothing attempted. */
  lemma FreshNode(w: View, plain: bool)
    requires forall no: nat :: no !in w.history
    requires w.state.status.Waiting? && w.state.revision == w.revision && Latest(w) == 0 && w.state.activeAttemptId.None?
    ensures w in Sound(plain)
  {
    forall code ensures BrakedCode(w, code) {
      assert forall no: nat :: Streak(w.history, no, code) == 0;
    }
  }

  lemma StateCreated(def: Definition, s: Store, t: Store, write: NodeStateWrite, plain: bool)
    requires s in Consistent(def, plain) && Upserted(s, write) == Ok(t)
    requires write.value.nodeId !in s.states && write.value.nodeId in IdSet(def)
    requires write.value.idempotent == def[Index(def, write.value.nodeId)].idempotent
    requires write.value.latestAttemptNo == 0 && write.value.activeAttemptId.None?
    ensures t in Consistent(def, plain) && OnlyNode(s, t, write.value.nodeId)
    ensures !Window(ViewOf(t, write.value.nodeId))
  {
    var n := write.value.nodeId;
    forall no: nat ensures AttemptKey(n, no) !in s.attempts {
      assert AttemptKey(n, no) in s.attempts ==> IndexedAttempt(s, AttemptKey(n, no));
    }
    StateViews(s, t, write);
    FreshNode(ViewOf(t, n), plain);
    OneNodeChanged(def, s, t, n, plain, plain);
  }

  /** Storing one attempt record shows up in the view of its node alone. */
  lemma AttemptViews(s: Store, t: Store, key: AttemptKey, stored: Stored<Attempt>)
    requires t.states == s.states && t.resolutions == s.resolutions
    requires t.attempts == s.attempts[key := stored] && key.nodeId in s.states
    ensures OnlyNode(s, t, key.nodeId)
    ensures ViewOf(t, key.nodeId) ==
      ViewOf(s, key.nodeId).(history := ViewOf(s, key.nodeId).history[key.attemptNo := stored.value])
  {
    assert HistoryOf(t.attempts, key.nodeId) == HistoryOf(s.attempts, key.nodeId)[key.attemptNo := stored.value];
    forall m | m in s.states && m != key.nodeId ensures ViewOf(t, m) == ViewOf(s, m) {
      assert HistoryOf(t.attempts, m) == HistoryOf(s.attempts, m);
    }
  }

  lemma InsertKeepsIndex(s: Store, t: Store, key: AttemptKey, stored: Stored<Attempt>)
    requires Indexed(s) && key.nodeId in s.states && key !in s.attempts
    requires stored.value.nodeId == key.nodeId && stored.value.attemptNo == key.attemptNo
    requires stored.value.status.Running? && stored.value.attemptId !in s.attemptIds
    requires t == s.(attempts := s.attempts[key := stored], attemptIds := s.attemptIds[stored.value.attemptId := key])
    ensures Indexed(t)
  {
    forall n | n in t.states ensures IndexedState(t, n) { assert IndexedState(s, n); }
    forall k | k in t.attempts ensures IndexedAttempt(t, k) {
      if k != key { assert IndexedAttempt(s, k); }
    }
    forall id | id in t.attemptIds ensures IndexedId(t, id) {
      if id != stored.value.attemptId { assert IndexedId(s, id); }
    }
  }

  lemma InsertViews(s: Store, t: Store, n: Id, attemptId: Id, invocationId: Id)
    requires n in s.states && s.states[n].value.nodeId == n && NextKey(s.states[n].value) !in s.attempts
    requires AttemptCreated(s, s.states[n], attemptId, invocationId) == Ok(t)
    ensures t.states == s.states && OnlyNode(s, t, n)
    ensures ViewOf(t, n) == WithAttempt(ViewOf(s, n), NewAttempt(s.states[n], attemptId, invocationId))
  {
    AttemptViews(s, t, NextKey(s.states[n].value), Stored(NewAttempt(s.states[n], attemptId, invocationId), 1));
  }

  lemma AttemptInserted(def: Definition, s: Store, t: Store, n: Id, attemptId: Id, invocationId: Id, plain: bool)
    requires s in Consistent(def, plain) && n in s.states && !Window(ViewOf(s, n)) && s.states[n].value.status.Waiting?
    requires AttemptCreated(s, s.states[n], attemptId, invocationId) == Ok(t)
    ensures t in Consistent(def, plain) && t.states == s.states && OnlyNode(s, t, n)
    ensures ViewOf(t, n) == WithAttempt(ViewOf(s, n), NewAttempt(s.states[n], attemptId, invocationId))
  {
    var key := NextKey(s.states[n].value);
    var a := NewAttempt(s.states[n], attemptId, invocationId);
    assert IndexedState(s, n);
    assert key !in s.attempts;
    InsertViews(s, t, n, attemptId, invocationId);
    assert Indexed(t) by { InsertKeepsIndex(s, t, key, Stored(a, 1)); }
    NodeLinked(ViewOf(s, n), plain);
    assert NeverResolved(ResolvedOutcomes(s.resolutions), attemptId);
    Opened(ViewOf(s, n), a, plain);
    OneNodeChanged(def, s, t, n, plain, plain);
  }

  lemma NodeLinked(w: View, plain: bool)
    requires w in Sound(plain)
    ensures w.state.revision == w.revision
  {
  }

  /** The active attempt of a RUNNING node is its latest one. */
  lemma ActiveIsLatest(def: Definition, s: Store, n: Id, plain: bool)
    requires s in Consistent(def, plain) && n in s.states && s.states[n].value.status.Running?
    ensures s.states[n].value.activeAttemptId.Some?
    ensures AttemptKey(n, s.states[n].value.latestAttemptNo) in s.attempts
    ensures s.attempts[AttemptKey(n, s.states[n].value.latestAttemptNo)].value.attemptId ==
            s.states[n].value.activeAttemptId.value
    ensures s.states[n].value.activeAttemptId.value in s.attemptIds
    ensures s.attemptIds[s.states[n].value.activeAttemptId.value] == AttemptKey(n, s.states[n].value.latestAttemptNo)
  {
    var w := ViewOf(s, n);
    assert w in Sound(plain);
    assert IndexedAttempt(s, AttemptKey(n, Latest(w)));
  }

  lemma ChangeKeepsIndex(s: Store, t: Store, key: AttemptKey, attemptId: Id, revision: nat, change: AttemptChange)
    requires Indexed(s) && attemptId in s.attemptIds && s.attemptIds[attemptId] == key
    requires AttemptChanged(s, attemptId, revision, change) == Ok(t)
    requires change.Finalize? ==> TerminalAttempt(change.status)
    ensures Indexed(t) && key in s.attempts && key in t.attempts && t == s.(attempts := s.attempts[key := t.attempts[key]])
    ensures t.attempts[key].value.attemptId == s.attempts[key].value.attemptId
    ensures t.attempts[key].value.stateRevisionBefore == s.attempts[key].value.stateRevisionBefore
    ensures change.Finalize? ==>
      t.attempts[key].value.status == change.status && t.attempts[key].value.resultCode == change.resultCode
  {
    forall n | n in t.states ensures IndexedState(t, n) { assert n in s.states ==> IndexedState(s, n); }
    forall k | k in t.attempts ensures IndexedAttempt(t, k) { assert IndexedAttempt(s, k); }
    forall id | id in t.attemptIds ensures IndexedId(t, id) { assert IndexedId(s, id); }
  }

  /** Starting or finalizing the attempt of a RUNNING node. */
  lemma AttemptWritten(def: Definition, s: Store, t: Store, n: Id, revision: nat, change: AttemptChange, plain: bool)
    requires s in Consistent(def, plain) && n in s.states && s.states[n].value.status.Running?
    requires s.states[n].value.activeAttemptId.Some?
    requires AttemptChanged(s, s.states[n].value.activeAttemptId.value, revision, change) == Ok(t)
    requires change.Finalize? ==> TerminalAttempt(change.status)
    ensures t in Consistent(def, plain) && t.states == s.states && OnlyNode(s, t, n)
    ensures Latest(ViewOf(t, n)) in ViewOf(t, n).history
    ensures change.Finalize? ==>
      ViewOf(t, n).history[Latest(ViewOf(t, n))].status == change.status &&
      ViewOf(t, n).history[Latest(ViewOf(t, n))].resultCode == change.resultCode
  {
    ActiveIsLatest(def, s, n, plain);
    var key := AttemptKey(n, s.states[n].value.latestAttemptNo);
    ChangeKeepsIndex(s, t, key, s.states[n].value.activeAttemptId.value, revision, change);
    AttemptViews(s, t, key, t.attempts[key]);
    LatestWritten(ViewOf(s, n), t.attempts[key].value, plain);
    OneNodeChanged(def, s, t, n, plain, plain);
  }

  lemma OutcomesGrow(resolutions: seq<Resolution>, r: Resolution)
    ensures ResolvedOutcomes(resolutions + [r]) == ResolvedOutcomes(resolutions) + {(r.attemptId, r.outcome)}
  {
    var longer := resolutions + [r];
    assert longer[|resolutions|] == r;
    forall p | p in ResolvedOutcomes(resolutions) ensures p in ResolvedOutcomes(longer) {
      var i :| 0 <= i < |resolutions| && p == (resolutions[i].attemptId, resolutions[i].outcome);
      assert longer[i] == resolutions[i];
    }
  }

  /** The attempts of other nodes, and the next attempt of this one, have other ids. */
  lemma OtherAttempts(s: Store, n: Id, m: Id, no: nat)
    requires Indexed(s) && n in s.states && m in s.states
    requires AttemptKey(n, s.states[n].value.latestAttemptNo) in s.attempts && AttemptKey(m, no) in s.attempts
    requires m != n || no != s.states[n].value.latestAttemptNo
    ensures s.attempts[AttemptKey(m, no)].value.attemptId !=
            s.attempts[AttemptKey(n, s.states[n].value.latestAttemptNo)].value.attemptId
  {
    assert IndexedAttempt(s, AttemptKey(m, no)) && IndexedAttempt(s, AttemptKey(n, s.states[n].value.latestAttemptNo));
  }

  lemma StaysUnresolved(s: Store, t: Store, n: Id, m: Id, resolution: Resolution)
    requires Indexed(s) && n in s.states && m in s.states && !s.states[n].value.status.Running?
    requires AttemptKey(n, s.states[n].value.latestAttemptNo) in s.attempts
    requires s.attempts[AttemptKey(n, s.states[n].value.latestAttemptNo)].value.attemptId == resolution.attemptId
    requires t == s.(resolutions := s.resolutions + [resolution]) && Unresolved(ViewOf(s, m))
    ensures Unresolved(ViewOf(t, m))
  {
    OutcomesGrow(s.resolutions, resolution);
    var w := ViewOf(s, m);
    if w.state.status.Running? && Latest(w) in w.history { OtherAttempts(s, n, m, Latest(w)); }
    if Window(w) { OtherAttempts(s, n, m, Latest(w) + 1); }
  }

  /** A resolution of the latest attempt of a node that is not RUNNING. */
  lemma ResolutionRecorded(def: Definition, s: Store, t: Store, n: Id, resolution: Resolution, plain: bool)
    requires s in Consistent(def, plain) && ResolutionAppended(s, resolution) == Ok(t)
    requires n in s.states && !s.states[n].value.status.Running?
    requires AttemptKey(n, s.states[n].value.latestAttemptNo) in s.attempts
    requires s.attempts[AttemptKey(n, s.states[n].value.latestAttemptNo)].value.attemptId == resolution.attemptId
    ensures t in Consistent(def, plain)
    ensures (resolution.attemptId, resolution.outcome) in ResolvedOutcomes(t.resolutions)
    ensures NoWindow(s) <==> NoWindow(t)
  {
    OutcomesGrow(s.resolutions, resolution);
    forall m | m in t.states ensures ViewOf(t, m) in Sound(plain) {
      assert ViewOf(s, m) in Sound(plain);
      StaysUnresolved(s, t, n, m, resolution);
      MoreResolved(ViewOf(s, m), ViewOf(t, m), plain);
    }
    SameIndex(s, t);
    SameWindows(s, t);
  }

  lemma SameWindows(s: Store, t: Store)
    requires t.states == s.states && t.attempts == s.attempts
    ensures NoWindow(s) <==> NoWindow(t)
  {
    assert forall n :: n in s.states ==> (Window(ViewOf(s, n)) <==> Window(ViewOf(t, n)));
  }

  lemma SameIndex(s: Store, t: Store)
    requires Indexed(s) && t.states == s.states && t.attempts == s.attempts && t.attemptIds == s.attemptIds
    requires forall r :: r in ResolvedOutcomes(t.resolutions) ==> r.0 in s.attemptIds
    ensures Indexed(t)
  {
    forall n | n in t.states ensures IndexedState(t, n) { assert n in s.states ==> IndexedState(s, n); }
    forall k | k in t.attempts ensures IndexedAttempt(t, k) { assert IndexedAttempt(s, k); }
    forall id | id in t.attemptIds ensures IndexedId(t, id) { assert IndexedId(s, id); }
  }

  // ---- Dependency safety --------------------------------------------------

  ghost predicate DependenciesSucceeded(def: Definition, states: map<Id, Stored<NodeState>>, n: Id)
    requires n in IdSet(def)
  {
    forall d :: d in Deps(def, n) ==> d in states && states[d].value.status.Success?
  }

  /** A node that has started has only SUCCESS dependencies. */
  ghost predicate NodeSafe(def: Definition, states: map<Id, Stored<NodeState>>, n: Id)
    requires n in IdSet(def) && n in states
  {
    HasStarted(states[n].value.status) ==> DependenciesSucceeded(def, states, n)
  }

  ghost predicate DependencySafe(def: Definition, states: map<Id, Stored<NodeState>>) {
    forall n :: n in states && n in IdSet(def) ==> NodeSafe(def, states, n)
  }

  /** A state write that does not take SUCCESS away endangers only its own node. */
  lemma SafeWrite(def: Definition, states: map<Id, Stored<NodeState>>, n: Id, stored: Stored<NodeState>)
    requires DependencySafe(def, states) && n in IdSet(def)
    requires n in states && states[n].value.status.Success? ==> stored.value.status.Success?
    requires NodeSafe(def, states[n := stored], n)
    ensures DependencySafe(def, states[n := stored])
  {
    var states' := states[n := stored];
    forall m | m in states' && m in IdSet(def) ensures NodeSafe(def, states', m) {
      if m != n {
        assert NodeSafe(def, states, m);
      }
    }
  }

  /** Ending, resolving or restarting a node that has started keeps the network safe. */
  lemma SafeStarted(def: Definition, states: map<Id, Stored<NodeState>>, n: Id, stored: Stored<NodeState>)
    requires DependencySafe(def, states) && n in IdSet(def) && n in states
    requires HasStarted(states[n].value.status) && !states[n].value.status.Success?
    ensures DependencySafe(def, states[n := stored])
  {
    assert NodeSafe(def, states, n);
    SafeWrite(def, states, n, stored);
  }
}
