/** What the invariant says to somebody who only reads the store. */
module Guarantees {
  import opened Dag
  import opened Domain
  import opened StoreContract
  import opened Invariants
  import opened StoreWrites

  // ---- At most once -------------------------------------------------------

  /** Two attempts of one non-idempotent node, neither of them closed as never started. */
  predicate MayBothHaveRun(s: Store, k1: AttemptKey, k2: AttemptKey) {
    && k1 in s.attempts && k2 in s.attempts && k1.nodeId == k2.nodeId && k1.nodeId in s.states
    && !s.states[k1.nodeId].value.idempotent
    && MayHaveRun(s.attempts[k1].value) && MayHaveRun(s.attempts[k2].value)
  }

  predicate MayHaveRun(a: Attempt) {
    !a.status.Cancelled? || a.resultCode != "PREPARE_FAILED"
  }

  /** A non-idempotent node never has two attempts that may have run its job. */
  ghost predicate AtMostOnce(s: Store) {
    forall k1, k2 :: MayBothHaveRun(s, k1, k2) ==> k1 == k2
  }

  lemma OneLiveAttempt(w: View, plain: bool, i: nat, j: nat)
    requires w in Sound(plain) && !w.state.idempotent && i in w.history && j in w.history
    requires !PrepareFailed(w.history[i]) && !PrepareFailed(w.history[j])
    ensures i == j
  {
    assert !Superseded(w, i) && !Superseded(w, j);
  }

  lemma JobsRunAtMostOnce(def: Definition, plain: bool, s: Store)
    requires s in Consistent(def, plain)
    ensures AtMostOnce(s)
  {
    forall k1, k2 | MayBothHaveRun(s, k1, k2) ensures k1 == k2 {
      var w := ViewOf(s, k1.nodeId);
      assert w in Sound(plain);
      OneLiveAttempt(w, plain, k1.attemptNo, k2.attemptNo);
    }
  }

  // ---- Dependencies -------------------------------------------------------

  lemma SkippedNeverHappens(def: Definition, plain: bool, s: Store, n: Id)
    requires s in Consistent(def, plain) && n in s.states
    ensures !s.states[n].value.status.Skipped?
  {
    assert ViewOf(s, n) in Sound(plain);
  }

  /** Without a rerun-from every BLOCKED node names what blocks it. */
  lemma BlockedNamesBlocker(def: Definition, s: Store, n: Id)
    requires s in Consistent(def, true) && n in s.states && s.states[n].value.status.Blocked?
    ensures s.states[n].value.blockedBy != []
  {
    assert ViewOf(s, n) in Sound(true);
  }

  // ---- Attempt numbers ----------------------------------------------------

  ghost predicate Expected(s: Store, n: Id, no: nat)
    requires n in s.states
  {
    var latest := s.states[n].value.latestAttemptNo;
    1 <= no <= latest || (no == latest + 1 && Window(ViewOf(s, n)))
  }

  /** The numbers of a node's attempts are 1..latest, and latest + 1 in the creation window only. */
  ghost predicate NumberedFromOne(s: Store) {
    forall n, no: nat {:trigger AttemptKey(n, no)} :: n in s.states ==>
      (AttemptKey(n, no) in s.attempts <==> Expected(s, n, no))
  }

  predicate EarlierAttempt(s: Store, k1: AttemptKey, k2: AttemptKey) {
    && k1 in s.attempts && k2 in s.attempts && k1.nodeId == k2.nodeId && k1.nodeId in s.states
    && k1.attemptNo < k2.attemptNo
  }

  /** The state revisions that attempts were created from grow with the attempt numbers. */
  ghost predicate BasesGrow(s: Store) {
    forall k1, k2 :: EarlierAttempt(s, k1, k2) ==>
      var a1, a2 := s.attempts[k1].value, s.attempts[k2].value;
      a1.stateRevisionBefore.Some? && a2.stateRevisionBefore.Some? &&
      a1.stateRevisionBefore.value < a2.stateRevisionBefore.value
  }

  lemma AttemptsAreNumbered(def: Definition, plain: bool, s: Store)
    requires s in Consistent(def, plain)
    ensures NumberedFromOne(s)
  {
    forall n, no: nat | n in s.states
      ensures AttemptKey(n, no) in s.attempts <==> Expected(s, n, no)
    {
      var w := ViewOf(s, n);
      assert w in Sound(plain);
      assert AttemptKey(n, no) in s.attempts <==> no in w.history;
    }
  }

  lemma BasesOf(w: View, plain: bool, i: nat, j: nat)
    requires w in Sound(plain) && i in w.history && j in w.history && i < j
    ensures w.history[j].stateRevisionBefore.Some? && BasedBefore(w.history[i], w.history[j].stateRevisionBefore.value)
  {
  }

  lemma RevisionsGrow(def: Definition, plain: bool, s: Store)
    requires s in Consistent(def, plain)
    ensures BasesGrow(s)
  {
    forall k1, k2 | EarlierAttempt(s, k1, k2)
      ensures s.attempts[k2].value.stateRevisionBefore.Some?
      ensures BasedBefore(s.attempts[k1].value, s.attempts[k2].value.stateRevisionBefore.value)
    {
      assert ViewOf(s, k1.nodeId) in Sound(plain);
      BasesOf(ViewOf(s, k1.nodeId), plain, k1.attemptNo, k2.attemptNo);
    }
  }

  /** Without a rerun-from every attempt below the latest is terminal. */
  lemma OlderAttemptsAreTerminal(def: Definition, s: Store, k: AttemptKey)
    requires s in Consistent(def, true) && k in s.attempts && k.nodeId in s.states
    requires k.attemptNo < s.states[k.nodeId].value.latestAttemptNo
    ensures TerminalAttempt(s.attempts[k].value.status)
  {
    assert ViewOf(s, k.nodeId) in Sound(true);
    assert k.attemptNo in ViewOf(s, k.nodeId).history;
  }

  // ---- Failure streaks ----------------------------------------------------

  /** Between `from` and `to` nothing but this failure and attempts that never ran. */
  ghost predicate OnlyFailures(h: History, from: nat, to: nat, code: string) {
    forall no: nat :: from < no <= to ==> no in h && (PrepareFailed(h[no]) || FailedWith(h[no], code))
  }

  lemma {:induction false} StreakReachesDown(h: History, from: nat, to: nat, code: string)
    requires from <= to && OnlyFailures(h, from, to, code)
    ensures Streak(h, to, code) >= Streak(h, from, code)
  {
    if from < to { StreakReachesDown(h, from, to - 1, code); }
  }

  /** Four failures in a row, not counting attempts that never ran, make a streak of four. */
  lemma FourMakeAStreak(h: History, i: nat, j: nat, k: nat, l: nat, code: string)
    requires 0 < i < j < k < l && OnlyFailures(h, i - 1, l, code)
    requires FailedWith(h[i], code) && FailedWith(h[j], code) && FailedWith(h[k], code) && FailedWith(h[l], code)
    ensures Streak(h, l, code) >= 4
  {
    StreakReachesDown(h, i, j - 1, code);
    StreakReachesDown(h, j, k - 1, code);
    StreakReachesDown(h, k, l - 1, code);
  }

  /** Without a rerun-from no node ever fails four times in a row with the same code. */
  lemma NeverFourEqualFailures(def: Definition, s: Store, n: Id, i: nat, j: nat, k: nat, l: nat, code: string)
    requires s in Consistent(def, true) && n in s.states && code != "" && 0 < i < j < k < l
    requires OnlyFailures(HistoryOf(s.attempts, n), i - 1, l, code)
    ensures var h := HistoryOf(s.attempts, n);
      !(FailedWith(h[i], code) && FailedWith(h[j], code) && FailedWith(h[k], code) && FailedWith(h[l], code))
  {
    var w := ViewOf(s, n);
    assert w in Sound(true);
    assert BrakedCode(w, code);
    if FailedWith(w.history[i], code) && FailedWith(w.history[j], code) && FailedWith(w.history[k], code) &&
       FailedWith(w.history[l], code) {
      FourMakeAStreak(w.history, i, j, k, l, code);
    }
  }
}
