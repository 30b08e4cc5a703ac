/** Each kind of store write, under the guard its caller establishes, keeps the invariant. */
module Writes {
  import opened Dag
  import opened Domain
  import opened StoreContract
  import opened Invariants

  /** A write over the revision at which the record was read. */
  function Overwrite(current: Stored<NodeState>, value: NodeState): NodeStateWrite {
    NodeStateWrite(value, Some(current.revision), None)
  }

  // ---- One node at a time -------------------------------------------------

  /** The view after a state write. */
  function WithState(w: View, state: NodeState): View {
    w.(state := state.(revision := w.revision + 1), revision := w.revision + 1)
  }

  /** The view after the next attempt has been created. */
  function WithAttempt(w: View, a: Attempt): View {
    w.(history := w.history[Latest(w) + 1 := a])
  }

  /** The RUNNING write takes up the attempt created just before it. */
  lemma Started(w: View, state: NodeState, plain: bool)
    requires w in Sound(plain) && Window(w)
    requires state.status.Running? && state.idempotent == w.state.idempotent
    requires state.latestAttemptNo == Latest(w) + 1
    requires state.activeAttemptId == Some(w.history[Latest(w) + 1].attemptId)
    ensures WithState(w, state) in Sound(plain) && !Window(WithState(w, state))
  {
    var w' := WithState(w, state);
    assert Numbered(w') && Linked(w') && Once(w');
    if plain {
      assert Tidy(w');
      forall code | code != "" ensures BrakedCode(w', code) { assert BrakedCode(w, code); }
    }
  }

  /** A state write that ends any activity and counts no new attempt. */
  predicate Settles(w: View, state: NodeState) {
    && state.latestAttemptNo == Latest(w) && state.activeAttemptId.None?
    && state.idempotent == w.state.idempotent && !Window(w) && !state.status.Running? && !state.status.Skipped?
  }

  ghost predicate RoomForOneMore(w: View) {
    forall code :: code != "" ==> Streak(w.history, Latest(w), code) <= 2
  }

  lemma SettledInv(w: View, state: NodeState, plain: bool, plain': bool)
    requires w in Sound(plain) && Settles(w, state) && (plain' ==> plain)
    requires Linked(WithState(w, state)) && Once(WithState(w, state))
    requires plain' ==> Tidy(WithState(w, state)) && NamesBlocker(state)
    requires plain' && (state.status.Waiting? || state.status.Blocked?) ==> RoomForOneMore(w)
    ensures WithState(w, state) in Sound(plain') && !Window(WithState(w, state))
  {
    var w' := WithState(w, state);
    assert Numbered(w');
    if plain' {
      forall code | code != "" ensures BrakedCode(w', code) { assert BrakedCode(w, code); }
    }
  }

  /** RUNNING becomes the status its own attempt ended in. */
  lemma Applied(w: View, state: NodeState, plain: bool)
    requires w in Sound(plain) && Settles(w, state) && w.state.status.Running?
    requires Latest(w) in w.history && w.history[Latest(w)].status == state.status && TerminalAttempt(state.status)
    ensures WithState(w, state) in Sound(plain)
  {
    SettledInv(w, state, plain, plain);
  }

  /** RUNNING goes back to WAITING once its attempt is closed as PREPARE_FAILED. */
  lemma BackToWaiting(w: View, state: NodeState, plain: bool)
    requires w in Sound(plain) && Settles(w, state) && w.state.status.Running? && state.status.Waiting?
    requires Latest(w) in w.history && PrepareFailed(w.history[Latest(w)])
    ensures WithState(w, state) in Sound(plain)
  {
    if plain {
      forall code | code != "" ensures Streak(w.history, Latest(w), code) <= 2 { assert BrakedCode(w, code); }
    }
    SettledInv(w, state, plain, plain);
  }

  lemma BecomesBlocked(w: View, state: NodeState, plain: bool)
    requires w in Sound(plain) && Settles(w, state) && state.status.Blocked?
    requires w.state.status.Waiting? || w.state.status.Blocked?
    requires plain ==> state.blockedBy != []
    ensures WithState(w, state) in Sound(plain)
  {
    if plain {
      forall code | code != "" ensures Streak(w.history, Latest(w), code) <= 2 { assert BrakedCode(w, code); }
    }
    SettledInv(w, state, plain, plain);
  }

  /** Resume reopens a BLOCKED node, or an idempotent failure that is not at its limit. */
  lemma Reopened(w: View, state: NodeState, plain: bool)
    requires w in Sound(plain) && Settles(w, state) && state.status.Waiting?
    requires w.state.status.Blocked? ||
      (w.state.idempotent && (w.state.status.Failed? || w.state.status.Cancelled?) && RoomForOneMore(w))
    ensures WithState(w, state) in Sound(plain)
  {
    if plain && w.state.status.Blocked? {
      forall code | code != "" ensures Streak(w.history, Latest(w), code) <= 2 { assert BrakedCode(w, code); }
    }
    SettledInv(w, state, plain, plain);
  }

  /** Rerun-from resets whatever it selected; it refuses executed non-idempotent nodes. */
  lemma Reset(w: View, state: NodeState, plain: bool)
    requires w in Sound(plain) && Settles(w, state) && state.status.Waiting?
    requires w.state.idempotent || Latest(w) == 0
    ensures WithState(w, state) in Sound(false)
  {
    SettledInv(w, state, plain, false);
  }

  /** A resolution decides an UNKNOWN node, or a FAILED one that may not be retried. */
  lemma ResolvedTo(w: View, state: NodeState, plain: bool)
    requires w in Sound(plain) && Settles(w, state) && IsOutcome(state.status)
    requires w.state.status.Unknown? || (w.state.status.Failed? && !w.state.idempotent)
    requires Latest(w) in w.history && (w.history[Latest(w)].attemptId, state.status) in w.resolved
    ensures WithState(w, state) in Sound(plain)
  {
    SettledInv(w, state, plain, plain);
  }

  /** A write that repeats the record, such as recording a retry brake. */
  lemma Rewritten(w: View, plain: bool)
    requires w in Sound(plain) && !Window(w)
    ensures WithState(w, w.state) in Sound(plain)
  {
    var w' := WithState(w, w.state);
    assert Numbered(w') && Once(w');
    if plain { SameFailures(w, w'); }
  }

  lemma Opened(w: View, a: Attempt, plain: bool)
    requires w in Sound(plain) && !Window(w) && w.state.status.Waiting? && Unapplied(a, w.state.revision)
    requires NeverResolved(w.resolved, a.attemptId)
    ensures WithAttempt(w, a) in Sound(plain)
  {
    var w' := WithAttempt(w, a);
    OpenedNumbers(w, a, w');
    assert Once(w');
    if plain { OpenedStreaks(w, a, w'); }
  }

  lemma OpenedNumbers(w: View, a: Attempt, w': View)
    requires Numbered(w) && !Window(w) && w.state.status.Waiting? && Unapplied(a, w.state.revision)
    requires w' == WithAttempt(w, a)
    ensures Numbered(w')
  {
  }

  lemma OpenedStreaks(w: View, a: Attempt, w': View)
    requires Braked(w) && a.status.Running? && w.state.status.Waiting?
    requires w' == WithAttempt(w, a)
    requires forall no: nat :: no in w.history ==> no <= Latest(w)
    ensures Braked(w')
  {
    forall code | code != "" ensures BrakedCode(w', code) {
      assert BrakedCode(w, code);
      forall no: nat ensures Streak(w'.history, no, code) <= 3 {
        if no <= Latest(w) { StreakFrame(w.history, w'.history, no, code); }
      }
      StreakFrame(w.history, w'.history, Latest(w), code);
    }
  }

  /** The attempt of a RUNNING node is started or ends; the others never change again. */
  lemma LatestWritten(w: View, a: Attempt, plain: bool)
    requires w in Sound(plain) && w.state.status.Running? && Latest(w) in w.history
    requires a.attemptId == w.history[Latest(w)].attemptId
    requires a.stateRevisionBefore == w.history[Latest(w)].stateRevisionBefore
    ensures w.(history := w.history[Latest(w) := a]) in Sound(plain)
  {
    var w' := w.(history := w.history[Latest(w) := a]);
    LatestWrittenNumbers(w, a, w');
    assert Once(w');
    if plain { LatestWrittenStreaks(w, a, w'); }
  }

  lemma LatestWrittenNumbers(w: View, a: Attempt, w': View)
    requires Numbered(w) && Latest(w) in w.history && w' == w.(history := w.history[Latest(w) := a])
    requires a.stateRevisionBefore == w.history[Latest(w)].stateRevisionBefore
    ensures Numbered(w')
  {
  }

  lemma LatestWrittenStreaks(w: View, a: Attempt, w': View)
    requires Braked(w) && w.state.status.Running? && Latest(w) >= 1
    requires w' == w.(history := w.history[Latest(w) := a])
    requires forall no: nat :: no in w'.history ==> no <= Latest(w)
    ensures Braked(w')
  {
    forall code | code != "" ensures BrakedCode(w', code) {
      assert BrakedCode(w, code);
      StreakFrame(w.history, w'.history, Latest(w) - 1, code);
      forall no: nat ensures Streak(w'.history, no, code) <= 3 {
        if no < Latest(w) { StreakFrame(w.history, w'.history, no, code); }
      }
    }
  }
}
