/**
 * What every reachable store satisfies. The invariant speaks of one node at a
 * time, through a view of its state, its attempts and the recorded resolutions.
 * `plain` histories contain no rerun-from.
 */
module Invariants {
  import opened Dag
  import opened Domain
  import opened StoreContract

  type History = imap<nat, Attempt>

  /** One node as the store shows it: its record, its attempts by number, all resolved outcomes. */
  datatype View = View(
    state: NodeState,
    revision: nat,
    history: History,
    resolved: set<(Id, Status)>)

  ghost function HistoryOf(attempts: map<AttemptKey, Stored<Attempt>>, n: Id): History {
    imap no: nat | AttemptKey(n, no) in attempts :: attempts[AttemptKey(n, no)].value
  }

  function ResolvedOutcomes(resolutions: seq<Resolution>): set<(Id, Status)> {
    set i | 0 <= i < |resolutions| :: (resolutions[i].attemptId, resolutions[i].outcome)
  }

  ghost function ViewOf(s: Store, n: Id): View
    requires n in s.states
  {
    View(s.states[n].value, s.states[n].revision, HistoryOf(s.attempts, n), ResolvedOutcomes(s.resolutions))
  }

  /** The number of the attempt a node counts as its latest. */
  function Latest(w: View): nat {
    w.state.latestAttemptNo
  }

  /** An attempt was created but the RUNNING write that should follow never happened. */
  predicate Window(w: View) {
    Latest(w) + 1 in w.history
  }

  predicate BasedBefore(a: Attempt, revision: nat) {
    a.stateRevisionBefore.Some? && a.stateRevisionBefore.value < revision
  }

  /** An attempt nobody has started, created from this very state revision. */
  predicate Unapplied(a: Attempt, revision: nat) {
    a.status.Running? && !a.executionStarted && a.stateRevisionBefore == Some(revision)
  }

  /** Attempt numbers are 1..latest, plus one inside the window, with growing base revisions. */
  ghost predicate Numbered(w: View) {
    && (forall no: nat :: no in w.history ==> 1 <= no <= Latest(w) + 1)
    && (forall no: nat :: 1 <= no <= Latest(w) ==> no in w.history)
    && (forall no: nat :: no in w.history && no <= Latest(w) ==> BasedBefore(w.history[no], w.state.revision))
    && (forall i: nat, j: nat :: i in w.history && j in w.history && i < j <= Latest(w) ==>
          BasedBefore(w.history[i], w.history[j].stateRevisionBefore.value))
    && (Window(w) ==> w.state.status.Waiting? && Unapplied(w.history[Latest(w) + 1], w.state.revision))
  }

  /** The latest attempt accounts for the status of its started node. */
  predicate Explains(w: View, a: Attempt) {
    if w.state.status.Running? then w.state.activeAttemptId == Some(a.attemptId)
    else TerminalAttempt(a.status) && (a.status == w.state.status || (a.attemptId, w.state.status) in w.resolved)
  }

  /** The state names its running attempt, and a terminal status is that of the latest attempt or its resolution. */
  predicate Linked(w: View) {
    && w.state.revision == w.revision && !w.state.status.Skipped?
    && (w.state.status.Running? <==> w.state.activeAttemptId.Some?)
    && (HasStarted(w.state.status) ==> Latest(w) in w.history && Explains(w, w.history[Latest(w)]))
  }

  /** Nobody has resolved this attempt. */
  ghost predicate NeverResolved(resolved: set<(Id, Status)>, attemptId: Id) {
    forall r :: r in resolved ==> r.0 != attemptId
  }

  /** Attempts that are running, or about to be taken up, have never been resolved. */
  ghost predicate Unresolved(w: View) {
    && (w.state.status.Running? && Latest(w) in w.history ==> NeverResolved(w.resolved, w.history[Latest(w)].attemptId))
    && (Window(w) ==> NeverResolved(w.resolved, w.history[Latest(w) + 1].attemptId))
  }

  /** Attempt `no` is past: a later one exists, or the node is no longer running or ended. */
  predicate Superseded(w: View, no: nat) {
    no < Latest(w) || (no == Latest(w) && (w.state.status.Waiting? || w.state.status.Blocked?))
  }

  /** Only the latest attempt of a non-idempotent node can have run its job. */
  ghost predicate Once(w: View) {
    !w.state.idempotent ==> forall no: nat :: no in w.history && Superseded(w, no) ==> PrepareFailed(w.history[no])
  }

  /** Every attempt but the one being run is terminal. */
  ghost predicate Tidy(w: View) {
    forall no: nat :: no in w.history && no <= Latest(w) && !(no == Latest(w) && w.state.status.Running?) ==>
      TerminalAttempt(w.history[no].status)
  }

  // ---- Failure streaks ----------------------------------------------------

  predicate IsSpace(c: char) {
    c == ' ' || c == '\t' || c == '\n' || c == '\r'
  }

  /** The text without leading and trailing white space. */
  function Trim(text: string): string {
    if text == "" then ""
    else if IsSpace(text[0]) then Trim(text[1..])
    else if IsSpace(text[|text| - 1]) then Trim(text[..|text| - 1])
    else text
  }

  /** Places `i` and `j` cut off white space only, and all of it. */
  ghost predicate Trims(text: string, i: nat, j: nat) {
    && i <= j <= |text| && (forall k :: 0 <= k < i || j <= k < |text| ==> IsSpace(text[k]))
    && (i < j ==> !IsSpace(text[i]) && !IsSpace(text[j - 1]))
  }

  /** What is left by trimming is what lies between the white space at both ends. */
  lemma {:induction false} TrimCuts(text: string)
    ensures exists i: nat, j: nat :: Trims(text, i, j) && Trim(text) == text[i..j]
  {
    if text == "" {
      assert Trims(text, 0, 0);
    } else if IsSpace(text[0]) {
      TrimCuts(text[1..]);
      var i: nat, j: nat :| Trims(text[1..], i, j) && Trim(text[1..]) == text[1..][i..j];
      forall k | 0 <= k < i + 1 || j + 1 <= k < |text| ensures IsSpace(text[k]) {
        if k > 0 { assert text[1..][k - 1] == text[k]; }
      }
      assert Trims(text, i + 1, j + 1) && text[i + 1..j + 1] == text[1..][i..j];
    } else if IsSpace(text[|text| - 1]) {
      var front := text[..|text| - 1];
      TrimCuts(front);
      var i: nat, j: nat :| Trims(front, i, j) && Trim(front) == front[i..j];
      forall k | 0 <= k < i || j <= k < |text| ensures IsSpace(text[k]) {
        if k < |front| { assert front[k] == text[k]; }
      }
      assert Trims(text, i, j) && text[i..j] == front[i..j];
    } else {
      assert Trims(text, 0, |text|);
    }
  }

  /** The attempt FAILED with this trimmed result code. */
  predicate FailedWith(a: Attempt, code: string) {
    a.status.Failed? && Trim(a.resultCode) == code
  }

  /** How many attempts up to `no` end in FAILED with `code`, passing over PREPARE_FAILED ones. */
  function Streak(h: History, no: nat, code: string): nat {
    if no == 0 || no !in h then 0
    else if PrepareFailed(h[no]) then Streak(h, no - 1, code)
    else if FailedWith(h[no], code) then 1 + Streak(h, no - 1, code)
    else 0
  }

  lemma {:induction false} StreakFrame(h: History, k: History, no: nat, code: string)
    requires forall i: nat :: i <= no ==> (i in h <==> i in k)
    requires forall i: nat :: i <= no && i in h && i in k ==> k[i] == h[i]
    ensures Streak(k, no, code) == Streak(h, no, code)
  {
    if no > 0 { StreakFrame(h, k, no - 1, code); }
  }

  /** No four equal failures in a row, and room for one more wherever an attempt may follow. */
  ghost predicate BrakedCode(w: View, code: string) {
    && (forall no: nat :: Streak(w.history, no, code) <= 3)
    && (w.state.status.Waiting? || w.state.status.Blocked? ==> Streak(w.history, Latest(w), code) <= 2)
    && (w.state.status.Running? && Latest(w) >= 1 ==> Streak(w.history, Latest(w) - 1, code) <= 2)
  }

  ghost predicate Braked(w: View) {
    forall code :: code != "" ==> BrakedCode(w, code)
  }

  /** Failure streaks only look at the attempts, their number and the status. */
  lemma SameFailures(w: View, w': View)
    requires Braked(w) && w'.history == w.history && Latest(w') == Latest(w)
    requires w'.state.status == w.state.status
    ensures Braked(w')
  {
    forall code | code != "" ensures BrakedCode(w', code) { assert BrakedCode(w, code); }
  }

  /** A BLOCKED node names what blocks it. */
  predicate NamesBlocker(state: NodeState) {
    state.status.Blocked? ==> state.blockedBy != []
  }

  // ---- The invariant ------------------------------------------------------

  /** What the store may show of a node. */
  ghost function Sound(plain: bool): iset<View> {
    iset w: View | Numbered(w) && Linked(w) && Once(w) && Unresolved(w) &&
      (plain ==> Tidy(w) && Braked(w) && NamesBlocker(w.state))
  }

  /** The id index and the attempt keys describe the same records, and every attempt has a state. */
  ghost predicate Indexed(s: Store) {
    && (forall n {:trigger IndexedState(s, n)} :: n in s.states ==> IndexedState(s, n))
    && (forall k {:trigger IndexedAttempt(s, k)} :: k in s.attempts ==> IndexedAttempt(s, k))
    && (forall id {:trigger IndexedId(s, id)} :: id in s.attemptIds ==> IndexedId(s, id))
    && (forall r :: r in ResolvedOutcomes(s.resolutions) ==> r.0 in s.attemptIds)
  }

  predicate IndexedState(s: Store, n: Id)
    requires n in s.states
  {
    s.states[n].value.nodeId == n
  }

  predicate IndexedId(s: Store, id: Id)
    requires id in s.attemptIds
  {
    s.attemptIds[id] in s.attempts && s.attempts[s.attemptIds[id]].value.attemptId == id
  }

  predicate IndexedAttempt(s: Store, k: AttemptKey)
    requires k in s.attempts
  {
    var a := s.attempts[k].value;
    && k.nodeId in s.states && a.nodeId == k.nodeId && a.attemptNo == k.attemptNo && IsAttemptStatus(a.status)
    && a.attemptId in s.attemptIds && s.attemptIds[a.attemptId] == k
  }

  ghost predicate Matches(def: Definition, s: Store) {
    forall n {:trigger MatchesNode(def, s.states, n)} :: n in s.states ==> MatchesNode(def, s.states, n)
  }

  /** The record of `n` belongs to this network. */
  predicate MatchesNode(def: Definition, states: map<Id, Stored<NodeState>>, n: Id)
    requires n in states
  {
    n in IdSet(def) && states[n].value.idempotent == def[Index(def, n)].idempotent
  }

  /** The stores that hold nothing but sound nodes of this network. */
  ghost function Consistent(def: Definition, plain: bool): iset<Store> {
    iset s: Store | Indexed(s) && Matches(def, s) &&
      forall n {:trigger ViewOf(s, n) in Sound(plain)} :: n in s.states ==> ViewOf(s, n) in Sound(plain)
  }

  ghost predicate NoWindow(s: Store) {
    forall n {:trigger Window(ViewOf(s, n))} :: n in s.states ==> !Window(ViewOf(s, n))
  }

  /** `t` differs from `s` at most in node `n`. */
  ghost predicate OnlyNode(s: Store, t: Store, n: Id) {
    && n in t.states && t.states.Keys == s.states.Keys + {n}
    && forall m {:trigger ViewOf(t, m)} :: m in s.states && m != n ==> ViewOf(t, m) == ViewOf(s, m)
  }

  /** A plain history is a history, with more to say about it. */
  lemma Weaken(plain: bool, plain': bool)
    requires plain' ==> plain
    ensures Sound(plain) <= Sound(plain')
  {
  }

  /** A write that touches one node keeps the invariant when it keeps it there. */
  lemma OneNodeChanged(def: Definition, s: Store, t: Store, n: Id, plain: bool, plain': bool)
    requires s in Consistent(def, plain) && Indexed(t) && (plain' ==> plain)
    requires OnlyNode(s, t, n) && ViewOf(t, n) in Sound(plain') && MatchesNode(def, t.states, n)
    ensures t in Consistent(def, plain')
  {
    Weaken(plain, plain');
    forall m | m in t.states ensures ViewOf(t, m) in Sound(plain') {
      if m != n { assert ViewOf(s, m) in Sound(plain); }
    }
    forall m | m in t.states ensures MatchesNode(def, t.states, m) {
      if m != n {
        assert MatchesNode(def, s.states, m) && ViewOf(t, m).state == ViewOf(s, m).state;
      }
    }
  }

  /** More resolutions never hurt, unless they are of attempts that still run. */
  lemma MoreResolved(w: View, w': View, plain: bool)
    requires w in Sound(plain) && w' == w.(resolved := w'.resolved) && w.resolved <= w'.resolved
    requires Unresolved(w')
    ensures w' in Sound(plain)
  {
    assert Numbered(w') && Once(w');
    if plain { SameFailures(w, w'); }
  }
}
