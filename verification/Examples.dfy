/** Concrete stores of small Runs. */
module Examples {
  import opened Dag
  import opened Domain
  import opened StoreContract
  import opened Invariants

  /** A node whose first attempt ended in this status: WAITING, RUNNING and the end make three revisions. */
  function EndedOnce(id: Id, status: Status): Stored<NodeState> {
    Stored(NodeState(id, status, 1, None, 3, true, []), 3)
  }

  /** That attempt; its id is the id of its node. */
  function FirstAttempt(id: Id, status: Status): Stored<Attempt> {
    Stored(Attempt(id, id, 1, "first invocation", status, "CODE", true, "", Some(1)), 3)
  }

  /** These nodes, all of them repeatable, have ended after one attempt each. */
  function EndedStore(ends: map<Id, Status>, run: Stored<Run>): Store {
    Store(run,
          map n | n in ends :: EndedOnce(n, ends[n]),
          map n | n in ends :: AttemptKey(n, 1) := FirstAttempt(n, ends[n]),
          map n | n in ends :: n := AttemptKey(n, 1),
          [], [])
  }

  lemma EndedView(w: View, status: Status)
    requires w.state == EndedOnce(w.state.nodeId, status).value && w.revision == 3
    requires w.history == imap[1 := FirstAttempt(w.state.nodeId, status).value] && TerminalAttempt(status)
    ensures w in Sound(true) && !Window(w)
  {
    forall code | code != "" ensures BrakedCode(w, code) {
      forall no: nat ensures Streak(w.history, no, code) <= 1 { }
    }
  }

  lemma EndedStoreViews(ends: map<Id, Status>, run: Stored<Run>, n: Id)
    requires n in ends && TerminalAttempt(ends[n])
    ensures ViewOf(EndedStore(ends, run), n) in Sound(true) && !Window(ViewOf(EndedStore(ends, run), n))
  {
    var s := EndedStore(ends, run);
    assert HistoryOf(s.attempts, n) == imap[1 := FirstAttempt(n, ends[n]).value];
    EndedView(ViewOf(s, n), ends[n]);
  }

  lemma EndedStoreIndexed(def: Definition, ends: map<Id, Status>, run: Stored<Run>)
    requires ends.Keys <= IdSet(def) && forall n :: n in ends ==> TerminalAttempt(ends[n]) && def[Index(def, n)].idempotent
    ensures Indexed(EndedStore(ends, run)) && Matches(def, EndedStore(ends, run))
  {
  }

  /** Such a store is one that the invariant allows. */
  lemma EndedStoreIsConsistent(def: Definition, ends: map<Id, Status>, run: Stored<Run>)
    requires ends.Keys <= IdSet(def) && forall n :: n in ends ==> TerminalAttempt(ends[n]) && def[Index(def, n)].idempotent
    ensures EndedStore(ends, run) in Consistent(def, true) && NoWindow(EndedStore(ends, run))
  {
    var s := EndedStore(ends, run);
    EndedStoreIndexed(def, ends, run);
    forall n | n in s.states ensures ViewOf(s, n) in Sound(true) && !Window(ViewOf(s, n)) {
      EndedStoreViews(ends, run, n);
    }
  }

  // ---- A resolution that was retried --------------------------------------

  function RetriedNetwork(): Definition {
    [Node("a", [], true)]
  }

  /**
   * The first attempt of a repeatable node ended UNKNOWN and was resolved to FAILED, a resume
   * reopened the node, and its second attempt succeeded.
   */
  function RetriedStore(): Store {
    Store(Stored(Run(RunSuccess, true, false), 1),
          map["a" := Stored(NodeState("a", Success, 2, None, 7, true, []), 7)],
          map[AttemptKey("a", 1) := Stored(Attempt("first", "a", 1, "one", Unknown, "", true, "", Some(1)), 3),
              AttemptKey("a", 2) := Stored(Attempt("second", "a", 2, "two", Success, "OK", true, "", Some(5)), 3)],
          map["first" := AttemptKey("a", 1), "second" := AttemptKey("a", 2)],
          [Resolution("first", Failed, 0)], [])
  }

  lemma RetriedView(w: View)
    requires w.state == RetriedStore().states["a"].value && w.revision == 7
    requires w.history == imap[1 := RetriedStore().attempts[AttemptKey("a", 1)].value,
                               2 := RetriedStore().attempts[AttemptKey("a", 2)].value]
    ensures w in Sound(true) && !Window(w)
  {
    RetriedNumbers(w, w.history[1], w.history[2]);
    forall code | code != "" ensures BrakedCode(w, code) {
      forall no: nat ensures Streak(w.history, no, code) == 0 { NoFailures(w.history, no, code); }
    }
  }

  lemma RetriedNumbers(w: View, first: Attempt, second: Attempt)
    requires Latest(w) == 2 && w.state.revision == 7 && w.history == imap[1 := first, 2 := second]
    requires first.stateRevisionBefore == Some(1) && second.stateRevisionBefore == Some(5)
    ensures Numbered(w) && !Window(w)
  {
    assert forall no: nat :: no in w.history <==> no == 1 || no == 2;
    forall i: nat, j: nat | i in w.history && j in w.history && i < j <= Latest(w)
      ensures BasedBefore(w.history[i], w.history[j].stateRevisionBefore.value)
    {
      assert i == 1 && j == 2;
    }
    forall no: nat | no in w.history && no <= Latest(w) ensures BasedBefore(w.history[no], w.state.revision) {
      assert no == 1 || no == 2;
    }
  }

  lemma {:induction false} NoFailures(h: History, no: nat, code: string)
    requires forall i: nat :: i in h ==> !h[i].status.Failed?
    ensures Streak(h, no, code) == 0
  {
    if no > 0 && no in h && PrepareFailed(h[no]) { NoFailures(h, no - 1, code); }
  }

  lemma RetriedStoreIsIndexed()
    ensures Indexed(RetriedStore()) && Matches(RetriedNetwork(), RetriedStore())
  {
    assert RetriedNetwork()[0].id == "a";
    IndexOf(RetriedNetwork(), 0);
  }

  lemma RetriedStoreIsConsistent()
    ensures RetriedStore() in Consistent(RetriedNetwork(), true) && NoWindow(RetriedStore())
  {
    var s := RetriedStore();
    RetriedStoreIsIndexed();
    var first, second := s.attempts[AttemptKey("a", 1)].value, s.attempts[AttemptKey("a", 2)].value;
    assert HistoryOf(s.attempts, "a") == imap[1 := first, 2 := second];
    RetriedView(ViewOf(s, "a"));
  }
}
