/** What the end of an invocation tells its caller. */
module Outcomes {
  import opened Dag
  import opened Domain
  import opened StoreContract
  import opened Repository
  import opened Lease
  import opened Invariants
  import opened StoreWrites
  import opened GuardedWrites
  import opened Executor
  import opened Adjudication
  import opened Descendants
  import opened Meaning
  import opened Choices
  import opened ResumeStates
  import opened NodeSteps
  import opened Visit
  import opened Scheduler
  import opened Examples
  import Ensuring = EnsureRun

  ghost predicate NothingDone(s: Store) {
    forall n :: n in s.states ==> s.states[n].value.status.Waiting?
  }

  lemma WorkIsJob(works: Id -> Work)
    ensures IsJob(JobOf(works))
  {
    forall n ensures JobOf(works)(n).Waiting? || TerminalAttempt(JobOf(works)(n)) {
      match works(n)
      case PathRejected(_) =>
      case Ran(_, run) => DecideIsEvidenceBased(run);
    }
  }

  /**
   * A new Run that is walked to its end has one possible result, whatever topological
   * order is used, and blocks exactly the strict descendants of nodes that ended badly.
   */
  lemma NewRunResult(def: Definition, entry: Store, base: map<Id, Status>, works: Id -> Work,
                     m: map<Id, Status>, other: map<Id, Status>)
    requires Acyclic(def) && NothingDone(entry) && StartsFrom(New, entry, base)
    requires IsMeaning(def, base, JobOf(works), m) && IsMeaning(def, base, JobOf(works), other)
    ensures other == m
    ensures forall n :: n in m ==> (m[n].Blocked? <==> UnderFailure(def, m, n))
  {
    MeaningIsUnique(def, base, JobOf(works), m, other);
    WorkIsJob(works);
    forall n | n in base ensures base[n].Waiting? {
      assert base[n] == ResumedStatus(New, entry.attempts, entry.states[n].value);
    }
    forall n | n in m ensures m[n].Blocked? <==> UnderFailure(def, m, n) {
      BlockedIffUnderFailure(def, base, JobOf(works), m, n);
    }
  }

  lemma {:induction false} SucceedsAt(def: Definition, base: map<Id, Status>, job: Id -> Status, m: map<Id, Status>,
                                      order: seq<Id>, k: nat)
    requires Respects(def, order) && k < |order| && order[k] in m && IsMeaning(def, base, job, m)
    requires AllWaiting(base) && forall n :: n in m ==> job(n).Success?
    ensures m[order[k]].Success?
    decreases k
  {
    PlacedAfterDependencies(def, order, k);
    forall d | d in Deps(def, order[k]) ensures m[d].Success? {
      var i :| 0 <= i < k && order[i] == d;
      SucceedsAt(def, base, job, m, order, i);
    }
  }

  /** A new Run whose jobs all succeed ends with every node SUCCESS. */
  lemma AllJobsSucceed(def: Definition, base: map<Id, Status>, job: Id -> Status, m: map<Id, Status>)
    requires Acyclic(def) && IsMeaning(def, base, job, m) && AllWaiting(base) && forall n :: n in m ==> job(n).Success?
    ensures forall n :: n in m ==> m[n].Success?
  {
    var order :| IsTopological(def, order);
    forall n | n in m ensures m[n].Success? {
      assert n in Elements(order);
      var k :| 0 <= k < |order| && order[k] == n;
      SucceedsAt(def, base, job, m, order, k);
    }
  }

  /** An invocation reports success exactly when it was not cut short and every node has succeeded. */
  lemma SuccessIsTrue(close: Close, run: Stored<Run>, states: map<Id, Stored<NodeState>>, ioFailure: Option<string>)
    requires ClosedAs(close, run.value.status, ioFailure) && Aggregated(run, states)
    requires !close.exit.StopRequested? && !close.exit.LostDuringAttempt?
    ensures close.status.InvocationSuccess? <==> states != map[] && forall n :: n in states ==> states[n].value.status.Success?
    ensures close.status.InvocationUnknown? <==> exists n :: n in states && states[n].value.status.Unknown?
  {
    ClosedIsTrue(close, run, states, ioFailure);
  }

  // ---- Reruns -------------------------------------------------------------

  /** A node that is WAITING when the invocation begins is WAITING when its walk begins. */
  lemma WaitingBegins(mode: Mode, s: Store, invocationId: Id, jobLog: Id -> Option<string>, entry: Store,
                      base: map<Id, Status>, n: Id)
    requires entry.states == EntryStates(mode, s, invocationId, jobLog) && StartsFrom(mode, entry, base)
    requires n in s.states && s.states[n].value.status.Waiting?
    ensures n in base && base[n].Waiting?
  {
    assert n !in Decisions(s, invocationId, jobLog);
    assert base[n] == ResumedStatus(mode, entry.attempts, entry.states[n].value);
  }

  /** How a rerun that came to the end of its walk leaves a selected node. */
  ghost predicate RerunEnded(def: Definition, works: Id -> Work, excluded: set<Id>, m: map<Id, Status>, n: Id) {
    && Covers(def, m) && n in m
    && (m[n].Blocked? <== n in excluded || exists d :: d in Deps(def, n) && BlocksDependents(m[d]))
    && (n !in excluded && (forall d :: d in Deps(def, n) ==> !BlocksDependents(m[d])) ==>
          m[n] == if exists d :: d in Deps(def, n) && (m[d].Waiting? || m[d].Running?) then Waiting else WorkStatus(works(n)))
  }

  /**
   * A rerun from `nodeId`, from the request to the end of its walk: it attempts only that node
   * and its descendants, leaves the records of all others as they were when the walk began, and
   * gives each of its own nodes what its dependencies and its work make of it.
   */
  method RerunFromNode(repo: Repository, monitor: LeaseMonitor, def: Definition, ghost plain: bool, nodeId: Id,
                       works: Id -> Work, invocationId: Id, jobLog: Id -> Option<string>)
    returns (r: Option<Close>, ghost trace: Trace)
    requires UniqueIds(def) && KnownDependencies(def) && Acyclic(def) && repo.Contents() in Consistent(def, plain)
    modifies repo, monitor
    ensures repo.Contents() in Consistent(def, false)
    ensures r.Some? ==> forall key :: key in Made(trace.log) ==> key.nodeId in DescendantsOf(def, {nodeId})
    ensures r.Some? ==> Untouched(trace.states, repo.states, DescendantsOf(def, {nodeId}))
    ensures r.Some? && r.value.exit.Continue? ==>
      forall n :: n in DescendantsOf(def, {nodeId}) ==>
        RerunEnded(def, works, ExcludedFrom(def, RerunFrom, trace.entry), StatusMap(repo.states), n)
  {
    var admission, half := Ensuring.EnsureRun(repo, def, plain, Ensuring.RerunRun(nodeId));
    trace := Trace(repo.Contents(), repo.run, repo.states, []);
    if admission.Err? || admission.value.AlreadySuccess? { return None, trace; }
    ghost var s := repo.Contents();
    var close, report;
    close, report, trace := RunSequentialScheduler(repo, monitor, def, false, RerunFrom, admission.value.selection, works,
                                           invocationId, jobLog);
    if close.Err? { return None, trace; }
    if close.value.exit.Continue? {
      RerunEnds(def, s, trace, works, invocationId, jobLog, admission.value.selection, StatusMap(repo.states));
    }
    return Some(close.value), trace;
  }

  lemma RerunEnds(def: Definition, s: Store, trace: Trace, works: Id -> Work, invocationId: Id, jobLog: Id -> Option<string>,
                  selection: set<Id>, m: map<Id, Status>)
    requires Ensuring.SelectionWaits(s.states, selection)
    requires trace.entry.states == EntryStates(RerunFrom, s, invocationId, jobLog)
    requires StartsFrom(RerunFrom, trace.entry, StatusMap(trace.states))
    requires RerunMeaning(def, StatusMap(trace.states), JobOf(works), selection, ExcludedFrom(def, RerunFrom, trace.entry), m)
    ensures forall n :: n in selection ==> RerunEnded(def, works, ExcludedFrom(def, RerunFrom, trace.entry), m, n)
  {
    forall n | n in selection ensures RerunEnded(def, works, ExcludedFrom(def, RerunFrom, trace.entry), m, n) {
      WaitingBegins(RerunFrom, s, invocationId, jobLog, trace.entry, StatusMap(trace.states), n);
      RerunEndsAt(def, works, ExcludedFrom(def, RerunFrom, trace.entry), m, n);
    }
  }

  lemma RerunEndsAt(def: Definition, works: Id -> Work, excluded: set<Id>, m: map<Id, Status>, n: Id)
    requires Covers(def, m) && n in m && m[n] == RerunStatus(def, JobOf(works), excluded, m, n)
    ensures RerunEnded(def, works, excluded, m, n)
  {
  }

  // ---- Stops --------------------------------------------------------------

  /** A stop cannot leave a new Run with a stale status. */
  lemma NewRunStopsFresh(entry: Store, run: Stored<Run>, states: map<Id, Stored<NodeState>>)
    requires NothingDone(entry) && StartsFrom(New, entry, StatusMap(states)) && !run.value.started
    ensures Aggregated(StartedRun(run), states)
  {
    forall n | n in states ensures states[n].value.status.Waiting? {
      assert StatusMap(states)[n] == ResumedStatus(New, entry.attempts, entry.states[n].value);
    }
  }

  /** One node, repeatable, that failed. */
  function OneNode(): Definition {
    [Node("a", [], true)]
  }

  function OneFailure(): Store {
    EndedStore(map["a" := Failed], Stored(Run(RunFailed, true, false), 1))
  }

  lemma OneNodeIsAcyclic()
    ensures IdSet(OneNode()) == {"a"} && Index(OneNode(), "a") == 0 && Deps(OneNode(), "a") == []
    ensures UniqueIds(OneNode()) && KnownDependencies(OneNode()) && Acyclic(OneNode())
  {
    var def, order := OneNode(), ["a"];
    assert def[0].id == "a";
    IndexOf(def, 0);
    assert IdSet(def) == {"a"};
    assert order[..0] == [] && Ready(def, Elements(order[..0]), order[0]);
    assert IsTopological(def, order);
  }

  lemma OneFailureIsSettled()
    ensures OneFailure() in Settled(OneNode(), true) && OneFailure().states.Keys == IdSet(OneNode())
    ensures DependencySafe(OneNode(), OneFailure().states)
  {
    OneNodeIsAcyclic();
    EndedStoreIsConsistent(OneNode(), map["a" := Failed], OneFailure().run);
    assert OneFailure().states.Keys == {"a"};
  }

  lemma ShortStreak(h: History, no: nat, code: string)
    ensures Streak(h, no, code) <= no
  {
  }

  /** However resume finds the one failed node, it reopens it, and the Run should no longer be FAILED. */
  lemma ReopenedIsNotFailed(entry: Store, states: map<Id, Stored<NodeState>>)
    requires entry.states == OneFailure().states && StartsFrom(Resume, entry, StatusMap(states))
    ensures !Aggregated(OneFailure().run, states)
  {
    var before := entry.states["a"].value;
    forall code | code != "" ensures Streak(HistoryOf(entry.attempts, "a"), 1, code) < 3 {
      ShortStreak(HistoryOf(entry.attempts, "a"), 1, code);
    }
    assert StatusMap(states)["a"] == ResumedStatus(Resume, entry.attempts, before) == Waiting;
    assert states.Keys == StatusMap(states).Keys == {"a"};
    assert states["a"].value.status in Statuses(states);
    assert Statuses(states) == {Waiting};
  }

  lemma NothingToDecide(s: Store, invocationId: Id, jobLog: Id -> Option<string>)
    requires forall n :: n in s.states ==> !s.states[n].value.status.Running?
    ensures EntryStates(Resume, s, invocationId, jobLog) == s.states
  {
    assert Decisions(s, invocationId, jobLog) == map[];
  }

  /** Whenever a stop ends the resume of this Run, the Run still says FAILED over a node that is WAITING. */
  method StoppedResumeIsStale(repo: Repository, monitor: LeaseMonitor, works: Id -> Work, invocationId: Id,
                              jobLog: Id -> Option<string>)
    returns (r: Result<Close, Failure>)
    requires repo.Contents() == OneFailure()
    modifies repo, monitor
    ensures r.Ok? && r.value.exit.StopRequested? ==> repo.run == OneFailure().run && !Aggregated(repo.run, repo.states)
  {
    ghost var s := OneFailure();
    OneNodeIsAcyclic();
    OneFailureIsSettled();
    NothingToDecide(s, invocationId, jobLog);
    r := StoppedResume(repo, monitor, OneNode(), s, works, invocationId, jobLog);
  }

  method StoppedResume(repo: Repository, monitor: LeaseMonitor, def: Definition, ghost s: Store, works: Id -> Work,
                       invocationId: Id, jobLog: Id -> Option<string>)
    returns (r: Result<Close, Failure>)
    requires repo.Contents() == s && s in Settled(def, true) && s.states.Keys == IdSet(def) && IdSet(def) == {"a"}
    requires UniqueIds(def) && KnownDependencies(def) && Acyclic(def) && DependencySafe(def, s.states)
    requires s.states == OneFailure().states && s.run == OneFailure().run
    requires EntryStates(Resume, s, invocationId, jobLog) == s.states
    modifies repo, monitor
    ensures r.Ok? && r.value.exit.StopRequested? ==> repo.run == OneFailure().run && !Aggregated(repo.run, repo.states)
  {
    var report;
    ghost var trace;
    r, report, trace := RunSequentialScheduler(repo, monitor, def, true, Resume, {}, works, invocationId, jobLog);
    if r.Ok? && r.value.exit.StopRequested? {
      ReopenedIsNotFailed(trace.entry, trace.states);
      assert ActedOn(trace.log) == {};
    }
  }

  // ---- A lease that is confirmed again ------------------------------------

  /**
   * The read of the stop request fails in transport, the lease is confirmed again, the
   * repeated read sees no stop: nothing is started any more, yet the invocation ends with
   * the code of the aggregate and not as interrupted.
   */
  method ReconfirmedLeaseIsDeferred(repo: Repository, monitor: LeaseMonitor, p: Progress, ghost def: Definition,
                                    ghost plain: bool, at: int)
    returns (r: Result<Close, Failure>)
    requires repo.Contents() in Settled(def, plain) && Tracks(p, repo) && Statuses(p.states) == {Waiting}
    requires repo.run.value.started && repo.cancelRequest.None?
    requires monitor.state.Held? && p.log == [LeaseSeen(true)]
    modifies repo`run, monitor, p`run, p`log
    ensures p.log == [LeaseSeen(true), HoldRead(false), LeaseSeen(false)] && Fenced(p.log) && !Interrupted(p.log)
    ensures !monitor.state.Held?
    ensures r.Ok? ==> r.value == Close(LeaseNotHeld, InvocationCancelled, "NODES_DEFERRED")
  {
    monitor.MarkControlPlaneUnreachable();
    var confirmed := monitor.ConfirmLeaseForFinalWrite(Renewed(at));
    p.log := p.log + [HoldRead(IsCancelHold(repo.cancelRequest))];
    p.log := p.log + [LeaseSeen(monitor.CanStartNewNode())];
    r := Finish(repo, monitor, p, def, plain, LeaseNotHeld);
  }
}
