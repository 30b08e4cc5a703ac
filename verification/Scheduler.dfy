/** The sequential scheduler: one invocation, one node at a time, in topological order. */
module Scheduler {
  import opened Dag
  import opened TopologicalSort
  import opened Descendants
  import opened Domain
  import opened StoreContract
  import opened Repository
  import opened Lease
  import opened Invariants
  import opened StoreWrites
  import opened GuardedWrites
  import opened Executor
  import opened Adjudication
  import opened Recovery
  import opened Meaning
  import opened Choices
  import opened ResumeStates
  import opened NodeSteps
  import opened Visit

  /** The statuses the jobs of an invocation would leave. */
  function JobOf(works: Id -> Work): Id -> Status {
    n => WorkStatus(works(n))
  }

  function ChoiceFor(def: Definition, mode: Mode, selected: set<Id>, excluded: set<Id>,
                     states: map<Id, Stored<NodeState>>, n: Id): Choice
    requires states.Keys == IdSet(def) && KnownDependencies(def) && n in states
  {
    Choose(def, mode, selected, excluded, StatusMap(states), n)
  }

  /** A loop that goes on has given the node the status of its choice. */
  ghost predicate VisitedAs(choice: Choice, worked: Status, before: map<Id, Stored<NodeState>>,
                            after: map<Id, Stored<NodeState>>, n: Id)
    requires n in before
  {
    && after.Keys == before.Keys
    && StatusMap(after) == StatusMap(before)[n := StatusAfter(choice, worked, StatusMap(before), n)]
  }

  lemma SteppedStatuses(before: map<Id, Stored<NodeState>>, after: map<Id, Stored<NodeState>>, n: Id,
                        choice: Choice, worked: Status)
    requires n in before && n in after && after == before[n := after[n]]
    requires after[n].value.status == StatusAfter(choice, worked, StatusMap(before), n)
    ensures VisitedAs(choice, worked, before, after, n)
  {
  }

  /** Blocking a node acts on it; starting it does, unless a stop or the lease forbids it. */
  predicate ActsOn(choice: Choice, exit: Exit) {
    choice.Block? || (choice.Start? && !Forbidden(exit))
  }

  /** A stop or the lease ended the loop before the node could be started. */
  predicate Forbidden(exit: Exit) {
    exit.StopRequested? || exit.LeaseNotHeld?
  }

  /** How a visit leaves what the invocation mirrors: acted on, with a Run that carries the aggregate, or exactly as it was. */
  ghost function Turned(before: Progressed, n: Id, choice: Choice, exit: Exit, work: Work): iset<Progressed> {
    if !ActsOn(choice, exit) then iset{before}
    else if choice.Block? then Stepped(before, n, Blocked, None)
    else Stepped(before, n, WorkStatus(work), Some(work))
  }

  lemma TurnedStatuses(before: Progressed, after: Progressed, n: Id, choice: Choice, exit: Exit, work: Work)
    requires n in before.states && !Forbidden(exit) && after in Turned(before, n, choice, exit, work)
    ensures VisitedAs(choice, WorkStatus(work), before.states, after.states, n)
  {
    if ActsOn(choice, exit) { SteppedStatuses(before.states, after.states, n, choice, WorkStatus(work)); }
  }

  /** The nodes a choice may touch in the store. */
  function Touched(choice: Choice, n: Id): set<Id> {
    if choice.Block? || choice.Start? then {n} else {}
  }

  /** Starts the node that was chosen for it. */
  method StartChosen(repo: Repository, monitor: LeaseMonitor, p: Progress, ghost def: Definition, ghost plain: bool,
                     n: Id, work: Work, invocationId: Id)
    returns (r: Result<Exit, Failure>)
    requires repo.Contents() in Settled(def, plain) && Tracks(p, repo)
    requires n in p.states && n in IdSet(def) && p.states[n].value.status.Waiting? && p.states[n].value.nodeId == n
    requires DependenciesSucceeded(def, p.states, n) && Logged(p, monitor)
    modifies repo`states, repo`attempts, repo`attemptIds, repo`run, repo`cancelRequest, monitor, p
    ensures Now(repo, monitor, p) in Taken(def, plain, p.began, n, Start, work, old(Now(repo, monitor, p)), r)
    ensures r.Ok? ==> NotesOf(p) == Noted(old(NotesOf(p)), n, Start, r.value, WorkStatus(work), Waiting)
  {
    ghost var before, notes := Now(repo, monitor, p), NotesOf(p);
    r := VisitStart(repo, monitor, p, def, plain, n, work, invocationId);
    ghost var after := Now(repo, monitor, p);
    NotedStart(notes, NotesOf(p), n, r, WorkStatus(work));
    if r.Ok? { assert after.progress in Turned(before.progress, n, Start, r.value, work) && Mirrors(def, plain, after); }
    IsTaken(def, plain, p.began, n, Start, work, before, after, r);
  }

  /** Visits one node: acts on its choice. */
  method VisitNode(repo: Repository, monitor: LeaseMonitor, p: Progress, ghost def: Definition, ghost plain: bool,
                   n: Id, choice: Choice, work: Work, invocationId: Id)
    returns (r: Result<Exit, Failure>)
    requires repo.Contents() in Settled(def, plain) && Tracks(p, repo)
    requires n in p.states && n in IdSet(def) && p.states[n].value.nodeId == n && Logged(p, monitor)
    requires choice.Start? ==> p.states[n].value.status.Waiting? && DependenciesSucceeded(def, p.states, n)
    requires plain && choice.Block? ==> choice.failed != []
    modifies repo`states, repo`attempts, repo`attemptIds, repo`run, repo`cancelRequest, monitor, p
    ensures Now(repo, monitor, p) in Taken(def, plain, p.began, n, choice, work, old(Now(repo, monitor, p)), r)
    ensures r.Ok? ==>
      NotesOf(p) == Noted(old(NotesOf(p)), n, choice, r.value, WorkStatus(work), old(p.states)[n].value.status)
  {
    ghost var before, notes, status := Now(repo, monitor, p), NotesOf(p), p.states[n].value.status;
    match choice {
      case Block(failed) =>
        r := VisitBlock(repo, monitor, p, def, plain, n, failed);
        NotedBlock(notes, NotesOf(p), n, failed, r, WorkStatus(work), status);
        IsTaken(def, plain, p.began, n, choice, work, before, Now(repo, monitor, p), r);
      case Start =>
        r := StartChosen(repo, monitor, p, def, plain, n, work, invocationId);
      case _ =>
        NoteDown(p, n, choice, WorkStatus(work));
        r := Ok(Continue);
        NotTaken(def, plain, p.began, n, choice, work, before);
        assert Now(repo, monitor, p) == before;
    }
  }

  lemma NotedBlock(before: Notes, after: Notes, n: Id, failed: seq<Id>, r: Result<Exit, Failure>, worked: Status, status: Status)
    requires r.Ok? ==> after == Notes(before.selected, before.preserved, before.blocked + {n},
                                      before.results[n := NodeResult(BlockedNow, Blocked)])
    ensures r.Ok? ==> after == Noted(before, n, Block(failed), r.value, worked, status)
  {
  }

  lemma NotedStart(before: Notes, after: Notes, n: Id, r: Result<Exit, Failure>, worked: Status)
    requires r.Ok? ==> after == Notes(before.selected + {n}, before.preserved, before.blocked,
                                      before.results[n := StartResult(r.value, worked)])
    ensures r.Ok? ==> after == Noted(before, n, Start, r.value, worked, Waiting)
  {
  }

  /** The choices that write nothing to the store. */
  method NoteDown(p: Progress, n: Id, choice: Choice, ghost worked: Status)
    requires n in p.states && !choice.Block? && !choice.Start?
    modifies p`selected, p`preserved, p`blocked, p`results
    ensures NotesOf(p) == Noted(old(NotesOf(p)), n, choice, Continue, worked, p.states[n].value.status)
  {
    var status := p.states[n].value.status;
    match choice {
      case Preserve =>
        p.preserved, p.results := p.preserved + {n}, p.results[n := NodeResult(Preserved, status)];
      case SkipUnselected =>
        p.results := p.results[n := NodeResult(Excluded, status)];
      case Exclude =>
        p.blocked, p.results := p.blocked + {n}, p.results[n := NodeResult(Excluded, status)];
      case Defer =>
        p.selected, p.results := p.selected + {n}, p.results[n := NodeResult(Deferred, status)];
    }
  }

  // ---- The loop -----------------------------------------------------------

  lemma SafeStoreStatuses(def: Definition, plain: bool, s: Store)
    requires s in Consistent(def, plain) && DependencySafe(def, s.states)
    ensures SafeStatuses(def, StatusMap(s.states))
  {
    var m := StatusMap(s.states);
    forall n | n in m ensures !m[n].Skipped? {
      assert ViewOf(s, n) in Sound(plain);
      NeverSkipped(ViewOf(s, n), plain);
    }
    forall n, d | n in m && DependsOn(def, n, d) && HasStarted(m[n]) ensures d in m && m[d].Success? {
      assert NodeSafe(def, s.states, n);
    }
  }

  /** In a safe network the next visit blocks only for a reason and gives its node its meaning. */
  lemma NextVisit(def: Definition, plain: bool, s: Store, base: map<Id, Status>, job: Id -> Status, order: seq<Id>, k: nat,
                  mode: Mode, selected: set<Id>, roots: set<Id>, excluded: set<Id>)
    requires s in Consistent(def, plain) && DependencySafe(def, s.states) && !mode.RerunFrom?
    requires Respects(def, order) && k < |order| && AreRoots(base, roots) && excluded == roots + DescendantsOf(def, roots)
    requires Reached(def, base, job, order, k, excluded, StatusMap(s.states))
    ensures order[k] in s.states
    ensures var choice := Choose(def, mode, selected, excluded, StatusMap(s.states), order[k]);
      && (choice.Block? ==> choice.failed != [])
      && Reached(def, base, job, order, k + 1, excluded,
                 StatusMap(s.states)[order[k] := StatusAfter(choice, job(order[k]), StatusMap(s.states), order[k])])
  {
    var m := StatusMap(s.states);
    SafeStoreStatuses(def, plain, s);
    ReachedVisitable(def, base, job, order, k, roots, m);
    VisitedMeaning(def, base, job, m, order[k], mode, selected, excluded, roots);
    var status := StatusAfter(Choose(def, mode, selected, excluded, m, order[k]), job(order[k]), m, order[k]);
    ReachedOneMore(def, base, job, order, k, excluded, m, status);
  }

  /** A choice to start is backed by the dependencies. */
  lemma StartJustified(def: Definition, plain: bool, s: Store, mode: Mode, selected: set<Id>, excluded: set<Id>, n: Id)
    requires s in Consistent(def, plain) && s.states.Keys == IdSet(def) && KnownDependencies(def) && n in s.states
    ensures s.states[n].value.nodeId == n
    ensures ChoiceFor(def, mode, selected, excluded, s.states, n).Start? ==>
      s.states[n].value.status.Waiting? && DependenciesSucceeded(def, s.states, n)
  {
    assert IndexedState(s, n);
    if ChoiceFor(def, mode, selected, excluded, s.states, n).Start? {
      StartableDependencies(def, plain, s, n);
    }
  }

  /** Everything the loop is given. */
  datatype Tour = Tour(
    order: seq<Id>,
    mode: Mode,
    selection: set<Id>,
    roots: set<Id>,
    excluded: set<Id>,
    works: Id -> Work,
    invocationId: Id)

  ghost predicate Tours(def: Definition, tour: Tour, base: map<Id, Status>) {
    && IsTopological(def, tour.order) && KnownDependencies(def)
    && AreRoots(base, tour.roots) && tour.excluded == tour.roots + DescendantsOf(def, tour.roots)
  }

  /** The states the loop may see before its `k`-th visit; `safe` says that the invocation began on a safe network. */
  ghost function Touring(def: Definition, tour: Tour, base: map<Id, Status>, safe: bool, k: nat): iset<map<Id, Stored<NodeState>>>
    requires k <= |tour.order|
  {
    iset states: map<Id, Stored<NodeState>> | states.Keys == IdSet(def) &&
      (safe ==> DependencySafe(def, states) && !tour.mode.RerunFrom? &&
                Reached(def, base, JobOf(tour.works), tour.order, k, tour.excluded, StatusMap(states))) &&
      (tour.mode.RerunFrom? ==>
        RerunReached(def, base, JobOf(tour.works), tour.selection, tour.excluded, tour.order, k, StatusMap(states)))
  }

  /** The nodes the loop may touch: a rerun touches what it selected. */
  function Touchable(def: Definition, tour: Tour): set<Id> {
    if tour.mode.RerunFrom? then tour.selection else IdSet(def)
  }

  /** The path failure of the last attempt that had one. */
  function LastRejection(attempts: seq<AttemptKey>, works: Id -> Work): Option<string> {
    if attempts == [] then None
    else
      var rejection := Rejection(works(attempts[|attempts| - 1].nodeId));
      if rejection.Some? then rejection else LastRejection(attempts[..|attempts| - 1], works)
  }

  /** The path failures that an invocation is closed with: a missing or changed input file, or a rejected output. */
  predicate IsPathFailure(work: Work) {
    work.PathRejected? &&
    (work.code == "INPUT_FILE_MISSING" || work.code == "INPUT_FILE_MUTATED" || work.code == "OUTPUT_PATH_REJECTED")
  }

  /** The `i`-th attempt is the last one that had such a failure. */
  ghost predicate FailsLast(attempts: seq<AttemptKey>, works: Id -> Work, i: nat) {
    && i < |attempts| && IsPathFailure(works(attempts[i].nodeId))
    && forall j :: i < j < |attempts| ==> !IsPathFailure(works(attempts[j].nodeId))
  }

  lemma {:induction false} LastRejectionIff(attempts: seq<AttemptKey>, works: Id -> Work)
    ensures LastRejection(attempts, works).Some? <==> exists i: nat :: FailsLast(attempts, works, i)
    ensures forall i: nat :: FailsLast(attempts, works, i) ==>
      LastRejection(attempts, works) == Some(works(attempts[i].nodeId).code)
  {
    if attempts != [] {
      var last := |attempts| - 1;
      if IsPathFailure(works(attempts[last].nodeId)) {
        assert FailsLast(attempts, works, last);
      } else {
        var front := attempts[..last];
        LastRejectionIff(front, works);
        forall i: nat ensures FailsLast(attempts, works, i) <==> FailsLast(front, works, i) {
          if i < last { assert front[i] == attempts[i]; }
          forall j | i < j < last ensures front[j] == attempts[j] { }
        }
      }
    }
  }

  /** How one turn leaves what the invocation mirrors: acted on, with the aggregate stored, or exactly as it was. */
  ghost function OneTurn(before: Progressed, n: Id, forbidden: bool, works: Id -> Work): iset<Progressed> {
    iset after: Progressed | after == before ||
      (&& !forbidden && Aggregated(after.run, after.states) && after.acted == before.acted + {n}
       && (AttemptNoted(before, after, n, None) || AttemptNoted(before, after, n, Some(works(n)))))
  }

  /** The same after turns of all these nodes. */
  ghost function Walked(start: Progressed, visited: set<Id>, works: Id -> Work): iset<Progressed> {
    iset after: Progressed |
      && after.acted <= visited && after.ioFailure == LastRejection(after.attempts, works)
      && if after.acted == {} then after == start else Aggregated(after.run, after.states)
  }

  lemma RejectionNoted(before: Progressed, after: Progressed, n: Id, works: Id -> Work)
    requires before.ioFailure == LastRejection(before.attempts, works)
    requires AttemptNoted(before, after, n, None) || AttemptNoted(before, after, n, Some(works(n)))
    ensures after.ioFailure == LastRejection(after.attempts, works)
  {
    if AttemptNoted(before, after, n, Some(works(n))) {
      assert after.attempts[..|after.attempts| - 1] == before.attempts;
    }
  }

  // ---- The report ---------------------------------------------------------

  predicate WasAttempted(attempts: seq<AttemptKey>, n: Id) {
    exists key :: key in attempts && key.nodeId == n
  }

  /**
   * What a result says about its node: the status it has now, and whether it was attempted,
   * blocked or left alone. A node that was reached and left alone counts as preserved
   * exactly if it has succeeded.
   */
  predicate Described(result: NodeResult, status: Status, attempted: bool, acted: bool, reached: bool) {
    && result.status == status
    && (attempted ==> result.disposition == if status.Waiting? then Deferred else Executed)
    && (acted && !attempted ==> result.disposition.BlockedNow? && status.Blocked?)
    && (!acted ==> result.disposition.Preserved? || result.disposition.Deferred? || result.disposition.Excluded?)
    && (!acted && result.disposition.Preserved? ==> status.Success?)
    && (!acted && reached && status.Success? ==> result.disposition.Preserved?)
  }

  /** The nodes that were reached have true results. */
  ghost function Reports(reached: set<Id>): iset<(map<Id, NodeResult>, Progressed)> {
    iset now: (map<Id, NodeResult>, Progressed) |
      && now.0.Keys == reached && now.1.acted <= reached && (forall key :: key in now.1.attempts ==> key.nodeId in now.1.acted)
      && forall n :: n in reached ==> n in now.1.states && DescribedAt(now.0[n], now.1, n)
  }

  predicate DescribedAt(result: NodeResult, p: Progressed, n: Id)
    requires n in p.states
  {
    Described(result, p.states[n].value.status, WasAttempted(p.attempts, n), n in p.acted, true)
  }

  /** Another node's result stays true. */
  lemma StillDescribed(result: NodeResult, before: Progressed, after: Progressed, n: Id, other: Id, work: Option<Work>)
    requires n != other && other in before.states && other in after.states && after.states[other] == before.states[other]
    requires after.acted == before.acted || after.acted == before.acted + {n}
    requires after.attempts == before.attempts || AttemptNoted(before, after, n, work)
    requires DescribedAt(result, before, other)
    ensures DescribedAt(result, after, other)
  {
    assert WasAttempted(after.attempts, other) <==> WasAttempted(before.attempts, other);
  }

  /** The result of a node that is reached for the first time. */
  lemma NewlyDescribed(def: Definition, mode: Mode, selected: set<Id>, excluded: set<Id>, before: Progressed, after: Progressed, n: Id,
                       choice: Choice, exit: Exit, work: Work)
    requires before.states.Keys == IdSet(def) && KnownDependencies(def) && n in before.states && n in after.states
    requires choice == ChoiceFor(def, mode, selected, excluded, before.states, n)
    requires choice.Start? ==> before.states[n].value.status.Waiting?
    requires after in Turned(before, n, choice, exit, work) && n !in before.acted && !WasAttempted(before.attempts, n)
    ensures DescribedAt(ResultOf(n, choice, exit, WorkStatus(work), before.states[n].value.status), after, n)
  {
    if choice.Start? && ActsOn(choice, exit) {
      assert after.attempts[|before.attempts|] in after.attempts;
    }
  }

  /** What a visit reports about its node. */
  function ResultOf(n: Id, choice: Choice, exit: Exit, worked: Status, status: Status): NodeResult {
    Noted(Notes({}, {}, {}, map[]), n, choice, exit, worked, status).results[n]
  }

  lemma ReportGrows(def: Definition, mode: Mode, selected: set<Id>, excluded: set<Id>, before: Progressed, after: Progressed, n: Id,
                    choice: Choice, exit: Exit, work: Work, reached: set<Id>, notes: Notes, notes': Notes)
    requires before.states.Keys == IdSet(def) && KnownDependencies(def) && n in before.states && n !in reached
    requires choice == ChoiceFor(def, mode, selected, excluded, before.states, n)
    requires choice.Start? ==> before.states[n].value.status.Waiting?
    requires after in Turned(before, n, choice, exit, work) && (notes.results, before) in Reports(reached)
    requires notes' == Noted(notes, n, choice, exit, WorkStatus(work), before.states[n].value.status)
    ensures (notes'.results, after) in Reports(reached + {n})
  {
    var results := notes'.results;
    NotedResult(notes, n, choice, exit, WorkStatus(work), before.states[n].value.status);
    NotReached(notes.results, before, reached, n);
    NewlyDescribed(def, mode, selected, excluded, before, after, n, choice, exit, work);
    OthersDescribed(notes.results, before, after, n, choice, exit, work, reached);
    AttemptsAreActs(before, after, n, choice, exit, work);
    OneMoreReported(notes.results, results, before, after, n, reached);
  }

  lemma OneMoreReported(results: map<Id, NodeResult>, results': map<Id, NodeResult>, before: Progressed, after: Progressed, n: Id,
                        reached: set<Id>)
    requires (results, before) in Reports(reached) && n in results' && results' == results[n := results'[n]] && n !in reached
    requires n in after.states && DescribedAt(results'[n], after, n) && after.acted <= before.acted + {n}
    requires forall other :: other in reached ==> other in after.states && DescribedAt(results[other], after, other)
    requires forall key :: key in after.attempts ==> key.nodeId in after.acted
    ensures (results', after) in Reports(reached + {n})
  {
  }

  /** A node that was not reached has not been acted on. */
  lemma NotReached(results: map<Id, NodeResult>, p: Progressed, reached: set<Id>, n: Id)
    requires (results, p) in Reports(reached) && n !in reached
    ensures n !in p.acted && !WasAttempted(p.attempts, n)
  {
  }

  lemma OthersDescribed(results: map<Id, NodeResult>, before: Progressed, after: Progressed, n: Id, choice: Choice, exit: Exit,
                        work: Work, reached: set<Id>)
    requires (results, before) in Reports(reached) && n !in reached && after in Turned(before, n, choice, exit, work)
    ensures forall other :: other in reached ==> other in after.states && DescribedAt(results[other], after, other)
  {
    forall other | other in reached ensures other in after.states && DescribedAt(results[other], after, other) {
      StillDescribed(results[other], before, after, n, other, if choice.Start? then Some(work) else None);
    }
  }

  lemma NotedResult(notes: Notes, n: Id, choice: Choice, exit: Exit, worked: Status, status: Status)
    ensures Noted(notes, n, choice, exit, worked, status).results == notes.results[n := ResultOf(n, choice, exit, worked, status)]
  {
  }

  lemma AttemptsAreActs(before: Progressed, after: Progressed, n: Id, choice: Choice, exit: Exit, work: Work)
    requires after in Turned(before, n, choice, exit, work) && forall key :: key in before.attempts ==> key.nodeId in before.acted
    ensures forall key :: key in after.attempts ==> key.nodeId in after.acted
  {
  }

  // ---- The turns ----------------------------------------------------------

  /**
   * What the loop has made of its results and of what it mirrors before the `k`-th visit. A
   * loop that was forbidden to start a node has acted on none but the nodes before it.
   */
  ghost function Strolled(start: Progressed, tour: Tour, k: nat, forbidden: bool): iset<(map<Id, NodeResult>, Progressed)>
    requires k <= |tour.order| && (forbidden ==> 0 < k)
  {
    iset now: (map<Id, NodeResult>, Progressed) |
      && now.1 in Walked(start, Elements(tour.order[..if forbidden then k - 1 else k]), tour.works)
      && now in Reports(Elements(tour.order[..k]))
  }

  lemma NextElements(order: seq<Id>, k: nat)
    requires k < |order|
    ensures Elements(order[..k + 1]) == Elements(order[..k]) + {order[k]}
  {
    assert order[..k + 1] == order[..k] + [order[k]];
  }

  lemma StrolledOn(start: Progressed, tour: Tour, k: nat, before: Progressed, after: Progressed, forbidden: bool,
                   results: map<Id, NodeResult>, results': map<Id, NodeResult>)
    requires k < |tour.order| && (results, before) in Strolled(start, tour, k, false)
    requires after in OneTurn(before, tour.order[k], forbidden, tour.works)
    requires (results', after) in Reports(Elements(tour.order[..k]) + {tour.order[k]})
    ensures (results', after) in Strolled(start, tour, k + 1, forbidden)
  {
    NextElements(tour.order, k);
    if after != before { RejectionNoted(before, after, tour.order[k], tour.works); }
  }

  /** What the whole loop has made of them. */
  ghost function Completed(def: Definition, start: Progressed, works: Id -> Work, exit: Exit): iset<(map<Id, NodeResult>, Progressed)> {
    iset now: (map<Id, NodeResult>, Progressed) |
      && now.1 in Walked(start, IdSet(def), works) && (Forbidden(exit) ==> now.1.acted < IdSet(def))
      && now in Reports(now.0.Keys) && now.0.Keys <= IdSet(def) && (exit.Continue? ==> now.0.Keys == IdSet(def))
  }

  lemma StrolledEnds(def: Definition, start: Progressed, tour: Tour, k: nat, exit: Exit, end: (map<Id, NodeResult>, Progressed))
    requires IsTopological(def, tour.order) && k <= |tour.order| && (Forbidden(exit) ==> 0 < k)
    requires exit.Continue? ==> k == |tour.order|
    requires end in Strolled(start, tour, k, Forbidden(exit))
    ensures end in Completed(def, start, tour.works, exit)
  {
    RespectsDistinct(def, tour.order);
    assert tour.order[..|tour.order|] == tour.order;
    if Forbidden(exit) {
      assert tour.order[k - 1] in Elements(tour.order) && tour.order[k - 1] !in tour.order[..k - 1];
    }
  }

  /** The choice of the `k`-th turn. */
  function TurnChoice(def: Definition, tour: Tour, selected: set<Id>, states: map<Id, Stored<NodeState>>, k: nat): Choice
    requires states.Keys == IdSet(def) && KnownDependencies(def) && k < |tour.order| && tour.order[k] in states
  {
    ChoiceFor(def, tour.mode, selected, tour.excluded, states, tour.order[k])
  }

  /** It can be acted on. */
  lemma TurnJustified(def: Definition, plain: bool, s: Store, tour: Tour, base: map<Id, Status>, safe: bool,
                      selected: set<Id>, k: nat)
    requires s in Consistent(def, plain) && Tours(def, tour, base) && k < |tour.order| && (plain ==> safe)
    requires s.states in Touring(def, tour, base, safe, k)
    ensures s.states.Keys == IdSet(def) && tour.order[k] in s.states && s.states[tour.order[k]].value.nodeId == tour.order[k]
    ensures var choice := TurnChoice(def, tour, selected, s.states, k);
      && (plain && choice.Block? ==> choice.failed != [])
      && (choice.Start? ==> s.states[tour.order[k]].value.status.Waiting? && DependenciesSucceeded(def, s.states, tour.order[k]))
  {
    assert Ready(def, Elements(tour.order[..k]), tour.order[k]);
    StartJustified(def, plain, s, tour.mode, selected, tour.excluded, tour.order[k]);
    if safe {
      NextVisit(def, plain, s, base, JobOf(tour.works), tour.order, k, tour.mode, selected, tour.roots, tour.excluded);
    }
  }

  /** Acting on it lets the loop see what it may see before its next visit. */
  lemma TurnTaken(def: Definition, plain: bool, s: Store, t: Store, tour: Tour, base: map<Id, Status>, safe: bool,
                  selected: set<Id>, k: nat, choice: Choice)
    requires s in Consistent(def, plain) && Tours(def, tour, base) && k < |tour.order|
    requires s.states in Touring(def, tour, base, safe, k) && tour.order[k] in s.states
    requires choice == TurnChoice(def, tour, selected, s.states, k)
    requires tour.mode.RerunFrom? ==> selected == tour.selection
    requires VisitedAs(choice, WorkStatus(tour.works(tour.order[k])), s.states, t.states, tour.order[k])
    requires DependencySafe(def, s.states) ==> DependencySafe(def, t.states)
    ensures t.states in Touring(def, tour, base, safe, k + 1)
  {
    if safe {
      NextVisit(def, plain, s, base, JobOf(tour.works), tour.order, k, tour.mode, selected, tour.roots, tour.excluded);
    }
    if tour.mode.RerunFrom? {
      RerunOneMore(def, base, JobOf(tour.works), tour.selection, tour.excluded, tour.order, k, StatusMap(s.states), choice);
    }
  }

  /** The results that give every node its meaning. */
  ghost function Meanings(def: Definition, base: map<Id, Status>, works: Id -> Work): iset<map<Id, Status>> {
    iset m: map<Id, Status> | IsMeaning(def, base, JobOf(works), m)
  }

  lemma KeepingSafe(def: Definition, plain: bool, s: Store, t: Store, made: set<AttemptKey>)
    requires t in Keeping(def, plain, s, made)
    ensures DependencySafe(def, s.states) ==> DependencySafe(def, t.states)
  {
  }

  lemma TurnedOnce(before: Progressed, after: Progressed, n: Id, choice: Choice, exit: Exit, works: Id -> Work)
    requires after in Turned(before, n, choice, exit, works(n)) && (ActsOn(choice, exit) ==> !Forbidden(exit))
    ensures after in OneTurn(before, n, Forbidden(exit), works)
    ensures ActsOn(choice, exit) ==> Aggregated(after.run, after.states)
  {
  }

  /** Everything the loop changes, as one value. */
  datatype Moment = Moment(store: Store, progress: Progressed, log: seq<Event>, lease: LeaseState)

  ghost function Now(repo: Repository, monitor: LeaseMonitor, p: Progress): Moment
    reads repo, monitor, p
  {
    Moment(repo.Contents(), ProgressOf(p), p.log, monitor.state)
  }

  /** The invocation mirrors a settled store. */
  ghost predicate Mirrors(def: Definition, plain: bool, m: Moment) {
    m.progress.states == m.store.states && m.progress.run == m.store.run && m.store in Settled(def, plain)
  }

  /** What every turn keeps, and what a turn that ends without an error leaves; it touches none but these nodes. */
  ghost function TurnsFrom(def: Definition, plain: bool, began: bool, nodes: set<Id>, before: Moment, r: Result<Exit, Failure>):
      iset<Moment> {
    iset m: Moment |
      && NeverRegained(before.lease, m.lease) && m.log in Logs(m.lease, began)
      && m.store in Keeping(def, plain, before.store, Made(m.log)) && Made(before.log) <= Made(m.log)
      && (m.store.states, m.progress.acted) in Confining(before.store.states, before.progress.acted, nodes)
      && (r.Ok? ==> Mirrors(def, plain, m) && (before.log in Endings(false) ==> m.log in Endings(r.value.LostDuringAttempt?)))
      && (r == Ok(LostDuringAttempt) ==> m.lease.FinalWriteConfirmed? && Aggregated(m.progress.run, m.progress.states))
  }

  lemma ConfiningChain(s: map<Id, Stored<NodeState>>, t: map<Id, Stored<NodeState>>, u: map<Id, Stored<NodeState>>,
                       a: set<Id>, b: set<Id>, c: set<Id>, nodes: set<Id>)
    requires (t, b) in Confining(s, a, nodes) && (u, c) in Confining(t, b, nodes)
    ensures (u, c) in Confining(s, a, nodes)
  {
  }

  lemma ConfiningMore(s: map<Id, Stored<NodeState>>, t: map<Id, Stored<NodeState>>, a: set<Id>, b: set<Id>, nodes: set<Id>, more: set<Id>)
    requires (t, b) in Confining(s, a, nodes) && nodes <= more
    ensures (t, b) in Confining(s, a, more)
  {
  }

  lemma TurnsChain(def: Definition, plain: bool, began: bool, nodes: set<Id>, a: Moment, b: Moment, c: Moment, r: Result<Exit, Failure>)
    requires b in TurnsFrom(def, plain, began, nodes, a, Ok(Continue)) && c in TurnsFrom(def, plain, began, nodes, b, r)
    ensures c in TurnsFrom(def, plain, began, nodes, a, r)
  {
    KeepingChain(def, plain, a.store, b.store, c.store, Made(b.log), Made(c.log));
    ConfiningChain(a.store.states, b.store.states, c.store.states, a.progress.acted, b.progress.acted, c.progress.acted, nodes);
  }

  lemma TurnsMore(def: Definition, plain: bool, began: bool, nodes: set<Id>, more: set<Id>, a: Moment, b: Moment, r: Result<Exit, Failure>)
    requires b in TurnsFrom(def, plain, began, nodes, a, r) && nodes <= more
    ensures b in TurnsFrom(def, plain, began, more, a, r)
  {
    ConfiningMore(a.store.states, b.store.states, a.progress.acted, b.progress.acted, nodes, more);
  }

  lemma NoTurnYet(def: Definition, plain: bool, began: bool, nodes: set<Id>, m: Moment)
    requires m.log in Logs(m.lease, began) && Mirrors(def, plain, m)
    ensures m in TurnsFrom(def, plain, began, nodes, m, Ok(Continue))
  {
    KeepingSettled(def, plain, m.store, m.store, Made(m.log));
    ConfinedSame(m.store.states, m.progress.acted, nodes);
  }

  /** A choice of a rerun touches selected nodes only. */
  lemma TouchedIsTouchable(def: Definition, tour: Tour, selected: set<Id>, states: map<Id, Stored<NodeState>>, k: nat)
    requires states.Keys == IdSet(def) && KnownDependencies(def) && k < |tour.order| && tour.order[k] in states
    requires tour.mode.RerunFrom? ==> selected == tour.selection
    ensures Touched(TurnChoice(def, tour, selected, states, k), tour.order[k]) <= Touchable(def, tour)
    ensures tour.mode.RerunFrom? ==>
      SelectedBy(selected, tour.order[k], TurnChoice(def, tour, selected, states, k)) == tour.selection
  {
  }

  /** Starting and deferring a node select it. */
  function SelectedBy(selected: set<Id>, n: Id, choice: Choice): set<Id> {
    selected + if choice.Start? || choice.Defer? then {n} else {}
  }

  /** What a turn leaves. */
  ghost function Taken(def: Definition, plain: bool, began: bool, n: Id, choice: Choice, work: Work, before: Moment,
                       r: Result<Exit, Failure>): iset<Moment> {
    iset m: Moment | m in TurnsFrom(def, plain, began, Touched(choice, n), before, r) &&
      (r.Ok? ==> m.progress in Turned(before.progress, n, choice, r.value, work) && (r.value.Continue? || choice.Start?))
  }

  lemma TurnConcluded(def: Definition, plain: bool, began: bool, tour: Tour, base: map<Id, Status>, safe: bool,
                      selected: set<Id>, k: nat, choice: Choice, before: Moment, after: Moment, r: Result<Exit, Failure>)
    requires Tours(def, tour, base) && k < |tour.order| && Mirrors(def, plain, before)
    requires before.store.states in Touring(def, tour, base, safe, k) && tour.order[k] in before.store.states
    requires choice == TurnChoice(def, tour, selected, before.store.states, k)
    requires tour.mode.RerunFrom? ==> selected == tour.selection
    requires after in Taken(def, plain, began, tour.order[k], choice, tour.works(tour.order[k]), before, r)
    ensures after in TurnsFrom(def, plain, began, Touchable(def, tour), before, r)
    ensures r.Ok? ==> after.progress in OneTurn(before.progress, tour.order[k], Forbidden(r.value), tour.works)
    ensures r == Ok(Continue) ==> after.store.states in Touring(def, tour, base, safe, k + 1)
  {
    TouchedIsTouchable(def, tour, selected, before.store.states, k);
    TurnsMore(def, plain, began, Touched(choice, tour.order[k]), Touchable(def, tour), before, after, r);
    if r.Ok? { TurnedOnce(before.progress, after.progress, tour.order[k], choice, r.value, tour.works); }
    if r == Ok(Continue) {
      TurnedStatuses(before.progress, after.progress, tour.order[k], choice, r.value, tour.works(tour.order[k]));
      KeepingSafe(def, plain, before.store, after.store, Made(after.log));
      TurnTaken(def, plain, before.store, after.store, tour, base, safe, selected, k, choice);
    }
  }

  /** A lease lost during an attempt is noticed after the aggregate. */
  lemma LostIsAggregated(before: Progressed, after: Progressed, n: Id, choice: Choice, work: Work)
    requires choice.Start? && after in Turned(before, n, choice, LostDuringAttempt, work)
    ensures Aggregated(after.run, after.states)
  {
  }

  lemma IsTaken(def: Definition, plain: bool, began: bool, n: Id, choice: Choice, work: Work, before: Moment, after: Moment,
                r: Result<Exit, Failure>)
    requires NeverRegained(before.lease, after.lease) && after.log in Logs(after.lease, began)
    requires after.store in Keeping(def, plain, before.store, Made(after.log)) && Made(before.log) <= Made(after.log)
    requires (after.store.states, after.progress.acted) in Confining(before.store.states, before.progress.acted, Touched(choice, n))
    requires r.Ok? ==> Mirrors(def, plain, after)
    requires r.Ok? && before.log in Endings(false) ==> after.log in Endings(r.value.LostDuringAttempt?)
    requires r == Ok(LostDuringAttempt) ==> after.lease.FinalWriteConfirmed?
    requires r.Ok? ==> after.progress in Turned(before.progress, n, choice, r.value, work)
    requires r.Ok? && !r.value.Continue? ==> choice.Start?
    ensures after in Taken(def, plain, began, n, choice, work, before, r)
  {
    if r == Ok(LostDuringAttempt) { LostIsAggregated(before.progress, after.progress, n, choice, work); }
  }

  /** The other choices leave everything as it was. */
  lemma NotTaken(def: Definition, plain: bool, began: bool, n: Id, choice: Choice, work: Work, m: Moment)
    requires m.log in Logs(m.lease, began) && Mirrors(def, plain, m) && !choice.Block? && !choice.Start?
    ensures m in Taken(def, plain, began, n, choice, work, m, Ok(Continue))
  {
    NoTurnYet(def, plain, began, {}, m);
  }

  lemma NotedSelected(notes: Notes, n: Id, choice: Choice, exit: Exit, worked: Status, status: Status)
    ensures Noted(notes, n, choice, exit, worked, status).selected ==
      SelectedBy(notes.selected, n, choice)
  {
  }

  lemma TurnReported(def: Definition, tour: Tour, base: map<Id, Status>, selected: set<Id>, k: nat, choice: Choice,
                     before: Progressed, after: Progressed, exit: Exit, notes: Notes, notes': Notes, start: Progressed)
    requires Tours(def, tour, base) && k < |tour.order| && before.states.Keys == IdSet(def) && tour.order[k] in before.states
    requires choice == TurnChoice(def, tour, selected, before.states, k)
    requires choice.Start? ==> before.states[tour.order[k]].value.status.Waiting?
    requires after in Turned(before, tour.order[k], choice, exit, tour.works(tour.order[k]))
    requires after in OneTurn(before, tour.order[k], Forbidden(exit), tour.works)
    requires (notes.results, before) in Strolled(start, tour, k, false)
    requires notes' == Noted(notes, tour.order[k], choice, exit, WorkStatus(tour.works(tour.order[k])),
                             before.states[tour.order[k]].value.status)
    ensures (notes'.results, after) in Strolled(start, tour, k + 1, Forbidden(exit))
  {
    RespectsDistinct(def, tour.order);
    ReportGrows(def, tour.mode, selected, tour.excluded, before, after, tour.order[k], choice, exit,
                tour.works(tour.order[k]), Elements(tour.order[..k]), notes, notes');
    StrolledOn(start, tour, k, before, after, Forbidden(exit), notes.results, notes'.results);
  }

  /** What the loop has come to before its `k`-th visit, or where it ended. */
  ghost function OnTour(def: Definition, plain: bool, safe: bool, began: bool, tour: Tour, base: map<Id, Status>, start: Moment,
                        k: nat, r: Result<Exit, Failure>): iset<(Notes, Moment)>
    requires k <= |tour.order| && (r.Ok? && Forbidden(r.value) ==> 0 < k)
  {
    iset now: (Notes, Moment) |
      && now.1 in TurnsFrom(def, plain, began, Touchable(def, tour), start, r)
      && (r == Ok(Continue) ==> now.1.store.states in Touring(def, tour, base, safe, k))
      && (r.Ok? ==> (now.0.results, now.1.progress) in Strolled(start.progress, tour, k, Forbidden(r.value)))
      && (r.Ok? && tour.mode.RerunFrom? ==> now.0.selected == tour.selection)
  }

  lemma TurnDone(def: Definition, plain: bool, safe: bool, began: bool, tour: Tour, base: map<Id, Status>, start: Moment, k: nat,
                 notes: Notes, before: Moment, choice: Choice, r: Result<Exit, Failure>, notes': Notes, after: Moment)
    requires Tours(def, tour, base) && k < |tour.order|
    requires (notes, before) in OnTour(def, plain, safe, began, tour, base, start, k, Ok(Continue))
    requires tour.order[k] in before.store.states && before.progress.states.Keys == IdSet(def)
    requires choice == TurnChoice(def, tour, notes.selected, before.progress.states, k)
    requires choice.Start? ==> before.progress.states[tour.order[k]].value.status.Waiting?
    requires after in Taken(def, plain, began, tour.order[k], choice, tour.works(tour.order[k]), before, r)
    requires r.Ok? ==> notes' == Noted(notes, tour.order[k], choice, r.value, WorkStatus(tour.works(tour.order[k])),
                                       before.progress.states[tour.order[k]].value.status)
    ensures (notes', after) in OnTour(def, plain, safe, began, tour, base, start, k + 1, r)
  {
    var n, work := tour.order[k], tour.works(tour.order[k]);
    TouchedIsTouchable(def, tour, notes.selected, before.progress.states, k);
    TurnConcluded(def, plain, began, tour, base, safe, notes.selected, k, choice, before, after, r);
    TurnsChain(def, plain, began, Touchable(def, tour), start, before, after, r);
    if r.Ok? {
      NotedSelected(notes, n, choice, r.value, WorkStatus(work), before.progress.states[n].value.status);
      TurnReported(def, tour, base, notes.selected, k, choice, before.progress, after.progress, r.value, notes, notes',
                   start.progress);
    }
  }

  /** One turn of the loop. */
  method VisitNext(repo: Repository, monitor: LeaseMonitor, p: Progress, def: Definition, ghost plain: bool,
                   tour: Tour, ghost base: map<Id, Status>, ghost safe: bool, k: nat, ghost start: Moment)
    returns (r: Result<Exit, Failure>)
    requires Tours(def, tour, base) && k < |tour.order| && (plain ==> safe) && start.log in Endings(false)
    requires (NotesOf(p), Now(repo, monitor, p)) in OnTour(def, plain, safe, p.began, tour, base, start, k, Ok(Continue))
    modifies repo`states, repo`attempts, repo`attemptIds, repo`run, repo`cancelRequest, monitor, p
    ensures (NotesOf(p), Now(repo, monitor, p)) in OnTour(def, plain, safe, p.began, tour, base, start, k + 1, r)
  {
    ghost var before, notes := Now(repo, monitor, p), NotesOf(p);
    assert Mirrors(def, plain, before);
    TurnJustified(def, plain, before.store, tour, base, safe, p.selected, k);
    var choice := TurnChoice(def, tour, p.selected, p.states, k);
    r := VisitNode(repo, monitor, p, def, plain, tour.order[k], choice, tour.works(tour.order[k]), tour.invocationId);
    TurnDone(def, plain, safe, p.began, tour, base, start, k, notes, before, choice, r, NotesOf(p), Now(repo, monitor, p));
  }

  /** The results a rerun may come to from here. */
  ghost function RerunResults(def: Definition, tour: Tour, base: map<Id, Status>): iset<map<Id, Status>> {
    iset m: map<Id, Status> | RerunMeaning(def, base, JobOf(tour.works), tour.selection, tour.excluded, m)
  }

  /** Visits the nodes in order until one of them ends the loop. */
  method VisitAll(repo: Repository, monitor: LeaseMonitor, p: Progress, def: Definition, ghost plain: bool,
                  tour: Tour, ghost base: map<Id, Status>, ghost safe: bool)
    returns (r: Result<Exit, Failure>)
    requires repo.Contents() in Settled(def, plain) && Tracks(p, repo) && Logged(p, monitor)
    requires Tours(def, tour, base) && repo.states in Touring(def, tour, base, safe, 0)
    requires (plain ==> safe) && p.log in Endings(false) && ProgressOf(p) in Walked(ProgressOf(p), {}, tour.works)
    requires tour.mode.RerunFrom? ==> p.selected == tour.selection
    requires (p.results, ProgressOf(p)) in Reports({})
    modifies repo`states, repo`attempts, repo`attemptIds, repo`run, repo`cancelRequest, monitor, p
    ensures (r, p.results, Now(repo, monitor, p)) in LoopLeft(def, plain, safe, p.began, tour, base, old(Now(repo, monitor, p)))
  {
    ghost var start := Now(repo, monitor, p);
    var k := 0;
    r := Ok(Continue);
    LoopBegins(def, plain, safe, p.began, tour, base, start, NotesOf(p));
    while k < |tour.order| && r == Ok(Continue)
      invariant k <= |tour.order| && (r.Ok? && Forbidden(r.value) ==> 0 < k)
      invariant (NotesOf(p), Now(repo, monitor, p)) in OnTour(def, plain, safe, p.began, tour, base, start, k, r)
    {
      r := VisitNext(repo, monitor, p, def, plain, tour, base, safe, k, start);
      k := k + 1;
    }
    LoopEnds(def, plain, safe, p.began, tour, base, start, k, NotesOf(p), Now(repo, monitor, p), r);
  }

  lemma LoopBegins(def: Definition, plain: bool, safe: bool, began: bool, tour: Tour, base: map<Id, Status>, start: Moment, notes: Notes)
    requires start.log in Logs(start.lease, began) && Mirrors(def, plain, start)
    requires start.store.states in Touring(def, tour, base, safe, 0) && start.log in Endings(false)
    requires start.progress in Walked(start.progress, {}, tour.works) && (notes.results, start.progress) in Reports({})
    requires tour.mode.RerunFrom? ==> notes.selected == tour.selection
    ensures (notes, start) in OnTour(def, plain, safe, began, tour, base, start, 0, Ok(Continue))
  {
    NoTurnYet(def, plain, began, Touchable(def, tour), start);
    assert Elements(tour.order[..0]) == {};
  }

  lemma LoopEnds(def: Definition, plain: bool, safe: bool, began: bool, tour: Tour, base: map<Id, Status>, start: Moment, k: nat,
                 notes: Notes, end: Moment, r: Result<Exit, Failure>)
    requires Tours(def, tour, base) && k <= |tour.order| && (r.Ok? && Forbidden(r.value) ==> 0 < k)
    requires r == Ok(Continue) ==> k == |tour.order|
    requires (notes, end) in OnTour(def, plain, safe, began, tour, base, start, k, r)
    ensures (r, notes.results, end) in LoopLeft(def, plain, safe, began, tour, base, start)
  {
    if r.Ok? { StrolledEnds(def, start.progress, tour, k, r.value, (notes.results, end.progress)); }
    if r == Ok(Continue) { TourEnds(def, tour, base, safe, end.store.states); }
  }

  /** After the last visit. */
  lemma TourEnds(def: Definition, tour: Tour, base: map<Id, Status>, safe: bool, states: map<Id, Stored<NodeState>>)
    requires Tours(def, tour, base) && states in Touring(def, tour, base, safe, |tour.order|)
    ensures safe ==> StatusMap(states) in Meanings(def, base, tour.works)
    ensures tour.mode.RerunFrom? ==> StatusMap(states) in RerunResults(def, tour, base)
  {
    if safe { ReachedAll(def, base, JobOf(tour.works), tour.order, tour.excluded, StatusMap(states)); }
    if tour.mode.RerunFrom? {
      RerunReachedAll(def, base, JobOf(tour.works), tour.selection, tour.excluded, tour.order, StatusMap(states));
    }
  }

  // ---- The invocation -----------------------------------------------------

  datatype InvocationStatus = InvocationSuccess | InvocationFailed | InvocationCancelled | InvocationUnknown

  datatype Close = Close(exit: Exit, status: InvocationStatus, code: string)

  /** How an invocation that ended without an error is closed. */
  predicate ClosedAs(close: Close, status: RunStatus, ioFailure: Option<string>) {
    match close.exit
    case StopRequested => close.status.InvocationCancelled? && close.code == "STOP_REQUESTED"
    case LostDuringAttempt => close.status.InvocationCancelled? && close.code == "NETWORK_LEASE_INTERRUPTED"
    case _ =>
      && close.status == InvocationOutcome(status).0
      && close.code == if close.status.InvocationFailed? && ioFailure.Some? then ioFailure.value else InvocationOutcome(status).1
  }

  ghost function Closing(status: RunStatus, ioFailure: Option<string>): iset<Close> {
    iset close: Close | ClosedAs(close, status, ioFailure)
  }

  function InvocationOutcome(status: RunStatus): (InvocationStatus, string) {
    match status
    case RunSuccess => (InvocationSuccess, "OK")
    case RunUnknown => (InvocationUnknown, "NODE_RESULT_UNKNOWN")
    case RunFailed => (InvocationFailed, "NODE_FAILED_OR_BLOCKED")
    case RunCancelled => (InvocationCancelled, "NODE_CANCELLED")
    case _ => (InvocationCancelled, "NODES_DEFERRED")
  }

  /** A stop or the loss of the lease during an attempt decides the close whatever the nodes are. */
  predicate CutShort(exit: Exit) {
    exit.StopRequested? || exit.LostDuringAttempt?
  }

  /** What status and code of an invocation that was not cut short say about the nodes. */
  predicate ClosedTruly(close: Close, states: map<Id, Stored<NodeState>>, ioFailure: Option<string>) {
    && (close.status.InvocationSuccess? <==> AllSucceeded(states))
    && (close.status.InvocationUnknown? <==> Occurs(states, Unknown))
    && (close.status.InvocationFailed? <==>
         !Occurs(states, Unknown) && !Occurs(states, Running) && (Occurs(states, Failed) || Occurs(states, Blocked)))
    && match close.status
       case InvocationSuccess => close.code == "OK"
       case InvocationUnknown => close.code == "NODE_RESULT_UNKNOWN"
       case InvocationFailed => close.code == if ioFailure.Some? then ioFailure.value else "NODE_FAILED_OR_BLOCKED"
       case InvocationCancelled =>
         close.code == if !Unsettled(states) && Occurs(states, Cancelled) then "NODE_CANCELLED" else "NODES_DEFERRED"
  }

  lemma ClosedIsTrue(close: Close, run: Stored<Run>, states: map<Id, Stored<NodeState>>, ioFailure: Option<string>)
    ensures Aggregated(run, states) ==> Tells(run.value.status, run.value.started, states)
    ensures Aggregated(run, states) && ClosedAs(close, run.value.status, ioFailure) && !CutShort(close.exit) ==>
      ClosedTruly(close, states, ioFailure)
  {
    AggregateTells(states, run.value.status, run.value.started);
  }

  /** Only the records of these nodes may differ. */
  ghost predicate Untouched(before: map<Id, Stored<NodeState>>, after: map<Id, Stored<NodeState>>, nodes: set<Id>) {
    after.Keys == before.Keys && forall n :: n in before && n !in nodes ==> after[n] == before[n]
  }

  lemma Confined(before: map<Id, Stored<NodeState>>, after: map<Id, Stored<NodeState>>, log: seq<Event>, nodes: set<Id>)
    ensures (after, ActedOn(log)) in Confining(before, {}, nodes) ==> Untouched(before, after, nodes)
    ensures (after, ActedOn(log)) in Confining(before, {}, nodes) ==> forall key :: key in Made(log) ==> key.nodeId in nodes
  {
    forall key | key in Made(log) ensures key.nodeId in ActedOn(log) {
      var i :| 0 <= i < |log| && log[i].AttemptMade? && log[i].key == key;
      assert Acted(log[i]).value in ActedOn(log);
    }
  }

  /** The nodes an invocation leaves out: those that ended badly and are not reopened, with all below them. */
  ghost function ExcludedFrom(def: Definition, mode: Mode, entry: Store): set<Id> {
    RootsOf(def, mode, entry) + DescendantsOf(def, RootsOf(def, mode, entry))
  }

  /** The Run once it counts as started. */
  function StartedRun(run: Stored<Run>): Stored<Run> {
    if run.value.started then run else Stored(run.value.(status := RunRunning, started := true), run.revision + 1)
  }

  method EnsureRunStarted(repo: Repository, monitor: LeaseMonitor, ghost def: Definition, ghost plain: bool)
    returns (r: Result<(), Failure>)
    requires repo.Contents() in Settled(def, plain)
    modifies repo`run, monitor
    ensures repo.Contents() in Settled(def, plain) && NeverRegained(old(monitor.state), monitor.state)
    ensures r.Ok? ==> repo.run == StartedRun(old(repo.run))
  {
    if repo.run.value.started { return Ok(()); }
    var confirmed := ConfirmOrdinaryWrite(monitor);
    if !confirmed { return Err(LeaseInterrupted); }
    ghost var s := repo.Contents();
    var updated := repo.UpdateRunAggregate(repo.run.revision, RunRunning, true);
    RecordsUntouched(def, s, repo.Contents(), plain);
    if updated.Err? { return Err(StoreFailed(updated.error)); }
    return Ok(());
  }

  /** The states once a resume has decided its orphans. */
  function EntryStates(mode: Mode, s: Store, invocationId: Id, jobLog: Id -> Option<string>): map<Id, Stored<NodeState>> {
    if mode.New? then s.states else Recorded(s.states, Decisions(s, invocationId, jobLog), {})
  }

  /** Marks the Run as started and, except in a new Run, decides orphan attempts. */
  method Begin(repo: Repository, monitor: LeaseMonitor, ghost def: Definition, ghost plain: bool, mode: Mode,
               invocationId: Id, jobLog: Id -> Option<string>)
    returns (r: Result<(), Failure>)
    requires repo.Contents() in Settled(def, plain)
    modifies repo`states, repo`attempts, repo`run, monitor
    ensures repo.Contents() in Settled(def, plain) && NeverRegained(old(monitor.state), monitor.state)
    ensures old(DependencySafe(def, repo.states)) ==> DependencySafe(def, repo.states)
    ensures repo.attempts.Keys == old(repo.attempts.Keys) && repo.states.Keys == old(repo.states.Keys)
    ensures r.Ok? ==> repo.run == StartedRun(old(repo.run))
    ensures r.Ok? ==> repo.states == EntryStates(mode, old(repo.Contents()), invocationId, jobLog)
    ensures r.Ok? && !mode.New? && old(repo.Contents()) in Recoverable(invocationId) ==> AllExplained(repo.Contents())
  {
    ghost var s := repo.Contents();
    var started := EnsureRunStarted(repo, monitor, def, plain);
    if started.Err? { return Err(started.error); }
    if mode.New? { return Ok(()); }
    SameDecisions(s, repo.Contents(), invocationId, jobLog);
    ghost var t := repo.Contents();
    r := AdjudicateOrphans(repo, monitor, def, plain, invocationId, jobLog);
    if r.Ok? && s in Recoverable(invocationId) {
      SameUnderway(s, t);
      RecoveryIsComplete(def, plain, t, repo.Contents(), invocationId, jobLog);
    }
  }

  /** What a gate leaves for an invocation that has not attempted anything yet. */
  ghost function Recoverable(invocationId: Id): iset<Store> {
    iset s: Store | Underway(s) && FreshInvocation(s.attempts, invocationId)
  }

  lemma SameUnderway(s: Store, t: Store)
    requires t.states == s.states && t.attempts == s.attempts && t.attemptIds == s.attemptIds && Underway(s)
    ensures Underway(t)
  {
    forall n | n in t.states && t.states[n].value.status.Running? ensures AtWork(t, n) { assert AtWork(s, n); }
  }

  lemma SameDecisions(s: Store, t: Store, invocationId: Id, jobLog: Id -> Option<string>)
    requires t.states == s.states && t.attempts == s.attempts && t.attemptIds == s.attemptIds
    ensures Decisions(t, invocationId, jobLog) == Decisions(s, invocationId, jobLog)
  {
  }

  /** What the invocation found once orphans were decided, the Run and the states its walk began with, and its log. */
  datatype Trace = Trace(entry: Store, run: Stored<Run>, states: map<Id, Stored<NodeState>>, log: seq<Event>)

  /** Where the visits start from: resume has reopened what it may. */
  ghost predicate StartsFrom(mode: Mode, entry: Store, base: map<Id, Status>) {
    base.Keys == entry.states.Keys &&
    forall n :: n in base ==> base[n] == ResumedStatus(mode, entry.attempts, entry.states[n].value)
  }

  /** Recomputes the aggregate unless the loop was left after one, and decides how the invocation is closed. */
  method Finish(repo: Repository, monitor: LeaseMonitor, p: Progress, ghost def: Definition, ghost plain: bool, exit: Exit)
    returns (r: Result<Close, Failure>)
    requires repo.Contents() in Settled(def, plain) && Tracks(p, repo)
    requires exit.LostDuringAttempt? ==> Aggregated(p.run, p.states) && monitor.state.FinalWriteConfirmed?
    modifies repo`run, monitor, p`run
    ensures repo.Contents() in Settled(def, plain) && NeverRegained(old(monitor.state), monitor.state)
    ensures r.Ok? ==> r.value.exit == exit && r.value in Closing(repo.run.value.status, p.ioFailure)
    ensures r.Ok? && !exit.StopRequested? ==> Aggregated(repo.run, repo.states) && monitor.CanPersistResults()
    ensures r.Ok? && exit.LostDuringAttempt? ==> monitor.state.FinalWriteConfirmed?
    ensures r.Ok? && exit.StopRequested? ==> repo.run == old(repo.run)
    ensures repo.Contents() == old(repo.Contents()).(run := repo.run)
  {
    match exit {
      case StopRequested => return Ok(Close(exit, InvocationCancelled, "STOP_REQUESTED"));
      case LostDuringAttempt => return Ok(Close(exit, InvocationCancelled, "NETWORK_LEASE_INTERRUPTED"));
      case _ =>
        var updated := UpdateAggregate(repo, monitor, def, plain, p.run, p.states);
        if updated.Err? { return Err(updated.error); }
        p.run := updated.value;
        var outcome := InvocationOutcome(p.run.value.status);
        var code := if outcome.0.InvocationFailed? && p.ioFailure.Some? then p.ioFailure.value else outcome.1;
        return Ok(Close(exit, outcome.0, code));
    }
  }

  /** The Run carries the aggregate after a stop exactly if it did before, or the walk has acted on a node. */
  ghost predicate StoppedAs(run: Stored<Run>, states: map<Id, Stored<NodeState>>,
                            run': Stored<Run>, states': map<Id, Stored<NodeState>>, acted: set<Id>) {
    && (Aggregated(run', states') <==> acted != {} || Aggregated(run, states))
    && (acted == {} ==> run' == run && states' == states)
  }

  /** What a stop leaves of the Run and its states. */
  ghost function Stopping(run: Stored<Run>, states: map<Id, Stored<NodeState>>, acted: set<Id>):
      iset<(Stored<Run>, map<Id, Stored<NodeState>>)> {
    iset now: (Stored<Run>, map<Id, Stored<NodeState>>) | StoppedAs(run, states, now.0, now.1, acted)
  }

  /** How a walk ends: what it returns and reports, and what it leaves. */
  datatype Ending = Ending(r: Result<Close, Failure>, results: map<Id, NodeResult>, store: Store, log: seq<Event>, lease: LeaseState)

  /** The results that were noted are true. */
  ghost predicate Told(def: Definition, results: map<Id, NodeResult>, states: map<Id, Stored<NodeState>>, log: seq<Event>, exit: Exit) {
    && results.Keys <= IdSet(def) && ActedOn(log) <= results.Keys && (exit.Continue? ==> results.Keys == IdSet(def))
    && forall n :: n in results ==> n in states && ToldOf(results[n], states[n].value.status, log, n)
  }

  ghost predicate ToldOf(result: NodeResult, status: Status, log: seq<Event>, n: Id) {
    Described(result, status, WasAttempted(Attempts(log), n), n in ActedOn(log), true)
  }

  /** The endings of a walk from `start`; `safe` says that the network was safe. */
  ghost function WalkEnds(def: Definition, plain: bool, safe: bool, began: bool, tour: Tour, start: Store, lease: LeaseState): iset<Ending> {
    iset e: Ending |
      && e.store in Keeping(def, plain, start, Made(e.log)) && NeverRegained(lease, e.lease) && e.log in Logs(e.lease, began)
      && (e.store.states, ActedOn(e.log)) in Confining(start.states, {}, Touchable(def, tour))
      && (e.r.Ok? ==> e in Closings(def, plain, safe, tour, start))
  }

  /** The endings that come with a close. */
  ghost function Closings(def: Definition, plain: bool, safe: bool, tour: Tour, start: Store): iset<Ending> {
    iset e: Ending | e.r.Ok? &&
      var exit := e.r.value.exit;
      && e.store in Settled(def, plain) && e.log in Endings(exit.LostDuringAttempt?)
      && (exit.Continue? && safe ==> StatusMap(e.store.states) in Meanings(def, StatusMap(start.states), tour.works))
      && (exit.Continue? && tour.mode.RerunFrom? ==> StatusMap(e.store.states) in RerunResults(def, tour, StatusMap(start.states)))
      && (!exit.StopRequested? ==> Aggregated(e.store.run, e.store.states) && !e.lease.LeaseUncertain?)
      && (exit.StopRequested? ==> (e.store.run, e.store.states) in Stopping(start.run, start.states, ActedOn(e.log)))
      && (exit.LostDuringAttempt? ==> e.lease.FinalWriteConfirmed?)
      && (Forbidden(exit) ==> ActedOn(e.log) < IdSet(def))
      && Told(def, e.results, e.store.states, e.log, exit)
      && e.r.value in Closing(e.store.run.value.status, LastRejection(Attempts(e.log), tour.works))
  }

  /** What the loop has come to, before the invocation is closed. */
  ghost function Looped(def: Definition, plain: bool, safe: bool, began: bool, tour: Tour, base: map<Id, Status>, a: Moment, exit: Exit):
      iset<(map<Id, NodeResult>, Moment)> {
    iset now: (map<Id, NodeResult>, Moment) |
      && now.1 in TurnsFrom(def, plain, began, Touchable(def, tour), a, Ok(exit))
      && (now.0, now.1.progress) in Completed(def, a.progress, tour.works, exit)
      && (exit.Continue? && safe ==> StatusMap(now.1.store.states) in Meanings(def, base, tour.works))
      && (exit.Continue? && tour.mode.RerunFrom? ==> StatusMap(now.1.store.states) in RerunResults(def, tour, base))
  }

  /** The same when the loop may have broken off. */
  ghost function LoopLeft(def: Definition, plain: bool, safe: bool, began: bool, tour: Tour, base: map<Id, Status>, a: Moment):
      iset<(Result<Exit, Failure>, map<Id, NodeResult>, Moment)> {
    iset now: (Result<Exit, Failure>, map<Id, NodeResult>, Moment) |
      && (now.0.Err? ==> now.2 in TurnsFrom(def, plain, began, Touchable(def, tour), a, now.0))
      && (now.0.Ok? ==> (now.1, now.2) in Looped(def, plain, safe, began, tour, base, a, now.0.value))
  }

  /** Closing leaves the nodes alone. */
  lemma WalkKept(def: Definition, plain: bool, safe: bool, began: bool, tour: Tour, a: Moment, b: Moment, c: Ending, exit: Exit)
    requires a.progress.acted == {} && a.store in Settled(def, plain)
    requires b.log == c.log && b.progress.acted == ActedOn(b.log) && NeverRegained(b.lease, c.lease)
    requires (c.results, b) in Looped(def, plain, safe, began, tour, StatusMap(a.store.states), a, exit)
    requires c.store in Settled(def, plain) && c.store == b.store.(run := c.store.run)
    requires c.r.Ok? ==> c in Closings(def, plain, safe, tour, a.store)
    ensures c in WalkEnds(def, plain, safe, began, tour, a.store, a.lease)
  {
    LoggedLater(b.log, b.lease, c.lease, began);
    KeepingSettled(def, plain, b.store, c.store, Made(b.log));
    KeepingChain(def, plain, a.store, b.store, c.store, Made(b.log), Made(b.log));
  }

  lemma WalkBroken(def: Definition, plain: bool, safe: bool, began: bool, tour: Tour, a: Moment, b: Moment, error: Failure,
                   results: map<Id, NodeResult>)
    requires a.progress.acted == {} && b.progress.acted == ActedOn(b.log)
    requires b in TurnsFrom(def, plain, began, Touchable(def, tour), a, Err(error))
    ensures Ending(Err(error), results, b.store, b.log, b.lease) in WalkEnds(def, plain, safe, began, tour, a.store, a.lease)
  {
  }

  lemma WalkClosed(def: Definition, plain: bool, safe: bool, began: bool, tour: Tour, a: Moment, b: Moment, c: Ending, exit: Exit)
    requires Mirrors(def, plain, a) && a.progress.acted == {} && a.log in Endings(false)
    requires b.log == c.log && b.progress.acted == ActedOn(b.log) && b.progress.attempts == Attempts(b.log)
    requires (c.results, b) in Looped(def, plain, safe, began, tour, StatusMap(a.store.states), a, exit)
    requires c.store in Settled(def, plain) && c.store == b.store.(run := c.store.run) && c.r.Ok? && c.r.value.exit == exit
    requires c.r.value in Closing(c.store.run.value.status, b.progress.ioFailure)
    requires !exit.StopRequested? ==> Aggregated(c.store.run, c.store.states) && !c.lease.LeaseUncertain?
    requires exit.StopRequested? ==> c.store.run == b.store.run
    requires exit.LostDuringAttempt? ==> c.lease.FinalWriteConfirmed?
    ensures c in Closings(def, plain, safe, tour, a.store)
  {
    assert Mirrors(def, plain, b);
    CompletedStops(def, a.progress, tour.works, exit, (c.results, b.progress));
    CompletedTells(def, a.progress, tour.works, exit, (c.results, b.progress), b.log);
  }

  lemma CompletedStops(def: Definition, start: Progressed, works: Id -> Work, exit: Exit, end: (map<Id, NodeResult>, Progressed))
    requires start.acted == {} && end in Completed(def, start, works, exit)
    ensures (end.1.run, end.1.states) in Stopping(start.run, start.states, end.1.acted)
    ensures end.1.ioFailure == LastRejection(end.1.attempts, works) && (Forbidden(exit) ==> end.1.acted < IdSet(def))
  {
  }

  lemma CompletedTells(def: Definition, start: Progressed, works: Id -> Work, exit: Exit, end: (map<Id, NodeResult>, Progressed),
                       log: seq<Event>)
    requires end in Completed(def, start, works, exit) && end.1.acted == ActedOn(log) && end.1.attempts == Attempts(log)
    ensures Told(def, end.0, end.1.states, log, exit)
  {
    forall n | n in end.0 ensures n in end.1.states && ToldOf(end.0[n], end.1.states[n].value.status, log, n) {
      assert DescribedAt(end.0[n], end.1, n);
    }
  }

  /** The end of a walk whose loop has ended. */
  method Conclude(repo: Repository, monitor: LeaseMonitor, p: Progress, ghost def: Definition, ghost plain: bool,
                  ghost tour: Tour, ghost safe: bool, ghost a: Moment, exit: Exit)
    returns (r: Result<Close, Failure>)
    requires Mirrors(def, plain, a) && a.progress.acted == {} && a.log in Endings(false)
    requires (p.results, Now(repo, monitor, p)) in Looped(def, plain, safe, p.began, tour, StatusMap(a.store.states), a, exit)
    modifies repo`run, monitor, p`run
    ensures Ending(r, p.results, repo.Contents(), p.log, monitor.state) in
      WalkEnds(def, plain, safe, p.began, tour, a.store, a.lease)
  {
    ghost var b := Now(repo, monitor, p);
    LoopedMirrors(def, plain, safe, p.began, tour, a, b, p.results, exit);
    r := Finish(repo, monitor, p, def, plain, exit);
    ghost var c := Ending(r, p.results, repo.Contents(), p.log, monitor.state);
    if r.Ok? { WalkClosed(def, plain, safe, p.began, tour, a, b, c, exit); }
    WalkKept(def, plain, safe, p.began, tour, a, b, c, exit);
  }

  lemma LoopedMirrors(def: Definition, plain: bool, safe: bool, began: bool, tour: Tour, a: Moment, b: Moment,
                      results: map<Id, NodeResult>, exit: Exit)
    requires (results, b) in Looped(def, plain, safe, began, tour, StatusMap(a.store.states), a, exit)
    ensures Mirrors(def, plain, b)
    ensures exit.LostDuringAttempt? ==> Aggregated(b.progress.run, b.progress.states) && b.lease.FinalWriteConfirmed?
  {
  }

  /** The walk over the network after the preparations. */
  method Walk(repo: Repository, monitor: LeaseMonitor, p: Progress, def: Definition, ghost plain: bool,
              tour: Tour, ghost safe: bool)
    returns (r: Result<Close, Failure>)
    requires repo.Contents() in Settled(def, plain) && Tracks(p, repo) && Logged(p, monitor)
    requires Tours(def, tour, StatusMap(repo.states)) && repo.states in Touring(def, tour, StatusMap(repo.states), safe, 0)
    requires (plain ==> safe) && p.log in Endings(false)
    requires ActedOn(p.log) == {} && Attempts(p.log) == [] && p.ioFailure.None?
    requires p.results == map[] && (tour.mode.RerunFrom? ==> p.selected == tour.selection)
    modifies repo`states, repo`attempts, repo`attemptIds, repo`run, repo`cancelRequest, monitor, p
    ensures Ending(r, p.results, repo.Contents(), p.log, monitor.state) in
      WalkEnds(def, plain, safe, p.began, tour, old(repo.Contents()), old(monitor.state))
  {
    ghost var a := Now(repo, monitor, p);
    var exit := VisitAll(repo, monitor, p, def, plain, tour, StatusMap(a.store.states), safe);
    if exit.Err? {
      WalkBroken(def, plain, safe, p.began, tour, a, Now(repo, monitor, p), exit.error, p.results);
      return Err(exit.error);
    }
    r := Conclude(repo, monitor, p, def, plain, tour, safe, a, exit.value);
  }

  /** What the preparation of all nodes means for the walk. */
  lemma ResumedStart(def: Definition, plain: bool, mode: Mode, entry: Store, after: map<Id, Stored<NodeState>>)
    requires UniqueIds(def) && entry in Consistent(def, plain) && entry.states.Keys == IdSet(def)
    requires ResumedAll(def, mode, entry, after)
    ensures StartsFrom(mode, entry, StatusMap(after))
    ensures AreRoots(StatusMap(after), RootsOf(def, mode, entry))
  {
    var base := StatusMap(after);
    forall n | n in base ensures base[n] == ResumedStatus(mode, entry.attempts, entry.states[n].value) {
      assert def[Index(def, n)].id == n;
    }
    forall r | r in RootsOf(def, mode, entry) ensures r in base && EndedBadly(base[r]) {
      assert IndexedState(entry, r);
      RootsStay(mode, entry.attempts, entry.states[r].value);
    }
  }

  /** A root ended badly and is not reopened. */
  lemma RootsStay(mode: Mode, attempts: map<AttemptKey, Stored<Attempt>>, state: NodeState)
    requires IsRoot(mode, attempts, state)
    ensures EndedBadly(state.status) && ResumedStatus(mode, attempts, state) == state.status
  {
  }

  /** The tour of an acyclic network, before its first visit. */
  method PlanTour(def: Definition, mode: Mode, selection: set<Id>, roots: set<Id>, works: Id -> Work, invocationId: Id,
                  ghost base: map<Id, Status>)
    returns (tour: Tour)
    requires UniqueIds(def) && KnownDependencies(def) && Acyclic(def) && AreRoots(base, roots)
    ensures Tours(def, tour, base) && tour.mode == mode && tour.works == works
    ensures tour.selection == selection && tour.roots == roots
  {
    var excluded := DescendantsIncludingRoots(def, roots);
    var order, cyclic := StableTopologicalSort(def);
    SortResult(def, order, IdSet(def) - Elements(order));
    return Tour(order, mode, selection, roots, excluded, works, invocationId);
  }

  lemma TourBegins(def: Definition, tour: Tour, safe: bool, states: map<Id, Stored<NodeState>>)
    requires Tours(def, tour, StatusMap(states)) && states.Keys == IdSet(def)
    requires safe ==> DependencySafe(def, states) && !tour.mode.RerunFrom?
    ensures states in Touring(def, tour, StatusMap(states), safe, 0)
  {
  }

  /** Decides orphans and prepares the node states: everything before the walk. */
  method Prepare(repo: Repository, monitor: LeaseMonitor, def: Definition, ghost plain: bool, mode: Mode,
                 invocationId: Id, jobLog: Id -> Option<string>)
    returns (r: Result<set<Id>, Failure>, ghost entry: Store)
    requires UniqueIds(def) && repo.Contents() in Settled(def, plain) && repo.states.Keys == IdSet(def)
    modifies repo`states, repo`attempts, repo`run, monitor
    ensures repo.Contents() in Settled(def, plain) && NeverRegained(old(monitor.state), monitor.state)
    ensures old(DependencySafe(def, repo.states)) ==> DependencySafe(def, repo.states)
    ensures repo.attempts.Keys == old(repo.attempts.Keys) && repo.states.Keys == IdSet(def)
    ensures r.Ok? ==> entry.states == EntryStates(mode, old(repo.Contents()), invocationId, jobLog)
    ensures r.Ok? && !mode.New? && old(repo.Contents()) in Recoverable(invocationId) ==> AllExplained(entry)
    ensures r.Ok? ==> entry.attempts == repo.attempts && repo.run == StartedRun(old(repo.run))
    ensures r.Ok? ==> StartsFrom(mode, entry, StatusMap(repo.states)) && AreRoots(StatusMap(repo.states), r.value)
    ensures r.Ok? ==> r.value == RootsOf(def, mode, entry)
  {
    var begun := Begin(repo, monitor, def, plain, mode, invocationId, jobLog);
    entry := repo.Contents();
    if begun.Err? { return Err(begun.error), entry; }
    var roots := PrepareResumeStates(repo, monitor, def, plain, mode);
    if roots.Err? { return Err(roots.error), entry; }
    ResumedStart(def, plain, mode, entry, repo.states);
    return Ok(roots.value), entry;
  }

  /** The walk with its bookkeeping. */
  method SetOut(repo: Repository, monitor: LeaseMonitor, def: Definition, ghost plain: bool, mode: Mode,
                selection: set<Id>, works: Id -> Work, invocationId: Id, roots: set<Id>, ghost safe: bool)
    returns (r: Result<Close, Failure>, results: map<Id, NodeResult>, ghost log: seq<Event>)
    requires repo.Contents() in Settled(def, plain) && repo.states.Keys == IdSet(def)
    requires UniqueIds(def) && KnownDependencies(def) && Acyclic(def) && AreRoots(StatusMap(repo.states), roots)
    requires (plain ==> safe) && (safe ==> !mode.RerunFrom? && DependencySafe(def, repo.states))
    modifies repo, monitor
    ensures repo.Contents() in Keeping(def, plain, old(repo.Contents()), Made(log))
    ensures NeverRegained(old(monitor.state), monitor.state)
    ensures log in Logs(monitor.state, old(monitor.state.Held?))
    ensures r.Ok? ==> repo.Contents() in Settled(def, plain)
    ensures mode.RerunFrom? ==> (repo.states, ActedOn(log)) in Confining(old(repo.states), {}, selection)
    ensures r.Ok? && r.value.exit.Continue? && safe ==>
      StatusMap(repo.states) in Meanings(def, old(StatusMap(repo.states)), works)
    ensures r.Ok? && r.value.exit.Continue? && mode.RerunFrom? ==>
      RerunMeaning(def, old(StatusMap(repo.states)), JobOf(works), selection, roots + DescendantsOf(def, roots),
                   StatusMap(repo.states))
    ensures r.Ok? && !r.value.exit.StopRequested? ==> Aggregated(repo.run, repo.states) && monitor.CanPersistResults()
    ensures r.Ok? && r.value.exit.StopRequested? ==>
      (repo.run, repo.states) in Stopping(old(repo.run), old(repo.states), ActedOn(log))
    ensures r.Ok? && Forbidden(r.value.exit) ==> ActedOn(log) < IdSet(def)
    ensures r.Ok? ==> Told(def, results, repo.states, log, r.value.exit)
    ensures r.Ok? ==> log in Endings(r.value.exit.LostDuringAttempt?)
    ensures r.Ok? && r.value.exit.LostDuringAttempt? ==> monitor.state.FinalWriteConfirmed?
    ensures r.Ok? ==> r.value in Closing(repo.run.value.status, LastRejection(Attempts(log), works))
  {
    ghost var base := StatusMap(repo.states);
    var tour := PlanTour(def, mode, selection, roots, works, invocationId, base);
    TourBegins(def, tour, safe, repo.states);
    var p := new Progress(repo.run, repo.states, selection, roots, monitor.state.Held?);
    r := Walk(repo, monitor, p, def, plain, tour, safe);
    log, results := p.log, p.results;
  }

  /** The report names every node; one that was not reached counts as deferred. */
  function ReportOf(results: map<Id, NodeResult>, states: map<Id, Stored<NodeState>>): map<Id, NodeResult> {
    map n | n in states :: if n in results then results[n] else NodeResult(Deferred, states[n].value.status)
  }

  /** Every node is reported with the status it has, and with what was done about it. */
  ghost predicate TrueReport(report: map<Id, NodeResult>, states: map<Id, Stored<NodeState>>, log: seq<Event>, complete: bool) {
    report.Keys == states.Keys &&
    forall n :: n in states ==>
      Described(report[n], states[n].value.status, WasAttempted(Attempts(log), n), n in ActedOn(log), complete)
  }

  lemma ReportIsTrue(def: Definition, results: map<Id, NodeResult>, states: map<Id, Stored<NodeState>>, log: seq<Event>, exit: Exit)
    requires Told(def, results, states, log, exit) && states.Keys == IdSet(def)
    ensures TrueReport(ReportOf(results, states), states, log, exit.Continue?)
  {
    forall n | n in states
      ensures Described(ReportOf(results, states)[n], states[n].value.status, WasAttempted(Attempts(log), n), n in ActedOn(log),
                        exit.Continue?)
    {
      if n in results {
        assert ToldOf(results[n], states[n].value.status, log, n);
      } else {
        AttemptsAreActed(log, n);
      }
    }
  }

  lemma AttemptsAreActed(log: seq<Event>, n: Id)
    ensures WasAttempted(Attempts(log), n) ==> n in ActedOn(log)
  {
    if WasAttempted(Attempts(log), n) {
      var key :| key in Attempts(log) && key.nodeId == n;
      MadeAre(log);
      assert key in Made(log);
      var i :| 0 <= i < |log| && log[i].AttemptMade? && log[i].key == key;
      assert Acted(log[i]).value in ActedOn(log);
    }
  }

  /**
   * One invocation. Whatever happens, the store stays consistent and every attempt was
   * made under a held lease and right after a read that saw no stop. A walk that comes
   * to its end gives every node its meaning.
   */
  method RunSequentialScheduler(repo: Repository, monitor: LeaseMonitor, def: Definition, ghost plain: bool, mode: Mode,
                                selection: set<Id>, works: Id -> Work, invocationId: Id, jobLog: Id -> Option<string>)
    returns (r: Result<Close, Failure>, report: map<Id, NodeResult>, ghost trace: Trace)
    requires repo.Contents() in Settled(def, plain) && repo.states.Keys == IdSet(def)
    requires UniqueIds(def) && KnownDependencies(def) && Acyclic(def)
    requires plain ==> !mode.RerunFrom? && DependencySafe(def, repo.states)
    modifies repo, monitor
    ensures repo.Contents() in Consistent(def, plain) && repo.states.Keys == IdSet(def)
    ensures old(DependencySafe(def, repo.states)) ==> DependencySafe(def, repo.states)
    ensures NeverRegained(old(monitor.state), monitor.state)
    ensures Fenced(trace.log) && repo.attempts.Keys <= old(repo.attempts.Keys) + Made(trace.log)
    ensures !old(monitor.state.Held?) ==> repo.attempts.Keys <= old(repo.attempts.Keys)
    ensures r.Ok? ==> repo.Contents() in Settled(def, plain)
    ensures r.Ok? ==> trace.entry.states == EntryStates(mode, old(repo.Contents()), invocationId, jobLog)
    ensures r.Ok? && !mode.New? && old(Underway(repo.Contents())) && FreshInvocation(old(repo.attempts), invocationId) ==>
      AllExplained(trace.entry)
    ensures r.Ok? ==> StartsFrom(mode, trace.entry, StatusMap(trace.states)) && trace.run == StartedRun(old(repo.run))
    ensures r.Ok? && r.value.exit.Continue? && !mode.RerunFrom? && old(DependencySafe(def, repo.states)) ==>
      IsMeaning(def, StatusMap(trace.states), JobOf(works), StatusMap(repo.states))
    ensures r.Ok? && !r.value.exit.StopRequested? ==> Aggregated(repo.run, repo.states) && monitor.CanPersistResults()
    ensures r.Ok? && r.value.exit.StopRequested? ==>
      StoppedAs(trace.run, trace.states, repo.run, repo.states, ActedOn(trace.log))
    ensures r.Ok? && Forbidden(r.value.exit) ==> ActedOn(trace.log) < IdSet(def)
    ensures r.Ok? ==> (r.value.exit.LostDuringAttempt? <==> Interrupted(trace.log))
    ensures r.Ok? && LostInAttempt(trace.log) ==> r.value.exit.LostDuringAttempt?
    ensures r.Ok? && r.value.exit.LostDuringAttempt? ==> monitor.state.FinalWriteConfirmed?
    ensures r.Ok? ==> ClosedAs(r.value, repo.run.value.status, LastRejection(Attempts(trace.log), works))
    ensures r.Ok? && !CutShort(r.value.exit) ==>
      ClosedTruly(r.value, repo.states, LastRejection(Attempts(trace.log), works)) &&
      Tells(repo.run.value.status, repo.run.value.started, repo.states)
    ensures r.Ok? ==> TrueReport(report, repo.states, trace.log, r.value.exit.Continue?)
    ensures mode.RerunFrom? ==> forall key :: key in Made(trace.log) ==> key.nodeId in selection
    ensures mode.RerunFrom? ==> Untouched(trace.states, repo.states, selection)
    ensures r.Ok? && r.value.exit.Continue? && mode.RerunFrom? ==>
      RerunMeaning(def, StatusMap(trace.states), JobOf(works), selection, ExcludedFrom(def, mode, trace.entry),
                   StatusMap(repo.states))
  {
    ghost var s := repo.Contents();
    var roots, entry := Prepare(repo, monitor, def, plain, mode, invocationId, jobLog);
    report, trace := map[], Trace(entry, repo.run, repo.states, []);
    if roots.Err? { return Err(roots.error), report, trace; }
    ghost var safe := !mode.RerunFrom? && DependencySafe(def, s.states);
    ghost var log;
    var results;
    r, results, log := SetOut(repo, monitor, def, plain, mode, selection, works, invocationId, roots.value, safe);
    trace := trace.(log := log);
    report := ReportOf(results, repo.states);
    if r.Ok? { ReportIsTrue(def, results, repo.states, log, r.value.exit); }
    Confined(trace.states, repo.states, log, selection);
    if r.Ok? { ClosedIsTrue(r.value, repo.run, repo.states, LastRejection(Attempts(log), works)); }
    if !old(monitor.state.Held?) { NothingMadeUnheld(log, monitor.state); }
  }
}
