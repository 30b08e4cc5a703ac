/** One visit of the scheduler loop, and the facts about stopping it leaves in its log. */
module Visit {
  import opened Dag
  import opened Domain
  import opened StoreContract
  import opened Repository
  import opened Lease
  import opened Invariants
  import opened StoreWrites
  import opened GuardedWrites
  import opened Executor
  import opened Adjudication
  import opened Choices
  import opened NodeSteps

  datatype Disposition = Executed | Preserved | BlockedNow | Deferred | Excluded

  datatype NodeResult = NodeResult(disposition: Disposition, status: Status)

  /** How a visit leaves the loop. */
  datatype Exit = Continue | StopRequested | LeaseNotHeld | LostDuringAttempt

  /** The variables of one invocation. */
  class Progress {
    var states: map<Id, Stored<NodeState>>
    var run: Stored<Run>
    var selected: set<Id>
    var preserved: set<Id>
    var blocked: set<Id>
    var results: map<Id, NodeResult>
    var ioFailure: Option<string>
    ghost var log: seq<Event>
    /** Whether the lease was held when the log began. */
    ghost const began: bool

    constructor (run: Stored<Run>, states: map<Id, Stored<NodeState>>, selected: set<Id>, blocked: set<Id>, ghost held: bool)
      ensures this.run == run && this.states == states && this.selected == selected
      ensures log == [LeaseSeen(held)] && began == held && ioFailure.None? && results == map[]
    {
      this.run, this.states, this.selected, this.blocked := run, states, selected, blocked;
      preserved := set n | n in states && states[n].value.status.Success?;
      results, ioFailure, log, began := map[], None, [LeaseSeen(held)], held;
    }
  }

  /** What an invocation reports at its end. */
  datatype Notes = Notes(selected: set<Id>, preserved: set<Id>, blocked: set<Id>, results: map<Id, NodeResult>)

  function NotesOf(p: Progress): Notes
    reads p
  {
    Notes(p.selected, p.preserved, p.blocked, p.results)
  }

  /** What a visit adds to the report; `worked` is what the node's turn came to. */
  function Noted(notes: Notes, n: Id, choice: Choice, exit: Exit, worked: Status, status: Status): Notes {
    match choice
    case Preserve => notes.(preserved := notes.preserved + {n}, results := notes.results[n := NodeResult(Preserved, status)])
    case SkipUnselected => notes.(results := notes.results[n := NodeResult(Excluded, status)])
    case Exclude => notes.(blocked := notes.blocked + {n}, results := notes.results[n := NodeResult(Excluded, status)])
    case Defer => notes.(selected := notes.selected + {n}, results := notes.results[n := NodeResult(Deferred, status)])
    case Block(_) => notes.(blocked := notes.blocked + {n}, results := notes.results[n := NodeResult(BlockedNow, Blocked)])
    case Start => notes.(selected := notes.selected + {n}, results := notes.results[n := StartResult(exit, worked)])
  }

  /** What is reported about a node whose turn it was to start. */
  function StartResult(exit: Exit, worked: Status): NodeResult {
    if exit.StopRequested? || exit.LeaseNotHeld? then NodeResult(Deferred, Waiting) else Attempted(worked)
  }

  /** What is reported about a node that was attempted. */
  function Attempted(status: Status): NodeResult {
    NodeResult(if status.Waiting? then Deferred else Executed, status)
  }

  function StatusMap(states: map<Id, Stored<NodeState>>): map<Id, Status> {
    map n | n in states :: states[n].value.status
  }

  // ---- The log ------------------------------------------------------------

  /** Every attempt was made right after a held lease, right after a read that saw no stop; a lost lease stays lost. */
  ghost predicate Fenced(log: seq<Event>) {
    && (forall i :: 0 <= i < |log| && log[i].AttemptMade? ==>
          i >= 2 && log[i - 1] == LeaseSeen(true) && log[i - 2] == HoldRead(false))
    && (forall i, j :: 0 <= i < j < |log| && log[i] == LeaseSeen(false) ==> log[j] != LeaseSeen(true))
  }

  /** What the log says about the monitor right now. */
  ghost predicate Current(log: seq<Event>, state: LeaseState) {
    LeaseSeen(false) in log ==> !state.Held?
  }

  /** The keys of the attempts made so far. */
  ghost function Made(log: seq<Event>): set<AttemptKey> {
    set i | 0 <= i < |log| && log[i].AttemptMade? :: log[i].key
  }

  /** The keys of the attempts made so far, in their order. */
  function Attempts(log: seq<Event>): seq<AttemptKey> {
    if log == [] then []
    else Attempts(log[..|log| - 1]) + if log[|log| - 1].AttemptMade? then [log[|log| - 1].key] else []
  }

  lemma {:induction false} AttemptsJoin(log: seq<Event>, events: seq<Event>)
    ensures Attempts(log + events) == Attempts(log) + Attempts(events)
    decreases |events|
  {
    if events == [] {
      assert log + events == log;
    } else {
      var front := events[..|events| - 1];
      assert (log + events)[..|log + events| - 1] == log + front;
      AttemptsJoin(log, front);
    }
  }

  lemma {:induction false} NoAttempts(events: seq<Event>)
    requires forall e :: e in events ==> !e.AttemptMade?
    ensures Attempts(events) == []
  {
    if events != [] { NoAttempts(events[..|events| - 1]); }
  }

  lemma {:induction false} MadeAre(log: seq<Event>)
    ensures forall k :: k in Made(log) <==> k in Attempts(log)
  {
    if log != [] {
      var front, last := log[..|log| - 1], [log[|log| - 1]];
      MadeAre(front);
      MadeJoin(front, last);
      assert front + last == log;
      if last[0].AttemptMade? {
        assert last[0].key in Made(last);
        assert Made(last) == {last[0].key};
      }
    }
  }

  /** The node an event acts on, if any. */
  function Acted(e: Event): Option<Id> {
    match e
    case AttemptMade(key) => Some(key.nodeId)
    case NodeBlocked(n) => Some(n)
    case _ => None
  }

  /** The nodes that were attempted or blocked so far. */
  ghost function ActedOn(log: seq<Event>): set<Id> {
    set i | 0 <= i < |log| && Acted(log[i]).Some? :: Acted(log[i]).value
  }

  /** The lease was found lost in the question after some attempt. */
  predicate Interrupted(log: seq<Event>) {
    AttemptClosed(false) in log
  }

  /** From place `h` on every read of the stop request sees a hold. */
  ghost predicate HeldFrom(log: seq<Event>, h: nat) {
    forall i :: h <= i < |log| && log[i].HoldRead? ==> log[i].held
  }

  lemma MadeOnceAfterHold(log: seq<Event>, h: nat, i: nat, j: nat)
    requires Fenced(log) && HeldFrom(log, h)
    requires h <= i <= j < |log| && log[i].AttemptMade? && log[j].AttemptMade?
    ensures i == j
  {
    assert j >= 2 && log[j - 2] == HoldRead(false) && log[j - 1] == LeaseSeen(true);
  }

  /** Once a stop stays in force, at most one more attempt is made. */
  lemma AtMostOneAttemptAfterHold(log: seq<Event>, h: nat)
    requires Fenced(log) && h <= |log| && HeldFrom(log, h)
    ensures |Made(log[h..])| <= 1
  {
    var made := Made(log[h..]);
    forall k1, k2 | k1 in made && k2 in made ensures k1 == k2 {
      var i :| 0 <= i < |log[h..]| && log[h..][i].AttemptMade? && log[h..][i].key == k1;
      var j :| 0 <= j < |log[h..]| && log[h..][j].AttemptMade? && log[h..][j].key == k2;
      MadeOnceAfterHold(log, h, h + if i < j then i else j, h + if i < j then j else i);
    }
    if made != {} {
      var k :| k in made;
      assert made == {k};
    }
  }

  /** Once the lease was seen lost, no attempt is made any more. */
  lemma NoAttemptAfterLoss(log: seq<Event>, i: nat)
    requires Fenced(log) && i < |log| && log[i] == LeaseSeen(false)
    ensures Made(log[i..]) == {}
  {
    var rest := log[i..];
    forall j | 0 <= j < |rest| ensures !rest[j].AttemptMade? {
      assert j > 0 ==> rest[j - 1] == log[i + j - 1];
    }
  }

  /** The lease was lost while an attempt ran. */
  ghost predicate LostInAttempt(log: seq<Event>) {
    exists i :: 0 < i < |log| && log[i - 1].AttemptMade? && log[i] == LeaseSeen(false)
  }

  /**
   * The logs of a loop that was left as interrupted, or was not: it is exactly if some attempt
   * found the lease lost at its close, and it is if the lease was lost while an attempt ran.
   */
  ghost function Endings(interrupted: bool): iset<seq<Event>> {
    iset log: seq<Event> | (Interrupted(log) <==> interrupted) && (LostInAttempt(log) ==> interrupted)
  }

  /** Events that neither make an attempt nor look at the lease. */
  lemma OthersKeepFence(log: seq<Event>, events: seq<Event>)
    requires Fenced(log) && forall e :: e in events ==> !e.AttemptMade? && !e.LeaseSeen?
    ensures Fenced(log + events) && Made(log + events) == Made(log)
    ensures LeaseSeen(false) in log + events <==> LeaseSeen(false) in log
    ensures !LostInAttempt(log) ==> !LostInAttempt(log + events)
  {
    var longer := log + events;
    forall i | |log| <= i < |longer| ensures !longer[i].AttemptMade? && !longer[i].LeaseSeen? { assert longer[i] in events; }
    MadeJoin(log, events);
  }

  lemma MadeJoin(log: seq<Event>, events: seq<Event>)
    ensures Made(log + events) == Made(log) + Made(events)
  {
    var longer := log + events;
    forall k | k in Made(events) ensures k in Made(longer) {
      var i :| 0 <= i < |events| && events[i].AttemptMade? && events[i].key == k;
      assert longer[|log| + i] == events[i];
    }
    forall k | k in Made(log) ensures k in Made(longer) {
      var i :| 0 <= i < |log| && log[i].AttemptMade? && log[i].key == k;
      assert longer[i] == log[i];
    }
  }

  lemma ActedJoin(log: seq<Event>, events: seq<Event>)
    ensures ActedOn(log + events) == ActedOn(log) + ActedOn(events)
  {
    var longer := log + events;
    forall n | n in ActedOn(events) ensures n in ActedOn(longer) {
      var i :| 0 <= i < |events| && Acted(events[i]) == Some(n);
      assert longer[|log| + i] == events[i];
    }
    forall n | n in ActedOn(log) ensures n in ActedOn(longer) {
      var i :| 0 <= i < |log| && Acted(log[i]) == Some(n);
      assert longer[i] == log[i];
    }
  }

  /** Events that neither act on a node nor close an attempt. */
  lemma NothingActed(log: seq<Event>, events: seq<Event>)
    requires forall e :: e in events ==> e.HoldRead? || e.LeaseSeen?
    ensures ActedOn(log + events) == ActedOn(log) && (Interrupted(log + events) <==> Interrupted(log))
    ensures Attempts(log + events) == Attempts(log)
  {
    AttemptsJoin(log, events);
    NoAttempts(events);
    ActedJoin(log, events);
    assert ActedOn(events) == {};
  }

  lemma OneActed(log: seq<Event>, events: seq<Event>, n: Id)
    requires events != [] && Acted(events[0]) == Some(n) && forall i :: 0 < i < |events| ==> Acted(events[i]).None?
    ensures ActedOn(log + events) == ActedOn(log) + {n}
  {
    ActedJoin(log, events);
    assert Acted(events[0]).value in ActedOn(events);
    assert ActedOn(events) == {n};
  }

  lemma SeenKeepsFence(log: seq<Event>, state: LeaseState)
    requires Fenced(log) && Current(log, state)
    ensures Fenced(log + [LeaseSeen(state.Held?)]) && Current(log + [LeaseSeen(state.Held?)], state)
    ensures Made(log + [LeaseSeen(state.Held?)]) == Made(log)
  {
    MadeJoin(log, [LeaseSeen(state.Held?)]);
  }

  lemma MakeKeepsFence(log: seq<Event>, key: AttemptKey)
    requires Fenced(log) && |log| >= 2 && log[|log| - 1] == LeaseSeen(true) && log[|log| - 2] == HoldRead(false)
    ensures Fenced(log + [AttemptMade(key)]) && Made(log + [AttemptMade(key)]) == Made(log) + {key}
  {
    MadeJoin(log, [AttemptMade(key)]);
    assert [AttemptMade(key)][0].key in Made([AttemptMade(key)]);
  }

  /** The logs of an invocation whose lease looks like this now and looked like that when it began. */
  ghost function Logs(state: LeaseState, began: bool): iset<seq<Event>> {
    iset log: seq<Event> | Fenced(log) && Current(log, state) && log != [] && log[0] == LeaseSeen(began)
  }

  /** The lease may have changed since. */
  lemma LoggedLater(log: seq<Event>, before: LeaseState, after: LeaseState, began: bool)
    requires log in Logs(before, began) && NeverRegained(before, after)
    ensures log in Logs(after, began)
  {
  }

  lemma ReadsLogged(log: seq<Event>, events: seq<Event>, state: LeaseState, began: bool)
    requires log in Logs(state, began) && forall e :: e in events ==> e.HoldRead?
    ensures log + events in Logs(state, began) && Made(log + events) == Made(log)
    ensures log in Endings(false) ==> log + events in Endings(false)
    ensures ActedOn(log + events) == ActedOn(log) && Attempts(log + events) == Attempts(log)
  {
    OthersKeepFence(log, events);
    NothingActed(log, events);
  }

  /** Looking at the lease anywhere but right after an attempt. */
  lemma SeenLogged(log: seq<Event>, state: LeaseState, began: bool)
    requires log in Logs(state, began) && !log[|log| - 1].AttemptMade?
    ensures log + [LeaseSeen(state.Held?)] in Logs(state, began) && Made(log + [LeaseSeen(state.Held?)]) == Made(log)
    ensures log in Endings(false) ==> log + [LeaseSeen(state.Held?)] in Endings(false)
    ensures ActedOn(log + [LeaseSeen(state.Held?)]) == ActedOn(log) && Attempts(log + [LeaseSeen(state.Held?)]) == Attempts(log)
  {
    SeenKeepsFence(log, state);
    NothingActed(log, [LeaseSeen(state.Held?)]);
    if !LostInAttempt(log) { SeenNotLost(log, state.Held?); }
  }

  lemma SeenNotLost(log: seq<Event>, held: bool)
    requires !LostInAttempt(log) && log != [] && !log[|log| - 1].AttemptMade?
    ensures !LostInAttempt(log + [LeaseSeen(held)])
  {
    var longer := log + [LeaseSeen(held)];
    forall i | 0 < i < |longer| ensures !(longer[i - 1].AttemptMade? && longer[i] == LeaseSeen(false)) {
      if i < |log| { assert longer[i] == log[i] && longer[i - 1] == log[i - 1]; }
    }
  }

  lemma BlockLogged(log: seq<Event>, n: Id, state: LeaseState, began: bool)
    requires log in Logs(state, began)
    ensures log + [NodeBlocked(n)] in Logs(state, began) && Made(log + [NodeBlocked(n)]) == Made(log)
    ensures log in Endings(false) ==> log + [NodeBlocked(n)] in Endings(false)
    ensures ActedOn(log + [NodeBlocked(n)]) == ActedOn(log) + {n} && Attempts(log + [NodeBlocked(n)]) == Attempts(log)
  {
    AttemptsJoin(log, [NodeBlocked(n)]);
    NoAttempts([NodeBlocked(n)]);
    OthersKeepFence(log, [NodeBlocked(n)]);
    OneActed(log, [NodeBlocked(n)], n);
  }

  /** An attempt right after a held lease, right after a read that saw no stop. */
  lemma MadeLogged(log: seq<Event>, key: AttemptKey, before: LeaseState, after: LeaseState, began: bool)
    requires log in Logs(before, began) && NeverRegained(before, after)
    requires |log| >= 2 && log[|log| - 1] == LeaseSeen(true) && log[|log| - 2] == HoldRead(false)
    ensures log + [AttemptMade(key), LeaseSeen(after.Held?)] in Logs(after, began)
    ensures Made(log + [AttemptMade(key), LeaseSeen(after.Held?)]) == Made(log) + {key}
  {
    MakeKeepsFence(log, key);
    SeenKeepsFence(log + [AttemptMade(key)], after);
    assert log + [AttemptMade(key)] + [LeaseSeen(after.Held?)] == log + [AttemptMade(key), LeaseSeen(after.Held?)];
  }

  /** Without the lease nothing is ever attempted. */
  lemma NothingMadeUnheld(log: seq<Event>, state: LeaseState)
    requires log in Logs(state, false)
    ensures Made(log) == {}
  {
    NoAttemptAfterLoss(log, 0);
    assert log[0..] == log;
  }

  lemma CloseLogged(log: seq<Event>, held: bool, state: LeaseState, began: bool)
    requires log in Logs(state, began)
    ensures log + [AttemptClosed(held)] in Logs(state, began) && Made(log + [AttemptClosed(held)]) == Made(log)
  {
    OthersKeepFence(log, [AttemptClosed(held)]);
  }

  /** The three events of an attempt that was carried to its end. */
  lemma AttemptLogged(log: seq<Event>, key: AttemptKey, held: bool, closed: bool)
    requires closed ==> held
    ensures var longer := log + [AttemptMade(key), LeaseSeen(held)] + [AttemptClosed(closed)];
      && ActedOn(longer) == ActedOn(log) + {key.nodeId} && Attempts(longer) == Attempts(log) + [key]
      && (log in Endings(false) ==> longer in Endings(!closed))
  {
    var attempt := log + [AttemptMade(key), LeaseSeen(held)];
    OneActed(log, [AttemptMade(key), LeaseSeen(held), AttemptClosed(closed)], key.nodeId);
    OneAttempt(log, key, held, closed);
    assert attempt + [AttemptClosed(closed)] == log + [AttemptMade(key), LeaseSeen(held), AttemptClosed(closed)];
    if !LostInAttempt(log) && held {
      NotLostYet(log, key, held);
      StillNotLost(attempt, AttemptClosed(closed));
    }
  }

  lemma OneAttempt(log: seq<Event>, key: AttemptKey, held: bool, closed: bool)
    ensures Attempts(log + [AttemptMade(key), LeaseSeen(held), AttemptClosed(closed)]) == Attempts(log) + [key]
  {
    var rest := [LeaseSeen(held), AttemptClosed(closed)];
    assert [AttemptMade(key), LeaseSeen(held), AttemptClosed(closed)] == [AttemptMade(key)] + rest;
    assert log + [AttemptMade(key), LeaseSeen(held), AttemptClosed(closed)] == log + [AttemptMade(key)] + rest;
    NoAttempts(rest);
    AttemptsJoin(log + [AttemptMade(key)], rest);
    assert (log + [AttemptMade(key)])[..|log|] == log;
  }

  /** What an attempt in progress adds to the nodes acted on. */
  lemma AttemptBegun(log: seq<Event>, key: AttemptKey, held: bool)
    ensures ActedOn(log + [AttemptMade(key), LeaseSeen(held)]) == ActedOn(log) + {key.nodeId}
  {
    OneActed(log, [AttemptMade(key), LeaseSeen(held)], key.nodeId);
  }

  lemma StillNotLost(log: seq<Event>, e: Event)
    requires !LostInAttempt(log) && !e.LeaseSeen?
    ensures !LostInAttempt(log + [e])
  {
  }

  lemma NotLostYet(log: seq<Event>, key: AttemptKey, held: bool)
    requires !LostInAttempt(log)
    ensures LostInAttempt(log + [AttemptMade(key), LeaseSeen(held)]) <==> !held
  {
    var longer := log + [AttemptMade(key), LeaseSeen(held)];
    forall i | 0 < i < |longer| - 1 ensures !(longer[i - 1].AttemptMade? && longer[i] == LeaseSeen(false)) {
      if i < |log| { assert longer[i] == log[i] && longer[i - 1] == log[i - 1]; }
    }
    assert longer[|longer| - 2].AttemptMade? && longer[|longer| - 1] == LeaseSeen(held);
  }

  // ---- The visit ----------------------------------------------------------

  /** The invocation knows exactly what is stored. */
  ghost predicate Tracks(p: Progress, repo: Repository)
    reads p, repo
  {
    p.states == repo.states && p.run == repo.run
  }

  /** The log obeys the fences and agrees with the monitor. */
  ghost predicate Logged(p: Progress, monitor: LeaseMonitor)
    reads p, monitor
  {
    p.log in Logs(monitor.state, p.began)
  }

  /** The Run carries the aggregate of its node states. */
  ghost predicate Aggregated(run: Stored<Run>, states: map<Id, Stored<NodeState>>) {
    run.value.status == RunAggregate(Statuses(states), run.value.started)
  }

  /** May this node be started now? The stop request and the lease have to allow it. */
  method Clear(repo: Repository, monitor: LeaseMonitor, p: Progress) returns (r: Result<Exit, Failure>)
    requires Logged(p, monitor)
    modifies repo`cancelRequest, monitor, p`log
    ensures NeverRegained(old(monitor.state), monitor.state) && Logged(p, monitor)
    ensures Made(p.log) == Made(old(p.log)) && ActedOn(p.log) == ActedOn(old(p.log))
    ensures Attempts(p.log) == Attempts(old(p.log))
    ensures old(p.log) in Endings(false) ==> p.log in Endings(false)
    ensures r.Ok? ==> r.value.Continue? || r.value.StopRequested? || r.value.LeaseNotHeld?
    ensures r.Ok? ==> (r.value.StopRequested? <==> IsCancelHold(repo.cancelRequest))
    ensures r.Ok? && !r.value.StopRequested? ==> (r.value.Continue? <==> monitor.state.Held?)
    ensures r.Ok? && r.value.Continue? ==>
      |p.log| >= 2 && p.log[|p.log| - 1] == LeaseSeen(true) && p.log[|p.log| - 2] == HoldRead(false)
  {
    ghost var state := monitor.state;
    var hold, events := CheckHold(repo, monitor);
    LoggedLater(p.log, state, monitor.state, p.began);
    ReadsLogged(p.log, events, monitor.state, p.began);
    p.log := p.log + events;
    if hold.Err? { return Err(hold.error); }
    if hold.value { return Ok(StopRequested); }
    if !monitor.CanStartNewNode() {
      SeenLogged(p.log, monitor.state, p.began);
      p.log := p.log + [LeaseSeen(false)];
      return Ok(LeaseNotHeld);
    }
    var confirmed := ConfirmOrdinaryWrite(monitor);
    SeenLogged(p.log, monitor.state, p.began);
    p.log := p.log + [LeaseSeen(monitor.state.Held?)];
    if !confirmed { return Err(LeaseInterrupted); }
    return Ok(Continue);
  }

  /** The stores a visit may leave, however it ends; `made` names every attempt it may have created. */
  ghost function Keeping(def: Definition, plain: bool, s: Store, made: set<AttemptKey>): iset<Store> {
    iset t: Store | t in Consistent(def, plain) && t.states.Keys == s.states.Keys &&
      (DependencySafe(def, s.states) ==> DependencySafe(def, t.states)) && t.attempts.Keys <= s.attempts.Keys + made
  }

  lemma KeepingChain(def: Definition, plain: bool, s: Store, t: Store, u: Store, before: set<AttemptKey>, after: set<AttemptKey>)
    requires t in Keeping(def, plain, s, before) && u in Keeping(def, plain, t, after) && before <= after
    ensures u in Keeping(def, plain, s, after)
  {
  }

  lemma KeepingMore(def: Definition, plain: bool, s: Store, t: Store, made: set<AttemptKey>, more: set<AttemptKey>)
    requires t in Keeping(def, plain, s, made) && made <= more
    ensures t in Keeping(def, plain, s, more)
  {
  }

  lemma KeepingSettled(def: Definition, plain: bool, s: Store, t: Store, made: set<AttemptKey>)
    requires t in Settled(def, plain) && t.states == s.states && t.attempts == s.attempts
    ensures t in Keeping(def, plain, s, made)
  {
  }

  lemma StartedIsSafe(def: Definition, states: map<Id, Stored<NodeState>>, n: Id,
                      started: Stored<NodeState>, ended: Stored<NodeState>)
    requires DependencySafe(def, states) && n in IdSet(def) && n in states
    requires DependenciesSucceeded(def, states, n) && states[n].value.status.Waiting? && started.value.status.Running?
    ensures DependencySafe(def, states[n := started]) && DependencySafe(def, states[n := started][n := ended])
  {
    SafeWrite(def, states, n, started);
    SafeStarted(def, states[n := started], n, ended);
  }

  /**
   * Where an attempt of a WAITING node `n` may break off: before the node was taken up, or
   * RUNNING on an attempt that still runs or has ended as its work decided.
   */
  ghost function BrokenOff(before: map<Id, Stored<NodeState>>, n: Id, invocationId: Id, work: Work): iset<Store>
    requires n in before
  {
    iset t: Store | t.states == before ||
      (&& n in t.states && t.states == before[n := t.states[n]] && t.states[n].value.status.Running?
       && t.states[n].value.latestAttemptNo == before[n].value.latestAttemptNo + 1
       && RunningOrEnded(t, n, t.states[n].value.latestAttemptNo, invocationId, WorkTerminal(work)))
  }

  /** Starts one attempt and carries it to its end. */
  method StartAndRun(repo: Repository, monitor: LeaseMonitor, ghost def: Definition, ghost plain: bool,
                     n: Id, state: Stored<NodeState>, work: Work, invocationId: Id)
    returns (r: Result<Stored<NodeState>, Failure>)
    requires repo.Contents() in Settled(def, plain)
    requires n in repo.states && repo.states[n] == state && n in IdSet(def)
    requires state.value.status.Waiting? && DependenciesSucceeded(def, repo.states, n)
    modifies repo`states, repo`attempts, repo`attemptIds, monitor
    ensures repo.Contents() in Keeping(def, plain, old(repo.Contents()), {NextKey(state.value)})
    ensures NeverRegained(old(monitor.state), monitor.state)
    ensures r.Ok? ==> repo.Contents() in Settled(def, plain)
    ensures r.Ok? ==> r.value.value.status == WorkStatus(work) && repo.states == old(repo.states)[n := r.value]
    ensures r.Ok? ==> r.value.value.latestAttemptNo == state.value.latestAttemptNo + 1 && r.value.value.activeAttemptId.None?
    ensures r.Ok? ==>
      (repo.attempts, r.value.value.status) in JustEnds(AttemptKey(n, state.value.latestAttemptNo + 1), work)
    ensures r.Err? ==> repo.Contents() in BrokenOff(old(repo.states), n, invocationId, work)
  {
    var attemptId: Id := *;
    var begun := StartNode(repo, def, plain, n, state, attemptId, invocationId);
    if begun.Err? { return Err(begun.error); }
    StartedIsPrepared(old(repo.Contents()), repo.Contents(), n, begun.value.0, begun.value.1);
    r := RunNode(repo, monitor, def, plain, n, begun.value.0, begun.value.1, work);
    StartedKeeps(def, plain, old(repo.Contents()), repo.Contents(), n, begun.value.1, {NextKey(state.value)});
    StartedEnds(old(repo.states), repo.Contents(), n, begun.value.1, r, invocationId, work);
  }

  /** The two state writes come to one; a node that was taken up and did not end is RUNNING. */
  lemma StartedEnds(before: map<Id, Stored<NodeState>>, t: Store, n: Id, started: Stored<NodeState>,
                    r: Result<Stored<NodeState>, Failure>, invocationId: Id, work: Work)
    requires n in before && started.value.status.Running?
    requires started.value.latestAttemptNo == before[n].value.latestAttemptNo + 1
    requires r.Ok? ==> t.states == before[n := started][n := r.value]
    requires r.Err? ==> t.states == before[n := started]
    requires r.Err? ==> RunningOrEnded(t, n, started.value.latestAttemptNo, invocationId, WorkTerminal(work))
    ensures r.Ok? ==> t.states == before[n := r.value]
    ensures r.Err? ==> t in BrokenOff(before, n, invocationId, work)
  {
  }

  lemma StartedKeeps(def: Definition, plain: bool, s: Store, t: Store, n: Id, started: Stored<NodeState>, made: set<AttemptKey>)
    requires t in Consistent(def, plain) && t.attempts.Keys <= s.attempts.Keys + made
    requires n in IdSet(def) && n in s.states && n in t.states && DependenciesSucceeded(def, s.states, n)
    requires s.states[n].value.status.Waiting? && started.value.status.Running?
    requires t.states == s.states[n := started][n := t.states[n]]
    ensures t in Keeping(def, plain, s, made)
  {
    if DependencySafe(def, s.states) { StartedIsSafe(def, s.states, n, started, t.states[n]); }
  }

  /** Makes one attempt of a cleared node. */
  method MakeAttempt(repo: Repository, monitor: LeaseMonitor, p: Progress, ghost def: Definition, ghost plain: bool,
                     n: Id, state: Stored<NodeState>, work: Work, invocationId: Id)
    returns (r: Result<Stored<NodeState>, Failure>)
    requires repo.Contents() in Settled(def, plain)
    requires n in repo.states && repo.states[n] == state && n in IdSet(def)
    requires state.value.status.Waiting? && DependenciesSucceeded(def, repo.states, n)
    requires Logged(p, monitor)
    requires |p.log| >= 2 && p.log[|p.log| - 1] == LeaseSeen(true) && p.log[|p.log| - 2] == HoldRead(false)
    modifies repo`states, repo`attempts, repo`attemptIds, monitor, p`log
    ensures repo.Contents() in Keeping(def, plain, old(repo.Contents()), {NextKey(state.value)})
    ensures NeverRegained(old(monitor.state), monitor.state)
    ensures Logged(p, monitor) && Made(p.log) == Made(old(p.log)) + {NextKey(state.value)}
    ensures r.Ok? ==> repo.Contents() in Settled(def, plain)
    ensures r.Ok? ==> r.value.value.status == WorkStatus(work) && repo.states == old(repo.states)[n := r.value]
    ensures n in repo.states && repo.states == old(repo.states)[n := repo.states[n]]
    ensures p.log == old(p.log) + [AttemptMade(NextKey(state.value)), LeaseSeen(monitor.state.Held?)]
  {
    ghost var lease := monitor.state;
    r := StartAndRun(repo, monitor, def, plain, n, state, work, invocationId);
    MadeLogged(p.log, NextKey(state.value), lease, monitor.state, p.began);
    p.log := p.log + [AttemptMade(NextKey(state.value)), LeaseSeen(monitor.state.Held?)];
  }

  /** A node that is neither failed nor unfinished nor SKIPPED has succeeded. */
  lemma StartableDependencies(def: Definition, plain: bool, s: Store, n: Id)
    requires s in Consistent(def, plain) && s.states.Keys == IdSet(def) && KnownDependencies(def) && n in s.states
    requires FailedAmong(Deps(def, n), StatusMap(s.states)) == []
    requires !exists d :: d in Deps(def, n) && Unfinished(StatusMap(s.states)[d])
    ensures DependenciesSucceeded(def, s.states, n)
  {
    var m := StatusMap(s.states);
    forall d | d in Deps(def, n) ensures d in s.states && s.states[d].value.status.Success? {
      KnownDeps(def, n, d);
      assert ViewOf(s, d) in Sound(plain);
      assert d !in FailedAmong(Deps(def, n), m) && !Unfinished(m[d]);
      NeverSkipped(ViewOf(s, d), plain);
    }
  }

  lemma NeverSkipped(w: View, plain: bool)
    requires w in Sound(plain)
    ensures !w.state.status.Skipped?
  {
  }

  /** The part of an invocation that mirrors the store, the nodes it has acted on, and its attempts with the last path failure. */
  datatype Progressed = Progressed(
    run: Stored<Run>,
    states: map<Id, Stored<NodeState>>,
    acted: set<Id>,
    attempts: seq<AttemptKey>,
    ioFailure: Option<string>)

  ghost function ProgressOf(p: Progress): Progressed
    reads p
  {
    Progressed(p.run, p.states, ActedOn(p.log), Attempts(p.log), p.ioFailure)
  }

  const IO_FAILURES := {"INPUT_FILE_MISSING", "INPUT_FILE_MUTATED", "OUTPUT_PATH_REJECTED"}

  /** The path failure an attempt ends with, if any. */
  function Rejection(work: Work): Option<string> {
    if work.PathRejected? && work.code in IO_FAILURES then Some(work.code) else None
  }

  /** What a visit that acted on `n` leaves: its new status, and a Run that carries the aggregate; `work` is that of its attempt. */
  ghost function Stepped(before: Progressed, n: Id, status: Status, work: Option<Work>): iset<Progressed> {
    iset q: Progressed |
      && Aggregated(q.run, q.states) && n in q.states && q.states == before.states[n := q.states[n]]
      && q.states[n].value.status == status && q.acted == before.acted + {n}
      && AttemptNoted(before, q, n, work)
  }

  /** An attempt is counted, and its path failure replaces the one before. */
  predicate AttemptNoted(before: Progressed, after: Progressed, n: Id, work: Option<Work>) {
    if work.None? then after.attempts == before.attempts && after.ioFailure == before.ioFailure
    else
      && |after.attempts| == |before.attempts| + 1 && after.attempts == before.attempts + [after.attempts[|before.attempts|]]
      && after.attempts[|before.attempts|].nodeId == n
      && after.ioFailure == if Rejection(work.value).Some? then Rejection(work.value) else before.ioFailure
  }

  /** Only the records of these nodes may differ, and only these nodes have been acted on in addition. */
  ghost function Confining(states: map<Id, Stored<NodeState>>, acted: set<Id>, nodes: set<Id>):
      iset<(map<Id, Stored<NodeState>>, set<Id>)> {
    iset now: (map<Id, Stored<NodeState>>, set<Id>) |
      && now.0.Keys == states.Keys && now.1 <= acted + nodes
      && forall n :: n in states && n !in nodes ==> now.0[n] == states[n]
  }

  lemma ConfinedAt(states: map<Id, Stored<NodeState>>, after: map<Id, Stored<NodeState>>, acted: set<Id>, acted': set<Id>, n: Id)
    requires n in states && n in after && after == states[n := after[n]] && acted' <= acted + {n}
    ensures (after, acted') in Confining(states, acted, {n})
  {
  }

  lemma ConfinedSame(states: map<Id, Stored<NodeState>>, acted: set<Id>, nodes: set<Id>)
    ensures (states, acted) in Confining(states, acted, nodes)
  {
  }

  lemma ActedStep(before: Progressed, after: Progressed, n: Id, status: Status, work: Option<Work>, key: AttemptKey)
    requires Aggregated(after.run, after.states) && n in after.states && after.states == before.states[n := after.states[n]]
    requires after.states[n].value.status == status && after.acted == before.acted + {n}
    requires work.None? ==> after.attempts == before.attempts && after.ioFailure == before.ioFailure
    requires work.Some? ==> after.attempts == before.attempts + [key] && key.nodeId == n
    requires work.Some? ==> after.ioFailure == if Rejection(work.value).Some? then Rejection(work.value) else before.ioFailure
    ensures after in Stepped(before, n, status, work)
  {
  }

  /** Starts a node that may start, unless a stop or the lease forbids it. */
  method VisitStart(repo: Repository, monitor: LeaseMonitor, p: Progress, ghost def: Definition, ghost plain: bool,
                    n: Id, work: Work, invocationId: Id)
    returns (r: Result<Exit, Failure>)
    requires repo.Contents() in Settled(def, plain) && Tracks(p, repo)
    requires n in p.states && n in IdSet(def) && p.states[n].value.status.Waiting? && p.states[n].value.nodeId == n
    requires DependenciesSucceeded(def, p.states, n) && Logged(p, monitor)
    modifies repo`states, repo`attempts, repo`attemptIds, repo`run, repo`cancelRequest, monitor
    modifies p`states, p`run, p`selected, p`results, p`ioFailure, p`log
    ensures NeverRegained(old(monitor.state), monitor.state) && Logged(p, monitor)
    ensures repo.Contents() in Keeping(def, plain, old(repo.Contents()), Made(p.log)) && Made(old(p.log)) <= Made(p.log)
    ensures r.Ok? && (r.value.StopRequested? || r.value.LeaseNotHeld?) ==>
      Tracks(p, repo) && repo.Contents() in Settled(def, plain) && ProgressOf(p) == old(ProgressOf(p))
    ensures r.Ok? && (r.value.Continue? || r.value.LostDuringAttempt?) ==>
      Tracks(p, repo) && repo.Contents() in Settled(def, plain) &&
      ProgressOf(p) in Stepped(old(ProgressOf(p)), n, WorkStatus(work), Some(work))
    ensures r.Ok? && r.value.LostDuringAttempt? ==> monitor.state.FinalWriteConfirmed?
    ensures r.Ok? && old(p.log) in Endings(false) ==> p.log in Endings(r.value.LostDuringAttempt?)
    ensures p.selected == old(p.selected) + {n}
    ensures (repo.states, ActedOn(p.log)) in Confining(old(repo.states), ActedOn(old(p.log)), {n})
    ensures r.Ok? ==> p.results == old(p.results)[n := StartResult(r.value, WorkStatus(work))]
  {
    ghost var before := ProgressOf(p);
    p.selected := p.selected + {n};
    var clear := Clear(repo, monitor, p);
    assert ProgressOf(p) == before;
    KeepingSettled(def, plain, old(repo.Contents()), repo.Contents(), Made(p.log));
    ConfinedSame(repo.states, ActedOn(p.log), {n});
    if clear.Err? { return Err(clear.error); }
    if !clear.value.Continue? {
      p.results := p.results[n := NodeResult(Deferred, Waiting)];
      return Ok(clear.value);
    }
    ghost var t, log := repo.Contents(), p.log;
    r := Proceed(repo, monitor, p, def, plain, n, work, invocationId);
    KeepingChain(def, plain, old(repo.Contents()), t, repo.Contents(), Made(log), Made(p.log));
  }

  /** The attempt of a cleared node and the aggregate after it. */
  method CarryAttempt(repo: Repository, monitor: LeaseMonitor, p: Progress, ghost def: Definition, ghost plain: bool,
                      n: Id, work: Work, invocationId: Id)
    returns (r: Result<Exit, Failure>, ghost held: bool)
    requires repo.Contents() in Settled(def, plain) && Tracks(p, repo)
    requires n in p.states && n in IdSet(def) && p.states[n].value.status.Waiting? && p.states[n].value.nodeId == n
    requires DependenciesSucceeded(def, p.states, n) && Logged(p, monitor)
    requires |p.log| >= 2 && p.log[|p.log| - 1] == LeaseSeen(true) && p.log[|p.log| - 2] == HoldRead(false)
    modifies repo`states, repo`attempts, repo`attemptIds, repo`run, monitor
    modifies p`states, p`run, p`results, p`ioFailure, p`log
    ensures NeverRegained(old(monitor.state), monitor.state) && Logged(p, monitor)
    ensures repo.Contents() in Keeping(def, plain, old(repo.Contents()), Made(p.log)) && Made(old(p.log)) <= Made(p.log)
    ensures r.Ok? ==> r.value == if monitor.state.FinalWriteConfirmed? then LostDuringAttempt else Continue
    ensures r.Ok? ==> monitor.CanPersistResults() && (r.value.Continue? ==> held)
    ensures r.Ok? ==> Tracks(p, repo) && repo.Contents() in Settled(def, plain) && Aggregated(p.run, p.states)
    ensures r.Ok? ==> n in p.states && p.states == old(p.states)[n := p.states[n]]
    ensures r.Ok? ==> p.states[n].value.status == WorkStatus(work)
    ensures r.Ok? ==> p.ioFailure == if Rejection(work).Some? then Rejection(work) else old(p.ioFailure)
    ensures r.Ok? ==> p.results == old(p.results)[n := Attempted(WorkStatus(work))]
    ensures n in repo.states && repo.states == old(repo.states)[n := repo.states[n]]
    ensures p.log == old(p.log) + [AttemptMade(NextKey(old(p.states)[n].value)), LeaseSeen(held)] +
                     if r.Ok? then [AttemptClosed(r.value.Continue?)] else []
  {
    var worked := RunAttempt(repo, monitor, p, def, plain, n, work, invocationId);
    held := monitor.state.Held?;
    if worked.Err? { return Err(worked.error), held; }
    ghost var t := repo.Contents();
    r := Conclude(repo, monitor, p, def, plain);
    KeepingSettled(def, plain, t, repo.Contents(), Made(p.log));
    KeepingChain(def, plain, old(repo.Contents()), t, repo.Contents(), Made(p.log), Made(p.log));
  }

  /** The same with what it means for the log. */
  method Proceed(repo: Repository, monitor: LeaseMonitor, p: Progress, ghost def: Definition, ghost plain: bool,
                 n: Id, work: Work, invocationId: Id)
    returns (r: Result<Exit, Failure>)
    requires repo.Contents() in Settled(def, plain) && Tracks(p, repo)
    requires n in p.states && n in IdSet(def) && p.states[n].value.status.Waiting? && p.states[n].value.nodeId == n
    requires DependenciesSucceeded(def, p.states, n) && Logged(p, monitor)
    requires |p.log| >= 2 && p.log[|p.log| - 1] == LeaseSeen(true) && p.log[|p.log| - 2] == HoldRead(false)
    modifies repo`states, repo`attempts, repo`attemptIds, repo`run, monitor
    modifies p`states, p`run, p`results, p`ioFailure, p`log
    ensures NeverRegained(old(monitor.state), monitor.state) && Logged(p, monitor)
    ensures repo.Contents() in Keeping(def, plain, old(repo.Contents()), Made(p.log)) && Made(old(p.log)) <= Made(p.log)
    ensures r.Ok? ==> (r.value.Continue? || r.value.LostDuringAttempt?) && monitor.CanPersistResults()
    ensures r.Ok? ==> Tracks(p, repo) && repo.Contents() in Settled(def, plain)
    ensures r.Ok? ==> ProgressOf(p) in Stepped(old(ProgressOf(p)), n, WorkStatus(work), Some(work))
    ensures r.Ok? && r.value.LostDuringAttempt? ==> monitor.state.FinalWriteConfirmed?
    ensures r.Ok? && old(p.log) in Endings(false) ==> p.log in Endings(r.value.LostDuringAttempt?)
    ensures r.Ok? ==> p.results == old(p.results)[n := Attempted(WorkStatus(work))]
    ensures (repo.states, ActedOn(p.log)) in Confining(old(repo.states), ActedOn(old(p.log)), {n})
  {
    ghost var log, key, before := p.log, NextKey(p.states[n].value), ProgressOf(p);
    ghost var held;
    r, held := CarryAttempt(repo, monitor, p, def, plain, n, work, invocationId);
    if r.Ok? {
      AttemptLogged(log, key, held, r.value.Continue?);
      ActedStep(before, ProgressOf(p), n, WorkStatus(work), Some(work), key);
    } else {
      AttemptBegun(log, key, held);
      assert p.log == log + [AttemptMade(key), LeaseSeen(held)];
    }
    ConfinedAt(before.states, repo.states, before.acted, ActedOn(p.log), n);
  }

  /** The attempt of a cleared node and what the invocation notes down about it. */
  method RunAttempt(repo: Repository, monitor: LeaseMonitor, p: Progress, ghost def: Definition, ghost plain: bool,
                    n: Id, work: Work, invocationId: Id)
    returns (r: Result<(), Failure>)
    requires repo.Contents() in Settled(def, plain) && Tracks(p, repo)
    requires n in p.states && n in IdSet(def) && p.states[n].value.status.Waiting? && p.states[n].value.nodeId == n
    requires DependenciesSucceeded(def, p.states, n) && Logged(p, monitor)
    requires |p.log| >= 2 && p.log[|p.log| - 1] == LeaseSeen(true) && p.log[|p.log| - 2] == HoldRead(false)
    modifies repo`states, repo`attempts, repo`attemptIds, monitor, p`states, p`results, p`ioFailure, p`log
    ensures NeverRegained(old(monitor.state), monitor.state) && Logged(p, monitor)
    ensures repo.Contents() in Keeping(def, plain, old(repo.Contents()), Made(p.log)) && Made(old(p.log)) <= Made(p.log)
    ensures p.log == old(p.log) + [AttemptMade(NextKey(old(p.states)[n].value)), LeaseSeen(monitor.state.Held?)]
    ensures r.Ok? ==> repo.Contents() in Settled(def, plain) && Tracks(p, repo)
    ensures r.Ok? ==> n in p.states && p.states == old(p.states)[n := p.states[n]]
    ensures r.Ok? ==> p.states[n].value.status == WorkStatus(work)
    ensures r.Ok? ==> p.ioFailure == if Rejection(work).Some? then Rejection(work) else old(p.ioFailure)
    ensures repo.states.Keys == old(repo.states.Keys) && repo.states == old(repo.states)[n := repo.states[n]]
    ensures r.Ok? ==> p.results == old(p.results)[n := Attempted(WorkStatus(work))]
  {
    var state := p.states[n];
    var worked := MakeAttempt(repo, monitor, p, def, plain, n, state, work, invocationId);
    KeepingMore(def, plain, old(repo.Contents()), repo.Contents(), {NextKey(state.value)}, Made(p.log));
    if worked.Err? { return Err(worked.error); }
    NoteAttempt(p, n, worked.value, work);
    return Ok(());
  }

  /** What an invocation remembers of an attempt. */
  method NoteAttempt(p: Progress, n: Id, state: Stored<NodeState>, work: Work)
    modifies p`states, p`results, p`ioFailure
    ensures p.states == old(p.states)[n := state] && p.results == old(p.results)[n := Attempted(state.value.status)]
    ensures p.ioFailure == if Rejection(work).Some? then Rejection(work) else old(p.ioFailure)
  {
    p.states, p.results := p.states[n := state], p.results[n := Attempted(state.value.status)];
    var rejection := Rejection(work);
    if rejection.Some? { p.ioFailure := rejection; }
  }

  /** Recomputes the aggregate from the states the invocation knows. */
  method Reaggregate(repo: Repository, monitor: LeaseMonitor, p: Progress, ghost def: Definition, ghost plain: bool)
    returns (r: Result<(), Failure>)
    requires repo.Contents() in Settled(def, plain) && Tracks(p, repo) && Logged(p, monitor)
    modifies repo`run, monitor, p`run
    ensures repo.Contents() in Settled(def, plain)
    ensures NeverRegained(old(monitor.state), monitor.state) && Logged(p, monitor)
    ensures r.Ok? ==> Tracks(p, repo) && Aggregated(p.run, p.states) && monitor.CanPersistResults()
    ensures r.Ok? && monitor.state.Held? ==> old(monitor.state).Held?
  {
    var updated := UpdateAggregate(repo, monitor, def, plain, p.run, p.states);
    if updated.Err? { return Err(updated.error); }
    p.run := updated.value;
    return Ok(());
  }

  /** Recomputes the aggregate after an attempt, and leaves the loop if only the final write was still allowed. */
  method Conclude(repo: Repository, monitor: LeaseMonitor, p: Progress, ghost def: Definition, ghost plain: bool)
    returns (r: Result<Exit, Failure>)
    requires repo.Contents() in Settled(def, plain) && Tracks(p, repo) && Logged(p, monitor)
    modifies repo`run, monitor, p`run, p`log
    ensures repo.Contents() in Settled(def, plain)
    ensures NeverRegained(old(monitor.state), monitor.state) && Logged(p, monitor) && Made(p.log) == Made(old(p.log))
    ensures r.Ok? ==> Tracks(p, repo) && Aggregated(p.run, p.states) && monitor.CanPersistResults()
    ensures r.Ok? ==> r.value == if monitor.state.FinalWriteConfirmed? then LostDuringAttempt else Continue
    ensures r.Ok? && r.value.Continue? ==> old(monitor.state).Held?
    ensures p.log == old(p.log) + if r.Ok? then [AttemptClosed(r.value.Continue?)] else []
  {
    var updated := Reaggregate(repo, monitor, p, def, plain);
    if updated.Err? { return Err(updated.error); }
    r := Ok(if monitor.RequiresInterruptedFinalization() then LostDuringAttempt else Continue);
    CloseLogged(p.log, r.value.Continue?, monitor.state, p.began);
    p.log := p.log + [AttemptClosed(r.value.Continue?)];
  }

  /** Blocks a node and notes it down. */
  method BlockAndNote(repo: Repository, monitor: LeaseMonitor, p: Progress, ghost def: Definition, ghost plain: bool,
                      n: Id, failed: seq<Id>)
    returns (r: Result<(), Failure>)
    requires repo.Contents() in Settled(def, plain) && Tracks(p, repo)
    requires n in p.states && p.states[n].value.nodeId == n && (plain ==> failed != [])
    modifies repo`states, monitor, p`states, p`blocked, p`results
    ensures NeverRegained(old(monitor.state), monitor.state)
    ensures forall made :: repo.Contents() in Keeping(def, plain, old(repo.Contents()), made)
    ensures r.Ok? ==> Tracks(p, repo) && repo.Contents() in Settled(def, plain)
    ensures r.Ok? ==> n in p.states && p.states == old(p.states)[n := p.states[n]]
    ensures r.Ok? ==> p.states[n].value.status.Blocked? && p.states[n].value.blockedBy == failed
    ensures n in repo.states && repo.states == old(repo.states)[n := repo.states[n]]
    ensures r.Ok? ==> p.results == old(p.results)[n := NodeResult(BlockedNow, Blocked)] && p.blocked == old(p.blocked) + {n}
  {
    var state := BlockNode(repo, monitor, def, plain, n, p.states[n], failed);
    if state.Err? { return Err(state.error); }
    p.states, p.blocked := p.states[n := state.value], p.blocked + {n};
    p.results := p.results[n := NodeResult(BlockedNow, Blocked)];
    return Ok(());
  }

  /** Blocks a node and recomputes the aggregate. */
  method BlockAndAggregate(repo: Repository, monitor: LeaseMonitor, p: Progress, ghost def: Definition, ghost plain: bool,
                           n: Id, failed: seq<Id>)
    returns (r: Result<(), Failure>)
    requires repo.Contents() in Settled(def, plain) && Tracks(p, repo) && Logged(p, monitor)
    requires n in p.states && p.states[n].value.nodeId == n && (plain ==> failed != [])
    modifies repo`states, repo`run, monitor, p`states, p`run, p`blocked, p`results
    ensures NeverRegained(old(monitor.state), monitor.state) && Logged(p, monitor)
    ensures repo.Contents() in Keeping(def, plain, old(repo.Contents()), Made(p.log))
    ensures r.Ok? ==> Tracks(p, repo) && repo.Contents() in Settled(def, plain)
    ensures r.Ok? ==> Aggregated(p.run, p.states) && n in p.states && p.states == old(p.states)[n := p.states[n]]
    ensures r.Ok? ==> p.states[n].value.status.Blocked? && p.states[n].value.blockedBy == failed && monitor.CanPersistResults()
    ensures r.Ok? ==> p.results == old(p.results)[n := NodeResult(BlockedNow, Blocked)] && p.blocked == old(p.blocked) + {n}
    ensures n in repo.states && repo.states == old(repo.states)[n := repo.states[n]]
  {
    var blocked := BlockAndNote(repo, monitor, p, def, plain, n, failed);
    if blocked.Err? { return Err(blocked.error); }
    ghost var t := repo.Contents();
    r := Reaggregate(repo, monitor, p, def, plain);
    KeepingSettled(def, plain, t, repo.Contents(), Made(p.log));
    KeepingChain(def, plain, old(repo.Contents()), t, repo.Contents(), Made(p.log), Made(p.log));
  }

  /** The same with what it means for the log. */
  method VisitBlock(repo: Repository, monitor: LeaseMonitor, p: Progress, ghost def: Definition, ghost plain: bool,
                    n: Id, failed: seq<Id>)
    returns (r: Result<Exit, Failure>)
    requires repo.Contents() in Settled(def, plain) && Tracks(p, repo)
    requires n in p.states && p.states[n].value.nodeId == n && (plain ==> failed != []) && Logged(p, monitor)
    modifies repo`states, repo`run, monitor, p`states, p`run, p`blocked, p`results, p`log
    ensures NeverRegained(old(monitor.state), monitor.state) && Logged(p, monitor)
    ensures repo.Contents() in Keeping(def, plain, old(repo.Contents()), Made(p.log)) && Made(p.log) == Made(old(p.log))
    ensures old(p.log) in Endings(false) ==> p.log in Endings(false)
    ensures r.Ok? ==> r.value.Continue? && Tracks(p, repo) && repo.Contents() in Settled(def, plain)
    ensures r.Ok? ==> ProgressOf(p) in Stepped(old(ProgressOf(p)), n, Blocked, None)
    ensures r.Ok? ==> p.states[n].value.blockedBy == failed && monitor.CanPersistResults()
    ensures r.Ok? ==> p.results == old(p.results)[n := NodeResult(BlockedNow, Blocked)] && p.blocked == old(p.blocked) + {n}
    ensures (repo.states, ActedOn(p.log)) in Confining(old(repo.states), ActedOn(old(p.log)), {n})
  {
    ghost var before, key := ProgressOf(p), NextKey(p.states[n].value);
    BlockLogged(p.log, n, monitor.state, p.began);
    p.log := p.log + [NodeBlocked(n)];
    var done := BlockAndAggregate(repo, monitor, p, def, plain, n, failed);
    ConfinedAt(before.states, repo.states, before.acted, ActedOn(p.log), n);
    if done.Err? { return Err(done.error); }
    ActedStep(before, ProgressOf(p), n, Blocked, None, key);
    return Ok(Continue);
  }
}
