/** Orphan RUNNING attempts of dead invocations, decided from the job log before a resume selects nodes. */
module Adjudication {
  import opened Dag
  import opened Domain
  import opened StoreContract
  import opened Repository
  import opened Lease
  import opened Invariants
  import opened Writes
  import opened StoreWrites
  import opened GuardedWrites
  import opened Executor

  /** The same letter, or the first is the small form of the second. */
  predicate SameLetter(c: char, d: char) {
    c == d || ('A' <= d <= 'Z' && c as int == d as int + 32)
  }

  /** `text` reads `word`, which is in capital letters, regardless of case. */
  predicate Reads(text: string, word: string) {
    |text| == |word| && forall i :: 0 <= i < |text| ==> SameLetter(text[i], word[i])
  }

  /** The text in upper case, as far as it is ASCII. */
  function UpperCase(text: string): (upper: string)
    ensures Reads(text, upper) && forall i :: 0 <= i < |upper| ==> !('a' <= upper[i] <= 'z')
  {
    seq(|text|, i requires 0 <= i < |text| => if 'a' <= text[i] <= 'z' then text[i] - 'a' + 'A' else text[i])
  }

  /** What the job log's final status says about an orphan. */
  function DecideOrphanResult(jobLog: Option<string>): Terminal {
    match jobLog
    case None => Terminal(Unknown, "NO_EXECUTION_RESULT", Unknown)
    case Some(text) =>
      var status := UpperCase(text);
      if status == "SUCCESS" then Terminal(Success, "OK", Success)
      else if status == "NO_DATA" then Terminal(Success, "NO_DATA", Success)
      else if status == "FAILED" then Terminal(Failed, "FAILED", Failed)
      else if status == "ABORTED" then Terminal(Failed, "ASSERT_FAILED", Failed)
      else if status == "TIMEOUT" then Terminal(Failed, "EXECUTION_TIMEOUT", Failed)
      else if status == "CANCELLED" then Terminal(Cancelled, "CANCELLED", Cancelled)
      else Terminal(Unknown, "NO_EXECUTION_RESULT", Unknown)
  }

  lemma UpperReads(text: string, word: string)
    requires forall i :: 0 <= i < |word| ==> !('a' <= word[i] <= 'z')
    ensures UpperCase(text) == word <==> Reads(text, word)
  {
    if Reads(text, word) {
      var upper := UpperCase(text);
      forall i | 0 <= i < |word| ensures upper[i] == word[i] {
        assert SameLetter(text[i], upper[i]) && SameLetter(text[i], word[i]);
      }
    }
  }

  /** The job log says this word. */
  predicate Says(jobLog: Option<string>, word: string) {
    jobLog.Some? && Reads(jobLog.value, word)
  }

  /** What a job log makes of the attempt and the node of an orphan; another text is as good as none. */
  predicate OrphanEnds(jobLog: Option<string>, t: Terminal) {
    && (t.stateStatus.Success? <==> Says(jobLog, "SUCCESS") || Says(jobLog, "NO_DATA"))
    && (t.stateStatus.Failed? <==> Says(jobLog, "FAILED") || Says(jobLog, "ABORTED") || Says(jobLog, "TIMEOUT"))
    && (t.stateStatus.Cancelled? <==> Says(jobLog, "CANCELLED"))
    && (t.stateStatus.Success? || t.stateStatus.Failed? || t.stateStatus.Cancelled? || t.stateStatus.Unknown?)
    && t.attemptStatus == t.stateStatus
    && (t.resultCode == "OK" <==> Says(jobLog, "SUCCESS"))
    && (t.resultCode == "NO_DATA" <==> Says(jobLog, "NO_DATA"))
    && (t.resultCode == "FAILED" <==> Says(jobLog, "FAILED"))
    && (t.resultCode == "ASSERT_FAILED" <==> Says(jobLog, "ABORTED"))
    && (t.resultCode == "EXECUTION_TIMEOUT" <==> Says(jobLog, "TIMEOUT"))
    && (t.resultCode == "CANCELLED" <==> Says(jobLog, "CANCELLED"))
    && (t.resultCode == "NO_EXECUTION_RESULT" <==> t.stateStatus.Unknown?)
  }

  lemma OrphanDecided(jobLog: Option<string>)
    ensures OrphanEnds(jobLog, DecideOrphanResult(jobLog)) && IsTerminal(DecideOrphanResult(jobLog))
  {
    if jobLog.Some? {
      UpperReads(jobLog.value, "SUCCESS");
      UpperReads(jobLog.value, "NO_DATA");
      UpperReads(jobLog.value, "FAILED");
      UpperReads(jobLog.value, "ABORTED");
      UpperReads(jobLog.value, "TIMEOUT");
      UpperReads(jobLog.value, "CANCELLED");
    }
  }

  /** An ordinary write is fenced by a heartbeat of its own. */
  method ConfirmOrdinaryWrite(monitor: LeaseMonitor) returns (confirmed: bool)
    modifies monitor
    ensures NeverRegained(old(monitor.state), monitor.state)
    ensures confirmed ==> old(monitor.state).Held? && monitor.state.Held?
    ensures !old(monitor.state).Held? ==> monitor.state == old(monitor.state)
  {
    if !monitor.CanStartNewNode() { return false; }
    var beat: Heartbeat := *;
    var began: int, ended: int := *, *;
    if !(began <= ended && (beat.Renewed? ==> began <= beat.at <= ended)) { return false; }
    confirmed := monitor.Tick(beat, began, ended);
  }

  /** `n` is RUNNING on a RUNNING attempt of another invocation. */
  predicate IsOrphan(s: Store, invocationId: Id, n: Id)
    requires n in s.states
  {
    var v := s.states[n].value;
    v.status.Running? && v.activeAttemptId.Some? &&
    match AttemptById(s, v.activeAttemptId.value)
    case None => false
    case Some(a) => a.value.status.Running? && a.value.invocationId != invocationId
  }

  /** RUNNING on an attempt that does not exist. */
  predicate Dangling(s: Store, n: Id)
    requires n in s.states
  {
    var v := s.states[n].value;
    v.status.Running? && v.activeAttemptId.Some? && AttemptById(s, v.activeAttemptId.value).None?
  }

  function Decisions(s: Store, invocationId: Id, jobLog: Id -> Option<string>): map<Id, Terminal> {
    map n | n in s.states && IsOrphan(s, invocationId, n) ::
      DecideOrphanResult(jobLog(s.states[n].value.activeAttemptId.value))
  }

  /** The states once every decision outside `todo` has been recorded. */
  function Recorded(base: map<Id, Stored<NodeState>>, decisions: map<Id, Terminal>, todo: set<Id>):
      map<Id, Stored<NodeState>> {
    map n | n in base ::
      if n in decisions && n !in todo then NextRecord(base[n], EndedState(base[n].value, decisions[n].stateStatus))
      else base[n]
  }

  /** One orphan: its attempt first, then its state, each behind a fencing heartbeat. */
  method RecordDecision(repo: Repository, monitor: LeaseMonitor, ghost def: Definition, ghost plain: bool,
                        n: Id, state: Stored<NodeState>, attempt: Stored<Attempt>, terminal: Terminal)
    returns (r: Result<(), Failure>)
    requires repo.Contents() in Consistent(def, plain) && NoWindow(repo.Contents())
    requires n in repo.states && repo.states[n] == state && state.value.status.Running? && state.value.nodeId == n
    requires state.value.activeAttemptId == Some(attempt.value.attemptId)
    requires IsTerminal(terminal)
    modifies repo`states, repo`attempts, monitor
    ensures repo.Contents() in Consistent(def, plain) && NoWindow(repo.Contents())
    ensures NeverRegained(old(monitor.state), monitor.state)
    ensures repo.attempts.Keys == old(repo.attempts.Keys)
    ensures r.Ok? ==> repo.states == old(repo.states)[n := NextRecord(state, EndedState(state.value, terminal.stateStatus))]
    ensures r.Ok? ==>
      EndedAs(repo.Contents(), n, state.value.latestAttemptNo, terminal.attemptStatus, terminal.resultCode)
    ensures r.Ok? ==> (old(repo.attempts), repo.attempts) in OneRewritten(AttemptKey(n, state.value.latestAttemptNo))
    ensures r.Err? ==> repo.states == old(repo.states)
  {
    var confirmed := ConfirmOrdinaryWrite(monitor);
    if !confirmed { return Err(LeaseInterrupted); }
    var change := Finalize(terminal.attemptStatus, terminal.resultCode);
    var finalized := PutAttempt(repo, def, plain, n, attempt, change);
    if finalized.Err? { return Err(StoreFailed(finalized.error)); }
    confirmed := ConfirmOrdinaryWrite(monitor);
    if !confirmed { return Err(LeaseInterrupted); }
    EndsSound(def, repo.Contents(), n, state, terminal, plain);
    var value := EndedState(state.value, terminal.stateStatus);
    var written := PutState(repo, def, plain, plain, n, state, value, None);
    if written.Err? { return Err(StoreFailed(written.error)); }
    return Ok(());
  }

  /** Attempts before and after a write of one of them. */
  ghost function OneRewritten(key: AttemptKey): iset<(map<AttemptKey, Stored<Attempt>>, map<AttemptKey, Stored<Attempt>>)> {
    iset w: (map<AttemptKey, Stored<Attempt>>, map<AttemptKey, Stored<Attempt>>) |
      key in w.1 && w.1 == w.0[key := w.1[key]]
  }

  function LatestKey(states: map<Id, Stored<NodeState>>, n: Id): AttemptKey
    requires n in states
  {
    AttemptKey(n, states[n].value.latestAttemptNo)
  }

  /** The attempts once every decision outside `todo` has been recorded: nothing but the decided ones has changed. */
  ghost function RecordedAttempts(states: map<Id, Stored<NodeState>>, attempts: map<AttemptKey, Stored<Attempt>>,
                                  decisions: map<Id, Terminal>, todo: set<Id>): iset<map<AttemptKey, Stored<Attempt>>> {
    iset after: map<AttemptKey, Stored<Attempt>> |
      && after.Keys == attempts.Keys
      && (forall n :: n in decisions && n in states && n !in todo ==>
            DecidedAs(after, LatestKey(states, n), decisions[n]))
      && (forall key :: key in attempts && !IsDecided(states, decisions, todo, key) ==> after[key] == attempts[key])
  }

  predicate IsDecided(states: map<Id, Stored<NodeState>>, decisions: map<Id, Terminal>, todo: set<Id>, key: AttemptKey) {
    key.nodeId in decisions && key.nodeId in states && key.nodeId !in todo && key == LatestKey(states, key.nodeId)
  }

  predicate DecidedAs(attempts: map<AttemptKey, Stored<Attempt>>, key: AttemptKey, t: Terminal) {
    key in attempts && attempts[key].value.status == t.attemptStatus && attempts[key].value.resultCode == t.resultCode
  }

  lemma OneMoreRecorded(states: map<Id, Stored<NodeState>>, attempts: map<AttemptKey, Stored<Attempt>>, decisions: map<Id, Terminal>,
                        todo: set<Id>, n: Id, before: map<AttemptKey, Stored<Attempt>>, after: map<AttemptKey, Stored<Attempt>>)
    requires n in states && n in decisions && n in todo && before in RecordedAttempts(states, attempts, decisions, todo)
    requires (before, after) in OneRewritten(LatestKey(states, n)) && DecidedAs(after, LatestKey(states, n), decisions[n])
    requires after.Keys == before.Keys
    ensures after in RecordedAttempts(states, attempts, decisions, todo - {n})
  {
  }

  lemma RecordedStep(base: map<Id, Stored<NodeState>>, decisions: map<Id, Terminal>, todo: set<Id>, n: Id)
    requires n in todo && n in base && n in decisions
    ensures Recorded(base, decisions, todo)[n] == base[n]
    ensures Recorded(base, decisions, todo)[n := NextRecord(base[n], EndedState(base[n].value, decisions[n].stateStatus))] ==
            Recorded(base, decisions, todo - {n})
  {
  }

  /** Every decision concerns a RUNNING node of the base states. */
  ghost predicate DecidesRunning(def: Definition, base: map<Id, Stored<NodeState>>, decisions: map<Id, Terminal>) {
    forall n {:trigger n in decisions} :: n in decisions ==>
      && n in base && n in IdSet(def) && base[n].value.status.Running? && base[n].value.nodeId == n
      && base[n].value.activeAttemptId.Some? && IsTerminal(decisions[n])
  }

  method RecordDecisions(repo: Repository, monitor: LeaseMonitor, ghost def: Definition, ghost plain: bool,
                         base: map<Id, Stored<NodeState>>, attempts: map<Id, Stored<Attempt>>, decisions: map<Id, Terminal>)
    returns (r: Result<(), Failure>)
    requires repo.Contents() in Consistent(def, plain) && NoWindow(repo.Contents()) && repo.states == base
    requires DecidesRunning(def, base, decisions) && attempts.Keys == decisions.Keys
    requires forall n :: n in decisions ==> base[n].value.activeAttemptId == Some(attempts[n].value.attemptId)
    modifies repo`states, repo`attempts, monitor
    ensures repo.Contents() in Consistent(def, plain) && NoWindow(repo.Contents())
    ensures NeverRegained(old(monitor.state), monitor.state)
    ensures repo.attempts.Keys == old(repo.attempts.Keys)
    ensures DependencySafe(def, base) ==> DependencySafe(def, repo.states)
    ensures r.Ok? ==> repo.states == Recorded(base, decisions, {})
    ensures r.Ok? ==> repo.attempts in RecordedAttempts(base, old(repo.attempts), decisions, {})
    ensures exists todo :: repo.states == Recorded(base, decisions, todo)
  {
    var todo := decisions.Keys;
    assert repo.states == Recorded(base, decisions, todo);
    while todo != {}
      invariant todo <= decisions.Keys && repo.states == Recorded(base, decisions, todo)
      invariant repo.Contents() in Consistent(def, plain) && NoWindow(repo.Contents())
      invariant NeverRegained(old(monitor.state), monitor.state)
      invariant repo.attempts.Keys == old(repo.attempts.Keys)
      invariant repo.attempts in RecordedAttempts(base, old(repo.attempts), decisions, todo)
      invariant DependencySafe(def, base) ==> DependencySafe(def, repo.states)
    {
      var n :| n in todo;
      assert n in decisions;
      RecordedStep(base, decisions, todo, n);
      ghost var before, attemptsBefore := repo.states, repo.attempts;
      var recorded := RecordDecision(repo, monitor, def, plain, n, base[n], attempts[n], decisions[n]);
      if recorded.Err? { return Err(recorded.error); }
      if DependencySafe(def, base) {
        SafeStarted(def, before, n, NextRecord(base[n], EndedState(base[n].value, decisions[n].stateStatus)));
      }
      OneMoreRecorded(base, old(repo.attempts), decisions, todo, n, attemptsBefore, repo.attempts);
      todo := todo - {n};
    }
    return Ok(());
  }

  /** Decides and records every orphan; a job log that cannot be read stops before the first write. */
  method AdjudicateOrphans(repo: Repository, monitor: LeaseMonitor, ghost def: Definition, ghost plain: bool,
                           invocationId: Id, jobLog: Id -> Option<string>)
    returns (r: Result<(), Failure>)
    requires repo.Contents() in Consistent(def, plain) && NoWindow(repo.Contents())
    modifies repo`states, repo`attempts, monitor
    ensures repo.Contents() in Consistent(def, plain) && NoWindow(repo.Contents())
    ensures NeverRegained(old(monitor.state), monitor.state)
    ensures repo.attempts.Keys == old(repo.attempts.Keys)
    ensures old(DependencySafe(def, repo.states)) ==> DependencySafe(def, repo.states)
    ensures repo.states.Keys == old(repo.states.Keys)
    ensures r.Ok? ==> repo.states == Recorded(old(repo.states), Decisions(old(repo.Contents()), invocationId, jobLog), {})
    ensures r.Ok? ==> Adjudged(old(repo.Contents()), repo.states, repo.attempts, invocationId, jobLog)
  {
    var s := Store(repo.run, repo.states, repo.attempts, repo.attemptIds, repo.resolutions, repo.audits);
    if exists n :: n in s.states && Dangling(s, n) { return Err(ControlPlaneFailed); }
    if * { return Err(ControlPlaneFailed); }
    var decisions := Decisions(s, invocationId, jobLog);
    var attempts := map n | n in decisions :: AttemptById(s, s.states[n].value.activeAttemptId.value).value;
    OrphansAreRunning(def, plain, s, invocationId, jobLog);
    r := RecordDecisions(repo, monitor, def, plain, s.states, attempts, decisions);
    if r.Ok? { AllAdjudged(def, plain, s, repo.attempts, invocationId, jobLog); }
  }

  /**
   * Every orphan's attempt and node have ended as the orphan's job log says; no other
   * node and no other attempt has changed.
   */
  ghost predicate Adjudged(s: Store, states: map<Id, Stored<NodeState>>, attempts: map<AttemptKey, Stored<Attempt>>,
                           invocationId: Id, jobLog: Id -> Option<string>) {
    && states.Keys == s.states.Keys && attempts.Keys == s.attempts.Keys
    && (forall n :: n in s.states ==>
          if IsOrphan(s, invocationId, n) then OrphanEnded(s, states, attempts, jobLog, n) else states[n] == s.states[n])
    && (forall key :: key in s.attempts && !OrphanKey(s, invocationId, key) ==> attempts[key] == s.attempts[key])
  }

  /** The attempt an orphan node is on. */
  predicate OrphanKey(s: Store, invocationId: Id, key: AttemptKey) {
    key.nodeId in s.states && IsOrphan(s, invocationId, key.nodeId) && key == LatestKey(s.states, key.nodeId)
  }

  ghost predicate OrphanEnded(s: Store, states: map<Id, Stored<NodeState>>, attempts: map<AttemptKey, Stored<Attempt>>,
                              jobLog: Id -> Option<string>, n: Id)
    requires n in s.states && n in states
  {
    && LatestKey(s.states, n) in attempts
    && var a := attempts[LatestKey(s.states, n)].value;
       s.states[n].value.activeAttemptId.Some? && states[n].value.activeAttemptId.None? &&
       OrphanEnds(jobLog(s.states[n].value.activeAttemptId.value), Terminal(a.status, a.resultCode, states[n].value.status))
  }

  lemma AllAdjudged(def: Definition, plain: bool, s: Store, attempts: map<AttemptKey, Stored<Attempt>>, invocationId: Id,
                    jobLog: Id -> Option<string>)
    requires s in Consistent(def, plain)
    requires attempts in RecordedAttempts(s.states, s.attempts, Decisions(s, invocationId, jobLog), {})
    ensures Adjudged(s, Recorded(s.states, Decisions(s, invocationId, jobLog), {}), attempts, invocationId, jobLog)
  {
    var decisions := Decisions(s, invocationId, jobLog);
    var states := Recorded(s.states, decisions, {});
    forall n | n in s.states && IsOrphan(s, invocationId, n) ensures OrphanEnded(s, states, attempts, jobLog, n) {
      assert n in decisions && DecidedAs(attempts, LatestKey(s.states, n), decisions[n]);
      OneAdjudged(s, states, attempts, jobLog, n);
    }
    forall key | key in s.attempts && !OrphanKey(s, invocationId, key) ensures attempts[key] == s.attempts[key] {
      assert !IsDecided(s.states, decisions, {}, key);
    }
  }

  lemma OneAdjudged(s: Store, states: map<Id, Stored<NodeState>>, attempts: map<AttemptKey, Stored<Attempt>>,
                    jobLog: Id -> Option<string>, n: Id)
    requires n in s.states && n in states && s.states[n].value.activeAttemptId.Some?
    requires var t := DecideOrphanResult(jobLog(s.states[n].value.activeAttemptId.value));
      DecidedAs(attempts, LatestKey(s.states, n), t) &&
      states[n] == NextRecord(s.states[n], EndedState(s.states[n].value, t.stateStatus))
    ensures OrphanEnded(s, states, attempts, jobLog, n)
  {
    OrphanDecided(jobLog(s.states[n].value.activeAttemptId.value));
  }

  lemma OrphansAreRunning(def: Definition, plain: bool, s: Store, invocationId: Id, jobLog: Id -> Option<string>)
    requires s in Consistent(def, plain)
    ensures DecidesRunning(def, s.states, Decisions(s, invocationId, jobLog))
    ensures forall n :: n in Decisions(s, invocationId, jobLog) ==>
      AttemptById(s, s.states[n].value.activeAttemptId.value).Some? &&
      s.states[n].value.activeAttemptId == Some(AttemptById(s, s.states[n].value.activeAttemptId.value).value.value.attemptId)
  {
    forall n | n in s.states && IsOrphan(s, invocationId, n)
      ensures n in IdSet(def) && s.states[n].value.nodeId == n
      ensures s.states[n].value.activeAttemptId == Some(AttemptById(s, s.states[n].value.activeAttemptId.value).value.value.attemptId)
    {
      assert MatchesNode(def, s.states, n) && IndexedState(s, n);
      assert IndexedId(s, s.states[n].value.activeAttemptId.value);
    }
  }

  /** After adjudication by a fresh invocation only nodes whose attempt already ended are still RUNNING. */
  lemma OnlyEndedAttemptsStillRunning(def: Definition, plain: bool, s: Store, invocationId: Id, jobLog: Id -> Option<string>, n: Id)
    requires s in Consistent(def, plain) && n in s.states
    requires forall k :: k in s.attempts ==> s.attempts[k].value.invocationId != invocationId
    requires Recorded(s.states, Decisions(s, invocationId, jobLog), {})[n].value.status.Running?
    ensures s.states[n].value.activeAttemptId.Some?
    ensures AttemptById(s, s.states[n].value.activeAttemptId.value).Some?
    ensures TerminalAttempt(AttemptById(s, s.states[n].value.activeAttemptId.value).value.value.status)
  {
    ActiveIsLatest(def, s, n, plain);
    assert IndexedAttempt(s, AttemptKey(n, s.states[n].value.latestAttemptNo));
  }
}
