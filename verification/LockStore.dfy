/** The record store behind network locks, shared with everybody who uses the same networks. */
module LockStore {
  import opened Domain
  import Lease

  type Token = string

  /** The canonical keys of a held and of a released lock; they are injective. */
  datatype RecordKey = LockOf(lockKey: string) | DoneOf(lockKey: string, token: Token)

  datatype LockStatus = LockRunning | Ended(status: string, reason: string)

  datatype LockRecord = LockRecord(
    key: RecordKey,
    token: Token,
    owner: string,
    status: LockStatus,
    heartbeatAt: int,
    leaseExpiresAt: int,
    revision: nat)

  /** A date-time is stored without its seconds. */
  function Truncated(r: LockRecord): LockRecord {
    r.(heartbeatAt := Lease.StoredTime(r.heartbeatAt), leaseExpiresAt := Lease.StoredTime(r.leaseExpiresAt))
  }

  lemma TruncatedTwice(r: LockRecord)
    ensures Truncated(Truncated(r)) == Truncated(r)
  {
  }

  /** The lease a record was created for; a released record keeps it in its key. */
  function Origin(r: LockRecord): Token {
    if r.key.LockOf? then r.token else r.key.token
  }

  predicate WellFormed(r: LockRecord) {
    && (r.status.LockRunning? <==> r.key.LockOf?) && Origin(r) != ""
    && (r.key.DoneOf? ==> r.token == "") && Truncated(r) == r
  }

  type Records = map<nat, LockRecord>

  /** Record keys and lease tokens are unique. */
  predicate Keyed(records: Records) {
    && (forall i :: i in records ==> WellFormed(records[i]))
    && (forall i, j :: i in records && j in records && records[i].key == records[j].key ==> i == j)
    && (forall i, j :: i in records && j in records && Origin(records[i]) == Origin(records[j]) ==> i == j)
  }

  predicate Holds(records: Records, token: Token) {
    exists i :: i in records && records[i].status.LockRunning? && records[i].token == token
  }

  /** A lease in somebody's hands still has its RUNNING record. */
  predicate Sane(records: Records, live: set<Token>) {
    Keyed(records) && forall t :: t in live ==> Holds(records, t)
  }

  /**
   * A heartbeat that has passed its fence check and has not been written yet. It names its
   * record by key and revision only.
   */
  datatype Pending = Pending(token: Token, lockKey: string, revision: nat, at: int, expiresAt: int)

  /** The store, the leases in somebody's hands, and the heartbeats under way. */
  datatype LockState = LockState(records: Records, live: set<Token>, pending: set<Pending>)

  /** What may become of one record: a released one never changes again, a held one keeps its lease. */
  predicate Follows(r: LockRecord, r': LockRecord) {
    r' == r ||
    (r.status.LockRunning? && r'.revision > r.revision && Origin(r') == Origin(r) && r'.key.lockKey == r.key.lockKey &&
     (r'.status.LockRunning? ==> r'.owner == r.owner))
  }

  /** The heartbeats under way for this key that belong to other leases. */
  function Foreign(pending: set<Pending>, lockKey: string, mine: set<Token>): set<Pending> {
    set p | p in pending && p.lockKey == lockKey && p.token !in mine
  }

  function Own(pending: set<Pending>, mine: set<Token>): set<Pending> {
    set p | p in pending && p.token in mine
  }

  predicate HeldBy(s: LockState, i: nat, mine: set<Token>)
    requires i in s.records
  {
    s.records[i].status.LockRunning? && s.records[i].token in mine && s.records[i].token in s.live
  }

  /** A lease in one's hands only changes through foreign heartbeats: the first at its revision, the last leaves its times. */
  predicate Overtaken(r: LockRecord, r': LockRecord, foreign: set<Pending>) {
    r' == r ||
    (&& (exists p :: p in foreign && p.revision == r.revision)
     && (exists p :: p in foreign && r'.revision == p.revision + 1 && r'.leaseExpiresAt == Lease.StoredTime(p.expiresAt)))
  }

  predicate Guarded(s: LockState, t: LockState, i: nat, mine: set<Token>)
    requires i in s.records && i in t.records
  {
    var foreign := Foreign(s.pending, s.records[i].key.lockKey, mine);
    Foreign(t.pending, s.records[i].key.lockKey, mine) <= foreign && Overtaken(s.records[i], t.records[i], foreign)
  }

  /**
   * What others may do while somebody uses the leases in `mine`: heartbeats, releases,
   * force-unlocks of leases nobody holds any more, and acquisitions of their own.
   */
  predicate Evolves(s: LockState, t: LockState, mine: set<Token>) {
    && Sane(t.records, t.live) && t.live * mine == s.live * mine && Own(t.pending, mine) == Own(s.pending, mine)
    && (forall i :: i in s.records ==> i in t.records && Follows(s.records[i], t.records[i]))
    && (forall i :: i in t.records && i !in s.records ==> Origin(t.records[i]) !in mine)
    && (forall i {:trigger HeldBy(s, i, mine)} :: i in s.records && HeldBy(s, i, mine) ==> Guarded(s, t, i, mine))
  }

  ghost function SaneStates(): iset<LockState> {
    iset s: LockState | Sane(s.records, s.live)
  }

  /** Where others may have taken the store while somebody uses the leases in `mine`. */
  ghost function After(s: LockState, mine: set<Token>): iset<LockState> {
    iset t: LockState | Evolves(s, t, mine)
  }

  /** The one record of a lease in somebody's hands is RUNNING. */
  lemma LiveRuns(s: LockState, i: nat)
    requires Sane(s.records, s.live) && i in s.records && Origin(s.records[i]) in s.live
    ensures s.records[i].status.LockRunning? && s.records[i].token == Origin(s.records[i])
  {
    var j :| j in s.records && s.records[j].status.LockRunning? && s.records[j].token == Origin(s.records[i]);
    assert WellFormed(s.records[j]);
  }

  lemma StillHeld(s: LockState, t: LockState, mine: set<Token>, i: nat)
    requires Sane(s.records, s.live) && Evolves(s, t, mine) && i in s.records && HeldBy(s, i, mine)
    ensures i in t.records && HeldBy(t, i, mine) && t.records[i].key == s.records[i].key
  {
    assert WellFormed(s.records[i]) && Follows(s.records[i], t.records[i]);
    var token := s.records[i].token;
    assert token in s.live * mine && token in t.live * mine;
    LiveRuns(t, i);
    assert WellFormed(t.records[i]);
  }

  /** What others may do in two turns they may do in one. */
  lemma EvolvesChain(a: LockState, b: LockState, c: LockState, mine: set<Token>)
    requires Sane(a.records, a.live) && Evolves(a, b, mine) && Evolves(b, c, mine)
    ensures Evolves(a, c, mine)
  {
    forall i | i in a.records ensures i in c.records && Follows(a.records[i], c.records[i]) {
      assert Follows(a.records[i], b.records[i]) && Follows(b.records[i], c.records[i]);
    }
    forall i | i in a.records && HeldBy(a, i, mine) ensures Guarded(a, c, i, mine) {
      StillHeld(a, b, mine, i);
      assert Guarded(a, b, i, mine) && Guarded(b, c, i, mine);
    }
  }

  /** At most one RUNNING record exists per lock key. */
  lemma AtMostOneRunning(records: Records, i: nat, j: nat)
    requires Keyed(records) && i in records && j in records
    requires records[i].status.LockRunning? && records[j].status.LockRunning?
    requires records[i].key.lockKey == records[j].key.lockKey
    ensures i == j
  {
    assert WellFormed(records[i]) && WellFormed(records[j]);
  }

  /** At most one lease in somebody's hands per lock key. */
  lemma AtMostOneHolder(records: Records, live: set<Token>, lockKey: string, t: Token, u: Token)
    requires Sane(records, live) && t in live && u in live
    requires exists i :: i in records && Origin(records[i]) == t && records[i].key.lockKey == lockKey
    requires exists i :: i in records && Origin(records[i]) == u && records[i].key.lockKey == lockKey
    ensures t == u
  {
    var i :| i in records && records[i].status.LockRunning? && records[i].token == t;
    var j :| j in records && records[j].status.LockRunning? && records[j].token == u;
    assert WellFormed(records[i]) && WellFormed(records[j]);
    AtMostOneRunning(records, i, j);
  }

  datatype RequestError = Transport | Conflict | Duplicate | Refused

  /** What a caller itself did: to which lease's record, or with which heartbeat. */
  datatype Effect =
    | Nothing
    | Created(id: nat, token: Token)
    | FencePassed(beat: Pending)
    | Renewed(id: nat, token: Token, beat: Pending)
    | Dropped(beat: Pending)
    | Tombstoned(id: nat, token: Token)

  function RenewedBy(r: LockRecord, p: Pending): LockRecord {
    Truncated(r.(heartbeatAt := p.at, leaseExpiresAt := p.expiresAt, revision := p.revision + 1))
  }

  /** A renewal moves the times, to the minute, and the revision; lease, owner and key stay. */
  lemma RenewalTells(r: LockRecord, p: Pending)
    ensures var after := RenewedBy(r, p);
      && after.heartbeatAt == Lease.StoredTime(p.at) && after.leaseExpiresAt == Lease.StoredTime(p.expiresAt)
      && after.revision == p.revision + 1 && after.key == r.key && after.token == r.token && after.owner == r.owner
      && after.status == r.status
  {
  }

  /** The write of this heartbeat would land on this record. */
  predicate LandsOn(r: LockRecord, p: Pending) {
    r.key == LockOf(p.lockKey) && r.revision == p.revision
  }

  /** One step of the caller that took effect. */
  predicate OwnStep(s: LockState, t: LockState, effect: Effect) {
    match effect
    case Nothing => t == s
    case Created(id, token) =>
      && id !in s.records && id in t.records && t == s.(records := s.records[id := t.records[id]])
      && WellFormed(t.records[id])
      && t.records[id].status.LockRunning? && t.records[id].token == token && t.records[id].revision == 1
      && (forall i :: i in s.records ==> s.records[i].key != t.records[id].key && Origin(s.records[i]) != token)
    case FencePassed(p) =>
      && t == s.(pending := s.pending + {p})
      && exists i :: i in s.records && LandsOn(s.records[i], p) && s.records[i].token == p.token
    case Renewed(id, token, p) =>
      && id in s.records && p in s.pending && LandsOn(s.records[id], p) && s.records[id].token == token
      && t == s.(records := s.records[id := RenewedBy(s.records[id], p)], pending := s.pending - {p})
    case Dropped(p) => t == s.(pending := s.pending - {p})
    case Tombstoned(id, token) =>
      && id in s.records && id in t.records && t == s.(records := s.records[id := t.records[id]])
      && s.records[id].status.LockRunning? && s.records[id].token == token && t.records[id].revision == s.records[id].revision + 1
      && t.records[id].key == DoneOf(s.records[id].key.lockKey, token) && t.records[id].token == "" && t.records[id].status.Ended?
      && WellFormed(t.records[id])
  }

  /** What a step leaves. */
  ghost function Stepped(s: LockState, effect: Effect): iset<LockState> {
    iset t: LockState | OwnStep(s, t, effect)
  }

  /** Somebody who holds the leases in `theirs` is prepared for this. */
  predicate Allowed(effect: Effect, live: set<Token>, theirs: set<Token>) {
    match effect
    case Nothing => true
    case Created(_, t) => t !in theirs
    case FencePassed(p) => p.token !in theirs
    case Renewed(_, _, p) => p.token !in theirs
    case Dropped(p) => p.token !in theirs
    case Tombstoned(_, t) => t !in live
  }

  lemma StepKeyed(s: LockState, t: LockState, effect: Effect)
    requires Keyed(s.records) && OwnStep(s, t, effect)
    ensures Keyed(t.records)
  {
    forall i | i in t.records ensures WellFormed(t.records[i]) {
      assert i in s.records ==> WellFormed(s.records[i]);
      if effect.Renewed? && i == effect.id { RenewedWell(s.records[i], effect.beat); }
    }
  }

  lemma RenewedWell(r: LockRecord, p: Pending)
    requires WellFormed(r)
    ensures WellFormed(RenewedBy(r, p))
  {
    TruncatedTwice(r.(heartbeatAt := p.at, leaseExpiresAt := p.expiresAt, revision := p.revision + 1));
  }

  lemma StepKeepsHolders(s: LockState, t: LockState, effect: Effect)
    requires Sane(s.records, s.live) && OwnStep(s, t, effect) && (effect.Tombstoned? ==> effect.token !in s.live)
    ensures Sane(t.records, t.live)
  {
    StepKeyed(s, t, effect);
    forall u | u in t.live ensures Holds(t.records, u) {
      var i :| i in s.records && s.records[i].status.LockRunning? && s.records[i].token == u;
      assert WellFormed(s.records[i]);
      assert t.records[i].status.LockRunning? && t.records[i].token == u;
    }
  }

  lemma StepFollows(s: LockState, t: LockState, effect: Effect, i: nat)
    requires Keyed(s.records) && OwnStep(s, t, effect) && i in s.records
    ensures i in t.records && Follows(s.records[i], t.records[i])
  {
    assert WellFormed(s.records[i]);
  }

  lemma StepGuards(s: LockState, t: LockState, effect: Effect, theirs: set<Token>, i: nat)
    requires Sane(s.records, s.live) && OwnStep(s, t, effect) && Allowed(effect, s.live, theirs)
    requires i in s.records && i in t.records && HeldBy(s, i, theirs)
    ensures Guarded(s, t, i, theirs)
  {
    assert WellFormed(s.records[i]);
    var key := s.records[i].key.lockKey;
    match effect {
      case Renewed(_, _, p) =>
        assert LandsOn(s.records[i], p) ==> p in Foreign(s.pending, key, theirs);
      case FencePassed(p) =>
        assert p.lockKey != key;
      case _ =>
    }
  }

  /** Every step of a caller is among the things everybody else is prepared for. */
  lemma OwnStepsAreExpected(s: LockState, t: LockState, effect: Effect, theirs: set<Token>)
    requires Sane(s.records, s.live) && OwnStep(s, t, effect) && Allowed(effect, s.live, theirs)
    ensures Evolves(s, t, theirs)
  {
    StepKeepsHolders(s, t, effect);
    forall i | i in s.records ensures i in t.records && Follows(s.records[i], t.records[i]) { StepFollows(s, t, effect, i); }
    forall i | i in s.records && HeldBy(s, i, theirs) ensures Guarded(s, t, i, theirs) {
      StepFollows(s, t, effect, i);
      StepGuards(s, t, effect, theirs, i);
    }
  }

  /** Whoever holds other leases is prepared for this step. */
  ghost predicate Expected(s: LockState, t: LockState, effect: Effect) {
    forall theirs {:trigger Evolves(s, t, theirs)} :: Allowed(effect, s.live, theirs) ==> Evolves(s, t, theirs)
  }

  lemma StepIsExpected(s: LockState, t: LockState, effect: Effect)
    requires Sane(s.records, s.live) && OwnStep(s, t, effect) && (effect.Tombstoned? ==> effect.token !in s.live)
    ensures Sane(t.records, t.live) && Expected(s, t, effect)
  {
    StepKeepsHolders(s, t, effect);
    forall theirs | Allowed(effect, s.live, theirs) ensures Evolves(s, t, theirs) {
      OwnStepsAreExpected(s, t, effect, theirs);
    }
  }

  /** So are taking a lease whose record is RUNNING, and letting go of one. */
  lemma HandsAreExpected(s: LockState, t: LockState, token: Token, theirs: set<Token>)
    requires Sane(s.records, s.live) && token !in theirs && t == s.(live := t.live)
    requires (t.live == s.live + {token} && Holds(s.records, token)) || t.live == s.live - {token}
    ensures Evolves(s, t, theirs)
  {
    assert t.live * theirs == s.live * theirs;
  }

  class LockApp {
    var records: Records
    /** The leases in somebody's hands; no request reads it. */
    var live: set<Token>
    /** The heartbeats under way; no request reads it. */
    var pending: set<Pending>

    function State(): LockState
      reads this
    {
      LockState(records, live, pending)
    }

    ghost predicate Valid()
      reads this
    {
      State() in SaneStates()
    }

    /** Anything others may do between two requests of the caller. */
    method OthersAct(mine: set<Token>)
      requires Valid()
      modifies this
      ensures State() in After(old(State()), mine) && Valid()
    {
      var t: LockState := *;
      if Evolves(State(), t, mine) { records, live, pending := t.records, t.live, t.pending; }
    }

    /** Any request may fail in transport, whether or not it landed. */
    method Get(key: RecordKey, mine: set<Token>) returns (r: Result<(nat, LockRecord), RequestError>)
      requires Valid()
      modifies this
      ensures State() in After(old(State()), mine) && Valid()
      ensures r.Ok? ==> r.value.0 in records && records[r.value.0] == r.value.1 && r.value.1.key == key
    {
      OthersAct(mine);
      if * { return Err(Transport); }
      if id :| id in records && records[id].key == key { return Ok((id, records[id])); }
      return Err(Refused);
    }

    /** Inserts a RUNNING record unless its key is taken. */
    method Post(record: LockRecord, mine: set<Token>)
      returns (r: Result<nat, RequestError>, ghost before: LockState, ghost effect: Effect)
      requires Valid() && record.key.LockOf? && record.status.LockRunning? && record.token != "" && record.revision == 1
      requires record.token in mine && record.token !in live
      requires forall i :: i in records ==> Origin(records[i]) != record.token
      modifies this
      ensures before in After(old(State()), mine) && before in SaneStates() && live == before.live
      ensures State() in Stepped(before, effect) && Valid() && Expected(before, State(), effect)
      ensures effect.Nothing? || (effect.Created? && effect.token == record.token && records[effect.id] == Truncated(record))
      ensures r.Ok? ==> effect == Created(r.value, record.token)
    {
      OthersAct(mine);
      before, effect := State(), Nothing;
      StepIsExpected(before, State(), effect);
      if * { return Err(Transport), before, effect; }
      if * { return Err(Refused), before, effect; }
      if exists i :: i in records && records[i].key == record.key { return Err(Duplicate), before, effect; }
      var id: nat := *;
      if id in records { return Err(Transport), before, effect; }
      records := records[id := Truncated(record)];
      effect := Created(id, record.token);
      StepIsExpected(before, State(), effect);
      if * { return Err(Transport), before, effect; }
      return Ok(id), before, effect;
    }

    /** The fence check has just passed: from now on the heartbeat may be written. */
    method PassFence(p: Pending)
      requires Valid()
      requires exists i :: i in records && LandsOn(records[i], p) && records[i].token == p.token
      modifies this`pending
      ensures State() in Stepped(old(State()), FencePassed(p)) && Valid() && Expected(old(State()), State(), FencePassed(p))
    {
      pending := pending + {p};
      StepIsExpected(old(State()), State(), FencePassed(p));
    }

    /** Extends the lease of whatever record has this key, if it still has the expected revision. */
    method PutRenewal(p: Pending, mine: set<Token>)
      returns (r: Result<nat, RequestError>, ghost before: LockState, ghost effect: Effect)
      requires Valid() && p in pending && p.token in mine
      modifies this
      ensures before in After(old(State()), mine) && before in SaneStates() && live == before.live
      ensures State() in Stepped(before, effect) && Valid() && Expected(before, State(), effect)
      ensures effect == Dropped(p) || (effect.Renewed? && effect.beat == p)
      ensures r.Ok? ==> effect.Renewed? && r.value == p.revision + 1
      ensures r.Err? && r.error.Conflict? ==> effect.Dropped?
    {
      OthersAct(mine);
      before, effect := State(), Dropped(p);
      assert p in Own(pending, mine);
      pending := pending - {p};
      StepIsExpected(before, State(), effect);
      if * { return Err(Transport), before, effect; }
      if * { return Err(Refused), before, effect; }
      if id :| id in records && records[id].key == LockOf(p.lockKey) {
        if records[id].revision != p.revision { return Err(Conflict), before, effect; }
        effect := Renewed(id, records[id].token, p);
        records := records[id := RenewedBy(records[id], p)];
        StepIsExpected(before, State(), effect);
        if * { return Err(Transport), before, effect; }
        return Ok(p.revision + 1), before, effect;
      }
      return Err(Refused), before, effect;
    }

    /** Turns the record with this id into a tombstone, if it still has the expected revision. */
    method PutTombstone(id: nat, expectedRevision: nat, token: Token, lockKey: string, status: LockStatus, mine: set<Token>)
      returns (r: Result<nat, RequestError>, ghost before: LockState, ghost effect: Effect)
      requires Valid() && status.Ended? && token in mine && token !in live
      requires Owned(records, id, token, lockKey) && ReadRunning(records, id, expectedRevision)
      modifies this
      ensures before in After(old(State()), mine) && before in SaneStates() && live == before.live
      ensures State() in Stepped(before, effect) && Valid() && Expected(before, State(), effect)
      ensures effect.Nothing? || (effect == Tombstoned(id, token) && records[id].status == status)
      ensures r.Err? && r.error.Conflict? ==> effect.Nothing?
      ensures r.Ok? ==> effect.Tombstoned? && r.value == expectedRevision + 1
    {
      OthersAct(mine);
      before, effect := State(), Nothing;
      StepIsExpected(before, State(), effect);
      if * { return Err(Transport), before, effect; }
      if * { return Err(Refused), before, effect; }
      if records[id].revision != expectedRevision { return Err(Conflict), before, effect; }
      assert WellFormed(records[id]);
      assert token in live <==> token in live * mine;
      var done := records[id].(key := DoneOf(lockKey, token), token := "", owner := "", status := status,
                               revision := expectedRevision + 1);
      records := records[id := done];
      effect := Tombstoned(id, token);
      StepIsExpected(before, State(), effect);
      if * { return Err(Transport), before, effect; }
      return Ok(expectedRevision + 1), before, effect;
    }
  }

  /** Record `id` is the one that was created for this lease. */
  predicate Owned(records: Records, id: nat, token: Token, lockKey: string) {
    id in records && Origin(records[id]) == token && records[id].key.lockKey == lockKey
  }

  /** Record `id` was RUNNING when somebody read this revision. */
  predicate ReadRunning(records: Records, id: nat, revision: nat) {
    id in records && records[id].revision >= revision && (records[id].revision == revision ==> records[id].status.LockRunning?)
  }

  predicate IsTombstone(records: Records, id: nat, token: Token, lockKey: string) {
    id in records && records[id].key == DoneOf(lockKey, token) && records[id].status.Ended?
  }

  /** The tombstone carries this status. */
  predicate SaysEnded(records: Records, id: nat, status: string) {
    id in records && records[id].status.Ended? && records[id].status.status == status
  }

  /** What one knows about a record of one's own stays true, whatever others do. */
  lemma KnowledgeIsStable(s: LockState, t: LockState, mine: set<Token>, id: nat, token: Token, lockKey: string, revision: nat)
    requires t in After(s, mine)
    ensures Owned(s.records, id, token, lockKey) ==> Owned(t.records, id, token, lockKey)
    ensures ReadRunning(s.records, id, revision) ==> ReadRunning(t.records, id, revision)
    ensures IsTombstone(s.records, id, token, lockKey) ==> IsTombstone(t.records, id, token, lockKey)
    ensures token in mine ==> (token in s.live <==> token in t.live)
  {
    if id in s.records { assert Follows(s.records[id], t.records[id]); }
    assert token in mine ==> (token in s.live <==> token in s.live * mine) && (token in t.live <==> token in t.live * mine);
  }

  /** One's own steps keep what one knows, too. */
  lemma OwnKnowledge(s: LockState, t: LockState, effect: Effect, id: nat, token: Token, lockKey: string)
    requires Keyed(s.records) && t in Stepped(s, effect) && Owned(s.records, id, token, lockKey)
    ensures Owned(t.records, id, token, lockKey)
    ensures effect.Tombstoned? && effect.id == id ==> IsTombstone(t.records, id, token, lockKey)
  {
    assert WellFormed(s.records[id]);
    StepKeyed(s, t, effect);
    assert WellFormed(t.records[id]);
  }
}
