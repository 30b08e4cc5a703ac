/** The network lock of an invocation: acquire, heartbeat and release. */
module NetworkLock {
  import opened Domain
  import opened LockStore
  import Lease

  datatype LockError =
    | LockConflict
    | LockUnavailable
    | LeaseTokenMismatch
    | LeaseRevisionMismatch
    | LeaseRevisionConflict

  class Reference {
    const lockKey: string
    const recordId: nat
    const token: Token
    const owner: string
    var revision: nat
    var heartbeatAt: int
    var leaseExpiresAt: int

    constructor (lockKey: string, recordId: nat, token: Token, owner: string, revision: nat, heartbeatAt: int, leaseExpiresAt: int)
      ensures this.lockKey == lockKey && this.recordId == recordId && this.token == token && this.owner == owner
      ensures this.revision == revision && this.heartbeatAt == heartbeatAt && this.leaseExpiresAt == leaseExpiresAt
    {
      this.lockKey, this.recordId, this.token, this.owner := lockKey, recordId, token, owner;
      this.revision, this.heartbeatAt, this.leaseExpiresAt := revision, heartbeatAt, leaseExpiresAt;
    }
  }

  /** Exactly one record has this key, so a read returns it or fails. */
  method GetUnique(app: LockApp, key: RecordKey, mine: set<Token>) returns (r: Result<(nat, LockRecord), LockError>)
    requires app.Valid()
    modifies app
    ensures app.State() in After(old(app.State()), mine) && app.Valid()
    ensures r.Ok? ==> r.value.0 in app.records && app.records[r.value.0] == r.value.1 && r.value.1.key == key
    ensures r.Err? ==> r.error.LockUnavailable?
  {
    var got := app.Get(key, mine);
    if got.Err? { return Err(LockUnavailable); }
    return Ok(got.value);
  }

  /** A lease as its manager knows it: its own record, last read at this revision while RUNNING. */
  ghost predicate Known(app: LockApp, ref: Reference)
    reads app, ref
  {
    Owned(app.records, ref.recordId, ref.token, ref.lockKey) && ReadRunning(app.records, ref.recordId, ref.revision)
  }

  /** Everybody else is prepared for what a step did to the hands. */
  ghost predicate HandsExpected(s: LockState, t: LockState, token: Token) {
    forall theirs {:trigger Evolves(s, t, theirs)} :: token !in theirs ==> Evolves(s, t, theirs)
  }

  /** Puts the lease whose RUNNING record was just seen into the caller's hands. */
  method Take(app: LockApp, lockKey: string, id: nat, token: Token, owner: string, record: LockRecord, expiry: int)
    returns (ref: Reference)
    requires app.Valid() && id in app.records && app.records[id] == Truncated(record)
    requires record.status.LockRunning? && record.token == token && record.key == LockOf(lockKey) && record.owner == owner
    requires record.leaseExpiresAt == expiry
    modifies app`live
    ensures app.Valid() && app.live == old(app.live) + {token} && fresh(ref) && Known(app, ref)
    ensures HandsExpected(old(app.State()), app.State(), token)
    ensures ref.token == token && ref.lockKey == lockKey && ref.owner == owner && ref.recordId == id
    ensures ref.leaseExpiresAt == expiry && ref.revision == record.revision
  {
    ghost var s := app.State();
    assert Holds(app.records, token) by { assert app.records[id].token == token; }
    ref := new Reference(lockKey, id, token, owner, record.revision, record.heartbeatAt, record.leaseExpiresAt);
    app.live := app.live + {token};
    forall theirs | token !in theirs ensures Evolves(s, app.State(), theirs) {
      HandsAreExpected(s, app.State(), token, theirs);
    }
  }

  lemma FreshStays(s: LockState, t: LockState, token: Token)
    requires t in After(s, {token}) && token !in s.live
    ensures token !in t.live
  {
    assert token in t.live <==> token in t.live * {token};
  }

  /** What the caller knows of its own insert, whether or not it landed. */
  ghost predicate Inserted(records: Records, token: Token, posted: LockRecord, created: Option<nat>) {
    forall i :: i in records && Origin(records[i]) == token ==>
      created == Some(i) && (records[i].revision == 1 ==> records[i] == Truncated(posted))
  }

  lemma InsertedStays(s: LockState, t: LockState, token: Token, posted: LockRecord, created: Option<nat>)
    requires t in After(s, {token}) && Inserted(s.records, token, posted, created)
    requires created.Some? ==> created.value in s.records && s.records[created.value].revision >= 1
    ensures Inserted(t.records, token, posted, created)
    ensures created.Some? ==> created.value in t.records && t.records[created.value].revision >= 1
  {
    forall i | i in t.records && Origin(t.records[i]) == token
      ensures created == Some(i) && (t.records[i].revision == 1 ==> t.records[i] == Truncated(posted))
    {
      assert i in s.records && Follows(s.records[i], t.records[i]);
    }
    if created.Some? { assert Follows(s.records[created.value], t.records[created.value]); }
  }

  /** The lease is stored as the reference says, to the minute; unless it was overtaken already, as it was asked for. */
  ghost predicate Acquired(app: LockApp, ref: Reference, token: Token, lockKey: string, owner: string, expiresAt: int)
    reads app, ref
  {
    && ref.token == token && ref.lockKey == lockKey && ref.owner == owner && token in app.live && Known(app, ref)
    && app.records[ref.recordId].owner == owner
    && app.records[ref.recordId].leaseExpiresAt == Lease.StoredTime(ref.leaseExpiresAt)
    && (ref.revision == 1 ==> ref.leaseExpiresAt <= expiresAt)
    && (ref.revision == 1 ==> Lease.StoredTime(ref.leaseExpiresAt) == Lease.StoredTime(expiresAt))
  }

  /** Acquires the lock with a fresh lease token, or reports who stands in the way. */
  method Acquire(app: LockApp, lockKey: string, owner: string, token: Token, at: int, expiresAt: int)
    returns (r: Result<Reference, LockError>)
    requires app.Valid() && token != "" && token !in app.live
    requires forall i :: i in app.records ==> Origin(app.records[i]) != token
    modifies app
    ensures app.Valid()
    ensures r.Ok? ==> fresh(r.value) && Acquired(app, r.value, token, lockKey, owner, expiresAt)
    ensures r.Err? ==> token !in app.live
  {
    var record := LockRecord(LockOf(lockKey), token, owner, LockRunning, at, expiresAt, 1);
    ghost var s := app.State();
    var posted, before, effect := app.Post(record, {token});
    FreshStays(s, before, token);
    if posted.Ok? {
      var taken := Take(app, lockKey, posted.value, token, owner, record, expiresAt);
      return Ok(taken);
    }
    if posted.error.Refused? { return Err(LockUnavailable); }
    InsertKnown(s, before, app.State(), effect, record);
    r := Adjudicate(app, lockKey, owner, token, record, if effect.Created? then Some(effect.id) else None);
  }

  lemma InsertKnown(s: LockState, before: LockState, t: LockState, effect: Effect, posted: LockRecord)
    requires forall i :: i in s.records ==> Origin(s.records[i]) != posted.token
    requires before in After(s, {posted.token}) && t in Stepped(before, effect)
    requires effect.Nothing? || (effect.Created? && effect.token == posted.token)
    requires effect.Created? ==> effect.id in t.records && t.records[effect.id] == Truncated(posted)
    ensures Inserted(t.records, posted.token, posted, if effect.Created? then Some(effect.id) else None)
  {
    forall i | i in before.records ensures Origin(before.records[i]) != posted.token {
      assert i in s.records ==> Follows(s.records[i], before.records[i]);
    }
  }

  /** The insert may have failed because somebody - perhaps this very request - already holds the lock. */
  method Adjudicate(app: LockApp, lockKey: string, owner: string, token: Token,
                    ghost posted: LockRecord, ghost created: Option<nat>)
    returns (r: Result<Reference, LockError>)
    requires app.Valid() && token !in app.live && Inserted(app.records, token, posted, created)
    requires created.Some? ==> created.value in app.records && app.records[created.value].revision >= 1
    modifies app
    ensures app.Valid()
    ensures r.Ok? ==> fresh(r.value) && Acquired(app, r.value, token, lockKey, owner, posted.leaseExpiresAt)
    ensures r.Err? ==> token !in app.live
  {
    ghost var s := app.State();
    var current := GetUnique(app, LockOf(lockKey), {token});
    FreshStays(s, app.State(), token);
    if current.Err? { return Err(current.error); }
    InsertedStays(s, app.State(), token, posted, created);
    var c := current.value.1;
    assert WellFormed(app.records[current.value.0]);
    Lease.StoredTimeGrows(posted.leaseExpiresAt, posted.leaseExpiresAt);
    if c.status.LockRunning? && c.token == token && c.owner == owner {
      var taken := Take(app, lockKey, current.value.0, token, owner, c, c.leaseExpiresAt);
      return Ok(taken);
    }
    return Err(if c.status.LockRunning? then LockConflict else LockUnavailable);
  }

  /** Whatever is stored under the key right now has to be this very lease at this very revision. */
  function FenceError(current: LockRecord, token: Token, revision: nat): Option<LockError> {
    if current.token != token then Some(LeaseTokenMismatch)
    else if current.revision != revision then Some(LeaseRevisionMismatch)
    else None
  }

  /** The record of a lease in somebody's hands is the one under its lock key. */
  lemma HeldRecord(s: LockState, id: nat, token: Token, lockKey: string)
    requires s in SaneStates() && token in s.live && Owned(s.records, id, token, lockKey)
    ensures s.records[id].key == LockOf(lockKey) && s.records[id].status.LockRunning? && s.records[id].token == token
    ensures forall i :: i in s.records && s.records[i].key == LockOf(lockKey) ==> i == id
  {
    LiveRuns(s, id);
    assert WellFormed(s.records[id]);
  }

  // ---- Heartbeats ---------------------------------------------------------

  /**
   * The lease is in somebody's hands and no heartbeat of another lease is under way that
   * could land on its record, now or after further heartbeats of its own.
   */
  ghost predicate Shielded(s: LockState, id: nat, token: Token, lockKey: string) {
    && s in SaneStates() && token in s.live && Owned(s.records, id, token, lockKey)
    && forall p :: p in s.pending && p.lockKey == lockKey && p.token != token ==> p.revision < s.records[id].revision
  }

  /** A shielded lease that is stored until `floor` at least. */
  ghost function Sheltering(id: nat, token: Token, lockKey: string, owner: string, floor: int): iset<LockState> {
    iset s: LockState | Shielded(s, id, token, lockKey) && s.records[id].leaseExpiresAt >= floor && s.records[id].owner == owner
  }

  /** Nobody else changes the record of a shielded lease. */
  lemma ShieldedStays(s: LockState, t: LockState, id: nat, token: Token, lockKey: string)
    requires t in After(s, {token}) && t in SaneStates() && Shielded(s, id, token, lockKey)
    ensures t.records[id] == s.records[id] && Shielded(t, id, token, lockKey)
  {
    HeldRecord(s, id, token, lockKey);
    assert HeldBy(s, id, {token}) && Guarded(s, t, id, {token});
    KnowledgeIsStable(s, t, {token}, id, token, lockKey, 0);
    forall p | p in t.pending && p.lockKey == lockKey && p.token != token ensures p.revision < t.records[id].revision {
      assert p in Foreign(t.pending, lockKey, {token});
    }
  }

  lemma ShelterStays(s: LockState, t: LockState, id: nat, token: Token, lockKey: string, owner: string, floor: int)
    requires t in After(s, {token}) && t in SaneStates()
    ensures s in Sheltering(id, token, lockKey, owner, floor) ==> t in Sheltering(id, token, lockKey, owner, floor)
  {
    if Shielded(s, id, token, lockKey) { ShieldedStays(s, t, id, token, lockKey); }
  }

  /** A heartbeat of its own keeps a lease sheltered. */
  lemma BeatShelters(s: LockState, t: LockState, effect: Effect, p: Pending, id: nat, owner: string, floor: int)
    requires s in Sheltering(id, p.token, p.lockKey, owner, floor) && t in Stepped(s, effect)
    requires effect == FencePassed(p) || effect == Dropped(p) || (effect.Renewed? && effect.beat == p)
    requires floor <= Lease.StoredTime(p.expiresAt)
    ensures t in Sheltering(id, p.token, p.lockKey, owner, floor)
    ensures effect.Renewed? ==> t in Sheltering(id, p.token, p.lockKey, owner, Lease.StoredTime(p.expiresAt))
  {
    HeldRecord(s, id, p.token, p.lockKey);
    StepKeepsHolders(s, t, effect);
  }

  /** What a heartbeat promises however it ends; `held` says that the lease was in somebody's hands. */
  ghost predicate Beaten(app: LockApp, ref: Reference, held: bool, effect: Effect)
    reads app
  {
    && app.Valid() && (held <==> ref.token in app.live)
    && Owned(app.records, ref.recordId, ref.token, ref.lockKey)
    && (effect.Nothing? || effect.Dropped? || effect.Renewed?)
    && (effect.Renewed? && ref.token in app.live ==> effect.id == ref.recordId && effect.token == ref.token)
  }

  /** The states that shelter the lease of this reference until `floor` at least. */
  ghost function Shelter(ref: Reference, floor: int): iset<LockState> {
    Sheltering(ref.recordId, ref.token, ref.lockKey, ref.owner, floor)
  }

  /**
   * Renews the lease. While it is in somebody's hands, the write lands on its own record
   * or nowhere, although it names the record by its key only. While it is shielded, the
   * record never expires before `floor`, and a success extends it.
   */
  method Heartbeat(app: LockApp, ref: Reference, at: int, expiresAt: int, ghost floor: int)
    returns (r: Result<(), LockError>, ghost effect: Effect)
    requires app.Valid() && Owned(app.records, ref.recordId, ref.token, ref.lockKey)
    requires floor <= Lease.StoredTime(expiresAt)
    modifies app, ref
    ensures Beaten(app, ref, old(ref.token in app.live), effect)
    ensures r.Ok? ==> ref.revision == old(ref.revision) + 1 && ref.heartbeatAt == at && ref.leaseExpiresAt == expiresAt
    ensures r.Ok? && ref.token in app.live ==> Known(app, ref)
    ensures r.Err? ==> ref.revision == old(ref.revision) && ref.leaseExpiresAt == old(ref.leaseExpiresAt)
    ensures r.Err? && IsFenceError(r.error) ==> !effect.Renewed?
    ensures old(app.State()) in Shelter(ref, floor) ==> app.State() in Shelter(ref, floor)
    ensures old(app.State()) in Shelter(ref, floor) && r.Ok? ==> app.State() in Shelter(ref, Lease.StoredTime(expiresAt))
  {
    effect := Nothing;
    var beat := Pending(ref.token, ref.lockKey, ref.revision, at, expiresAt);
    var passed := PassOwnFence(app, ref, beat, floor);
    if passed.Err? { return Err(passed.error), effect; }
    var renewed;
    renewed, effect := Renew(app, ref, beat, floor);
    if renewed.Err? { return Err(renewed.error), effect; }
    ref.revision, ref.heartbeatAt, ref.leaseExpiresAt := ref.revision + 1, at, expiresAt;
    return Ok(()), effect;
  }

  /** The lease is not, or not only, the caller's any more. */
  predicate IsFenceError(e: LockError) {
    e.LeaseTokenMismatch? || e.LeaseRevisionMismatch? || e.LeaseRevisionConflict?
  }

  /** The read before a heartbeat: the record under the key has to be this lease at this revision. */
  method PassOwnFence(app: LockApp, ref: Reference, beat: Pending, ghost floor: int) returns (r: Result<(), LockError>)
    requires app.Valid() && Owned(app.records, ref.recordId, ref.token, ref.lockKey)
    requires beat.token == ref.token && beat.lockKey == ref.lockKey && beat.revision == ref.revision
    requires floor <= Lease.StoredTime(beat.expiresAt)
    modifies app
    ensures Beaten(app, ref, old(ref.token in app.live), Nothing)
    ensures r.Ok? ==> beat in app.pending
    ensures old(app.State()) in Shelter(ref, floor) ==> app.State() in Shelter(ref, floor)
  {
    ghost var s := app.State();
    var current := GetUnique(app, LockOf(ref.lockKey), {ref.token});
    KnowledgeIsStable(s, app.State(), {ref.token}, ref.recordId, ref.token, ref.lockKey, 0);
    ShelterStays(s, app.State(), ref.recordId, ref.token, ref.lockKey, ref.owner, floor);
    if current.Err? { return Err(current.error); }
    var fence := FenceError(current.value.1, ref.token, ref.revision);
    if fence.Some? { return Err(fence.value); }
    ghost var t := app.State();
    assert LandsOn(app.records[current.value.0], beat);
    app.PassFence(beat);
    if t in Shelter(ref, floor) { BeatShelters(t, app.State(), FencePassed(beat), beat, ref.recordId, ref.owner, floor); }
    return Ok(());
  }

  /** A renewal that landed while the lease is in somebody's hands landed on its own record. */
  lemma RenewsItself(s: LockState, t: LockState, effect: Effect, p: Pending, id: nat)
    requires s in SaneStates() && Owned(s.records, id, p.token, p.lockKey) && t in Stepped(s, effect)
    requires effect.Renewed? ==> effect.beat == p
    ensures effect.Renewed? && p.token in s.live ==> effect.id == id && effect.token == p.token
    ensures Owned(t.records, id, p.token, p.lockKey)
  {
    OwnKnowledge(s, t, effect, id, p.token, p.lockKey);
    if effect.Renewed? && p.token in s.live { HeldRecord(s, id, p.token, p.lockKey); }
  }

  /** The write of a heartbeat and, if its response is lost, the read that decides it. */
  method Renew(app: LockApp, ref: Reference, beat: Pending, ghost floor: int)
    returns (r: Result<(), LockError>, ghost effect: Effect)
    requires app.Valid() && Owned(app.records, ref.recordId, ref.token, ref.lockKey) && beat in app.pending
    requires beat.token == ref.token && beat.lockKey == ref.lockKey && beat.revision == ref.revision
    requires floor <= Lease.StoredTime(beat.expiresAt)
    modifies app
    ensures Beaten(app, ref, old(ref.token in app.live), effect)
    ensures r.Ok? && ref.token in app.live ==> ReadRunning(app.records, ref.recordId, ref.revision + 1)
    ensures r.Err? && IsFenceError(r.error) ==> effect.Dropped?
    ensures old(app.State()) in Shelter(ref, floor) ==> app.State() in Shelter(ref, floor)
    ensures old(app.State()) in Shelter(ref, floor) && r.Ok? ==> app.State() in Shelter(ref, Lease.StoredTime(beat.expiresAt))
  {
    ghost var s := app.State();
    var renewed;
    ghost var before;
    renewed, before, effect := app.PutRenewal(beat, {ref.token});
    KnowledgeIsStable(s, before, {ref.token}, ref.recordId, ref.token, ref.lockKey, 0);
    RenewsItself(before, app.State(), effect, beat, ref.recordId);
    ShelterStays(s, before, ref.recordId, ref.token, ref.lockKey, ref.owner, floor);
    if before in Shelter(ref, floor) { BeatShelters(before, app.State(), effect, beat, ref.recordId, ref.owner, floor); }
    if renewed.Ok? {
      if ref.token in app.live { HeldRecord(app.State(), ref.recordId, ref.token, ref.lockKey); }
      return Ok(()), effect;
    }
    if renewed.error.Conflict? { return Err(LeaseRevisionConflict), effect; }
    if !renewed.error.Transport? { return Err(LockUnavailable), effect; }
    r := ConfirmRenewal(app, ref, beat, floor);
  }

  /** A lost response is only confirmed when the stored times are the ones that were sent, to the millisecond. */
  method ConfirmRenewal(app: LockApp, ref: Reference, beat: Pending, ghost floor: int) returns (r: Result<(), LockError>)
    requires app.Valid() && Owned(app.records, ref.recordId, ref.token, ref.lockKey)
    modifies app
    ensures r.Err? ==> r.error.LockUnavailable?
    ensures Beaten(app, ref, old(ref.token in app.live), Nothing)
    ensures r.Ok? && ref.token in app.live ==> ReadRunning(app.records, ref.recordId, ref.revision + 1)
    ensures old(app.State()) in Shelter(ref, floor) ==> app.State() in Shelter(ref, floor)
    ensures old(app.State()) in Shelter(ref, floor) && r.Ok? ==> app.State() in Shelter(ref, Lease.StoredTime(beat.expiresAt))
  {
    ghost var s := app.State();
    var found := GetUnique(app, LockOf(ref.lockKey), {ref.token});
    KnowledgeIsStable(s, app.State(), {ref.token}, ref.recordId, ref.token, ref.lockKey, 0);
    ShelterStays(s, app.State(), ref.recordId, ref.token, ref.lockKey, ref.owner, floor);
    if found.Err? { return Err(found.error); }
    var c := found.value.1;
    if c.token != ref.token || c.revision != ref.revision + 1 || c.heartbeatAt != beat.at || c.leaseExpiresAt != beat.expiresAt {
      return Err(LockUnavailable);
    }
    Lease.StoredTimeGrows(beat.expiresAt, beat.expiresAt);
    if ref.token in app.live { HeldRecord(app.State(), ref.recordId, ref.token, ref.lockKey); }
    return Ok(());
  }

  // ---- Release ------------------------------------------------------------

  /** What a release keeps however it ends: it touches its own record or nothing. */
  ghost predicate LetGo(app: LockApp, ref: Reference, effect: Effect)
    reads app
  {
    && app.Valid() && ref.token !in app.live && Owned(app.records, ref.recordId, ref.token, ref.lockKey)
    && (effect.Nothing? || effect == Tombstoned(ref.recordId, ref.token))
    && (effect.Tombstoned? ==> IsTombstone(app.records, ref.recordId, ref.token, ref.lockKey))
  }

  /** A tombstone with this lease in its key is the lease's own record. */
  lemma TombstoneIsOwn(records: Records, id: nat, found: nat, token: Token, lockKey: string)
    requires Keyed(records) && Owned(records, id, token, lockKey)
    requires found in records && records[found].key == DoneOf(lockKey, token)
    ensures found == id && IsTombstone(records, id, token, lockKey)
  {
    assert WellFormed(records[found]);
  }

  method AdjudicateRelease(app: LockApp, ref: Reference, status: string) returns (r: Result<(), LockError>)
    requires LetGo(app, ref, Nothing)
    modifies app
    ensures LetGo(app, ref, Nothing)
    ensures old(IsTombstone(app.records, ref.recordId, ref.token, ref.lockKey)) ==>
      IsTombstone(app.records, ref.recordId, ref.token, ref.lockKey)
    ensures r.Ok? ==> IsTombstone(app.records, ref.recordId, ref.token, ref.lockKey)
    ensures r.Ok? ==> SaysEnded(app.records, ref.recordId, status)
    ensures r.Err? ==> r.error.LockUnavailable?
  {
    ghost var s := app.State();
    var found := GetUnique(app, DoneOf(ref.lockKey, ref.token), {ref.token});
    KnowledgeIsStable(s, app.State(), {ref.token}, ref.recordId, ref.token, ref.lockKey, 0);
    if found.Err? { return Err(LockUnavailable); }
    TombstoneIsOwn(app.records, ref.recordId, found.value.0, ref.token, ref.lockKey);
    if found.value.1.token == "" && found.value.1.status.Ended? && found.value.1.status.status == status { return Ok(()); }
    return Err(LockUnavailable);
  }

  /** One attempt to write the tombstone, with the read that decides a lost response. */
  method TryRelease(app: LockApp, ref: Reference, revision: nat, status: string, reason: string)
    returns (r: Result<(), LockError>, ghost effect: Effect)
    requires LetGo(app, ref, Nothing) && ReadRunning(app.records, ref.recordId, revision)
    modifies app
    ensures LetGo(app, ref, effect)
    ensures r.Ok? ==> IsTombstone(app.records, ref.recordId, ref.token, ref.lockKey)
    ensures r.Ok? ==> SaysEnded(app.records, ref.recordId, status)
    ensures r.Err? && r.error.LeaseRevisionConflict? ==> effect.Nothing?
  {
    ghost var s := app.State();
    ghost var before;
    var put;
    put, before, effect := app.PutTombstone(ref.recordId, revision, ref.token, ref.lockKey, Ended(status, reason), {ref.token});
    KnowledgeIsStable(s, before, {ref.token}, ref.recordId, ref.token, ref.lockKey, revision);
    OwnKnowledge(before, app.State(), effect, ref.recordId, ref.token, ref.lockKey);
    if put.Ok? { return Ok(()), effect; }
    if put.error.Conflict? { return Err(LeaseRevisionConflict), effect; }
    if !put.error.Transport? { return Err(LockUnavailable), effect; }
    r := AdjudicateRelease(app, ref, status);
  }

  /** The owner lets go: nothing it does afterwards relies on the lease. */
  method StopUsing(app: LockApp, ref: Reference)
    requires app.Valid() && Known(app, ref)
    modifies app`live
    ensures LetGo(app, ref, Nothing) && app.live == old(app.live) - {ref.token}
    ensures HandsExpected(old(app.State()), app.State(), ref.token)
  {
    ghost var s := app.State();
    app.live := app.live - {ref.token};
    forall theirs | ref.token !in theirs ensures Evolves(s, app.State(), theirs) {
      HandsAreExpected(s, app.State(), ref.token, theirs);
    }
    assert Sane(app.records, app.live);
  }

  /**
   * Releases the lease. If it says so, the lease's own record is a tombstone; in any
   * case it writes to no other record. A revision moved by the lease's own heartbeat
   * is taken up once.
   */
  method Release(app: LockApp, ref: Reference, status: string, reason: string)
    returns (r: Result<(), LockError>, ghost effect: Effect)
    requires app.Valid() && Known(app, ref)
    modifies app, ref`revision
    ensures LetGo(app, ref, effect)
    ensures r.Ok? ==> IsTombstone(app.records, ref.recordId, ref.token, ref.lockKey)
    ensures r.Ok? ==> SaysEnded(app.records, ref.recordId, status)
  {
    StopUsing(app, ref);
    effect := Nothing;
    ghost var s := app.State();
    var current := GetUnique(app, LockOf(ref.lockKey), {ref.token});
    KnowledgeIsStable(s, app.State(), {ref.token}, ref.recordId, ref.token, ref.lockKey, ref.revision);
    if current.Err? { return Err(current.error), effect; }
    var fence := FenceError(current.value.1, ref.token, ref.revision);
    if fence.Some? { return Err(fence.value), effect; }
    r, effect := TryRelease(app, ref, ref.revision, status, reason);
    if r.Err? && r.error.LeaseRevisionConflict? { r, effect := RetryRelease(app, ref, status, reason); }
    if r.Ok? { ref.revision := ref.revision + 1; }
  }

  method RetryRelease(app: LockApp, ref: Reference, status: string, reason: string)
    returns (r: Result<(), LockError>, ghost effect: Effect)
    requires LetGo(app, ref, Nothing)
    modifies app, ref`revision
    ensures LetGo(app, ref, effect)
    ensures r.Ok? ==> IsTombstone(app.records, ref.recordId, ref.token, ref.lockKey)
    ensures r.Ok? ==> SaysEnded(app.records, ref.recordId, status)
  {
    effect := Nothing;
    ghost var s := app.State();
    var latest := GetUnique(app, LockOf(ref.lockKey), {ref.token});
    KnowledgeIsStable(s, app.State(), {ref.token}, ref.recordId, ref.token, ref.lockKey, 0);
    if latest.Err? || latest.value.1.token != ref.token { return Err(LeaseRevisionConflict), effect; }
    assert WellFormed(app.records[latest.value.0]);
    ref.revision := latest.value.1.revision;
    r, effect := TryRelease(app, ref, ref.revision, status, reason);
  }
}
