/** Force-unlock: an operator ends the lease of an owner that has stopped. */
module ForcedRelease {
  import opened Domain
  import opened LockStore
  import opened NetworkLock
  import opened LeaseWatch
  import Lease

  datatype ForceError =
    | LockReadFailed
    | OwnerMismatch
    | LeaseStillActive
    | StopNotConfirmed
    | HeartbeatAdvanced
    | RevisionConflict
    | ReleaseUnconfirmed
    | AuditFailed

  /** One NETWORK_LOCK_FORCE_RELEASED event. */
  datatype UnlockAudit = UnlockAudit(
    lockKey: string,
    recordId: nat,
    previousOwner: string,
    previousToken: Token,
    previousHeartbeatAt: int,
    previousLeaseExpiresAt: int,
    postReleaseRevision: nat)

  class AuditLog {
    var events: seq<UnlockAudit>

    /** A failed append may have landed. */
    method Append(event: UnlockAudit) returns (ok: bool)
      modifies this
      ensures events == old(events) || events == old(events) + [event]
      ensures ok ==> events == old(events) + [event]
    {
      if * { return false; }
      events := events + [event];
      ok := *;
    }
  }

  /** What the first read of a force-unlock decides. */
  function TargetRefusal(target: LockRecord, expectedOwner: string, now: int): Option<ForceError> {
    if target.owner != expectedOwner then Some(OwnerMismatch)
    else if Lease.StillActive(target.leaseExpiresAt, now) then Some(LeaseStillActive)
    else None
  }

  /** The confirmation and the write have not been reached. */
  predicate StoppedEarly(r: Result<nat, ForceError>) {
    r.Err? && (r.error.LockReadFailed? || r.error.OwnerMismatch? || r.error.LeaseStillActive? || r.error.StopNotConfirmed?)
  }

  /** What a read under this key may return while the holders of `resting` take no step. */
  ghost predicate Readable(s: LockState, lockKey: string, resting: set<Token>, found: (nat, LockRecord)) {
    forall i: nat, token: Token {:trigger Shielded(s, i, token, lockKey)} ::
      token in resting && Shielded(s, i, token, lockKey) ==> found == (i, s.records[i])
  }

  /** The record that is under the key now. */
  method ReadTarget(app: LockApp, lockKey: string, resting: set<Token>) returns (r: Result<(nat, LockRecord), ForceError>)
    requires app.Valid()
    modifies app
    ensures app.Valid() && app.State() in After(old(app.State()), resting)
    ensures r.Err? ==> r.error.LockReadFailed?
    ensures r.Ok? ==> Readable(old(app.State()), lockKey, resting, r.value) && r.value.1.key == LockOf(lockKey)
    ensures r.Ok? ==> Owned(app.records, r.value.0, r.value.1.token, lockKey)
    ensures r.Ok? ==> ReadRunning(app.records, r.value.0, r.value.1.revision)
  {
    ghost var s := app.State();
    var found := GetUnique(app, LockOf(lockKey), resting);
    if found.Err? { return Err(LockReadFailed); }
    RestingIsRead(s, app.State(), resting, lockKey, found.value.0);
    assert WellFormed(app.records[found.value.0]);
    return Ok(found.value);
  }

  /** The stop is confirmed, and the lease is still the one that was read. */
  method ConfirmStop(app: LockApp, lockKey: string, id: nat, first: LockRecord, resting: set<Token>)
    returns (r: Result<(), ForceError>)
    requires app.Valid() && Owned(app.records, id, first.token, lockKey) && ReadRunning(app.records, id, first.revision)
    modifies app
    ensures app.Valid()
    ensures r.Err? ==> r.error.StopNotConfirmed? || r.error.HeartbeatAdvanced?
    ensures r.Err? && r.error.StopNotConfirmed? ==> app.State() in After(old(app.State()), resting)
    ensures r.Ok? ==> first.token !in app.live && Owned(app.records, id, first.token, lockKey)
    ensures r.Ok? ==> ReadRunning(app.records, id, first.revision)
  {
    ghost var s := app.State();
    app.OthersAct(resting);
    KnowledgeIsStable(s, app.State(), resting, id, first.token, lockKey, first.revision);
    if first.token in app.live { return Err(StopNotConfirmed); }
    if * { return Err(StopNotConfirmed); }
    s := app.State();
    var checked := GetUnique(app, LockOf(lockKey), {first.token});
    KnowledgeIsStable(s, app.State(), {first.token}, id, first.token, lockKey, first.revision);
    if checked.Err? || checked.value.1.revision != first.revision || checked.value.1.heartbeatAt != first.heartbeatAt ||
       checked.value.1.owner != first.owner || checked.value.1.token != first.token {
      return Err(HeartbeatAdvanced);
    }
    return Ok(());
  }

  /**
   * An operator ends the lease of an owner that has stopped. Confirming the stop is
   * truthful: it fails while the lease is in somebody's hands. The lease that ends is
   * the expired one that was read, unchanged, before and after the confirmation, and every
   * success is audited exactly once. The holders of the leases in `resting` take no step
   * meanwhile.
   */
  method ForceUnlock(app: LockApp, log: AuditLog, lockKey: string, expectedOwner: string, now: int, resting: set<Token>)
    returns (r: Result<nat, ForceError>, ghost found: Option<(nat, LockRecord)>, ghost effect: Effect)
    requires app.Valid()
    modifies app, log
    ensures app.Valid() && (found.None? <==> r == Err(LockReadFailed))
    ensures effect.Nothing? || (found.Some? && effect == Tombstoned(found.value.0, found.value.1.token))
    ensures found.Some? ==> Readable(old(app.State()), lockKey, resting, found.value) && found.value.1.key == LockOf(lockKey)
    ensures found.Some? ==> Unlocked(r, found.value.1, expectedOwner, now, effect)
    ensures effect.Tombstoned? ==> found.value.1.token !in app.live
    ensures StoppedEarly(r) ==> app.State() in After(old(app.State()), resting)
    ensures r.Ok? || r.error.AuditFailed? ==>
      found.Some? && IsTombstone(app.records, found.value.0, found.value.1.token, lockKey) &&
      app.records[found.value.0].status == Ended("CANCELLED", "NETWORK_LOCK_FORCE_RELEASED")
    ensures r.Ok? ==>
      |log.events| == |old(log.events)| + 1 && old(log.events) <= log.events &&
      About(log.events[|old(log.events)|], lockKey, found.value, r.value)
    ensures r.Err? && !r.error.AuditFailed? ==> log.events == old(log.events)
  {
    found, effect := None, Nothing;
    ghost var s := app.State();
    var read := ReadTarget(app, lockKey, resting);
    if read.Err? { return Err(read.error), found, effect; }
    var id, first := read.value.0, read.value.1;
    found := Some(read.value);
    var refused := TargetRefusal(first, expectedOwner, now);
    if refused.Some? { return Err(refused.value), found, effect; }
    ghost var t := app.State();
    var confirmed := ConfirmStop(app, lockKey, id, first, resting);
    if confirmed.Err? {
      if confirmed.error.StopNotConfirmed? { EvolvesChain(s, t, app.State(), resting); }
      return Err(confirmed.error), found, effect;
    }
    r, effect := EndLease(app, lockKey, id, first);
    if r.Err? { return r, found, effect; }
    var audited := log.Append(AuditOf(lockKey, id, first, r.value));
    if !audited { r := Err(AuditFailed); }
  }

  /** The first read alone decides whether it is refused; a refusal writes nothing. */
  predicate Unlocked(r: Result<nat, ForceError>, target: LockRecord, expectedOwner: string, now: int, effect: Effect) {
    && (r == Err(OwnerMismatch) <==> target.owner != expectedOwner)
    && (r == Err(LeaseStillActive) <==> target.owner == expectedOwner && now < target.leaseExpiresAt + 60_000)
    && (r == Err(OwnerMismatch) || r == Err(LeaseStillActive) ==> effect.Nothing?)
  }

  /** The event names the lease that was ended, as it was read, and the revision of its tombstone. */
  predicate About(e: UnlockAudit, lockKey: string, found: (nat, LockRecord), revision: nat) {
    && e.lockKey == lockKey && e.recordId == found.0 && e.postReleaseRevision == revision
    && e.previousOwner == found.1.owner && e.previousToken == found.1.token
    && e.previousHeartbeatAt == found.1.heartbeatAt && e.previousLeaseExpiresAt == found.1.leaseExpiresAt
  }

  function AuditOf(lockKey: string, id: nat, target: LockRecord, revision: nat): UnlockAudit {
    UnlockAudit(lockKey, id, target.owner, target.token, target.heartbeatAt, target.leaseExpiresAt, revision)
  }

  const FORCED := Ended("CANCELLED", "NETWORK_LOCK_FORCE_RELEASED")

  /** Writes the tombstone at the revision that was confirmed, with the read that decides a lost response. */
  method EndLease(app: LockApp, lockKey: string, id: nat, first: LockRecord)
    returns (r: Result<nat, ForceError>, ghost effect: Effect)
    requires app.Valid() && first.token !in app.live
    requires Owned(app.records, id, first.token, lockKey) && ReadRunning(app.records, id, first.revision)
    modifies app
    ensures app.Valid() && first.token !in app.live
    ensures effect.Nothing? || effect == Tombstoned(id, first.token)
    ensures r.Ok? ==> IsTombstone(app.records, id, first.token, lockKey) && r.value == first.revision + 1
    ensures r.Ok? ==> app.records[id].status == FORCED
    ensures r.Err? ==> r.error.RevisionConflict? || r.error.ReleaseUnconfirmed?
  {
    ghost var s := app.State();
    ghost var before;
    var put;
    put, before, effect := app.PutTombstone(id, first.revision, first.token, lockKey, FORCED, {first.token});
    KnowledgeIsStable(s, before, {first.token}, id, first.token, lockKey, first.revision);
    OwnKnowledge(before, app.State(), effect, id, first.token, lockKey);
    if put.Ok? { return Ok(put.value), effect; }
    if put.error.Conflict? { return Err(RevisionConflict), effect; }
    if !put.error.Transport? { return Err(ReleaseUnconfirmed), effect; }
    s := app.State();
    var found := GetUnique(app, DoneOf(lockKey, first.token), {first.token});
    KnowledgeIsStable(s, app.State(), {first.token}, id, first.token, lockKey, 0);
    if found.Err? || found.value.0 != id || found.value.1.status != FORCED || found.value.1.revision != first.revision + 1 {
      return Err(ReleaseUnconfirmed), effect;
    }
    TombstoneIsOwn(app.records, id, found.value.0, first.token, lockKey);
    return Ok(found.value.1.revision), effect;
  }

  /** A shielded lease whose holder rests is read as it is. */
  lemma RestingIsRead(s: LockState, t: LockState, resting: set<Token>, lockKey: string, found: nat)
    requires t in After(s, resting) && t in SaneStates() && found in t.records && t.records[found].key == LockOf(lockKey)
    ensures Readable(s, lockKey, resting, (found, t.records[found]))
  {
    forall i: nat, token: Token | token in resting && Shielded(s, i, token, lockKey)
      ensures found == i && t.records[found] == s.records[i]
    {
      HeldRecord(s, i, token, lockKey);
      assert HeldBy(s, i, resting) && Guarded(s, t, i, resting);
      KnowledgeIsStable(s, t, resting, i, token, lockKey, 0);
      HeldRecord(t, i, token, lockKey);
    }
  }

  /** While the monitor says HELD and its tick is not overdue, force-unlock is refused and writes nothing. */
  method ForceUnlockHeld(app: LockApp, log: AuditLog, ref: Reference, monitor: Lease.LeaseMonitor, now: int)
    returns (r: Result<nat, ForceError>)
    requires Protected(app, ref, monitor) && Lease.Trustworthy(monitor.config)
    requires monitor.state.Held? && now <= monitor.lastTick + monitor.config.heartbeatInterval
    modifies app, log
    ensures r == Err(LeaseStillActive) || r == Err(LockReadFailed)
    ensures log.events == old(log.events) && Protected(app, ref, monitor)
  {
    ghost var s, floor := app.State(), Lease.StoredTime(monitor.grantedUntil);
    HeldRecord(s, ref.recordId, ref.token, ref.lockKey);
    HeldMeansActive(app, ref, monitor, now, ref.recordId);
    ghost var found, effect;
    r, found, effect := ForceUnlock(app, log, ref.lockKey, ref.owner, now, {ref.token});
    assert Shielded(s, ref.recordId, ref.token, ref.lockKey);
    assert found.Some? ==> found.value == (ref.recordId, s.records[ref.recordId]);
    ShelterStays(s, app.State(), ref.recordId, ref.token, ref.lockKey, ref.owner, floor);
  }
}
