/** The lease monitor on its lock record: what HELD means to everybody else. */
module LeaseWatch {
  import opened Domain
  import opened LockStore
  import opened NetworkLock
  import Lease

  /**
   * The lease of `ref` is sheltered at least as long as it was granted to its monitor. This is
   * what makes HELD mean something to others.
   */
  ghost predicate Protected(app: LockApp, ref: Reference, monitor: Lease.LeaseMonitor)
    reads app, ref, monitor
  {
    monitor.Covered() && monitor.leaseExpiresAt == ref.leaseExpiresAt &&
    app.State() in Shelter(ref, Lease.StoredTime(monitor.grantedUntil))
  }

  /** Acquires the lock and starts to watch its lease. */
  method AcquireAndWatch(app: LockApp, lockKey: string, owner: string, token: Token, config: Lease.Config, at: int)
    returns (r: Result<(Reference, Lease.LeaseMonitor), LockError>)
    requires app.Valid() && token != "" && token !in app.live && Lease.ValidConfig(config)
    requires forall i :: i in app.records ==> Origin(app.records[i]) != token
    modifies app
    ensures app.Valid()
    ensures r.Ok? ==>
      fresh(r.value.0) && fresh(r.value.1) && r.value.1.state.Held? && r.value.1.lastTick == at && r.value.1.config == config
    ensures r.Ok? ==> Acquired(app, r.value.0, token, lockKey, owner, at + config.leaseDuration)
    ensures r.Ok? && r.value.0.revision == 1 && Shielded(app.State(), r.value.0.recordId, token, lockKey) ==>
      Protected(app, r.value.0, r.value.1)
  {
    var acquired := Acquire(app, lockKey, owner, token, at, at + config.leaseDuration);
    if acquired.Err? { return Err(acquired.error); }
    var monitor := new Lease.LeaseMonitor(config, at, acquired.value.leaseExpiresAt);
    return Ok((acquired.value, monitor));
  }

  /** What a heartbeat means to the monitor. */
  function BeatOf(r: Result<(), LockError>, at: int): Lease.Heartbeat {
    if r.Ok? then Lease.Renewed(at) else if IsFenceError(r.error) then Lease.FenceLost else Lease.Unavailable
  }

  /**
   * One tick of the monitor with its heartbeat, none unless HELD. The clock has not gone back
   * behind the last renewal.
   */
  method Tick(app: LockApp, ref: Reference, monitor: Lease.LeaseMonitor, began: int, at: int, ended: int)
    returns (renewed: bool, ghost beaten: Option<Result<(), LockError>>, ghost effect: Effect)
    requires app.Valid() && Owned(app.records, ref.recordId, ref.token, ref.lockKey)
    requires began <= at <= ended && monitor.grantedUntil <= at + monitor.config.leaseDuration
    modifies app, ref, monitor
    ensures Beaten(app, ref, old(ref.token in app.live), effect)
    ensures Lease.NeverRegained(old(monitor.state), monitor.state) && monitor.lastTick == began
    ensures beaten.None? <==> !old(monitor.state).Held?
    ensures beaten.None? ==> !renewed && app.State() == old(app.State()) && monitor.state == old(monitor.state)
    ensures beaten.Some? ==> (renewed <==> beaten.value.Ok?)
    ensures renewed ==> monitor.state.Held? && monitor.leaseExpiresAt == ref.leaseExpiresAt == at + monitor.config.leaseDuration
    ensures beaten.Some? && beaten.value.Err? && IsFenceError(beaten.value.error) ==> monitor.state.LeaseUncertain? && !effect.Renewed?
    ensures beaten.Some? && beaten.value.Err? && !IsFenceError(beaten.value.error) ==> (monitor.state.Held? <==>
      Lease.StaysHeld(monitor.config, old(monitor.failures), old(monitor.leaseExpiresAt) - monitor.config.leaseDuration, ended))
    ensures old(Protected(app, ref, monitor)) ==> Protected(app, ref, monitor)
  {
    if !monitor.CanStartNewNode() {
      renewed := monitor.Tick(Lease.Unavailable, began, ended);
      return renewed, None, Nothing;
    }
    ghost var floor := Lease.StoredTime(monitor.grantedUntil);
    Lease.StoredTimeGrows(monitor.grantedUntil, at + monitor.config.leaseDuration);
    var beat;
    beat, effect := Heartbeat(app, ref, at, at + monitor.config.leaseDuration, floor);
    renewed := monitor.Tick(BeatOf(beat, at), began, ended);
    beaten := Some(beat);
  }

  /**
   * While the monitor says HELD and its next tick is not overdue, its lease has not expired,
   * and the record anybody reads under its key is its own and still active to force-unlock.
   */
  lemma HeldMeansActive(app: LockApp, ref: Reference, monitor: Lease.LeaseMonitor, now: int, i: nat)
    requires Protected(app, ref, monitor) && Lease.Trustworthy(monitor.config)
    requires monitor.state.Held? && now <= monitor.lastTick + monitor.config.heartbeatInterval
    requires i in app.records && app.records[i].key == LockOf(ref.lockKey)
    ensures now < monitor.grantedUntil
    ensures i == ref.recordId && app.records[i].owner == ref.owner
    ensures Lease.StillActive(app.records[i].leaseExpiresAt, now)
  {
    HeldRecord(app.State(), ref.recordId, ref.token, ref.lockKey);
    Lease.TruncationIsCovered(app.records[i].leaseExpiresAt, monitor.grantedUntil, now);
  }
}
