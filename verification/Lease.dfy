/** The lease monitor: when an invocation may still act on its network lock. */
module Lease {
  datatype LeaseState = Held | LeaseUncertain | FinalWriteConfirmed

  /** How one heartbeat came back; a renewal carries the time it was issued at. */
  datatype Heartbeat = Renewed(at: int) | FenceLost | Unavailable

  /** Times are milliseconds of one clock. */
  datatype Config = Config(leaseDuration: int, heartbeatInterval: int, failureThreshold: int, safety: int)

  /** What the constructor of the monitor demands of its configuration. */
  predicate ValidConfig(c: Config) {
    0 < c.heartbeatInterval < c.leaseDuration && 0 < c.failureThreshold && 0 < c.safety
  }

  /** HELD can be relied on until the next tick is due. */
  predicate Trustworthy(c: Config) {
    c.safety >= c.heartbeatInterval || c.failureThreshold == 1
  }

  /** HELD is never re-entered. */
  predicate NeverRegained(before: LeaseState, after: LeaseState) {
    after.Held? ==> before.Held?
  }

  /** One failed heartbeat that ends at `ended` leaves the monitor HELD: the tick rule of the monitor. */
  predicate StaysHeld(c: Config, failuresBefore: nat, renewedAt: int, ended: int) {
    failuresBefore + 1 < c.failureThreshold && renewedAt + c.leaseDuration - ended > c.safety
  }

  class LeaseMonitor {
    const config: Config
    var state: LeaseState
    var failures: nat
    var leaseExpiresAt: int
    /** When the last completed tick began, or the acquisition. */
    ghost var lastTick: int
    /** Until when the lease was granted; a reference that was read back may only know the minute. */
    ghost var grantedUntil: int

    /** `expiry` is what the reference of the acquired lease says. */
    constructor (config: Config, acquiredAt: int, expiry: int)
      requires ValidConfig(config)
      ensures this.config == config && state.Held? && Covered() && failures == 0
      ensures leaseExpiresAt == expiry && lastTick == acquiredAt
      ensures grantedUntil == if expiry <= acquiredAt + config.leaseDuration then acquiredAt + config.leaseDuration else expiry
    {
      this.config := config;
      state, failures := Held, 0;
      leaseExpiresAt, lastTick := expiry, acquiredAt;
      grantedUntil := if expiry <= acquiredAt + config.leaseDuration then acquiredAt + config.leaseDuration else expiry;
    }

    predicate CanStartNewNode()
      reads this
    {
      state.Held?
    }

    predicate CanPersistResults()
      reads this
    {
      state.Held? || state.FinalWriteConfirmed?
    }

    predicate RequiresInterruptedFinalization()
      reads this
    {
      state.FinalWriteConfirmed?
    }

    /** While HELD, the lease reaches past the time by which the next tick is due. */
    ghost predicate Covered()
      reads this
    {
      && ValidConfig(config) && leaseExpiresAt <= grantedUntil
      && (state.Held? && Trustworthy(config) ==> grantedUntil > lastTick + config.heartbeatInterval)
    }

    method MarkControlPlaneUnreachable()
      modifies this
      ensures state.LeaseUncertain? && leaseExpiresAt == old(leaseExpiresAt) && lastTick == old(lastTick)
      ensures grantedUntil == old(grantedUntil)
      ensures failures == old(failures)
      ensures old(Covered()) ==> Covered()
    {
      state := LeaseUncertain;
    }

    /** One tick that begins and ends at these times; `renewed` is what the caller may rely on. */
    method Tick(beat: Heartbeat, began: int, ended: int) returns (renewed: bool)
      requires began <= ended && (beat.Renewed? ==> began <= beat.at <= ended)
      modifies this
      ensures NeverRegained(old(state), state)
      ensures renewed <==> old(state).Held? && beat.Renewed?
      ensures renewed ==> state.Held? && failures == 0 && leaseExpiresAt == beat.at + config.leaseDuration
      ensures renewed ==> grantedUntil == leaseExpiresAt
      ensures !renewed ==> leaseExpiresAt == old(leaseExpiresAt) && grantedUntil == old(grantedUntil)
      ensures !old(state).Held? ==> state == old(state)
      ensures old(state).Held? && beat.FenceLost? ==> state.LeaseUncertain?
      ensures old(state).Held? && beat.Unavailable? ==>
        (state.Held? <==> StaysHeld(config, old(failures), leaseExpiresAt - config.leaseDuration, ended))
      ensures old(Covered()) ==> Covered()
      ensures lastTick == began
    {
      lastTick := began;
      if !state.Held? { return false; }
      match beat {
        case Renewed(at) =>
          failures, leaseExpiresAt := 0, at + config.leaseDuration;
          grantedUntil := leaseExpiresAt;
          return true;
        case FenceLost =>
          failures, state := failures + 1, LeaseUncertain;
        case Unavailable =>
          failures := failures + 1;
          if failures >= config.failureThreshold {
            state := LeaseUncertain;
          } else if leaseExpiresAt - ended <= config.safety {
            state := LeaseUncertain;
          }
      }
      return false;
    }

    /** The one way to write results after the lease became uncertain. */
    method ConfirmLeaseForFinalWrite(beat: Heartbeat) returns (confirmed: bool)
      modifies this
      ensures confirmed <==> old(state).LeaseUncertain? && beat.Renewed?
      ensures state == if confirmed then FinalWriteConfirmed else old(state)
      ensures confirmed ==> leaseExpiresAt == grantedUntil == beat.at + config.leaseDuration
      ensures !confirmed ==> leaseExpiresAt == old(leaseExpiresAt) && grantedUntil == old(grantedUntil)
      ensures failures == old(failures) && lastTick == old(lastTick)
      ensures old(Covered()) ==> Covered()
    {
      if !state.LeaseUncertain? || !beat.Renewed? { return false; }
      state, leaseExpiresAt := FinalWriteConfirmed, beat.at + config.leaseDuration;
      grantedUntil := leaseExpiresAt;
      return true;
    }
  }

  // ---- Expiry as others see it --------------------------------------------

  const TRUNCATION := 60_000

  /** A stored date-time loses its seconds. */
  function StoredTime(t: int): int {
    t - t % TRUNCATION
  }

  /** It is the last full minute that is not later. */
  lemma StoredTimeIsMinute(t: int, minute: int)
    ensures StoredTime(t) == minute <==> minute % 60_000 == 0 && minute <= t < minute + 60_000
  {
  }

  /** Force-unlock refuses with LEASE_STILL_ACTIVE. */
  predicate StillActive(storedExpiry: int, now: int) {
    storedExpiry + TRUNCATION > now
  }

  /** Whatever is stored for the granted time or a later one, truncated to the minute, outlives it. */
  lemma TruncationIsCovered(storedExpiry: int, granted: int, now: int)
    requires storedExpiry >= StoredTime(granted) && now < granted
    ensures StillActive(storedExpiry, now)
  {
    assert StoredTime(granted) + TRUNCATION > granted;
  }

  lemma StoredTimeGrows(t: int, u: int)
    requires t <= u
    ensures StoredTime(t) <= StoredTime(u) && StoredTime(t) <= t
  {
    assert t == TRUNCATION * (t / TRUNCATION) + t % TRUNCATION;
    assert u == TRUNCATION * (u / TRUNCATION) + u % TRUNCATION;
  }

  /** If it stays HELD, the lease reaches past the time the next tick is due. */
  predicate OutlivesNextTick(c: Config, renewedAt: int, ended: int) {
    StaysHeld(c, 0, renewedAt, ended) ==> ended + c.heartbeatInterval < renewedAt + c.leaseDuration
  }

  /**
   * The configuration check accepts any positive margin, but after a failed heartbeat HELD
   * can be trusted until the next tick exactly when the margin is at least one interval,
   * or the first failure already ends it.
   */
  lemma SafetyMarginIsNeeded(c: Config)
    requires ValidConfig(c)
    ensures Trustworthy(c) <==> forall renewedAt, ended :: OutlivesNextTick(c, renewedAt, ended)
  {
    if !Trustworthy(c) {
      assert !OutlivesNextTick(c, 0, c.leaseDuration - c.safety - 1);
    }
  }
}
