/** Heartbeats that outlive their lease, and the leases they may hit. */
module StaleHeartbeats {
  import opened Domain
  import opened LockStore
  import opened NetworkLock
  import opened ForcedRelease
  import Lease

  function ExampleRecord(token: Token, expiresAt: int): LockRecord {
    LockRecord(LockOf("net"), token, token, LockRunning, 0, expiresAt, 1)
  }

  function ExampleTombstone(token: Token): LockRecord {
    LockRecord(DoneOf("net", token), "", "", FORCED, 0, 0, 2)
  }

  /**
   * Others leave the record of a lease in somebody's hands alone exactly if no heartbeat of
   * another lease is under way at its revision.
   */
  lemma UntouchedIff(s: LockState, id: nat, token: Token, lockKey: string)
    requires s in SaneStates() && token in s.live && Owned(s.records, id, token, lockKey)
    ensures (forall t {:trigger t in After(s, {token})} :: t in After(s, {token}) ==> id in t.records && t.records[id] == s.records[id])
       <==> !exists p :: p in s.pending && p.token != token && p.lockKey == lockKey && p.revision == s.records[id].revision
  {
    HeldRecord(s, id, token, lockKey);
    if exists p :: p in s.pending && p.token != token && p.lockKey == lockKey && p.revision == s.records[id].revision {
      var p :| p in s.pending && p.token != token && p.lockKey == lockKey && p.revision == s.records[id].revision;
      var t := s.(records := s.records[id := RenewedBy(s.records[id], p)], pending := s.pending - {p});
      OwnStepsAreExpected(s, t, Renewed(id, token, p), {token});
      assert t in After(s, {token}) && t.records[id].revision != s.records[id].revision;
    } else {
      forall t | t in After(s, {token}) ensures id in t.records && t.records[id] == s.records[id] {
        assert HeldBy(s, id, {token}) && Guarded(s, t, id, {token});
      }
    }
  }

  lemma ExampleIsSane(b: LockRecord, pending: set<Pending>)
    requires b == ExampleRecord("B", 720_000)
    ensures LockState(map[0 := ExampleTombstone("A"), 1 := b], {"B"}, pending) in SaneStates()
  {
    var records := map[0 := ExampleTombstone("A"), 1 := b];
    assert Holds(records, "B") by { assert records[1].token == "B"; }
  }

  /**
   * Why that matters: A passed its fence check, was suspended, expired and was force-unlocked.
   * B acquires the lock, and only then A's heartbeat is written: it lands on B's record and
   * takes its expiry back, so that B's lease looks expired while B's monitor says HELD.
   */
  lemma OldHeartbeatShortensSuccessor()
    ensures var late := Pending("A", "net", 1, 0, 120_000);
      var b := ExampleRecord("B", 720_000);
      var s := LockState(map[0 := ExampleTombstone("A"), 1 := b], {"B"}, {late});
      var t := LockState(map[0 := ExampleTombstone("A"), 1 := RenewedBy(b, late)], {"B"}, {});
      && s in SaneStates() && t in After(s, {"B"})
      && Lease.StillActive(s.records[1].leaseExpiresAt, 600_000) && !Lease.StillActive(t.records[1].leaseExpiresAt, 600_000)
  {
    var late := Pending("A", "net", 1, 0, 120_000);
    var b := ExampleRecord("B", 720_000);
    var s := LockState(map[0 := ExampleTombstone("A"), 1 := b], {"B"}, {late});
    var t := LockState(map[0 := ExampleTombstone("A"), 1 := RenewedBy(b, late)], {"B"}, {});
    ExampleIsSane(b, {late});
    OwnStepsAreExpected(s, t, Renewed(1, "B", late), {"B"});
  }

  lemma {:induction false} LongerThanAll(used: set<string>) returns (n: nat)
    ensures forall u :: u in used ==> |u| <= n
    decreases |used|
  {
    if used == {} {
      n := 0;
    } else {
      var u :| u in used;
      var m := LongerThanAll(used - {u});
      n := if m < |u| then |u| else m;
    }
  }

  lemma {:induction false} LargerThanAll(used: set<nat>) returns (n: nat)
    ensures forall u :: u in used ==> u < n
    decreases |used|
  {
    if used == {} {
      n := 0;
    } else {
      var u :| u in used;
      var m := LargerThanAll(used - {u});
      n := if m <= u then u + 1 else m;
      assert forall v :: v in used ==> v == u || v in used - {u};
    }
  }

  function Origins(records: Records): set<Token> {
    set i | i in records :: Origin(records[i])
  }

  /** The lease `id` is released and another one acquired under its key, at this revision. */
  function Succeeded(s: LockState, id: nat, next: nat, token: Token, lockKey: string, revision: nat): LockState
    requires id in s.records
  {
    s.(records := s.records[id := s.records[id].(key := DoneOf(lockKey, s.records[id].token), token := "", owner := "",
                                                 status := FORCED, revision := s.records[id].revision + 1)]
                           [next := LockRecord(LockOf(lockKey), token, "", LockRunning, 0, 0, revision)])
  }

  lemma SuccessorIsKeyed(s: LockState, id: nat, next: nat, heir: Token, lockKey: string, revision: nat)
    requires s in SaneStates() && id in s.records && s.records[id].status.LockRunning? && s.records[id].key == LockOf(lockKey)
    requires next !in s.records && heir != "" && heir !in Origins(s.records)
    ensures Keyed(Succeeded(s, id, next, heir, lockKey, revision).records)
  {
    var t := Succeeded(s, id, next, heir, lockKey, revision);
    assert WellFormed(s.records[id]);
    forall i | i in s.records ensures Origin(s.records[i]) != heir { assert Origin(s.records[i]) in Origins(s.records); }
    forall i | i in t.records ensures WellFormed(t.records[i]) { assert i in s.records ==> WellFormed(s.records[i]); }
    forall i | i in s.records ensures Origin(t.records[i]) == Origin(s.records[i]) { assert WellFormed(s.records[i]); }
  }

  lemma SuccessorIsSane(s: LockState, id: nat, next: nat, heir: Token, lockKey: string, revision: nat)
    requires s in SaneStates() && id in s.records && s.records[id].status.LockRunning? && s.records[id].key == LockOf(lockKey)
    requires s.records[id].token !in s.live && next !in s.records && heir != "" && heir !in Origins(s.records)
    ensures Succeeded(s, id, next, heir, lockKey, revision) in SaneStates()
  {
    var t := Succeeded(s, id, next, heir, lockKey, revision);
    SuccessorIsKeyed(s, id, next, heir, lockKey, revision);
    forall u | u in t.live ensures Holds(t.records, u) {
      var i :| i in s.records && s.records[i].status.LockRunning? && s.records[i].token == u;
      assert t.records[i].status.LockRunning? && t.records[i].token == u;
    }
  }

  lemma SuccessorIsExpected(s: LockState, id: nat, next: nat, heir: Token, lockKey: string, revision: nat)
    requires s in SaneStates() && id in s.records && s.records[id].status.LockRunning? && s.records[id].key == LockOf(lockKey)
    requires s.records[id].token !in s.live && next !in s.records && heir != "" && heir !in Origins(s.records)
    ensures Succeeded(s, id, next, heir, lockKey, revision) in After(s, {s.records[id].token})
  {
    var t, mine := Succeeded(s, id, next, heir, lockKey, revision), {s.records[id].token};
    SuccessorIsSane(s, id, next, heir, lockKey, revision);
    assert Origin(s.records[id]) in Origins(s.records);
    SuccessorFollows(s, id, next, heir, lockKey, revision);
    assert forall i :: i in s.records ==> !HeldBy(s, i, mine);
  }

  lemma SuccessorFollows(s: LockState, id: nat, next: nat, heir: Token, lockKey: string, revision: nat)
    requires id in s.records && s.records[id].status.LockRunning? && s.records[id].key == LockOf(lockKey) && next !in s.records
    ensures var records := Succeeded(s, id, next, heir, lockKey, revision).records;
      && (forall i :: i in s.records ==> i in records && Follows(s.records[i], records[i]))
      && (forall i :: i in records && i !in s.records ==> Origin(records[i]) == heir)
  {
  }

  /** The write of this heartbeat may land on a record other than `id`. */
  ghost predicate MayHitAnother(s: LockState, id: nat, p: Pending) {
    exists t, i {:trigger LandsOn(t.records[i], p), t in After(s, {p.token})} ::
      t in After(s, {p.token}) && i in t.records && i != id && LandsOn(t.records[i], p)
  }

  /**
   * A heartbeat that has passed its fence check may extend a successor's lease exactly if its
   * own lease is not in anybody's hands any more.
   */
  lemma StaleHeartbeatMayHitSuccessor(s: LockState, id: nat, p: Pending)
    requires s in SaneStates() && id in s.records && LandsOn(s.records[id], p) && s.records[id].token == p.token
    ensures MayHitAnother(s, id, p) <==> p.token !in s.live
  {
    assert WellFormed(s.records[id]);
    if p.token in s.live {
      forall t, i | t in After(s, {p.token}) && i in t.records && i != id ensures !LandsOn(t.records[i], p) {
        KnowledgeIsStable(s, t, {p.token}, id, p.token, p.lockKey, 0);
        HeldRecord(t, id, p.token, p.lockKey);
      }
    } else {
      var n := LongerThanAll(Origins(s.records));
      var heir: Token := seq(n + 1, _ => 'x');
      var next := LargerThanAll(s.records.Keys);
      var t := Succeeded(s, id, next, heir, p.lockKey, p.revision);
      SuccessorIsExpected(s, id, next, heir, p.lockKey, p.revision);
      assert t in After(s, {p.token}) && next != id && LandsOn(t.records[next], p);
    }
  }
}
