/** The retry brake: how many equal failures a node's history ends in. */
module RetryBrake {
  import opened Dag
  import opened Domain
  import opened StoreContract
  import opened Invariants

  datatype Brake = Brake(failureKind: string, count: nat)

  /** The node's attempts from `no` down; a gap ends the history. */
  predicate Contiguous(attempts: map<AttemptKey, Stored<Attempt>>, n: Id, latest: nat) {
    forall no: nat :: 1 <= no <= latest ==> AttemptKey(n, no) in attempts
  }

  /** What the loop has seen so far of the attempts above `no`. */
  ghost predicate Seen(h: History, latest: nat, no: nat, kind: Option<string>, count: nat) {
    match kind
    case None => count == 0 && forall code :: code != "" ==> Streak(h, latest, code) == Streak(h, no, code)
    case Some(k) =>
      && k != "" && count > 0 && Streak(h, latest, k) == count + Streak(h, no, k)
      && forall code :: code != "" && code != k ==> Streak(h, latest, code) == 0
  }

  /**
   * The brake holds exactly when some failure code ends the history three times
   * or more, and then it names that code and the full length of its streak.
   */
  method RetryBrakeForNode(attempts: map<AttemptKey, Stored<Attempt>>, n: Id, latest: nat)
    returns (brake: Option<Brake>)
    requires Contiguous(attempts, n, latest)
    ensures brake.None? <==> forall code :: code != "" ==> Streak(HistoryOf(attempts, n), latest, code) <= 2
    ensures brake.Some? ==> brake.value.failureKind != "" && brake.value.count >= 3
    ensures brake.Some? ==> brake.value.count == Streak(HistoryOf(attempts, n), latest, brake.value.failureKind)
  {
    ghost var h := HistoryOf(attempts, n);
    var kind: Option<string> := None;
    var count: nat := 0;
    var no: nat := latest;
    var ended := false;
    while no > 0 && !ended
      invariant no <= latest && Seen(h, latest, no, kind, count)
      invariant ended ==> forall code :: code != "" ==> Streak(h, no, code) == 0 || Some(code) != kind
      invariant ended && kind.None? ==> forall code :: code != "" ==> Streak(h, no, code) == 0
      decreases no, !ended
    {
      var a := attempts[AttemptKey(n, no)].value;
      assert h[no] == a;
      if PrepareFailed(a) {
        no := no - 1;
      } else if !a.status.Failed? || Trim(a.resultCode) == "" {
        ended := true;
      } else {
        var current := Trim(a.resultCode);
        if kind.None? { kind := Some(current); }
        if current != kind.value {
          ended := true;
        } else {
          count := count + 1;
          no := no - 1;
        }
      }
    }
    StreaksDecided(h, latest, no, kind, count);
    return if kind.Some? && count >= 3 then Some(Brake(kind.value, count)) else None;
  }

  /** Once nothing more is to come, the count is the one streak that is not zero. */
  lemma StreaksDecided(h: History, latest: nat, no: nat, kind: Option<string>, count: nat)
    requires Seen(h, latest, no, kind, count)
    requires kind.None? ==> forall code :: code != "" ==> Streak(h, no, code) == 0
    requires kind.Some? ==> Streak(h, no, kind.value) == 0
    ensures kind.None? ==> forall code :: code != "" ==> Streak(h, latest, code) == 0
    ensures kind.Some? ==> Streak(h, latest, kind.value) == count
    ensures kind.Some? ==> forall code :: code != "" && code != kind.value ==> Streak(h, latest, code) == 0
  {
  }
}
