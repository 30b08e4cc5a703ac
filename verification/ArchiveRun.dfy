/** Archiving a Run under its network lock, with writes whose responses may be lost. */
module ArchiveRun {
  import opened Domain

  datatype RejectedCode =
    | LockConflictCode | LockUnavailableCode | LeaseInterruptedCode | RunReadFailed | RunStatusNotClosable
    | RunUnknownNotClosable | RunNotTerminal | RunOnHold | RunLive | ArchiveWriteFailed

  datatype PendingCode = ArchiveAuditFailed | AuditConflictCode | LeaseInterruptedAfterArchive

  datatype AuditState = Recorded | Pending(code: PendingCode)

  datatype Verdict =
    | Archived(revision: nat, audit: AuditState)
    | AlreadyArchived(revision: nat)
    | Unconfirmed
    | Rejected(seen: Option<nat>, code: RejectedCode)

  datatype ArchiveOutcome = ArchiveOutcome(runId: string, eventId: string, result: Verdict, lockReleased: bool)

  datatype ArchiveAudit = ArchiveAudit(eventId: string, runId: string, previousStatus: RunStatus, revisionBefore: nat)

  /** AmbiguousWrite: the write has either landed or not. */
  datatype WriteError = AmbiguousWrite | RevisionConflict | AuditConflict | OtherFailure

  /** How many events carry this id. */
  function Events(audits: seq<ArchiveAudit>, eventId: string): nat {
    if audits == [] then 0
    else Events(audits[..|audits| - 1], eventId) + if audits[|audits| - 1].eventId == eventId then 1 else 0
  }

  lemma {:induction false} NoEvent(audits: seq<ArchiveAudit>, eventId: string)
    ensures Events(audits, eventId) == 0 <==> forall a :: a in audits ==> a.eventId != eventId
  {
    if audits != [] {
      var last := |audits| - 1;
      NoEvent(audits[..last], eventId);
      assert audits == audits[..last] + [audits[last]];
    }
  }

  /** What a Run keeps whatever others do: it is never taken out of the archive, and revisions only grow. */
  predicate RunEvolves(before: Stored<Run>, after: Stored<Run>) {
    after.revision >= before.revision >= 1 && (before.value.archived ==> after.value.archived) &&
    (after.revision == before.revision ==> after == before)
  }

  class ArchiveStore {
    var run: Stored<Run>
    var audits: seq<ArchiveAudit>
    /** A write of this very call archived the Run. */
    ghost var archivedHere: bool
    var releases: nat

    ghost predicate Valid()
      reads this
    {
      run.revision >= 1 && (archivedHere ==> run.value.archived)
    }

    /** Anything others may do to the Run and the audit log between two requests. */
    method OthersAct(eventId: string)
      requires Valid()
      modifies this`run, this`audits
      ensures Valid() && RunEvolves(old(run), run) && old(audits) <= audits
      ensures Events(audits, eventId) == Events(old(audits), eventId)
    {
      var value: Run := *;
      var more: nat := *;
      if more > 0 && (run.value.archived ==> value.archived) { run := Stored(value, run.revision + more); }
      var a: ArchiveAudit := *;
      if a.eventId != eventId {
        assert (audits + [a])[..|audits|] == audits;
        audits := audits + [a];
      }
    }

    method GetRun(eventId: string) returns (r: Option<Stored<Run>>)
      requires Valid()
      modifies this`run, this`audits
      ensures Valid() && RunEvolves(old(run), run) && old(audits) <= audits
      ensures Events(audits, eventId) == Events(old(audits), eventId)
      ensures r.Some? ==> r.value == run
    {
      OthersAct(eventId);
      if * { return None; }
      return Some(run);
    }

    /** Writes the archive flag at the expected revision. */
    method ArchiveWrite(expectedRevision: nat, eventId: string) returns (r: Result<Stored<Run>, WriteError>)
      requires Valid()
      modifies this`run, this`audits, this`archivedHere
      ensures Valid() && RunEvolves(old(run), run) && Events(audits, eventId) == Events(old(audits), eventId)
      ensures r.Ok? ==> run.value.archived && r.value == run
      ensures r.Err? && !r.error.AmbiguousWrite? ==> archivedHere == old(archivedHere)
    {
      OthersAct(eventId);
      if * { return Err(AmbiguousWrite); }
      if * { return Err(OtherFailure); }
      if run.revision != expectedRevision { return Err(RevisionConflict); }
      run := Stored(run.value.(archived := true), run.revision + 1);
      archivedHere := true;
      if * { return Err(AmbiguousWrite); }
      return Ok(run);
    }

    /** Event ids are unique keys of the audit log. */
    method AppendAudit(audit: ArchiveAudit) returns (r: Result<(), WriteError>)
      requires Valid() && Events(audits, audit.eventId) <= 1
      modifies this`run, this`audits
      ensures Valid() && RunEvolves(old(run), run) && Events(audits, audit.eventId) <= 1
      ensures old(audits) <= audits
      ensures r.Ok? ==> audit in audits && Events(audits, audit.eventId) == 1
      ensures forall a :: a in audits && a.eventId == audit.eventId ==> a == audit || a in old(audits)
    {
      ghost var before := audits;
      OthersAct(audit.eventId);
      ghost var more := audits[|before|..];
      assert audits == before + more;
      EventsJoin(before, more, audit.eventId);
      NoEvent(more, audit.eventId);
      if * { return Err(AmbiguousWrite); }
      if * { return Err(AuditConflict); }
      if * { return Err(OtherFailure); }
      if exists a :: a in audits && a.eventId == audit.eventId { return Err(OtherFailure); }
      NoEvent(audits, audit.eventId);
      assert (audits + [audit])[..|audits|] == audits;
      audits := audits + [audit];
      if * { return Err(AmbiguousWrite); }
      return Ok(());
    }

    /** The event with this id, if the read succeeds. */
    method GetAudit(eventId: string) returns (r: Option<Option<ArchiveAudit>>)
      requires Valid()
      modifies this`run, this`audits
      ensures Valid() && RunEvolves(old(run), run) && old(audits) <= audits
      ensures Events(audits, eventId) == Events(old(audits), eventId)
      ensures r.Some? && r.value.Some? ==> r.value.value in audits && r.value.value.eventId == eventId
      ensures r.Some? && r.value.None? ==> Events(audits, eventId) == 0
    {
      OthersAct(eventId);
      if * { return None; }
      if a :| a in audits && a.eventId == eventId { return Some(Some(a)); }
      NoEvent(audits, eventId);
      return Some(None);
    }
  }

  lemma {:induction false} EventsJoin(x: seq<ArchiveAudit>, y: seq<ArchiveAudit>, eventId: string)
    ensures Events(x + y, eventId) == Events(x, eventId) + Events(y, eventId)
  {
    if y == [] {
      assert x + y == x;
    } else {
      var last := |y| - 1;
      assert (x + y)[..|x + y| - 1] == x + y[..last] && (x + y)[|x + y| - 1] == y[last];
      EventsJoin(x, y[..last], eventId);
    }
  }

  // ---- One call -----------------------------------------------------------

  function NotClosable(status: RunStatus): Option<RejectedCode> {
    match status
    case RunSuccess => Some(RunStatusNotClosable)
    case RunUnknown => Some(RunUnknownNotClosable)
    case RunCreated => Some(RunNotTerminal)
    case RunRunning => Some(RunNotTerminal)
    case _ => None
  }

  /** The event that archiving this Run leaves. */
  function AuditFor(runId: string, eventId: string, run: Stored<Run>): ArchiveAudit {
    ArchiveAudit(eventId, runId, run.value.status, run.revision)
  }

  /** A Run may be archived once it has failed or was cancelled. */
  predicate Closable(status: RunStatus) {
    status.RunFailed? || status.RunCancelled?
  }

  /** What the first read of the Run says about the result. */
  predicate Answers(read: Option<Stored<Run>>, result: Verdict) {
    match read
    case None => result == Rejected(None, RunReadFailed)
    case Some(run) =>
      if run.value.archived then result == AlreadyArchived(run.revision)
      else if Closable(run.value.status) then
        result.Rejected? ==> result.code in {RunOnHold, RunReadFailed, LeaseInterruptedCode, ArchiveWriteFailed}
      else
        && result.Rejected? && result.seen == Some(run.revision)
        && result.code in {RunStatusNotClosable, RunUnknownNotClosable, RunNotTerminal}
        && (result.code.RunStatusNotClosable? <==> run.value.status.RunSuccess?)
        && (result.code.RunUnknownNotClosable? <==> run.value.status.RunUnknown?)
  }

  /** The store bears the result out. */
  ghost predicate Truthful(store: ArchiveStore, runId: string, eventId: string, read: Option<Stored<Run>>, result: Verdict)
    reads store
  {
    match result
    case Archived(revision, audit) =>
      && store.run.value.archived && revision >= 1
      && (audit.Recorded? ==> Events(store.audits, eventId) == 1)
      && (audit.Recorded? ==> read.Some?)
      && (audit.Recorded? ==> ArchiveAudit(eventId, runId, read.value.value.status, read.value.revision) in store.audits)
    case AlreadyArchived(revision) => store.run.value.archived && revision >= 1 && !store.archivedHere
    case Rejected(seen, _) => !store.archivedHere && (seen.Some? ==> seen.value >= 1)
    case Unconfirmed => true
  }

  /** How the archive write and its retries end. */
  datatype Written = Done(run: Stored<Run>, already: bool) | Stop(result: Verdict)

  ghost predicate WrittenTruly(store: ArchiveStore, w: Written)
    reads store
  {
    match w
    case Done(run, already) => store.run.value.archived && run.revision >= 1 && (already ==> !store.archivedHere)
    case Stop(Rejected(seen, code)) =>
      !store.archivedHere && (seen.Some? ==> seen.value >= 1) && (code.ArchiveWriteFailed? || code.LeaseInterruptedCode?)
    case Stop(Unconfirmed) => true
    case _ => false
  }

  /** The write, a re-read if it failed, and one retry if it was ambiguous and did not land. */
  method WriteArchive(store: ArchiveStore, run: Stored<Run>, eventId: string) returns (w: Written)
    requires store.Valid() && !store.archivedHere
    modifies store`run, store`audits, store`archivedHere
    ensures store.Valid() && Events(store.audits, eventId) == Events(old(store.audits), eventId)
    ensures WrittenTruly(store, w)
  {
    var first := store.ArchiveWrite(run.revision, eventId);
    if first.Ok? { return Done(first.value, false); }
    var reread := store.GetRun(eventId);
    if reread.None? { return Stop(Unconfirmed); }
    if reread.value.value.archived { return Done(reread.value, first.error.RevisionConflict?); }
    if first.error.RevisionConflict? { return Stop(Unconfirmed); }
    if !first.error.AmbiguousWrite? { return Stop(Rejected(Some(reread.value.revision), ArchiveWriteFailed)); }
    if * { return Stop(Rejected(Some(reread.value.revision), LeaseInterruptedCode)); }
    var second := store.ArchiveWrite(reread.value.revision, eventId);
    if second.Ok? { return Done(second.value, false); }
    var final := store.GetRun(eventId);
    if final.None? { return Stop(Unconfirmed); }
    if final.value.value.archived { return Done(final.value, false); }
    return Stop(Rejected(Some(final.value.revision), ArchiveWriteFailed));
  }

  /** The audit event, a look-up if its write was ambiguous, and one retry if it is missing. */
  method RecordAudit(store: ArchiveStore, audit: ArchiveAudit) returns (state: AuditState)
    requires store.Valid() && Events(store.audits, audit.eventId) == 0
    modifies store`run, store`audits
    ensures store.Valid() && RunEvolves(old(store.run), store.run) && Events(store.audits, audit.eventId) <= 1
    ensures state.Recorded? ==> audit in store.audits && Events(store.audits, audit.eventId) == 1
  {
    NoEvent(store.audits, audit.eventId);
    var first := store.AppendAudit(audit);
    if first.Ok? { return Recorded; }
    if first.error.AuditConflict? { return Pending(AuditConflictCode); }
    if !first.error.AmbiguousWrite? { return Pending(ArchiveAuditFailed); }
    var found := store.GetAudit(audit.eventId);
    if found.None? { return Pending(ArchiveAuditFailed); }
    if found.value.Some? {
      if found.value.value != audit { return Pending(AuditConflictCode); }
      NoEvent(store.audits, audit.eventId);
      return Recorded;
    }
    var second := store.AppendAudit(audit);
    if second.Ok? { return Recorded; }
    return Pending(ArchiveAuditFailed);
  }

  /** Everything between acquiring the lock and releasing it. */
  method WhileLocked(store: ArchiveStore, runId: string, eventId: string) returns (result: Verdict, ghost read: Option<Stored<Run>>)
    requires store.Valid() && !store.archivedHere && Events(store.audits, eventId) == 0
    modifies store`run, store`audits, store`archivedHere
    ensures store.Valid() && Truthful(store, runId, eventId, read, result) && Answers(read, result)
  {
    var run := store.GetRun(eventId);
    if run.None? { return Rejected(None, RunReadFailed), run; }
    if run.value.value.archived { return AlreadyArchived(run.value.revision), run; }
    var code := NotClosable(run.value.value.status);
    if code.Some? { return Rejected(Some(run.value.revision), code.value), run; }
    if * { return Rejected(Some(run.value.revision), RunOnHold), run; }
    if * { return Rejected(Some(run.value.revision), RunReadFailed), run; }
    if * { return Rejected(Some(run.value.revision), LeaseInterruptedCode), run; }
    var w := WriteArchive(store, run.value, eventId);
    if w.Stop? { return w.result, run; }
    if w.already { return AlreadyArchived(w.run.revision), run; }
    if * { return Archived(w.run.revision, Pending(LeaseInterruptedAfterArchive)), run; }
    var state := RecordAudit(store, AuditFor(runId, eventId, run.value));
    return Archived(w.run.revision, state), run;
  }

  /**
   * One call of archive-run. What it reports is borne out by the store, and a lock
   * that was acquired gets exactly one release.
   */
  method ArchiveRun(store: ArchiveStore, runId: string, eventId: string) returns (o: ArchiveOutcome, ghost acquired: bool, ghost read: Option<Stored<Run>>)
    requires store.Valid() && !store.archivedHere && Events(store.audits, eventId) == 0
    modifies store
    ensures store.Valid() && Truthful(store, runId, eventId, read, o.result) && o.runId == runId && o.eventId == eventId
    ensures acquired ==> Answers(read, o.result)
    ensures store.releases == old(store.releases) + if acquired then 1 else 0
    ensures !acquired ==> o.lockReleased && o.result.Rejected? && o.result.seen.None?
    ensures !acquired ==> o.result.code.LockConflictCode? || o.result.code.LockUnavailableCode?
  {
    if * {
      var held: bool := *;
      var code := if held then LockConflictCode else LockUnavailableCode;
      return ArchiveOutcome(runId, eventId, Rejected(None, code), true), false, None;
    }
    var result;
    result, read := WhileLocked(store, runId, eventId);
    store.releases := store.releases + 1;
    var released: bool := *;
    return ArchiveOutcome(runId, eventId, result, released), true, read;
  }
}
