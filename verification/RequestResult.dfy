/** What the request poller makes of the printed outcome and the exit code of archive-run. */
module RequestResult {
  import opened Domain
  import opened Archiving = ArchiveRun

  /** The printed outcome as a reader finds it: any field may be missing or wrong. */
  datatype Output = Output(
    runId: string,
    eventId: string,
    lockReleased: bool,
    outcome: string,
    revision: Option<int>,
    audit: Option<string>,
    code: Option<string>)

  datatype Process = Process(spawned: bool, truncated: bool, exitCode: int)

  datatype RequestState = RequestDone | RequestRejected

  datatype Classified = Classified(state: RequestState, code: string)

  const MAX_SAFE := 0x1f_ffff_ffff_ffff

  function PendingText(code: PendingCode): string {
    match code
    case ArchiveAuditFailed => "ARCHIVE_AUDIT_FAILED"
    case AuditConflictCode => "AUDIT_CONFLICT"
    case LeaseInterruptedAfterArchive => "LEASE_INTERRUPTED_AFTER_ARCHIVE"
  }

  function RejectedText(code: RejectedCode): string {
    match code
    case LockConflictCode => "LOCK_CONFLICT"
    case LockUnavailableCode => "LOCK_UNAVAILABLE"
    case LeaseInterruptedCode => "LEASE_INTERRUPTED"
    case RunReadFailed => "RUN_READ_FAILED"
    case RunStatusNotClosable => "RUN_STATUS_NOT_CLOSABLE"
    case RunUnknownNotClosable => "RUN_UNKNOWN_NOT_CLOSABLE"
    case RunNotTerminal => "RUN_NOT_TERMINAL"
    case RunOnHold => "RUN_ON_HOLD"
    case RunLive => "RUN_LIVE"
    case ArchiveWriteFailed => "ARCHIVE_WRITE_FAILED"
  }

  const PENDING_CODES := {"ARCHIVE_AUDIT_FAILED", "AUDIT_CONFLICT", "LEASE_INTERRUPTED_AFTER_ARCHIVE"}

  const REJECTED_CODES := {
    "LOCK_CONFLICT", "LOCK_UNAVAILABLE", "LEASE_INTERRUPTED", "RUN_READ_FAILED", "RUN_STATUS_NOT_CLOSABLE",
    "RUN_UNKNOWN_NOT_CLOSABLE", "RUN_NOT_TERMINAL", "RUN_ON_HOLD", "RUN_LIVE", "ARCHIVE_WRITE_FAILED"}

  /** The line that archive-run prints. */
  function Printed(o: ArchiveOutcome): Output {
    match o.result
    case Archived(revision, Recorded) =>
      Output(o.runId, o.eventId, o.lockReleased, "ARCHIVED", Some(revision), Some("RECORDED"), None)
    case Archived(revision, Pending(code)) =>
      Output(o.runId, o.eventId, o.lockReleased, "ARCHIVED", Some(revision), Some("PENDING"), Some(PendingText(code)))
    case AlreadyArchived(revision) =>
      Output(o.runId, o.eventId, o.lockReleased, "ALREADY_ARCHIVED", Some(revision), None, None)
    case Unconfirmed =>
      Output(o.runId, o.eventId, o.lockReleased, "UNCONFIRMED", None, None, Some("ARCHIVE_UNCONFIRMED"))
    case Rejected(seen, code) =>
      Output(o.runId, o.eventId, o.lockReleased, "REJECTED",
             if seen.Some? then Some(seen.value) else None, None, Some(RejectedText(code)))
  }

  /** The exit code of archive-run: zero only for a finished, audited and unlocked archive. */
  function ExitCode(o: ArchiveOutcome): int {
    match o.result
    case Archived(_, Recorded) => if o.lockReleased then 0 else 1
    case AlreadyArchived(_) => if o.lockReleased then 0 else 1
    case _ => 1
  }

  predicate RevisionValid(revision: Option<int>) {
    revision.Some? && 1 <= revision.value <= MAX_SAFE
  }

  predicate ValidOutput(v: Output) {
    && v.runId != "" && v.eventId != ""
    && if v.outcome == "ARCHIVED" then
         RevisionValid(v.revision) &&
         (if v.audit == Some("RECORDED") then v.code.None?
          else v.audit == Some("PENDING") && v.code.Some? && v.code.value in PENDING_CODES)
       else if v.outcome == "ALREADY_ARCHIVED" then RevisionValid(v.revision) && v.code.None?
       else if v.outcome == "UNCONFIRMED" then v.revision.None? && v.code == Some("ARCHIVE_UNCONFIRMED")
       else
         v.outcome == "REJECTED" && (v.revision.None? || RevisionValid(v.revision)) &&
         v.code.Some? && v.code.value in REJECTED_CODES
  }

  function ExpectedExitCode(v: Output): int {
    if (v.outcome == "ARCHIVED" && v.audit == Some("RECORDED") && v.lockReleased) ||
       (v.outcome == "ALREADY_ARCHIVED" && v.lockReleased)
    then 0 else 1
  }

  const INVALID := Classified(RequestRejected, "CHILD_RESULT_INVALID")

  function ClassifyArchiveRun(output: Option<Output>, process: Process): Classified {
    if output.None? || !ValidOutput(output.value) || !process.spawned || process.truncated ||
       process.exitCode != ExpectedExitCode(output.value)
    then INVALID
    else
      var v := output.value;
      if v.outcome == "ARCHIVED" then
        if v.audit == Some("PENDING") then Classified(RequestDone, "RUN_ARCHIVED_AUDIT_PENDING")
        else if !v.lockReleased then Classified(RequestDone, "RUN_ARCHIVED_LOCK_UNRELEASED")
        else Classified(RequestDone, "RUN_ARCHIVED")
      else if v.outcome == "ALREADY_ARCHIVED" then
        if v.lockReleased then Classified(RequestDone, "RUN_ALREADY_ARCHIVED")
        else Classified(RequestDone, "RUN_ARCHIVED_LOCK_UNRELEASED")
      else if v.outcome == "UNCONFIRMED" then Classified(RequestRejected, "ARCHIVE_UNCONFIRMED")
      else if v.code.Some? then Classified(RequestRejected, v.code.value)
      else INVALID
  }

  /** The revision an outcome reports is one the store can have. */
  predicate RevisionsSafe(o: ArchiveOutcome) {
    match o.result
    case Archived(revision, _) => 1 <= revision <= MAX_SAFE
    case AlreadyArchived(revision) => 1 <= revision <= MAX_SAFE
    case Rejected(seen, _) => seen.None? || 1 <= seen.value <= MAX_SAFE
    case Unconfirmed => true
  }

  /** What the code of a request says about the outcome of its call. */
  predicate CodeTells(code: string, o: ArchiveOutcome) {
    && (code == "RUN_ARCHIVED" <==> o.result.Archived? && o.result.audit.Recorded? && o.lockReleased)
    && (code == "RUN_ALREADY_ARCHIVED" <==> o.result.AlreadyArchived? && o.lockReleased)
    && (code == "RUN_ARCHIVED_AUDIT_PENDING" <==> o.result.Archived? && o.result.audit.Pending?)
    && (code == "RUN_ARCHIVED_LOCK_UNRELEASED" <==>
         !o.lockReleased && (o.result.AlreadyArchived? || (o.result.Archived? && o.result.audit.Recorded?)))
    && (code == "ARCHIVE_UNCONFIRMED" <==> o.result.Unconfirmed?)
    && (o.result.Rejected? ==> code == RejectedText(o.result.code))
  }

  /**
   * An outcome that arrives intact is never called invalid, and the request is DONE
   * exactly when the outcome says that the Run is archived.
   */
  lemma IntactOutcomeIsClassified(o: ArchiveOutcome)
    requires o.runId != "" && o.eventId != "" && RevisionsSafe(o)
    ensures var c := ClassifyArchiveRun(Some(Printed(o)), Process(true, false, ExitCode(o)));
      c != INVALID && (c.state.RequestDone? <==> o.result.Archived? || o.result.AlreadyArchived?) && CodeTells(c.code, o)
  {
    match o.result
    case Archived(_, Pending(code)) => assert PendingText(code) in PENDING_CODES;
    case Rejected(_, code) =>
      assert RejectedText(code) in REJECTED_CODES && RejectedText(code) != "CHILD_RESULT_INVALID";
    case _ =>
  }

  /** Whatever is printed, DONE is only reported for a well-formed outcome whose exit code agrees. */
  lemma DoneIsWellFounded(output: Option<Output>, process: Process)
    requires ClassifyArchiveRun(output, process).state.RequestDone?
    ensures output.Some? && ValidOutput(output.value) && RevisionValid(output.value.revision)
    ensures process.exitCode == 0 <==> ClassifyArchiveRun(output, process).code in {"RUN_ARCHIVED", "RUN_ALREADY_ARCHIVED"}
    ensures output.value.outcome == "ARCHIVED" || output.value.outcome == "ALREADY_ARCHIVED"
    ensures process.spawned && !process.truncated && process.exitCode == ExpectedExitCode(output.value)
  {
  }

  /** So a request that ends DONE after one call of archive-run tells the truth: the Run is archived. */
  method ArchiveRequest(store: ArchiveStore, runId: string, eventId: string) returns (c: Classified)
    requires store.Valid() && !store.archivedHere && Events(store.audits, eventId) == 0
    requires runId != "" && eventId != ""
    modifies store
    ensures store.Valid()
    ensures c.state.RequestDone? ==> store.run.value.archived
    ensures c.code == "RUN_ARCHIVED" ==> Events(store.audits, eventId) == 1 && store.releases == old(store.releases) + 1
  {
    var o, acquired, read := Archiving.ArchiveRun(store, runId, eventId);
    var printed, process := Some(Printed(o)), Process(true, false, ExitCode(o));
    if * { printed := None; }
    if * { process := Process(true, true, ExitCode(o)); }
    c := ClassifyArchiveRun(printed, process);
  }
}
