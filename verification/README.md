# Verified model of ksql-flownet

ksql-flownet runs networks of SQL jobs. A network is a DAG of nodes; one business key of a network is one Run, with a
Node State per node and numbered Attempts per Node State, kept in a revision-checked record store. Invocations
(new, resume, rerun-from) walk the DAG one node at a time under a network lock with a lease, and may die between any
two writes. This project models that machinery in Dafny and proves what it is for: a job that must not run twice is
never started twice, a node never starts before its dependencies succeeded, a crash at any point is either repaired
from evidence or refused, the lock has at most one holder, and a bundle is read back exactly as it was written.

## How the model is built

* The store is a class (`Repository`) whose methods make single writes. Every write may also be the moment at which
  the process dies; it then returns `ProcessDied` and changes nothing. What a caller promises on an error therefore
  holds at each of its crash points. `StoreContract` says what each write does, as functions on values.
* `Invariants.Consistent(def, plain)` is the invariant of every reachable store. It speaks of one node at a time
  through a `View` (record, attempts by number, resolved outcomes). `plain` says that no rerun-from has happened:
  then it also bounds failure streaks, keeps all older attempts terminal and makes every BLOCKED node name a blocker.
* `Writes` shows for each kind of write why it keeps a view sound, `StoreWrites` and `GuardedWrites` lift that to the
  whole store, and the operations (`Executor`, `Scheduler`, `ReconcileRun`, `Adjudication`, `Rerun`, `ResolveNode`,
  `EnsureRun`) are methods that make individual calls. `History.RunHistory` puts them together: any sequence of
  invocations, stand-alone gates, resolutions and archivings, each of which may die anywhere.
* `Meaning` says what a walk should compute without mentioning an order; the scheduler is proved against it.
* What a decision is is stated apart from the function that takes it: `Executor.Evidenced` for the end of an attempt,
  `Adjudication.OrphanEnds` for an orphan, `StoreContract.Tells` for the status of a Run, `Scheduler.ClosedTruly` and
  `Scheduler.TrueReport` for what an invocation says at its end, `Rerun.Rerunnable` and `ResolveNode.Acceptable` for what
  is refused. The methods ensure these statements of what they have stored.
* Leases (`Lease`) have one clock in milliseconds. Locks (`LockStore`, `NetworkLock`) work at the granularity of
  single requests: before each request anybody else may take any number of steps that are allowed to them
  (`LockStore.Evolves`), and a request may fail in transport whether or not it landed. Every request a caller makes
  itself is proved to be one that everybody else is prepared for. Stored date-times lose their seconds
  (src/persistence/kintone/design-notes.ts:13), and a heartbeat whose fence check has passed is pending until its write
  lands or fails, so that it may land after its lease is gone. `LeaseWatch` puts the monitor on its lock record,
  `ForcedRelease` the operator against it.
* `CrashRecovery` breaks one attempt off at any of its writes and follows what the next invocation makes of it;
  `Examples` holds concrete stores for what can go wrong.
* `ZipFormat` to `ZipRoundTrip` work on bytes, `Crc` on 32-bit words. The reader and the writer take the checksum as
  a parameter; `Crc.Checksum` is the one they are used with.
* Attempt ids, tokens, job evidence, heartbeat outcomes, operator actions and the contents of job logs are parameters
  or arbitrary values. SHA-256, canonical JSON and its parser are parameters of which only "parsing undoes printing"
  is assumed. White space is ASCII white space. Integers are unbounded except where a field has a width.

Where the code does not do what one might expect of it, the model follows the code and says so:

* A rerun-from resets its nodes one write at a time; dying in between leaves started nodes above WAITING ones
  (`Rerun.InterruptedRerunIsUnsafe`; `Rerun.ResetSafeIff` gives the exact condition).
* A rerun-from does not refuse a node that is still RUNNING for a dead invocation, so older attempts are only known to
  be terminal without one.
* A stop leaves the loop without recomputing the aggregate. After it the Run carries the aggregate of its nodes if and
  only if this walk has attempted or blocked a node, or the Run already carried the aggregate of the prepared states
  when the walk began (`Scheduler.RunSequentialScheduler`, through `StoppedAs`). A new Run always does
  (`Outcomes.NewRunStopsFresh`); a resume that reopens the one failed node does not (`Outcomes.StoppedResumeIsStale`).
* The gate refuses a recorded resolution of an attempt that has been retried since, for ever
  (`Recovery.RetriedResolutionIsRefused`, with a store it happens to in `Recovery.RetriedResolutionExample`);
  `Recovery.RefusedIff` says exactly when a Run is refused.
* Dying between the two writes that close a never-started attempt turns WAITING into CANCELLED
  (`Recovery.CrashBetweenTerminalWrites`).
* A heartbeat writes by record key, so it can extend a successor's lease, exactly if its own lease is in nobody's hands
  any more (`StaleHeartbeats.StaleHeartbeatMayHitSuccessor`).
* For the successor this means that its record is only left alone if no heartbeat of another lease is pending at its
  revision (`StaleHeartbeats.UntouchedIff`). One that was delayed for longer than a lease takes the successor's expiry
  back, and force-unlock no longer refuses while the monitor says HELD
  (`StaleHeartbeats.OldHeartbeatShortensSuccessor`). A lease that no such heartbeat can reach (`NetworkLock.Shielded`)
  is protected while its monitor says HELD (`LeaseWatch.HeldMeansActive`, `ForcedRelease.ForceUnlockHeld`).
* The response of a lost heartbeat is confirmed by comparing stored with sent date-times, which only agree on whole
  minutes; otherwise the lease becomes uncertain at the next tick (`NetworkLock.ConfirmRenewal`).
* The lease monitor accepts any positive safety margin, but HELD can be trusted until the next tick exactly when the
  margin is at least one heartbeat interval or the first failure already ends it (`Lease.SafetyMarginIsNeeded`).
* The length limit of query chunks is kept exactly when every single value keeps it (`Keyset.ChunksFitIffValuesDo`).
* An invocation whose lease was lost need not end as NETWORK_LEASE_INTERRUPTED: after a drained control-plane read the
  lease may be confirmed again for final writes, and the invocation ends with the code of the aggregate, such as
  NODES_DEFERRED (`Outcomes.ReconfirmedLeaseIsDeferred`). It ends so if and only if the question after some attempt and
  its aggregate found the lease no longer HELD, which is the event AttemptClosed(false) in the log
  (`Scheduler.RunSequentialScheduler`).
* The archive writer checks offsets but not the size of its directory; a directory of more than 32 bits fails when its
  size field is written (`DirectoryTooLarge`).

## Model

| member | source | states |
|---|---|---|
| TopologicalSort.StableTopologicalSort | src/dag/topological-sort.ts:8-47 | at each place the ready node of least definition index is placed, until no node is ready; the nodes left over are returned in definition order |
| TopologicalSort.SortResult | src/dag/topological-sort.ts:8-47 | with known dependencies the left-over nodes are the largest set whose every member depends on a member, empty exactly when the network is acyclic, and the order is the least of all topological orders |
| Dag.GreedyIsLeast | src/dag/topological-sort.ts:28-42 | a greedy complete order precedes every other topological order by definition index |
| Dag.LeftOverIsDeadlocked | src/dag/topological-sort.ts:43-47 | what an exhausted order leaves out is the largest deadlocked set |
| TopologicalSort.BuildDependents | src/dag/topological-sort.ts:11-22 | the dependent lists name, for each node, exactly its direct dependents, as often as they declare it |
| TopologicalSort.Place | src/dag/topological-sort.ts:30-40 | placing a node leaves for every node the number of its dependencies not yet placed, and queues exactly the newly free ones |
| Descendants.DescendantsIncludingSelf | src/dag/descendants.ts:17-95 | refuses unknown nodes and invalid or cyclic networks, otherwise returns the node and everything that transitively depends on it, in definition order |
| Descendants.DescendantsIncludingRoots | src/orchestration/sequential-scheduler.ts:843-862 | the fixpoint sweep ends with exactly the roots and their transitive dependents |
| Descendants.SearchEqualsFixpoint | src/dag/descendants.ts:17-95 | run on the same network and root, the selection of rerun-from and the exclusion sweep of the scheduler find the same nodes |
| Descendants.DescendantsLeast | src/dag/descendants.ts:82-94 | the descendants are contained in every set that holds the roots and is closed under dependents |
| Repository.Repository.UpsertNodeState | src/persistence/in-memory-repository.ts:264-329 | a node write is stored exactly when the record is new and WAITING, or the revision matches, the correlated resolution exists and the transition is allowed; otherwise nothing changes |
| Repository.Repository.CreateAttempt | src/persistence/in-memory-repository.ts:331-376 | the next attempt number is created once, with the state revision it starts from; the same id is returned again, another id is a conflict |
| Repository.Repository.ChangeAttempt | src/persistence/in-memory-repository.ts:378-429 | baseline, start and final result are written at the expected revision in their lifecycle order only |
| Repository.Repository.AppendResolution | src/persistence/in-memory-repository.ts:431-447 | a resolution is appended for an attempt that is UNKNOWN or FAILED |
| Repository.Repository.UpdateRunAggregate | src/persistence/in-memory-repository.ts:163-171 | the Run status is replaced at the expected revision |
| StoreLaws.TransitionsIff | src/persistence/state-transition.ts:3-21 | a node may stay as it is, be taken up or blocked from WAITING, go back to WAITING unless it is UNKNOWN or SKIPPED, and end from RUNNING or UNKNOWN |
| StoreLaws.OneWriterPerRevision | src/persistence/in-memory-repository.ts:264-329 | of two writers that read the same revision of a node state at most one is accepted; an accepted write stores its value at the next revision and nothing else |
| StoreLaws.EndsAreGuarded | src/persistence/in-memory-repository.ts:303-329 | no accepted write reopens a FAILED or CANCELLED node that may not be repeated, and FAILED only gives way to the outcome of a recorded resolution |
| StoreLaws.OneAttemptPerNumber | src/persistence/in-memory-repository.ts:331-376 | creating an attempt again returns the first one, and another attempt does not get its number |
| StoreLaws.OneAttemptWriterPerRevision | src/persistence/in-memory-repository.ts:378-429 | of two writers that read the same revision of an attempt at most one is accepted, and no other attempt changes |
| StoreLaws.EndedAttemptsStay | src/persistence/in-memory-repository.ts:378-429 | an attempt that has ended never changes again |
| StoreLaws.AttemptsKeepIdentity | src/persistence/in-memory-repository.ts:378-429 | no write changes what an attempt belongs to; it starts at most once, its baseline is fixed by then, and only its end says how it ended |
| StoreLaws.OneAggregatePerRevision | src/persistence/in-memory-repository.ts:163-171 | of two aggregates computed from the same revision of the Run at most one is stored |
| StoreLaws.StopTransitionsIff | src/persistence/in-memory-repository.ts:50-58 | a stop request is accepted at most once and released at last, and only a released one may be made again |
| Invariants.OneNodeChanged | src/persistence/in-memory-repository.ts:264-376 | a write that touches one node keeps the invariant of the whole store when it keeps it for that node |
| StoreWrites.StateWritten | src/persistence/in-memory-repository.ts:303-329 | an accepted node write changes the view of its node alone |
| StoreWrites.AttemptInserted | src/persistence/in-memory-repository.ts:331-376 | creating the next attempt of a WAITING node keeps the invariant and opens the creation window |
| StoreWrites.AttemptWritten | src/persistence/in-memory-repository.ts:378-429 | writing the attempt of a RUNNING node keeps the invariant |
| Writes.Started | src/orchestration/sequential-scheduler.ts:366-383 | the RUNNING write takes up the attempt created just before it and closes the creation window |
| Writes.LatestWritten | src/executor/attempt-executor.ts:218-270 | changing the latest attempt of a RUNNING node keeps numbers, bases and failure streaks sound |
| Writes.Reopened | src/orchestration/sequential-scheduler.ts:779-813 | reopening a BLOCKED node, or an idempotent failure below its limit, keeps at-most-once and leaves room for one more failure |
| Writes.ResolvedTo | src/orchestration/resolve-node.ts:44-166 | a resolved outcome may replace UNKNOWN or a FAILED that must not be retried |
| GuardedWrites.PutState | src/persistence/in-memory-repository.ts:303-329 | a guarded node write changes exactly its record by one revision or nothing, and keeps the invariant |
| GuardedWrites.PutAttempt | src/persistence/in-memory-repository.ts:378-429 | a guarded attempt write changes exactly its record or nothing, and keeps the invariant |
| Executor.DecideIsEvidenceBased | src/executor/attempt-executor.ts:102-216 | a job result is believed exactly when it is corroborated, and then with its own code; a node goes back to WAITING exactly when its job provably did not run, with its attempt closed as PREPARE_FAILED; everything else is UNKNOWN, as FORCED_TERMINATION, NO_EXECUTION_RESULT or INVALID_EXECUTION_RESULT by its cause; no other decision fits the evidence |
| Executor.Execute | src/executor/attempt-executor.ts:84-279 | a finished execution stores the attempt as started and ended and then the matching node state, with exactly the status and code that the evidence asks for; any failure or crash leaves the node RUNNING on an attempt that still runs or has ended so |
| Executor.RecordTerminal | src/executor/attempt-executor.ts:218-270 | the attempt ends before its node state does, and the node keeps all of its record but status and active attempt; wherever it breaks off the attempt still runs or has ended exactly so |
| Executor.EndsSound | src/executor/attempt-executor.ts:195-270 | the node state that follows an ended attempt keeps the invariant |
| Executor.ControlPlane | src/orchestration/sequential-scheduler.ts:912-949 | after a transport failure an operation only succeeds with a lease confirmed again; HELD never comes back |
| Lease.LeaseMonitor.Tick | src/persistence/network-lock.ts:524-597 | HELD is left on a lost fence, at the failure threshold or inside the safety margin, never re-entered, and while HELD the lease reaches past the next tick |
| Lease.LeaseMonitor.ConfirmLeaseForFinalWrite | src/persistence/network-lock.ts:557-567 | results may be written after an uncertain lease exactly when one heartbeat renews it |
| LeaseWatch.AcquireAndWatch | src/persistence/network-lock.ts:145-216 | a lease acquired at its first revision, out of the reach of older heartbeats, is stored at least as long as it was granted to its monitor |
| LeaseWatch.Tick | src/persistence/network-lock.ts:535-597 | a tick heartbeats its own record or nothing, a lost fence ends HELD, and a protected lease stays protected however the heartbeat ends |
| LeaseWatch.HeldMeansActive | src/persistence/network-lock-recovery.ts:486-495 | while the monitor is HELD and its next tick is not overdue, its lease has not expired and the record read under its key is its own and still active, although its expiry is stored to the minute |
| Lease.SafetyMarginIsNeeded | src/persistence/network-lock.ts:583-626 | HELD can be trusted until the next tick if and only if the safety margin is at least one heartbeat interval or the first failure ends HELD |
| Lease.StoredTimeIsMinute | src/persistence/kintone/design-notes.ts:13 | a date-time is stored as the last full minute that is not later |
| NodeSteps.UpdateAggregate | src/orchestration/sequential-scheduler.ts:886-910 | the stored Run status is the one that tells what the given states are, only while results may be persisted |
| StoreContract.AggregateTells | src/domain/run-aggregate.ts:3-19 | a Run status is the aggregate if and only if it is UNKNOWN exactly for some UNKNOWN node, RUNNING exactly without one for some RUNNING node or a started Run with nothing wrong and something left to do, FAILED exactly without both for some FAILED or BLOCKED node, CANCELLED exactly without all four for some CANCELLED node, SUCCESS exactly for all nodes SUCCESS, and CREATED otherwise |
| NodeSteps.BlockNode | src/orchestration/sequential-scheduler.ts:274-288 | a WAITING or BLOCKED node becomes BLOCKED by exactly the failed dependencies, under a held lease |
| NodeSteps.CheckHold | src/orchestration/sequential-scheduler.ts:315-356 | the answer is whether a hold is stored at the last read of the stop request; a fresh request is accepted, a conflict is re-read |
| NodeSteps.StartNode | src/orchestration/sequential-scheduler.ts:366-383 | the next attempt is created and then taken up by the RUNNING state; dying in between leaves only the creation window |
| NodeSteps.RunNode | src/orchestration/sequential-scheduler.ts:385-482 | the stored attempt and its node end with exactly the status and code that the work justifies; a rejected path ends FAILED with its own code and without counting as started, and a job keeps the input baseline it ran with |
| NodeSteps.WorkIsJustified | src/orchestration/sequential-scheduler.ts:385-482 | what an attempt ends with is the one thing its work justifies: FAILED with the code of a rejected path, or what the evidence of its run asks for |
| NodeSteps.FinalizeIoPathFailure | src/orchestration/sequential-scheduler.ts:692-754 | a rejected input or output path ends the attempt and its node FAILED with its code |
| RetryBrake.RetryBrakeForNode | src/orchestration/sequential-scheduler.ts:820-841 | the brake holds exactly when some failure code ends the history three times or more, and names the full length of that streak |
| Invariants.TrimCuts | src/orchestration/sequential-scheduler.ts:834 | failure codes are compared without exactly the white space at both ends |
| ResumeStates.PrepareResumeStates | src/orchestration/sequential-scheduler.ts:756-818 | exactly the BLOCKED and the retryable, unbraked nodes are reopened, nothing else changes, and the roots are exactly the UNKNOWN, unrepeatable and braked nodes |
| ResumeStates.ReopenedOrRoot | src/orchestration/sequential-scheduler.ts:756-818 | in a resume a node blocks its dependents exactly if it is either reopened or taken out as a root; without a resume nothing is reopened |
| Choices.VisitedMeaning | src/orchestration/sequential-scheduler.ts:243-313 | in a safe network a visit gives its node the node's meaning, and blocks only for a failed dependency |
| Choices.FailedInPlace | src/orchestration/sequential-scheduler.ts:264-274 | the dependencies that block a node are listed each in its own place, in the order they are declared |
| Choices.ChoiceTells | src/orchestration/sequential-scheduler.ts:240-313 | why a visit decides as it does: a node is preserved exactly if it has succeeded, skipped exactly if a rerun did not select it, deferred only over an unfinished dependency, and started only if it is WAITING, not excluded and nothing it depends on failed or is unfinished |
| Choices.ExcludedIsBlocked | src/orchestration/sequential-scheduler.ts:815-869 | an excluded node that is no root has a dependency that blocks it |
| Choices.ReachedOneMore | src/orchestration/sequential-scheduler.ts:240-513 | visiting the next node leaves the meaning of all visited nodes in place |
| Choices.RerunChoice | src/orchestration/sequential-scheduler.ts:243-313 | in a rerun a visit leaves an unselected node as it is and gives a selected WAITING node BLOCKED, WAITING or its result by its dependencies |
| Choices.RerunOneMore | src/orchestration/sequential-scheduler.ts:240-513 | visiting the next node of a rerun leaves in place what the visited nodes have come to |
| Meaning.MeaningIsUnique | src/orchestration/sequential-scheduler.ts:236-514 | the result of a walk does not depend on which topological order is used |
| Meaning.BlockedIffUnderFailure | src/orchestration/sequential-scheduler.ts:266-288 | in a new Run exactly the strict descendants of nodes that ended FAILED, CANCELLED or UNKNOWN are BLOCKED |
| Visit.Clear | src/orchestration/sequential-scheduler.ts:315-364 | a stop is reported exactly if a hold is stored; a node is cleared only right after a read that saw none and a heartbeat that renewed a held lease |
| Visit.VisitStart | src/orchestration/sequential-scheduler.ts:314-512 | a started node ends with the status of its work and the Run with the aggregate; a stop or a lost lease starts nothing and leaves Run and states as they were; the loop is left as interrupted exactly if the question after the attempt says so |
| Visit.AtMostOneAttemptAfterHold | src/orchestration/sequential-scheduler.ts:315-383 | once a stop stays in force an invocation makes at most one more attempt |
| Visit.NoAttemptAfterLoss | src/orchestration/sequential-scheduler.ts:357-364 | once the lease was seen lost no attempt is made any more |
| Scheduler.VisitNode | src/orchestration/sequential-scheduler.ts:240-514 | blocking or starting a node changes exactly its record and leaves the Run with the aggregate, every other outcome changes nothing stored; exactly this node is added to the reported lists |
| Scheduler.VisitAll | src/orchestration/sequential-scheduler.ts:236-514 | a walk that comes to its end leaves every node with its meaning, or in a rerun with what its selection makes of it; every exit keeps the store consistent and the noted results true; a walk that was stopped has left out at least one node and has written nothing unless it acted on some |
| Scheduler.RunSequentialScheduler | src/orchestration/sequential-scheduler.ts:139-602 | whatever happens the store stays consistent and dependency safe, every attempt is fenced by a held lease and a read that saw no stop, a complete walk gives every node its meaning, a rerun attempts selected nodes only, leaves every other record alone and gives its WAITING nodes what their dependencies and jobs make of them, a resume of a fresh invocation finds every started node explained by an ended attempt, the stored Run status tells what the nodes are or, after a stop, is the aggregate exactly if the walk acted or it was before, status and code of the close say what the nodes are, every node is reported as it is, and the invocation ends NETWORK_LEASE_INTERRUPTED exactly if the lease was found lost after an attempt |
| Scheduler.ClosedIsTrue | src/orchestration/sequential-scheduler.ts:516-536 | an invocation that was not cut short closes FAILED exactly if no node is UNKNOWN or RUNNING and some node is FAILED or BLOCKED, with the last path failure as its code if there was one; NODE_CANCELLED exactly if none of the four occurs and some node is CANCELLED, and NODES_DEFERRED for whatever else is neither SUCCESS nor UNKNOWN |
| Scheduler.LastRejectionIff | src/orchestration/sequential-scheduler.ts:475-481 | the path failure of an invocation is the code of its last attempt that was rejected for a missing or changed input file or its output path |
| Scheduler.ReportGrows | src/orchestration/sequential-scheduler.ts:240-502 | one more visit keeps the noted results true: the status is the one stored, an attempted node counts as executed or, if it is WAITING again, as deferred, a blocked one as blocked, and a node that is left alone as preserved exactly if it has succeeded |
| Scheduler.ReportIsTrue | src/orchestration/sequential-scheduler.ts:538-552 | the report names every node with its stored status and what was done about it; nodes that were not reached count as deferred |
| Scheduler.Finish | src/orchestration/sequential-scheduler.ts:516-553 | the closing status and code follow from the exit, the aggregate and the last path failure |
| Outcomes.NewRunResult | src/orchestration/sequential-scheduler.ts:236-536 | a new Run walked to its end has one possible result and blocks exactly what lies below a bad end |
| Outcomes.AllJobsSucceed | src/orchestration/sequential-scheduler.ts:236-536 | if every job succeeds every node ends SUCCESS |
| Outcomes.SuccessIsTrue | src/orchestration/sequential-scheduler.ts:991-1008 | an invocation reports success exactly when it was not cut short and every node succeeded, and UNKNOWN exactly when some node is |
| Outcomes.RerunFromNode | src/orchestration/sequential-scheduler.ts:243-313 | a rerun from a node, from its request to the end of its walk: only the node and its descendants are attempted, all other records stay, and each of the selected nodes ends BLOCKED if it is excluded or a dependency blocks it, WAITING if a dependency is unfinished, and otherwise as its work does |
| Outcomes.NewRunStopsFresh | src/orchestration/sequential-scheduler.ts:344-355 | a stop cannot leave a new Run with a stale status |
| Outcomes.StoppedResumeIsStale | src/orchestration/sequential-scheduler.ts:344-355 | whenever a stop ends the resume of a Run whose one node had failed, the Run still says FAILED over a WAITING node |
| Outcomes.ReconfirmedLeaseIsDeferred | src/orchestration/sequential-scheduler.ts:357-360 | a lease confirmed again during a drained stop read lets the invocation end NODES_DEFERRED |
| Adjudication.AdjudicateOrphans | src/orchestration/orphan-attempt-adjudication.ts:49-143 | attempt and node of exactly the orphans end as their job log says, attempt first, each write behind a heartbeat: SUCCESS for SUCCESS and NO_DATA, FAILED for FAILED, ABORTED and TIMEOUT, CANCELLED for CANCELLED, each with its code and regardless of case, and UNKNOWN for every other text and for no log; no other node or attempt changes |
| Adjudication.OrphanDecided | src/orchestration/orphan-attempt-adjudication.ts:207-228 | the decision about an orphan is the one its job log says, read letter by letter regardless of case |
| Adjudication.RecordDecision | src/orchestration/orphan-attempt-adjudication.ts:92-139 | an orphan's attempt ends before its node state does |
| Adjudication.OnlyEndedAttemptsStillRunning | src/orchestration/orphan-attempt-adjudication.ts:49-143 | afterwards a node is still RUNNING only if its attempt had already ended |
| ReconcileRun.ReconcileRun | src/orchestration/reconciliation.ts:375-706 | a gate that finishes leaves exactly the reconciled states and a Run status that tells what they are, with exactly one audit event per repair, refuses exactly what is undecidable, and never touches attempts or resolutions |
| Reconciliation.RepairState | src/orchestration/reconciliation.ts:326-373 | every repair is a transition the store accepts, followed by its audit event |
| Reconciliation.ApplyPlan | src/orchestration/reconciliation.ts:509-570 | every planned repair is stored and audited exactly once |
| Detection.DetectReconciliation | src/orchestration/reconciliation.ts:118-324 | reports exactly what some inspection finds and a Run status that does not tell what the nodes are, and nothing exactly when there is none; writes nothing |
| Detection.DetectActiveTells | src/orchestration/reconciliation.ts:118-324 | detection announces a pending apply exactly where the gate repairs, and calls what the gate refuses by the same code |
| Detection.ResolutionRefusals | src/orchestration/reconciliation.ts:572-640 | a resolution is refused as conflicting exactly if its attempt has resolutions with different outcomes, and every other refusal names what stands against it |
| Detection.StructuralTells | src/orchestration/reconciliation.ts:403-470 | each finding about running and active attempts is reported exactly if it holds |
| Detection.DetectsNothingIffQuiet | src/orchestration/reconciliation.ts:118-324 | detection is silent exactly when there is nothing to repair and nothing to refuse |
| Detection.QuietIffGateDoesNothing | src/orchestration/reconciliation.ts:375-706 | and exactly then the gate writes nothing and does not refuse |
| Detection.SecondGateIsQuiet | src/orchestration/reconciliation.ts:375-706 | after a gate that let the Run pass a second one finds nothing |
| Recovery.GateLeavesNoWindow | src/orchestration/reconciliation.ts:426-452 | a gate that lets an invocation pass leaves no half-created attempt |
| Recovery.UnsafeIffWindow | src/orchestration/reconciliation.ts:403-470 | without a rerun-from the revision and uniqueness findings fire exactly in the creation window |
| Recovery.WindowIsUndetermined | src/orchestration/reconciliation.ts:426-452 | and then there is exactly one finding, a base revision that is not older than its node |
| Recovery.AtMostOneRunning | src/orchestration/reconciliation.ts:403-425 | without a rerun-from at most one attempt of a node is RUNNING |
| Recovery.RefusedIff | src/orchestration/reconciliation.ts:403-706 | without a rerun-from the gate refuses exactly for a creation window or a recorded resolution that contradicts another one, concerns an attempt that was not UNKNOWN or FAILED or is no longer the latest, or may not replace the status of its node |
| Recovery.RetriedResolutionExample | src/orchestration/reconciliation.ts:604-614 | a consistent store whose resolved attempt was retried, and which is refused |
| Recovery.RunningIsUnresolved | src/orchestration/resolve-node.ts:44-166 | nothing is ever resolved under a RUNNING node |
| Recovery.RetriedResolutionIsRefused | src/orchestration/reconciliation.ts:604-614 | a resolution of an attempt that is no longer the latest is refused whatever else happens |
| Recovery.CrashBetweenTerminalWrites | src/orchestration/reconciliation.ts:509-570 | after a crash between the two terminal writes the gate leaves the status the invocation would have written, except CANCELLED for an attempt closed as never started |
| Recovery.GateLeavesUnderway | src/orchestration/reconciliation.ts:509-570 | a gate that lets an invocation pass leaves no RUNNING node whose attempt has ended |
| Recovery.RecoveryIsComplete | src/orchestration/orphan-attempt-adjudication.ts:49-143 | once the gate has passed and a fresh invocation has decided the orphans, every started node is explained by its ended latest attempt or that attempt's resolution |
| CrashRecovery.BrokenOffIsRecovered | src/orchestration/sequential-scheduler.ts:366-502 | wherever an attempt breaks off, a passing gate and the decisions of another invocation leave its node untouched, with the status of an attempt that ended as its work justifies (CANCELLED if it was closed as never started), or with what its job log says |
| CrashRecovery.AttemptAndRecover | src/orchestration/ensure-run.ts:337-338 | an attempt that breaks off at any of its writes is refused by the gate or recovered so |
| Rerun.EnsureNodeStates | src/orchestration/ensure-run.ts:656-687 | refuses without writing exactly if a stored node state is not of this network; otherwise exactly the missing node states are created, WAITING, unattempted, blocked by nothing and repeatable as the network says, and existing ones are untouched |
| Rerun.PrepareRerunFrom | src/orchestration/ensure-run.ts:775-857 | refuses in the order of its checks without writing; otherwise resets the node and its descendants in definition order, and a crash leaves a prefix of these resets |
| Rerun.RefusalIsRight | src/orchestration/ensure-run.ts:775-840 | a rerun is refused exactly if a selected node has no state, the Run is SUCCESS, a selected node is UNKNOWN or one that may not be repeated was attempted, and for the first of these reasons that holds |
| Rerun.ResetSafeIff | src/orchestration/ensure-run.ts:841-855 | resetting part of a safe network leaves it safe exactly when nothing started depends on that part |
| Rerun.CompletedRerunIsSafe | src/orchestration/ensure-run.ts:841-855 | a rerun-from that stored all its resets keeps the network safe |
| Rerun.InterruptedRerunIsUnsafe | src/orchestration/ensure-run.ts:841-855 | a concrete settled and safe Run that may be rerun and is unsafe after the first of its resets |
| ResolveNode.ResolveNode | src/orchestration/resolve-node.ts:44-188 | refuses without writing exactly for the first reason that holds; an acceptable input appends the resolution of the latest attempt and then moves the state to its outcome, and a crash in between leaves the recorded resolution only |
| ResolveNode.RefusalsAreRight | src/orchestration/resolve-node.ts:44-110 | an input is accepted exactly if every audit text is there, SUCCESS goes with a confirmed manual completion, and it is about an UNKNOWN or unrepeatable FAILED node whose latest attempt agrees, with a distinct approver for a SUCCESS that may not be repeated |
| ResolveNode.SuccessNeedsApproval | src/orchestration/resolve-node.ts:44-110 | SUCCESS needs a confirmed manual completion and, for a non-idempotent node, a distinct approver |
| EnsureRun.PassGate | src/orchestration/ensure-run.ts:337-338 | passing the gate leaves a consistent store without half-created attempts and without ended attempts to apply, and a Run status that tells what its nodes are; it refuses only what is undecidable |
| EnsureRun.EnsureRun | src/orchestration/ensure-run.ts:169-400 | an admitted invocation finds a settled store with a state for every node, no hold and a Run that may be taken up, and an admitted rerun finds all nodes it selected WAITING and its Run not SUCCESS; only a rerun-from that dies between two resets can cost dependency safety |
| Guarantees.JobsRunAtMostOnce | src/orchestration/sequential-scheduler.ts:773-814 | a non-idempotent node never has two attempts other than ones closed as never started |
| Guarantees.SkippedNeverHappens | src/persistence/state-transition.ts:3-21 | no node is ever SKIPPED |
| Guarantees.BlockedNamesBlocker | src/orchestration/sequential-scheduler.ts:269-285 | without a rerun-from every BLOCKED node names a non-empty blocked_by |
| Guarantees.AttemptsAreNumbered | src/persistence/in-memory-repository.ts:331-376 | attempt numbers are exactly 1 to latest_attempt_no, and one more in the creation window |
| Guarantees.RevisionsGrow | src/persistence/in-memory-repository.ts:331-376 | state_revision_before strictly increases along the attempts of a node |
| Guarantees.OlderAttemptsAreTerminal | src/orchestration/sequential-scheduler.ts:366-383 | without a rerun-from every attempt below the latest is terminal |
| Guarantees.NeverFourEqualFailures | src/orchestration/sequential-scheduler.ts:782-841 | without a rerun-from no node collects four failures in a row with the same trimmed code, not counting attempts that never ran |
| History.RunHistory | src/orchestration/ensure-run.ts:169-488 | after every history, however its steps died, the store satisfies at-most-once, numbering, growing bases and the invariant; it is dependency safe unless a rerun-from died between two resets |
| LockStore.AtMostOneRunning | src/persistence/network-lock.ts:145-216 | at most one RUNNING lock record exists per key |
| LockStore.AtMostOneHolder | src/persistence/network-lock.ts:145-216 | at most one lease per lock key is in somebody's hands |
| LockStore.OwnStepsAreExpected | src/persistence/network-lock.ts:145-384 | every landed insert, renewal or tombstone of one party is a step all others are prepared for |
| LockStore.HandsAreExpected | src/persistence/network-lock.ts:145-384 | so are taking a lease whose record is RUNNING and letting go of one |
| LockStore.EvolvesChain | src/persistence/network-lock.ts:145-384 | what others may do in two turns they may do in one |
| LockStore.RenewalTells | src/persistence/network-lock.ts:238-262 | a renewal moves the heartbeat and expiry times, to the minute, and the revision; key, lease and owner stay |
| NetworkLock.Acquire | src/persistence/network-lock.ts:145-216 | an acquired lease has its own RUNNING record under the key, stored to the minute until the time its reference says, also when the response of the insert was lost |
| NetworkLock.Heartbeat | src/persistence/network-lock.ts:218-275 | while the lease is held its write lands on its own record or nowhere, success leaves the reference at the record's revision, and a shielded lease never expires earlier than before and is extended by a success |
| NetworkLock.ShieldedStays | src/persistence/network-lock.ts:221-237 | nobody else changes the record of a held lease that no older heartbeat can reach |
| NetworkLock.Release | src/persistence/network-lock.ts:277-384 | a reported release means that the lease's own record is a tombstone with the given status; no other record is ever written |
| NetworkLock.AdjudicateRelease | src/persistence/network-lock.ts:298-323 | a tombstone found under this lease's key is its own record, and only one with the status that was to be written counts as the release |
| ForcedRelease.ForceUnlock | src/persistence/network-lock-recovery.ts:459-649 | an owner mismatch or a lease that is still active is refused exactly on the record that was read, without a write; only an expired lease of the expected owner that nobody holds any more, unchanged across the confirmation, is turned into a CANCELLED tombstone; every success is audited once, as the lease that was read, and no other record is written |
| ForcedRelease.ForceUnlockHeld | src/persistence/network-lock-recovery.ts:486-495 | against a protected lease whose monitor is HELD and not overdue force-unlock returns LEASE_STILL_ACTIVE or fails to read, and writes nothing |
| StaleHeartbeats.StaleHeartbeatMayHitSuccessor | src/persistence/network-lock.ts:221-237 | a heartbeat that has passed its fence check may extend another lease's record if and only if its own lease is in nobody's hands |
| StaleHeartbeats.UntouchedIff | src/persistence/network-lock.ts:221-237 | others leave a held lease's record alone if and only if no heartbeat of another lease is pending at its revision |
| StaleHeartbeats.OldHeartbeatShortensSuccessor | src/persistence/network-lock.ts:221-237 | a concrete delayed heartbeat that makes a held lease look expired |
| Crc.Crc32 | src/bundle/zip-store.ts:187-196 | the bit loop computes the CRC register machine with initial and final complement |
| Crc.ResidueLaw | src/bundle/zip-store.ts:187-196 | feeding any data followed by its recorded checksum leaves the register at the residue 0xdebb20e3 of the CRC-32 of section 4.4.7 of APPNOTE.TXT |
| Crc.EmptyCrc | src/bundle/zip-store.ts:187-196 | empty data has the CRC 0 |
| Crc.EightInjective | src/bundle/zip-store.ts:191-193 | the eight steps of a byte are injective in the register |
| Crc.FoldAhead | src/bundle/zip-store.ts:190-193 | up to three further bytes may be folded into the register before the current one has left it |
| Crc.BurstDetected | src/bundle/zip-store.ts:187-196 | data that differ only within four consecutive bytes have different CRCs |
| Registers.BurstChangesRegister | src/bundle/zip-store.ts:187-196 | a register that runs backwards and takes so many bytes at once detects every change within that many bytes |
| ZipFormat.LocalHeaderFields | src/bundle/zip-store.ts:52-60 | every field of a local header reads back as the value written |
| ZipFormat.CentralHeaderFields | src/bundle/zip-store.ts:63-73 | every field of a directory header reads back as the value written |
| ZipFormat.EndRecordFields | src/bundle/zip-store.ts:81-87 | every field of the end record reads back as the value written |
| ZipFormat.RecordsBegin | src/bundle/zip-store.ts:52-87 | the three records begin with their signatures of section 4.3, version 2.0, the UTF-8 flag, no compression and no time, byte for byte |
| ZipWriter.LocalHeaderBuffer | src/bundle/zip-store.ts:52-60 | filling the buffer at its offsets gives exactly the local header |
| ZipWriter.CentralHeaderBuffer | src/bundle/zip-store.ts:63-73 | filling the buffer at its offsets gives exactly the directory header |
| ZipWriter.CreateStoreZip | src/bundle/zip-store.ts:25-89 | the archive is written for exactly the lists with distinct names, not empty and without NUL, whose counts, sizes and offsets all fit their 16- and 32-bit fields |
| ZipReader.ReadStoreZip | src/bundle/zip-store.ts:91-185 | the loop accepts and refuses exactly as the checks of end record, directory records and local records say |
| ZipReader.AcceptedIsIntact | src/bundle/zip-store.ts:120-185 | whatever archive is accepted, names occur once and all data match their checksums |
| ZipReader.EndAccepted | src/bundle/zip-store.ts:91-119 | an end record is accepted exactly with its signature, one disk, no comment, equal counts and a directory that ends where the end record begins |
| ZipReader.CentralAccepted | src/bundle/zip-store.ts:120-150 | an accepted directory record has its signature, the UTF-8 flag, no compression and equal sizes, and what is read are its fields |
| ZipReader.LocalAccepted | src/bundle/zip-store.ts:151-178 | an accepted entry has a local record that says the same as its directory record, and data of that size and checksum |
| ZipReader.ReadParts | src/bundle/zip-store.ts:91-185 | an archive made of well-formed records is read back exactly, or refused for its first wrong checksum |
| ZipRoundTrip.RoundTrip | src/bundle/zip-store.ts:25-185 | every archive that can be written is read back as the same names and data in the same order |
| ZipRoundTrip.BurstRejected | src/bundle/zip-store.ts:162-178 | changing an archive only within four consecutive bytes of stored entry data always makes the reader refuse it |
| Bundle.OneAscendingOrder | src/bundle/bundle-builder.ts:80-82 | jobs with distinct paths have one path order |
| Bundle.BeforeIff | src/bundle/bundle-builder.ts:364-368 | one path comes before another exactly if it is a proper prefix or has the smaller byte where they first differ |
| BundleBuilder.BuildBundle | src/bundle/bundle-builder.ts:73-125 | a bundle is built for exactly the valid job lists that fit an archive, and is that of the jobs in path order; every job in it was inspected under its own id, and its exceptions are its own and for KSQL1306 |
| BundleBuilder.OrderDoesNotMatter | src/bundle/bundle-builder.ts:80-82 | permuting the jobs gives the same bundle byte for byte |
| BundleBuilder.VerifyBundle | src/bundle/bundle-builder.ts:127-243 | accepts exactly the archives whose entries are manifest.json and the manifest's files, one each with recorded length and hash, that meet the expectations |
| BundleBuilder.BuiltVerifies | src/bundle/bundle-builder.ts:73-243 | every built bundle is accepted against its own hashes and manifest |
| BundleBuilder.ManifestDeterminesFiles | src/bundle/bundle-builder.ts:127-243 | as far as hashes do not collide, two archives accepted with the same manifest hold the same data under every file name |
| BundleBuilder.AcceptedFiles | src/bundle/bundle-builder.ts:127-243 | in an accepted manifest only network.yaml is no job, and an exception is that of its own node and for KSQL1306 |
| ArchiveRun.WriteArchive | src/orchestration/archive-run.ts:201-285 | after the write, its re-read and its one retry the result is true of the store |
| ArchiveRun.RecordAudit | src/orchestration/archive-run.ts:304-391 | RECORDED means that exactly one event with this id exists and that it is this one |
| ArchiveRun.ArchiveRun | src/orchestration/archive-run.ts:101-415 | ARCHIVED and ALREADY_ARCHIVED mean archived, the latter not by this call; REJECTED means not archived by this call; what the first read found decides the answer: only a FAILED or CANCELLED Run is archived, SUCCESS, UNKNOWN and unfinished ones are rejected each with its own code; RECORDED means exactly one event, about the Run as it was read; an acquired lock gets exactly one release |
| RequestResult.IntactOutcomeIsClassified | src/requests/request-result.ts:152-300 | an outcome that arrives intact is never called invalid, is DONE exactly for ARCHIVED and ALREADY_ARCHIVED, and its code tells which outcome it was |
| RequestResult.DoneIsWellFounded | src/requests/request-result.ts:152-172 | DONE is only reported for a well-formed outcome whose exit code agrees |
| RequestResult.ArchiveRequest | src/requests/request-result.ts:152-213 | a request that ends DONE after one call of archive-run is about an archived Run |
| Keyset.ReadAllByKeyset | plugin/src/kintone-reader.ts:135-180 | over a fixed store the paging ends with exactly the matching records, once each in id order, for every page size |
| Keyset.CheckPage | plugin/src/kintone-reader.ts:159-173 | a page is accepted exactly when its ids ascend strictly behind the keyset position |
| Keyset.ChunkValues | plugin/src/kintone-reader.ts:64-97 | the chunks partition the distinct values in order, none has more than maxValues, and only a single value may exceed the length limit |
| Keyset.UniqueInOrder | plugin/src/kintone-reader.ts:64-97 | distinct values keep the order of their first occurrence whatever follows |
| Keyset.ListGrows | plugin/src/kintone-reader.ts:64-97 | the values of a condition are listed in quotes with a comma and a space between two of them |
| Keyset.ChunksFitIffValuesDo | plugin/src/kintone-reader.ts:81-95 | all chunks keep the length limit if and only if every single value does |
| Keyset.QuotingIsSafe | plugin/src/kintone-reader.ts:60-62 | quoting loses nothing and no value can end its quotes early |
| Keyset.ReadAllByChunks | plugin/src/kintone-reader.ts:182-201 | exactly the matching records whose field has one of the values are read, once each |

## Left out

- History.RunHistory: one Run per store; a human resolution happens between invocations and not inside one, because it takes no lock and what it could add inside one are writes that are refused at stale revisions.
- Choices.RerunOneMore: what a rerun leaves is stated for selected nodes that were WAITING when the walk began, which every admitted rerun makes of its selection.
- ForcedRelease.ForceUnlock: a stop confirmation is taken to be truthful, and the checks that its input texts are not empty are taken for granted.
- LeaseWatch.AcquireAndWatch: a lease that was overtaken before its acquisition was confirmed, or that an older heartbeat can still reach, is not promised to be protected; UntouchedIff says when that is.
- LockStore.OwnStepsAreExpected: a request whose response is lost has either landed by then or never does.
- Keyset.ReadAllByKeyset: query texts are conditions, and their length is a function of the keyset position; the checks of a page never fail against a fixed store, so the errors they raise do not occur.
- ZipReader.ReadStoreZip: entry names are bytes; decoding them as UTF-8 is not modelled.
- BundleBuilder.VerifyBundle: the JSON-level type checks of a manifest, the hexadecimal shape of hashes and the sorting of codes and exceptions inside it are taken for granted by typed values.
- Adjudication.AdjudicateOrphans: job-log statuses are put into upper case as ASCII text, and closing abandoned invocation records is not modelled.
- EnsureRun.EnsureRun: the refusals for profiles, retention, input baselines and the limit of active Runs are not modelled; they write nothing.
- Executor.DecideIsEvidenceBased: the comparison of input and output receipts and the classification of the result file are inputs; the fields of the result file they look at have no other effect on the Run.
- Changing the stop request (src/orchestration/cancel-request.ts) is an arbitrary operator action between any two requests, which includes everything that code can do.
- Timestamps other than lease times, human-readable reasons and messages, row counts and the contents of input baselines are dropped or opaque.
- Invocation records and the network lock around an invocation are not part of the Run model.
- Remote transport of the Run store: a write either lands or its caller dies; the confirmation of ambiguous writes is modelled for locks and archiving only.
- SHA-256, UUIDs, time zones, file-system paths, subprocesses, HTTP, command lines and all user interface code.
