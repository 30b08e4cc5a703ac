/** Whole histories of one Run: invocations, stand-alone gates and human resolutions, each of which may die anywhere. */
module History {
  import opened Dag
  import opened Domain
  import opened StoreContract
  import opened Repository
  import opened Lease
  import opened Invariants
  import opened StoreWrites
  import opened GuardedWrites
  import opened Executor
  import opened Recovery
  import opened Guarantees
  import opened Choices
  import opened NodeSteps
  import opened Scheduler
  import Rerun
  import Resolving = ResolveNode
  import Ensuring = EnsureRun

  datatype Step =
    | Invocation(request: Ensuring.Request, works: Id -> Work, invocationId: Id, jobLog: Id -> Option<string>)
    | StandAloneGate
    | Resolving(input: Resolving.Input)
    | Archiving(archived: bool)

  /** No step so far asks for a rerun-from. */
  predicate Plain(steps: seq<Step>) {
    forall i :: 0 <= i < |steps| ==> !(steps[i].Invocation? && steps[i].request.RerunRun?)
  }

  /** What every reachable store satisfies. */
  ghost predicate Guaranteed(def: Definition, plain: bool, s: Store) {
    AtMostOnce(s) && NumberedFromOne(s) && BasesGrow(s) && s in Consistent(def, plain)
  }

  lemma ConsistentGuarantees(def: Definition, plain: bool, s: Store)
    requires s in Consistent(def, plain)
    ensures Guaranteed(def, plain, s)
  {
    JobsRunAtMostOnce(def, plain, s);
    AttemptsAreNumbered(def, plain, s);
    RevisionsGrow(def, plain, s);
  }

  /**
   * One invocation under its own lock and lease: ensure the Run, then walk it. `entry` is what
   * a walk found that came to its end: after a resume or rerun every started node is explained.
   */
  method Invoke(repo: Repository, def: Definition, ghost plain: bool, step: Step)
    returns (ghost half: bool, ghost entry: Option<Store>)
    requires UniqueIds(def) && KnownDependencies(def) && Acyclic(def) && step.Invocation?
    requires repo.Contents() in Consistent(def, plain) && (plain ==> DependencySafe(def, repo.states))
    modifies repo
    ensures repo.Contents() in Consistent(def, Ensuring.PlainAfter(plain, step.request))
    ensures old(DependencySafe(def, repo.states)) && !half ==> DependencySafe(def, repo.states)
    ensures half ==> step.request.RerunRun?
    ensures entry.Some? && !step.request.NewRun? && FreshInvocation(old(repo.attempts), step.invocationId) ==>
      AllExplained(entry.value)
  {
    entry := None;
    var admission;
    ghost var plain' := Ensuring.PlainAfter(plain, step.request);
    admission, half := Ensuring.EnsureRun(repo, def, plain, step.request);
    if admission.Err? || admission.value.AlreadySuccess? { return; }
    var config: Config, acquiredAt: int, expiry: int := *, *, *;
    if !ValidConfig(config) { return; }
    var monitor := new LeaseMonitor(config, acquiredAt, expiry);
    var close, report, trace := RunSequentialScheduler(repo, monitor, def, plain', admission.value.mode,
                                               admission.value.selection, step.works, step.invocationId, step.jobLog);
    if close.Ok? { entry := Some(trace.entry); }
  }

  /** One step of a history. */
  method Take(repo: Repository, def: Definition, ghost plain: bool, ghost plain': bool, step: Step) returns (ghost half: bool)
    requires UniqueIds(def) && KnownDependencies(def) && Acyclic(def)
    requires repo.Contents() in Consistent(def, plain) && (plain ==> DependencySafe(def, repo.states))
    requires plain' ==> plain && !(step.Invocation? && step.request.RerunRun?)
    modifies repo
    ensures repo.Contents() in Consistent(def, plain')
    ensures old(DependencySafe(def, repo.states)) && !half ==> DependencySafe(def, repo.states)
    ensures half ==> step.Invocation? && step.request.RerunRun?
  {
    half := false;
    match step {
      case Invocation(_, _, _, _) =>
        ghost var entry;
        half, entry := Invoke(repo, def, plain, step);
        WeakerStill(def, Ensuring.PlainAfter(plain, step.request), plain', repo.Contents());
      case StandAloneGate =>
        var gate := Ensuring.PassGate(repo, def, plain);
        WeakerStill(def, plain, plain', repo.Contents());
      case Resolving(input) =>
        var resolved := Resolving.ResolveNode(repo, def, plain, input);
        WeakerStill(def, plain, plain', repo.Contents());
      case Archiving(archived) =>
        ghost var s := repo.Contents();
        repo.run := Stored(repo.run.value.(archived := archived), repo.run.revision + 1);
        RecordsUntouched(def, s, repo.Contents(), plain);
        WeakerStill(def, plain, plain', repo.Contents());
    }
  }

  lemma WeakerStill(def: Definition, plain: bool, plain': bool, s: Store)
    requires s in Consistent(def, plain) && (plain' ==> plain)
    ensures s in Consistent(def, plain')
  {
    if plain != plain' { Rerun.WeakerConsistency(def, plain, s); }
  }

  /**
   * The state after any history, however its steps died. `whole` says that no
   * rerun-from died between two of its resets.
   */
  method RunHistory(def: Definition, steps: seq<Step>) returns (repo: Repository, ghost whole: bool)
    requires UniqueIds(def) && KnownDependencies(def) && Acyclic(def)
    ensures fresh(repo) && Guaranteed(def, Plain(steps), repo.Contents())
    ensures whole ==> DependencySafe(def, repo.states)
    ensures Plain(steps) ==> whole
  {
    repo := new Repository();
    whole := true;
    NothingYet(def, repo.Contents());
    var i := 0;
    while i < |steps|
      invariant fresh(repo) && i <= |steps| && repo.Contents() in Consistent(def, Plain(steps[..i]))
      invariant whole ==> DependencySafe(def, repo.states)
      invariant Plain(steps[..i]) ==> whole
    {
      PlainPrefix(steps, i);
      var half := Take(repo, def, Plain(steps[..i]), Plain(steps[..i + 1]), steps[i]);
      whole, i := whole && !half, i + 1;
    }
    assert steps[..i] == steps;
    ConsistentGuarantees(def, Plain(steps), repo.Contents());
  }

  lemma PlainPrefix(steps: seq<Step>, i: nat)
    requires i < |steps|
    ensures Plain(steps[..i + 1]) <==> Plain(steps[..i]) && !(steps[i].Invocation? && steps[i].request.RerunRun?)
  {
    assert steps[..i + 1] == steps[..i] + [steps[i]];
  }

  lemma NothingYet(def: Definition, s: Store)
    requires s.states == map[] && s.attempts == map[] && s.attemptIds == map[] && s.resolutions == []
    ensures s in Consistent(def, true) && DependencySafe(def, s.states)
  {
  }
}
