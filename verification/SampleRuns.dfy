/**
 The hypotheses of the results about runs are met by an input: one environment, one small run, whatever is called
 on it. Its directories are accepted and rejected, its streams complete and incomplete, as the results say.
 */
module SampleRuns {
  import opened Common
  import opened Events
  import opened Lifecycle
  import opened Budget
  import opened Session
  import opened SessionInvariant
  import opened EndToEnd
  import opened SessionRuns
  import opened SealedRuns
  import opened SealedLifecycles
  import opened SchemaVerdicts
  import opened SpecialNames
  import LawfulText
  import Manifest
  import J = DirectoryJudge
  import P = RunPlans
  import C = Commands

  const HASH := "sha"

  const PLAN_PATTERNS :=
    P.Patterns(t => true, t => true, t => true, t => true, t => true, t => true, t => true, t => true, t => true)
  const COMMAND_PATTERNS :=
    C.Patterns(t => true, t => true, t => true, t => true, t => true, (n, t) => true, t => true, t => true, t => true,
               t => true)

  /** Constructors, patterns and schemas that refuse nothing, over a text codec that is lawful. */
  ghost function Permissive(): Env {
    Env(LawfulText.Codec(), Rules(e => true), r => true, content => HASH, t => HASH, n => "now", p => "attempt",
        PLAN_PATTERNS, COMMAND_PATTERNS, d => true, d => true)
  }

  const COMMAND_SPEC := C.CommandSpec(
    ["/bin/true"], "/", 1, C.Directory(0, 0), map[], [], [], [], [], [],
    C.Projection(0, 0, 0, 0, C.NotApplicable, []), HASH)

  const PLAN := P.RunPlan(
    P.RunIdentity("EXP", "RUN", "A", 1, None), P.Smoke, false,
    P.ExecutionContract(P.LocalSubprocess, P.Prototype, P.Authorization(true, Some("approval"), Some(HASH))),
    P.SourceVersions("commit", "source", "commit", HASH, HASH, None, None, HASH),
    P.RunBudget(1, 0, 0, None, None, 1), P.ArtifactPolicy("runs", true), None, None, None, None)

  const PROCESS := ProcessResult(0, 0, false, false, 0, 0, 0, None)

  function SampleRun(calls: seq<Call>): Run {
    Run(PLAN, COMMAND_SPEC, PROCESS, map[STDOUT := [], STDERR := []], calls)
  }

  lemma PermissiveAdmits()
    ensures AdmitsAll(Permissive()) && Permissive().text.Lawful() && LogRecordAdmitted(Permissive())
    ensures forall runId :: AccountingAdmitted(Permissive(), runId)
    ensures forall d :: Permissive().planSchema(d) && Permissive().eventSchema(d)
  {
    LawfulText.CodecIsLawful();
  }

  lemma SampleDocuments()
    ensures P.PlanOk(Permissive().plans, PLAN) && C.Construct(Permissive().commands, COMMAND_SPEC) == Ok(COMMAND_SPEC)
    ensures ProcessOk(PLAN, PROCESS)
  {
  }

  lemma SampleWithin()
    ensures Within(PLAN.budget, ProcessUsage(PROCESS)) && Within(PLAN.budget, ProjectedUsage(COMMAND_SPEC))
  {
  }

  lemma SampleAllowed()
    ensures ExecutionAllowed(Permissive(), PLAN, COMMAND_SPEC)
  {
    SampleWithin();
  }

  lemma OpeningSources(env: Env, plan: P.RunPlan, command: C.CommandSpec, process: ProcessResult)
    ensures forall d | d in OpeningDrafts(env, plan, command, process) :: d.source != ""
  {
  }

  lemma AllowedOpens(env: Env, run: Run)
    requires AdmitsAll(env) && ExecutionAllowed(env, run.plan, run.command) && run.plan.identity.attempt >= 1
    ensures Open(env, run.plan, run.command, run.process, run.left).Ok?
  {
    OpeningSources(env, run.plan, run.command, run.process);
    AdmittedEmission(env, Fresh(env, run.plan, run.command, run.process, run.left),
                     OpeningDrafts(env, run.plan, run.command, run.process));
  }

  lemma StreamsUnprotected()
    ensures {STDOUT, STDERR} !! PROTECTED
  {
    HarnessNames();
    assert STDOUT != RUN_PLAN && STDERR != RUN_PLAN && STDOUT != COMMAND && STDERR != COMMAND;
  }

  lemma LawfulWhen(env: Env, run: Run)
    requires AdmitsAll(env) && env.text.Lawful() && LogRecordAdmitted(env)
    requires AccountingAdmitted(env, run.plan.identity.runId)
    requires P.PlanOk(env.plans, run.plan) && C.Construct(env.commands, run.command) == Ok(run.command)
    requires ProcessOk(run.plan, run.process) && ExecutionAllowed(env, run.plan, run.command)
    requires run.left.Keys !! PROTECTED && forall c | c in run.calls :: CallOk(c)
    ensures Lawful(env, run)
  {
    AllowedOpens(env, run);
  }

  lemma SampleParts(calls: seq<Call>)
    ensures var run := SampleRun(calls);
            && run.plan == PLAN && run.command == COMMAND_SPEC && run.process == PROCESS && run.calls == calls
            && run.left.Keys == {STDOUT, STDERR} && !run.command.projection.HasUsage()
  {
  }

  /** Whatever calls are made on the sample, all that the results about runs assume is there. */
  lemma SampleIsLawful(calls: seq<Call>)
    requires forall c | c in calls :: CallOk(c)
    ensures Lawful(Permissive(), SampleRun(calls)) && AdmitsAll(Permissive()) && Modest(SampleRun(calls))
  {
    SampleParts(calls);
    PermissiveAdmits();
    SampleDocuments();
    SampleWithin();
    SampleAllowed();
    StreamsUnprotected();
    LawfulWhen(Permissive(), SampleRun(calls));
  }

  // ------------------------------------------------------ what becomes of it

  /** A session that holds and declares the harness's files only, and has nothing to account for. */
  predicate Bare(s: SessionState) {
    && !s.isSealed && s.outcome.None? && s.retained == HARNESS_RETAINED
    && s.files.Keys == RetainedPaths(HARNESS_RETAINED) && !s.command.projection.HasUsage()
  }

  lemma BareSealable(env: Env, s: SessionState)
    requires AdmitsAll(env) && Bare(s)
    ensures Sealable(env, s)
  {
    forall r | r in s.retained ensures r.path in AttemptFiles(env, s) { assert r.path in RetainedPaths(s.retained); }
  }

  lemma BareManifest(env: Env, s: SessionState)
    requires Bare(s)
    ensures EVENTS !in RetainedPaths(s.retained) && ManifestFree(env, s) && NamesOk(s.retained)
  {
    RootNamesApart();
    assert MANIFEST !in s.files;
    ManifestContents(env, s);
    HarnessOrdinary();
    NamesArePaths(s.retained);
  }

  lemma BareSeals(env: Env, s: SessionState)
    requires Ready(env, s) && AdmitsAll(env) && Bare(s)
    ensures var t := AfterCall(env, s, SealCall); t.isSealed && NamesOk(t.retained)
  {
    BareSealable(env, s);
    BareManifest(env, s);
    PlainAdmitted(env, s);
    OwnedSealsExactlyWhen(env, s);
    SealKeepsNames(env, s);
  }

  lemma PlainAdmitted(env: Env, s: SessionState)
    requires AdmitsAll(env) && RetainedPresent(env, s) && s.plan.identity.attempt >= 1
    ensures SealingAdmitted(env, s)
  {
    SortedPresent(env, s);
    var records := RecordsFor(env, s, SortedRetained(s));
    SealingDraftsOk(s, records);
    AdmittedEmission(env, s, RecordDrafts(records) + [StopDraft(s)]);
  }

  lemma OpenedBare(env: Env, run: Run)
    requires Open(env, run.plan, run.command, run.process, run.left).Ok? && run.left.Keys == {STDOUT, STDERR}
    requires !run.command.projection.HasUsage()
    ensures Bare(Opened(env, run))
  {
    ContractKeys(env, run);
    EmitAllGrows(env, Fresh(env, run.plan, run.command, run.process, run.left),
                 OpeningDrafts(env, run.plan, run.command, run.process));
  }

  lemma SampleFits(calls: seq<Call>)
    requires calls == [SealCall]
    ensures Lawful(Permissive(), SampleRun(calls)) && AdmitsAll(Permissive()) && Modest(SampleRun(calls))
    ensures SampleRun(calls).calls == [SealCall] && !SampleRun(calls).command.projection.HasUsage()
    ensures forall d :: Permissive().planSchema(d) && Permissive().eventSchema(d)
  {
    SampleIsLawful(calls);
    SampleParts(calls);
    PermissiveAdmits();
  }

  /** The sample sealed at once ends sealed, complete and accepted. */
  lemma SampleAccepted(calls: seq<Call>)
    requires calls == [SealCall]
    ensures Lawful(Permissive(), SampleRun(calls))
    ensures var s := Final(Permissive(), SampleRun(calls));
            s.isSealed && Completed(s.events) && J.DirectoryAccepted(Permissive(), AttemptFiles(Permissive(), s))
  {
    SampleFits(calls);
    PlainRunAccepted(Permissive(), SampleRun(calls));
  }

  lemma OpenedReady(env: Env, run: Run)
    requires Lawful(env, run)
    ensures Ready(env, Opened(env, run))
  {
    OpenedUnstopped(env, run);
    NoCall(env, Opened(env, run), run.calls);
    ReadyAt(env, run, 0);
  }

  lemma BareRunSeals(env: Env, run: Run)
    requires Lawful(env, run) && AdmitsAll(env) && Modest(run) && run.calls == [SealCall]
    requires !run.command.projection.HasUsage()
    ensures Final(env, run).isSealed && NamesOk(Final(env, run).retained)
  {
    OpenedReady(env, run);
    OpenedBare(env, run);
    BareSeals(env, Opened(env, run));
    OneCall(env, Opened(env, run), SealCall);
  }

  /** Any run like it, with schemas that take all documents. */
  lemma PlainRunAccepted(env: Env, run: Run)
    requires Lawful(env, run) && AdmitsAll(env) && Modest(run) && run.calls == [SealCall]
    requires !run.command.projection.HasUsage()
    requires env.planSchema(P.PlanDocument(run.plan)) && forall d :: env.eventSchema(d)
    ensures var s := Final(env, run);
            s.isSealed && Completed(s.events) && J.DirectoryAccepted(env, AttemptFiles(env, s))
  {
    BareRunSeals(env, run);
    SchemasTakeAll(env, run);
    SealedDirectoryVerdict(env, run);
    PlainComplete(env, run);
  }

  lemma SchemasTakeAll(env: Env, run: Run)
    requires Lawful(env, run) && env.planSchema(P.PlanDocument(run.plan)) && forall d :: env.eventSchema(d)
    ensures SchemasAccept(env, Final(env, run))
  {
    RunKeeps(env, run);
  }

  lemma PlainComplete(env: Env, run: Run)
    requires Lawful(env, run) && Final(env, run).isSealed && NamesOk(Final(env, run).retained)
    ensures Completed(Final(env, run).events)
  {
    SealedLifecycleComplete(env, run);
    NamesOkMeans(Final(env, run).retained);
  }

  lemma Unprotected(path: string)
    requires path != RUN_PLAN && path != COMMAND && path != EVENTS
    ensures path !in PROTECTED
  {
  }

  lemma ExternalUnprotected(name: string)
    requires name == NESTED || name == MANIFEST
    ensures name !in PROTECTED
  {
    HarnessNames();
    NestedName();
    Unprotected(name);
  }

  lemma DeclaringOk(name: string, content: Bytes)
    requires name == NESTED || name == MANIFEST
    ensures forall c | c in DeclaringCalls(name, content) :: CallOk(c)
  {
    ExternalUnprotected(name);
  }

  lemma EmptyingOk(content: Bytes)
    ensures forall c | c in EmptyingCalls(content) :: CallOk(c)
  {
    DeclaringOk(MANIFEST, content);
    ExternalUnprotected(MANIFEST);
  }

  /** The sample that declares a special name ends sealed and rejected. */
  lemma SampleRejected(name: string)
    requires name == NESTED || name == MANIFEST
    ensures Lawful(Permissive(), SampleRun(DeclaringCalls(name, [])))
    ensures var s := Final(Permissive(), SampleRun(DeclaringCalls(name, [])));
            s.isSealed && !J.DirectoryAccepted(Permissive(), AttemptFiles(Permissive(), s))
  {
    DeclaringOk(name, []);
    SampleIsLawful(DeclaringCalls(name, []));
    if name == NESTED {
      NestedLogSealsAndIsRejected(Permissive(), SampleRun(DeclaringCalls(name, [])), []);
    } else {
      RootManifestSealsAndIsRejected(Permissive(), SampleRun(DeclaringCalls(name, [])));
    }
  }

  /** The sample whose declared manifest first refuses it ends sealed with a stream that is not complete. */
  lemma SampleIncomplete(content: Bytes)
    requires !Manifest.EndsLine(content)
    ensures Lawful(Permissive(), SampleRun(EmptyingCalls(content)))
    ensures var s := Final(Permissive(), SampleRun(EmptyingCalls(content))); s.isSealed && !Completed(s.events)
  {
    EmptyingOk(content);
    SampleIsLawful(EmptyingCalls(content));
    EmptiedManifestStopsTwice(Permissive(), SampleRun(EmptyingCalls(content)), content);
  }
}
