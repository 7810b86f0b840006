/**
 Runs in which a declared artifact takes a name the validator reads specially: nothing stops them from sealing,
 and the validator refuses what they leave. The last one meets a manifest that refuses it on the way.
 */
module SpecialNames {
  import opened Common
  import opened Events
  import opened Lifecycle
  import opened Budget
  import opened Manifest
  import opened AttemptDirectories
  import opened Session
  import opened SessionInvariant
  import opened EndToEnd
  import opened SessionRuns
  import opened SealedRuns
  import opened SealedLifecycles
  import M = ManifestRefusals
  import J = DirectoryJudge
  import C = Commands

  const NESTED := "upstream/events.jsonl"
  const ZEROS := Accounting(Some(0), Some(0), Some(0), Some(0))

  /** A result that says nothing, uses nothing, and declares the one artifact. */
  function Declaration(name: string): NormalizationResult {
    NormalizationResult([], [name], [], [], ZEROS)
  }

  /** The upstream process writes the file, the adapter declares it, and the run is sealed. */
  function DeclaringCalls(name: string, content: Bytes): seq<Call> {
    [External(name, Some(content)), Normalize(Declaration(name)), SealCall]
  }

  /** The declared file is the manifest; after the first seal somebody empties it, and the run is sealed again. */
  function EmptyingCalls(content: Bytes): seq<Call> {
    DeclaringCalls(MANIFEST, content) + [External(MANIFEST, Some([])), SealCall]
  }

  /** Constructors that refuse nothing. */
  ghost predicate AdmitsAll(env: Env) {
    (forall e: HarnessEvent :: env.rules.admits(e)) && (forall r: ArtifactRecord :: env.records(r))
  }

  lemma NestedName()
    ensures J.BaseName(NESTED) == EVENTS && NESTED != EVENTS && NESTED != MANIFEST
    ensures NESTED != STDOUT && NESTED != STDERR && NESTED != RUN_PLAN && NESTED != COMMAND
  {
    var parts := NESTED;
    assert parts[8] == '/' && parts[9..] == EVENTS;
    BaseBehind(parts, 9);
    assert |NESTED| == 21;
  }

  /** The base name of what stands behind a slash, where no further one follows, is all of it. */
  lemma {:induction false} BaseBehind(path: string, n: nat)
    requires 0 < n <= |path| && path[n - 1] == '/' && '/' !in path[n..]
    ensures J.BaseName(path) == path[n..]
    decreases n
  {
    assert '/' in path;
    if n > 1 {
      assert path[1..][n - 2] == '/' && path[1..][n - 1..] == path[n..];
      BaseBehind(path[1..], n - 1);
    }
  }

  lemma {:induction false} AdmittedEmission(env: Env, s: SessionState, ds: seq<Draft>)
    requires AdmitsAll(env) && s.plan.identity.attempt >= 1 && forall d | d in ds :: d.source != ""
    ensures EmitAll(env, s, ds).ok
    decreases |ds|
  {
    if ds != [] {
      assert ds[0] in ds && forall d | d in ds[1..] :: d in ds;
      AdmittedEmission(env, AfterEmit(env, s, ds[0]), ds[1..]);
    }
  }

  // -------------------------------------------------------------- the steps

  /** A name the harness has not taken. */
  predicate Untaken(name: string) {
    name != EVENTS && name !in RetainedPaths(HARNESS_RETAINED)
  }

  lemma NestedUntaken()
    ensures Untaken(NESTED)
  {
    NestedName();
    OtherName(NESTED);
  }

  lemma ManifestUntaken()
    ensures Untaken(MANIFEST)
  {
    HarnessNames();
    RootNamesApart();
  }

  /** Beside the harness's files the session holds this one, and it has declared these. */
  predicate Holds(s: SessionState, name: string, content: Bytes, declared: seq<Retained>) {
    && !s.isSealed && s.outcome.None? && s.plan.identity.attempt >= 1
    && s.files.Keys == RetainedPaths(HARNESS_RETAINED) + {name} && s.files[name] == content
    && s.retained == declared
  }

  /** Still to be declared. */
  predicate Holding(s: SessionState, name: string, content: Bytes) {
    Holds(s, name, content, HARNESS_RETAINED) && s.accounting.None? && !s.normalizationApplied
  }

  /** Declared and accounted for. */
  predicate Declaring(s: SessionState, name: string, content: Bytes) {
    Holds(s, name, content, HARNESS_RETAINED + RawRetained([name])) && s.accounting.Some?
  }

  lemma NothingToSay(name: string)
    ensures ResultDrafts(Declaration(name)) == []
  {
  }

  lemma DeclarationReached(env: Env, s: SessionState, name: string, content: Bytes)
    requires Holding(s, name, content) && Untaken(name)
    ensures ArtifactFailure(AttemptFiles(env, s).Keys, RetainedPaths(s.retained), Declaration(name).artifacts).None?
  {
    assert Declaration(name).artifacts[1..] == [];
  }

  /** A result that says nothing only declares its artifacts and is accounted for. */
  lemma SilentResult(env: Env, s: SessionState, r: NormalizationResult)
    requires !s.isSealed && AuthorityOwned(env, s) && !s.normalizationApplied && ResultDrafts(r) == []
    requires ArtifactFailure(AttemptFiles(env, s).Keys, RetainedPaths(s.retained), r.artifacts).None?
    ensures ApplyNormalization(env, s, r)
         == AttestAccounting(env, Declared(s, r).(normalizationApplied := true), r.accounting)
  {
  }

  lemma ZerosChargeNothing(s: SessionState)
    requires C.ProjectionOk(s.command.projection)
    ensures !ProjectionViolated(s.command.projection, ZEROS) && WithCharge(s, ZEROS).usage == s.usage
    ensures UnavailableDrafts(s.command.projection, ZEROS) == []
  {
  }

  /** Zero accounting on an open session within its budget goes through. */
  lemma ZerosAttested(env: Env, s: SessionState)
    requires AdmitsAll(env) && !s.isSealed && AuthorityOwned(env, s) && s.accounting.None?
    requires C.ProjectionOk(s.command.projection) && Within(s.plan.budget, s.usage) && s.plan.identity.attempt >= 1
    ensures var t := AttestAccounting(env, s, ZEROS).state;
            && !t.isSealed && t.outcome == s.outcome && t.accounting.Some?
            && t.retained == s.retained && t.files == s.files && t.plan == s.plan && t.command == s.command
  {
    ZerosChargeNothing(s);
    AttestedCharge(env, s, ZEROS);
    var p, s1 := s.command.projection, WithCharge(s, ZEROS);
    var d := AccountingDraft(p, ZEROS, s1.usage.(wallSeconds := Max(s1.usage.wallSeconds, s.process.wallSeconds),
                                                 outputBytes := Max(s1.usage.outputBytes, s.process.outputBytes)));
    AdmittedEmission(env, s1, [] + [d]);
    EmitAllGrows(env, s1, [] + [d]);
  }

  lemma DeclarationApplies(env: Env, s: SessionState, name: string, content: Bytes)
    requires AdmitsAll(env) && Holding(s, name, content) && Untaken(name) && AuthorityOwned(env, s)
    requires C.ProjectionOk(s.command.projection) && Within(s.plan.budget, s.usage)
    ensures Declaring(ApplyNormalization(env, s, Declaration(name)).state, name, content)
  {
    NothingToSay(name);
    DeclarationReached(env, s, name, content);
    SilentResult(env, s, Declaration(name));
    ZerosAttested(env, Declared(s, Declaration(name)).(normalizationApplied := true));
  }

  lemma DeclaredPaths(name: string)
    ensures RetainedPaths(HARNESS_RETAINED + RawRetained([name])) == RetainedPaths(HARNESS_RETAINED) + {name}
  {
    OneMorePath(HARNESS_RETAINED, Retained(name, "upstream-raw"));
    assert RawRetained([name]) == [Retained(name, "upstream-raw")];
  }

  /** All gates of sealing stand open. */
  lemma DeclaringSealable(env: Env, s: SessionState, name: string, content: Bytes)
    requires AdmitsAll(env) && Declaring(s, name, content)
    ensures Sealable(env, s)
  {
    DeclaredPaths(name);
    forall r | r in s.retained ensures r.path in AttemptFiles(env, s) { assert r.path in RetainedPaths(s.retained); }
  }

  lemma SpecialName(s: SessionState, name: string, content: Bytes)
    requires Declaring(s, name, content) && (J.BaseName(name) == EVENTS || name == MANIFEST)
    ensures !NamesOk(s.retained)
  {
    var r := Retained(name, "upstream-raw");
    assert RawRetained([name])[0] == r && r in RawRetained([name]) && r in s.retained;
  }

  lemma LogUndeclared(s: SessionState, name: string, content: Bytes)
    requires Declaring(s, name, content) && Untaken(name)
    ensures EVENTS !in RetainedPaths(s.retained)
  {
    DeclaredPaths(name);
    RootNamesApart();
  }

  lemma SealingDraftsOk(s: SessionState, records: seq<ArtifactRecord>)
    ensures forall d | d in RecordDrafts(records) + [StopDraft(s)] :: d.source != ""
  {
  }

  lemma DeclaringAdmitted(env: Env, s: SessionState, name: string, content: Bytes)
    requires AdmitsAll(env) && Declaring(s, name, content) && RetainedPresent(env, s)
    ensures SealingAdmitted(env, s)
  {
    SortedPresent(env, s);
    var records := RecordsFor(env, s, SortedRetained(s));
    SealingDraftsOk(s, records);
    AdmittedEmission(env, s, RecordDrafts(records) + [StopDraft(s)]);
  }

  /** No manifest file, or an empty one, can be continued; an unterminated one cannot. */
  lemma ManifestContents(env: Env, s: SessionState)
    ensures ContentOf(s.files, MANIFEST) == [] ==> ManifestFree(env, s)
    ensures !EndsLine(ContentOf(s.files, MANIFEST)) ==> !ManifestFree(env, s)
  {
    M.EmptyManifest(env);
  }

  lemma UnheldManifest(s: SessionState, name: string, content: Bytes)
    requires Declaring(s, name, content) && name != MANIFEST
    ensures ContentOf(s.files, MANIFEST) == []
  {
    RootNamesApart();
    UnheldFile(s.files, RetainedPaths(HARNESS_RETAINED), name, MANIFEST);
  }

  lemma UnheldFile(files: Files, names: set<string>, name: string, other: string)
    requires files.Keys == names + {name} && other !in names && other != name
    ensures ContentOf(files, other) == []
  {
  }

  // ------------------------------------------------------------- the calls

  lemma ContractKeys(env: Env, run: Run)
    requires run.left.Keys == {STDOUT, STDERR}
    ensures (run.left + Contracts(env, run.plan, run.command)).Keys == RetainedPaths(HARNESS_RETAINED)
  {
    HarnessPaths();
  }

  lemma FreshHolds(env: Env, start: SessionState, ds: seq<Draft>, name: string, content: Bytes)
    requires !start.isSealed && start.outcome.None? && start.accounting.None? && !start.normalizationApplied
    requires start.retained == HARNESS_RETAINED && start.files.Keys == RetainedPaths(HARNESS_RETAINED)
    requires start.plan.identity.attempt >= 1
    ensures var s := AfterExternal(EmitAll(env, start, ds).state, name, Some(content));
            && Holding(s, name, content)
            && s.usage == start.usage && s.plan == start.plan && s.command == start.command
  {
    EmitAllGrows(env, start, ds);
  }

  lemma OpenedHolds(env: Env, run: Run, name: string, content: Bytes)
    requires Open(env, run.plan, run.command, run.process, run.left).Ok? && run.left.Keys == {STDOUT, STDERR}
    requires run.plan.identity.attempt >= 1
    ensures var s := AfterExternal(Opened(env, run), name, Some(content));
            && Holding(s, name, content)
            && s.usage == ProcessUsage(run.process) && s.plan == run.plan && s.command == run.command
  {
    ContractKeys(env, run);
    FreshHolds(env, Fresh(env, run.plan, run.command, run.process, run.left),
               OpeningDrafts(env, run.plan, run.command, run.process), name, content);
  }

  lemma NextCall(env: Env, o: SessionState, calls: seq<Call>, n: nat)
    requires n < |calls|
    ensures AfterCalls(env, o, calls[..n + 1]) == AfterCall(env, AfterCalls(env, o, calls[..n]), calls[n])
  {
    assert calls[..n + 1][..n] == calls[..n];
  }

  lemma NoCall(env: Env, o: SessionState, calls: seq<Call>)
    ensures AfterCalls(env, o, calls[..0]) == o
  {
  }

  /** A process inside its budget left its two streams and nothing else. */
  predicate Modest(run: Run) {
    run.left.Keys == {STDOUT, STDERR} && Within(run.plan.budget, ProcessUsage(run.process))
  }

  /** The first calls write the file and declare it. */
  predicate Begins(calls: seq<Call>, name: string, content: Bytes) {
    |calls| >= 2 && calls[0] == External(name, Some(content)) && calls[1] == Normalize(Declaration(name))
  }

  lemma FirstTwo(env: Env, o: SessionState, calls: seq<Call>, name: string, content: Bytes)
    requires Begins(calls, name, content)
    ensures AfterCalls(env, o, calls[..2])
         == ApplyNormalization(env, AfterExternal(o, name, Some(content)), Declaration(name)).state
  {
    NoCall(env, o, calls);
    NextCall(env, o, calls, 0);
    NextCall(env, o, calls, 1);
  }

  /** Behind the first two calls the file is declared. */
  lemma TwoCallsDeclare(env: Env, run: Run, name: string, content: Bytes)
    requires Lawful(env, run) && AdmitsAll(env) && Modest(run) && Untaken(name) && Begins(run.calls, name, content)
    ensures Declaring(AfterCalls(env, Opened(env, run), run.calls[..2]), name, content)
  {
    var s := AfterExternal(Opened(env, run), name, Some(content));
    OpenedHolds(env, run, name, content);
    FirstTwo(env, Opened(env, run), run.calls, name, content);
    AllowedOwned(env, run, s);
    ProjectionFits(env, run);
    DeclarationApplies(env, s, name, content);
  }

  lemma AllowedOwned(env: Env, run: Run, s: SessionState)
    requires Open(env, run.plan, run.command, run.process, run.left).Ok?
    requires s.plan == run.plan && s.command == run.command && Within(s.plan.budget, s.usage)
    ensures AuthorityOwned(env, s)
  {
  }

  lemma ProjectionFits(env: Env, run: Run)
    requires C.Construct(env.commands, run.command) == Ok(run.command)
    ensures C.ProjectionOk(run.command.projection)
  {
  }

  /** An open session in order whose authority is owned. */
  ghost predicate Ready(env: Env, s: SessionState) {
    env.text.Lawful() && LogRecordAdmitted(env) && Core(env, s) && AuthorityOwned(env, s)
  }

  /** The run cut off behind its first `n` calls. */
  function UpTo(run: Run, n: nat): Run
    requires n <= |run.calls|
  {
    run.(calls := run.calls[..n])
  }

  lemma UpToLawful(env: Env, run: Run, n: nat)
    requires Lawful(env, run) && n <= |run.calls|
    ensures Lawful(env, UpTo(run, n)) && Final(env, UpTo(run, n)) == AfterCalls(env, Opened(env, run), run.calls[..n])
  {
    assert forall c | c in run.calls[..n] :: c in run.calls;
  }

  lemma ReadyAt(env: Env, run: Run, n: nat)
    requires Lawful(env, run) && n <= |run.calls| && !AfterCalls(env, Opened(env, run), run.calls[..n]).isSealed
    ensures Ready(env, AfterCalls(env, Opened(env, run), run.calls[..n]))
  {
    UpToLawful(env, run, n);
    OpenSessionInOrder(env, UpTo(run, n));
    AuthorityNeverLost(env, UpTo(run, n));
  }

  /** Where the file is declared, only the manifest can refuse a seal. */
  lemma DeclaringSeals(env: Env, s: SessionState, name: string, content: Bytes)
    requires Ready(env, s) && AdmitsAll(env) && Untaken(name) && Declaring(s, name, content)
    ensures Sealable(env, s) && SealingAdmitted(env, s) && Seal(env, s) == SealOpen(env, s)
    ensures Seal(env, s).result.Ok? <==> ManifestFree(env, s)
  {
    DeclaringSealable(env, s, name, content);
    LogUndeclared(s, name, content);
    DeclaringAdmitted(env, s, name, content);
    OwnedSealsExactlyWhen(env, s);
    SealGates(env, s);
  }

  lemma SealKeepsNames(env: Env, s: SessionState)
    requires !s.isSealed && s.outcome.None? && Seal(env, s).result.Ok?
    ensures Seal(env, s).state.isSealed && Seal(env, s).state.retained == s.retained
  {
    SealCases(env, s);
    SortedPresent(env, s);
    EmitAllGrows(env, s, RecordDrafts(RecordsFor(env, s, SortedRetained(s))) + [StopDraft(s)]);
  }

  /** A seal over a manifest that can be continued goes through, special name and all. */
  lemma SpecialSeals(env: Env, s: SessionState, name: string, content: Bytes)
    requires Ready(env, s) && AdmitsAll(env) && Untaken(name) && Declaring(s, name, content)
    requires ManifestFree(env, s) && !NamesOk(s.retained)
    ensures var t := AfterCall(env, s, SealCall); t.isSealed && !NamesOk(t.retained)
  {
    DeclaringSeals(env, s, name, content);
    SealKeepsNames(env, s);
  }

  /** The last call seals: the run ends sealed and the validator refuses it. */
  lemma LastSealRejected(env: Env, run: Run, n: nat, name: string, content: Bytes)
    requires Lawful(env, run) && |run.calls| == n + 1 && run.calls[n] == SealCall && AdmitsAll(env) && Untaken(name)
    requires var s := AfterCalls(env, Opened(env, run), run.calls[..n]);
             Declaring(s, name, content) && ManifestFree(env, s) && !NamesOk(s.retained)
    ensures Final(env, run).isSealed && !J.DirectoryAccepted(env, AttemptFiles(env, Final(env, run)))
  {
    ReadyAt(env, run, n);
    SpecialSeals(env, AfterCalls(env, Opened(env, run), run.calls[..n]), name, content);
    LastCall(env, Opened(env, run), run.calls);
    SealedDirectoryVerdict(env, run);
  }

  lemma LastCall(env: Env, o: SessionState, calls: seq<Call>)
    requires calls != []
    ensures var n := |calls| - 1; AfterCalls(env, o, calls) == AfterCall(env, AfterCalls(env, o, calls[..n]), calls[n])
  {
  }

  /** What a seal leaves that only the manifest can have refused. */
  lemma OnlyManifestRefuses(env: Env, s: SessionState)
    requires LogRecordAdmitted(env) && RetainedPresent(env, s) && SealingAdmitted(env, s)
    requires SealOpen(env, s).result.Err?
    ensures var r := SealOpen(env, s); var t := r.state;
            && r.result == Err(ManifestRefused) && MANIFEST in t.files
            && t == s.(events := t.events, sequence := t.sequence, files := s.files[MANIFEST := t.files[MANIFEST]])
  {
    SortedPresent(env, s);
    var ds := RecordDrafts(RecordsFor(env, s, SortedRetained(s))) + [StopDraft(s)];
    EmitAllGrows(env, s, ds);
    LogRecordReady(env, EmitAll(env, s, ds).state);
  }

  lemma EmptiedStillDeclares(s: SessionState, t: SessionState, content: Bytes)
    requires Declaring(s, MANIFEST, content) && MANIFEST in t.files
    requires t == s.(events := t.events, sequence := t.sequence, files := s.files[MANIFEST := t.files[MANIFEST]])
    ensures Declaring(AfterExternal(t, MANIFEST, Some([])), MANIFEST, [])
  {
  }

  /** A refused seal and the emptied file behind it leave everything declared in place. */
  lemma RefusedKeepsDeclaring(env: Env, s: SessionState, content: Bytes)
    requires Ready(env, s) && AdmitsAll(env) && Declaring(s, MANIFEST, content) && !ManifestFree(env, s)
    ensures RefusedOverManifest(env, s, SealCall)
    ensures Declaring(AfterExternal(AfterCall(env, s, SealCall), MANIFEST, Some([])), MANIFEST, [])
  {
    ManifestUntaken();
    DeclaringSeals(env, s, MANIFEST, content);
    OnlyManifestRefuses(env, s);
    EmptiedStillDeclares(s, SealOpen(env, s).state, content);
  }

  // ----------------------------------------------------------- whole runs

  lemma DeclaringBegins(name: string, content: Bytes)
    ensures var calls := DeclaringCalls(name, content);
            Begins(calls, name, content) && |calls| == 3 && calls[2] == SealCall
  {
  }

  lemma EmptyingBegins(content: Bytes)
    ensures var calls := EmptyingCalls(content);
            && Begins(calls, MANIFEST, content) && |calls| == 5
            && calls[2] == SealCall && calls[3] == External(MANIFEST, Some([])) && calls[4] == SealCall
  {
  }

  lemma ThirdCallRejected(env: Env, run: Run, name: string, content: Bytes)
    requires Lawful(env, run) && AdmitsAll(env) && Modest(run) && Untaken(name)
    requires Begins(run.calls, name, content) && |run.calls| == 3 && run.calls[2] == SealCall
    requires (name == MANIFEST && content == []) || (name != MANIFEST && J.BaseName(name) == EVENTS)
    ensures Final(env, run).isSealed && !J.DirectoryAccepted(env, AttemptFiles(env, Final(env, run)))
  {
    var s := AfterCalls(env, Opened(env, run), run.calls[..2]);
    TwoCallsDeclare(env, run, name, content);
    if name != MANIFEST { UnheldManifest(s, name, content); }
    ManifestContents(env, s);
    SpecialName(s, name, content);
    LastSealRejected(env, run, 2, name, content);
  }

  /**
   Under permissive constructors a run that declares an event log below the root ends sealed, and the validator
   does not accept its directory.
   */
  lemma NestedLogSealsAndIsRejected(env: Env, run: Run, content: Bytes)
    requires Lawful(env, run) && AdmitsAll(env) && Modest(run) && run.calls == DeclaringCalls(NESTED, content)
    ensures Final(env, run).isSealed && !J.DirectoryAccepted(env, AttemptFiles(env, Final(env, run)))
  {
    NestedName();
    NestedUntaken();
    DeclaringBegins(NESTED, content);
    ThirdCallRejected(env, run, NESTED, content);
  }

  /** So does one that declares an empty manifest file of the root: its record speaks of the empty file. */
  lemma RootManifestSealsAndIsRejected(env: Env, run: Run)
    requires Lawful(env, run) && AdmitsAll(env) && Modest(run) && run.calls == DeclaringCalls(MANIFEST, [])
    ensures Final(env, run).isSealed && !J.DirectoryAccepted(env, AttemptFiles(env, Final(env, run)))
  {
    ManifestUntaken();
    DeclaringBegins(MANIFEST, []);
    ThirdCallRejected(env, run, MANIFEST, []);
  }

  lemma {:induction false} NeverRefusedBefore(env: Env, o: SessionState, calls: seq<Call>, n: nat)
    requires n < |calls| && NeverRefused(env, o, calls)
    ensures !RefusedOverManifest(env, AfterCalls(env, o, calls[..n]), calls[n])
    decreases |calls|
  {
    var front := calls[..|calls| - 1];
    if n < |front| {
      NeverRefusedBefore(env, o, front, n);
      assert front[..n] == calls[..n];
    }
  }

  lemma SealedThenEmptied(env: Env, o: SessionState, calls: seq<Call>)
    requires |calls| >= 4 && calls[2] == SealCall && calls[3] == External(MANIFEST, Some([]))
    ensures AfterCalls(env, o, calls[..4])
         == AfterExternal(AfterCall(env, AfterCalls(env, o, calls[..2]), SealCall), MANIFEST, Some([]))
  {
    NextCall(env, o, calls, 2);
    NextCall(env, o, calls, 3);
  }

  /** The first seal is refused, and behind the emptying the file is still declared. */
  lemma EmptyingRefuses(env: Env, run: Run, content: Bytes)
    requires Lawful(env, run) && AdmitsAll(env) && Modest(run) && !EndsLine(content)
    requires Begins(run.calls, MANIFEST, content) && |run.calls| == 5
    requires run.calls[2] == SealCall && run.calls[3] == External(MANIFEST, Some([]))
    ensures RefusedOverManifest(env, AfterCalls(env, Opened(env, run), run.calls[..2]), run.calls[2])
    ensures Declaring(AfterCalls(env, Opened(env, run), run.calls[..4]), MANIFEST, [])
  {
    ManifestUntaken();
    TwoCallsDeclare(env, run, MANIFEST, content);
    ManifestContents(env, AfterCalls(env, Opened(env, run), run.calls[..2]));
    ReadyAt(env, run, 2);
    RefusedKeepsDeclaring(env, AfterCalls(env, Opened(env, run), run.calls[..2]), content);
    SealedThenEmptied(env, Opened(env, run), run.calls);
  }

  /**
   Under permissive constructors a run that declares an unterminated manifest file, seals in vain, has the file
   emptied and seals again ends sealed with two stops: its stream is not complete and its directory not accepted.
   */
  lemma EmptiedManifestStopsTwice(env: Env, run: Run, content: Bytes)
    requires Lawful(env, run) && AdmitsAll(env) && Modest(run)
    requires run.calls == EmptyingCalls(content) && !EndsLine(content)
    ensures Final(env, run).isSealed && !Completed(Final(env, run).events)
    ensures !J.DirectoryAccepted(env, AttemptFiles(env, Final(env, run)))
  {
    EmptyingBegins(content);
    EmptyingRefuses(env, run, content);
    EmptiedSeals(env, run);
    if NeverRefused(env, Opened(env, run), run.calls) {
      NeverRefusedBefore(env, Opened(env, run), run.calls, 2);
    }
    SealedLifecycleComplete(env, run);
  }

  lemma EmptiedSeals(env: Env, run: Run)
    requires Lawful(env, run) && AdmitsAll(env) && |run.calls| == 5 && run.calls[4] == SealCall
    requires Declaring(AfterCalls(env, Opened(env, run), run.calls[..4]), MANIFEST, [])
    ensures Final(env, run).isSealed && !J.DirectoryAccepted(env, AttemptFiles(env, Final(env, run)))
  {
    var s := AfterCalls(env, Opened(env, run), run.calls[..4]);
    ManifestUntaken();
    ManifestContents(env, s);
    SpecialName(s, MANIFEST, []);
    LastSealRejected(env, run, 4, MANIFEST, []);
  }
}
