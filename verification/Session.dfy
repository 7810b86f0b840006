/**
 The run session as a state machine: opening, normalisation, accounting and sealing, each a function
 from state to state. The attempt directory is a map from path to bytes; the event log is kept as the
 list of its events, whose bytes are `LogBytes`.
 */
module Session {
  import opened Common
  import opened Json
  import opened Events
  import opened Budget
  import opened BudgetHistory
  import opened Manifest
  import opened AttemptDirectories
  import Sorting
  import P = RunPlans
  import C = Commands
  import CD = CommandDocuments

  /** The parts of the environment that are parameters: text codec, patterns, schemas, digest and clock readings. */
  datatype Env = Env(
    text: Text, rules: Rules, records: RecordRules, digest: Bytes -> string, referenceDigest: string -> string,
    clock: nat -> string, attemptPath: P.RunPlan -> string, plans: P.Patterns, commands: C.Patterns,
    planSchema: Fields -> bool, eventSchema: Fields -> bool)

  const EVENTS := "events.jsonl"
  const MANIFEST := "artifact-records.jsonl"
  const RUN_PLAN := "run-plan.json"
  const COMMAND := "command.json"
  const STDOUT := "stdout.log"
  const STDERR := "stderr.log"

  datatype LaunchError = LaunchError(kind: string, message: string)

  datatype ProcessResult = ProcessResult(
    returnCode: int, wallSeconds: Amount, timedOut: bool, outputBudgetExceeded: bool,
    stdoutRedactions: nat, stderrRedactions: nat, outputBytes: int, launchError: Option<LaunchError>)

  datatype Retained = Retained(path: string, kind: string)

  datatype ExecutionOutcome = ExecutionOutcome(process: ProcessResult, usage: Usage, status: string)

  datatype SessionState = SessionState(
    plan: P.RunPlan, command: C.CommandSpec, process: ProcessResult,
    usage: Usage, sequence: nat, status: string, isSealed: bool, outcome: Option<ExecutionOutcome>,
    accounting: Option<Accounting>, normalizationApplied: bool,
    retained: seq<Retained>, files: map<string, Bytes>, events: seq<HarnessEvent>)

  /** The whole attempt directory. */
  function AttemptFiles(env: Env, s: SessionState): map<string, Bytes> {
    s.files[EVENTS := LogBytes(env.text, s.events)]
  }

  function RetainedPaths(rs: seq<Retained>): set<string> {
    set r | r in rs :: r.path
  }

  datatype Failure =
    | AlreadySealed | AuthorityChanged | AccountingClosed | NormalizationClosed
    | ArtifactInvalid | ArtifactDuplicate | EventRefused
    | UndeclaredFiles | AccountingOpen | RetainedFileMissing | RecordRefused | ManifestRefused
    | ProjectionExceeded | BudgetExceededByAccounting

  datatype Step<T> = Step(state: SessionState, result: Result<T, Failure>)

  // -------------------------------------------------------------- emission

  datatype Draft = Draft(eventType: EventType, source: string, provenance: Provenance, payload: Fields)

  function Control(t: EventType, provenance: Provenance, payload: Fields): Draft {
    Draft(t, CONTROL_SOURCE, provenance, payload)
  }

  function EventOf(env: Env, s: SessionState, d: Draft): HarnessEvent {
    HarnessEvent(s.plan.identity.runId, s.plan.identity.attempt, s.sequence + 1, env.clock(s.sequence + 1),
                 d.eventType, d.source, d.provenance, d.payload, CURRENT_VERSION)
  }

  function AfterEmit(env: Env, s: SessionState, d: Draft): SessionState {
    s.(events := s.events + [EventOf(env, s, d)], sequence := s.sequence + 1)
  }

  datatype Emitted = Emitted(state: SessionState, ok: bool)

  /** Emits the drafts in order and stops at the first one that is refused. */
  function EmitAll(env: Env, s: SessionState, drafts: seq<Draft>): Emitted
    decreases |drafts|
  {
    if drafts == [] then Emitted(s, true)
    else if ValidEvent(env.rules, EventOf(env, s, drafts[0])) then
      EmitAll(env, AfterEmit(env, s, drafts[0]), drafts[1..])
    else Emitted(s, false)
  }

  // --------------------------------------------------------------- opening

  function FirstUpdate(process: ProcessResult, withinBudget: bool): Fields {
    map["wall_seconds" := Float(process.wallSeconds), "output_bytes" := Int(process.outputBytes),
        "within_budget" := Bool(withinBudget)]
  }

  function ProcessUsage(process: ProcessResult): Usage {
    Usage(process.wallSeconds, 0, 0, 0, 0, process.outputBytes)
  }

  function RunStartedPayload(plan: P.RunPlan): Fields {
    map["experiment_id" := Str(plan.identity.experimentId), "condition" := Str(plan.identity.condition),
        "profile" := Str(P.ProfileWord(plan.profile)), "giclab_commit" := Str(plan.sources.giclabCommit),
        "upstream_source_id" := Str(plan.sources.upstreamSourceId),
        "upstream_commit" := Str(plan.sources.upstreamCommit),
        "protocol_sha256" := Str(plan.sources.protocolSha256), "config_sha256" := Str(plan.sources.configSha256),
        "model_revision" := P.OptionalStr(plan.sources.modelRevision),
        "dataset_revision" := P.OptionalStr(plan.sources.datasetRevision),
        "environment_sha256" := Str(plan.sources.environmentSha256)]
  }

  function PreflightPayload(env: Env, plan: P.RunPlan, command: C.CommandSpec): Fields {
    var reference := plan.execution.authorization.reference;
    map["authorization_reference_sha256" := Str(env.referenceDigest(if reference.Some? then reference.value else "")),
        "artifact_directory" := Str(env.attemptPath(plan)),
        "command_sha256" := Str(CD.CommandSha256(env.text, env.digest, command)),
        "max_wall_seconds" := Int(plan.budget.maxWallSeconds), "max_output_bytes" := Int(plan.budget.maxOutputBytes),
        "projected_cost_usd" := Float(command.projection.costUsd),
        "projected_gpu_hours" := Float(command.projection.gpuHours),
        "projected_model_tokens" := Int(command.projection.modelTokens),
        "projected_tool_calls" := Int(command.projection.toolCalls),
        "incremental_limit_enforcement" := Str(C.EnforcementWord(command.projection.enforcement))]
  }

  function ErrorPayload(kind: string, message: string): Fields {
    map["error_type" := Str(kind), "message" := Str(message)]
  }

  function CompletedPayload(process: ProcessResult): Fields {
    map["return_code" := Int(process.returnCode), "timed_out" := Bool(process.timedOut),
        "wall_seconds" := Float(process.wallSeconds), "output_budget_exceeded" := Bool(process.outputBudgetExceeded),
        "stdout_redactions" := Int(process.stdoutRedactions), "stderr_redactions" := Int(process.stderrRedactions)]
  }

  function CommandDrafts(command: C.CommandSpec, process: ProcessResult): seq<Draft> {
    if process.launchError.Some? then
      [Control(Error, Observed, ErrorPayload(process.launchError.value.kind, process.launchError.value.message))]
    else [Control(CommandStarted, Observed, CD.CommandDocument(command)),
          Control(CommandCompleted, Observed, CompletedPayload(process))]
  }

  function ProcessStatus(process: ProcessResult): string {
    if process.launchError.Some? then "launch-error"
    else if process.outputBudgetExceeded then "output-budget-exceeded"
    else if process.timedOut then "timed-out"
    else if process.returnCode == 0 then "completed"
    else "command-failed"
  }

  function OpeningStatus(plan: P.RunPlan, process: ProcessResult): string {
    if Within(plan.budget, ProcessUsage(process)) then ProcessStatus(process) else BUDGET_EXCEEDED
  }

  function OpeningDrafts(env: Env, plan: P.RunPlan, command: C.CommandSpec, process: ProcessResult): seq<Draft> {
    var within := Within(plan.budget, ProcessUsage(process));
    [Control(RunStarted, Observed, RunStartedPayload(plan)),
     Control(PreflightCompleted, Derived, PreflightPayload(env, plan, command))]
    + CommandDrafts(command, process)
    + (if within then [] else [Control(Error, Observed, ErrorPayload("BudgetExceeded", "budget exceeded"))])
    + [Control(BudgetUpdate, Observed, FirstUpdate(process, within && !process.outputBudgetExceeded))]
  }

  /** The gates in front of process creation that the later accounting relies on. */
  predicate ExecutionAllowed(env: Env, plan: P.RunPlan, command: C.CommandSpec) {
    && plan.execution.backend.LocalSubprocess?
    && plan.execution.authorization.commandSha256 == Some(CD.CommandSha256(env.text, env.digest, command))
    && command.timeoutSeconds <= plan.budget.maxWallSeconds
    && command.projection.unbounded == [] && command.unownedOutputPatterns == []
    && Within(plan.budget, ProjectedUsage(command))
  }

  const HARNESS_RETAINED := [Retained(STDOUT, "raw-log"), Retained(STDERR, "raw-log"),
                             Retained(RUN_PLAN, "run-plan"), Retained(COMMAND, "command")]

  function Contracts(env: Env, plan: P.RunPlan, command: C.CommandSpec): map<string, Bytes> {
    map[RUN_PLAN := env.text.indented(Obj(P.PlanDocument(plan))) + [LF],
        COMMAND := env.text.indented(Obj(CD.CommandDocument(command))) + [LF]]
  }

  datatype OpenFailure = Disallowed | OpeningEventRefused

  /**
   One authorised run up to the open session. `left` is what the process left in the attempt directory
   besides the harness-owned contracts and event log, its captured output included.
   */
  function Open(env: Env, plan: P.RunPlan, command: C.CommandSpec, process: ProcessResult, left: map<string, Bytes>)
    : Result<SessionState, OpenFailure>
  {
    if !ExecutionAllowed(env, plan, command) then Err(Disallowed)
    else
      var start := SessionState(
        plan, command, process, ProcessUsage(process), 0, OpeningStatus(plan, process), false, None, None, false,
        HARNESS_RETAINED, left + Contracts(env, plan, command), []);
      var emitted := EmitAll(env, start, OpeningDrafts(env, plan, command, process));
      if emitted.ok then Ok(emitted.state) else Err(OpeningEventRefused)
  }

  // ------------------------------------------------------------ guards

  predicate AuthorityOwned(env: Env, s: SessionState) {
    && (Within(s.plan.budget, s.usage) || s.status == BUDGET_EXCEEDED || s.status == PROJECTION_EXCEEDED)
    && s.plan.execution.authorization.commandSha256 == Some(CD.CommandSha256(env.text, env.digest, s.command))
  }

  // --------------------------------------------------------------- sealing

  const PATH: Retained -> string := (r: Retained) => r.path

  function SortedRetained(s: SessionState): seq<Retained> {
    Sorting.SortBy(PATH, s.retained)
  }

  /** Size and digest of one file as it is now. */
  function RecordFor(env: Env, s: SessionState, path: string, kind: string): ArtifactRecord
    requires path in AttemptFiles(env, s)
  {
    var content := AttemptFiles(env, s)[path];
    ArtifactRecord(path, kind, |content|, env.digest(content), env.clock(s.sequence))
  }

  function RecordsFor(env: Env, s: SessionState, rs: seq<Retained>): (records: seq<ArtifactRecord>)
    requires forall r | r in rs :: r.path in AttemptFiles(env, s)
    ensures |records| == |rs|
    ensures forall i | 0 <= i < |rs| :: records[i] == RecordFor(env, s, rs[i].path, rs[i].kind)
  {
    seq(|rs|, i requires 0 <= i < |rs| => RecordFor(env, s, rs[i].path, rs[i].kind))
  }

  function RecordDrafts(records: seq<ArtifactRecord>): (ds: seq<Draft>)
    ensures |ds| == |records|
  {
    seq(|records|, i requires 0 <= i < |records| =>
      Control(ArtifactRecorded, Derived, RecordDocument(records[i])))
  }

  function StopDraft(s: SessionState): Draft {
    Control(RunStopped, Observed, map["status" := Str(s.status), "return_code" := Int(s.process.returnCode)])
  }

  predicate FilesDeclared(env: Env, s: SessionState) {
    forall path | path in AttemptFiles(env, s) :: path == EVENTS || path in RetainedPaths(s.retained)
  }

  predicate RetainedPresent(env: Env, s: SessionState) {
    forall r | r in s.retained :: r.path in AttemptFiles(env, s)
  }

  /** Every retained file is there, and the constructor accepts its record. */
  predicate RetainedReady(env: Env, s: SessionState) {
    && RetainedPresent(env, s)
    && forall r | r in s.retained :: RecordOk(env.records, RecordFor(env, s, r.path, r.kind))
  }

  /** What stops the description of the entries, at the first one that cannot be described. */
  function DescribeFailure(env: Env, s: SessionState, rs: seq<Retained>): (f: Option<Failure>)
    ensures f.None? <==>
              forall r | r in rs ::
                r.path in AttemptFiles(env, s) && RecordOk(env.records, RecordFor(env, s, r.path, r.kind))
    ensures f.Some? ==> f.value.RetainedFileMissing? || f.value.RecordRefused?
  {
    if rs == [] then None
    else
      assert forall r :: r in rs <==> r == rs[0] || r in rs[1..];
      if rs[0].path !in AttemptFiles(env, s) then Some(RetainedFileMissing)
      else if !RecordOk(env.records, RecordFor(env, s, rs[0].path, rs[0].kind)) then Some(RecordRefused)
      else DescribeFailure(env, s, rs[1..])
  }

  function EventLogRecord(env: Env, s: SessionState): ArtifactRecord {
    RecordFor(env, s, EVENTS, "event-stream")
  }

  /** Writes the manifest of a stopped session, and with it seals the session. */
  function CommitManifest(env: Env, s: SessionState, stopped: SessionState, records: seq<ArtifactRecord>)
    : Step<ExecutionOutcome>
  {
    var appended := AppendAll(env.text, env.records, ContentOf(stopped.files, MANIFEST), records);
    var written := stopped.(files := stopped.files[MANIFEST := appended.content]);
    if appended.error.Some? then Step(written, Err(ManifestRefused))
    else
      var outcome := ExecutionOutcome(s.process, s.usage, s.status);
      Step(written.(outcome := Some(outcome), isSealed := true), Ok(outcome))
  }

  /** Records, stops, hashes the finished log, and writes the manifest. */
  function SealOpen(env: Env, s: SessionState): Step<ExecutionOutcome>
    requires RetainedPresent(env, s)
  {
    Sorting.SortMembers(PATH, s.retained);
    var records := RecordsFor(env, s, SortedRetained(s));
    var emitted := EmitAll(env, s, RecordDrafts(records) + [StopDraft(s)]);
    var last := EventLogRecord(env, emitted.state);
    if !emitted.ok then Step(emitted.state, Err(EventRefused))
    else if !RecordOk(env.records, last) then Step(emitted.state, Err(RecordRefused))
    else CommitManifest(env, s, emitted.state, records + [last])
  }

  /** The gates of `Seal`, all open. */
  predicate Sealable(env: Env, s: SessionState) {
    && FilesDeclared(env, s) && RetainedReady(env, s)
    && (s.command.projection.HasUsage() ==> s.accounting.Some?)
  }

  /** What refuses a seal before anything is written. */
  function SealRefusal(env: Env, s: SessionState): (f: Option<Failure>)
    ensures f.None? <==> !s.isSealed && AuthorityOwned(env, s) && Sealable(env, s)
    ensures f.Some? ==> f.value != ManifestRefused
  {
    if s.isSealed then Some(AlreadySealed)
    else if !AuthorityOwned(env, s) then Some(AuthorityChanged)
    else if !FilesDeclared(env, s) then Some(UndeclaredFiles)
    else if s.command.projection.HasUsage() && s.accounting.None? then Some(AccountingOpen)
    else
      Sorting.SortMembers(PATH, s.retained);
      DescribeFailure(env, s, SortedRetained(s))
  }

  function Seal(env: Env, s: SessionState): Step<ExecutionOutcome> {
    if s.outcome.Some? then Step(s, Ok(s.outcome.value))
    else
      var refusal := SealRefusal(env, s);
      if refusal.Some? then Step(s, Err(refusal.value)) else SealOpen(env, s)
  }

  // ------------------------------------------------------------ accounting

  function AccountingWord(p: C.Projection, a: Accounting, u: Unit): string {
    if a.Of(u).Some? then OBSERVED else if ProjectionOf(p, u) > 0 then RESERVED else INAPPLICABLE
  }

  function EvidencePayload(p: C.Projection, a: Accounting): Fields {
    map["cost_usd" := Str(AccountingWord(p, a, CostUsd)), "gpu_hours" := Str(AccountingWord(p, a, GpuHours)),
        "model_tokens" := Str(AccountingWord(p, a, ModelTokens)), "tool_calls" := Str(AccountingWord(p, a, ToolCalls))]
  }

  function AccountingPayload(p: C.Projection, a: Accounting, usage: Usage): Fields {
    map["wall_seconds" := Float(usage.wallSeconds), "cost_usd" := Float(usage.costUsd),
        "gpu_hours" := Float(usage.gpuHours),
        "model_tokens" := Int(usage.modelTokens), "tool_calls" := Int(usage.toolCalls),
        "output_bytes" := Int(usage.outputBytes),
        EVIDENCE := Obj(EvidencePayload(p, a))]
  }

  predicate SomeUnavailable(p: C.Projection, a: Accounting) {
    exists u: Unit | IsNonWall(u) :: a.Of(u).None? && ProjectionOf(p, u) > 0
  }

  const UNAVAILABLE_KIND := "resource-accounting-unavailable"

  function UnavailableUnits(p: C.Projection, a: Accounting, units: seq<Unit>): seq<Value> {
    if units == [] then []
    else (if a.Of(units[0]).None? && ProjectionOf(p, units[0]) > 0 then [Str(Key(units[0]))] else [])
         + UnavailableUnits(p, a, units[1..])
  }

  function UnavailablePayload(p: C.Projection, a: Accounting): Fields {
    map["kind" := Str(UNAVAILABLE_KIND), "units" := Arr(UnavailableUnits(p, a, NONWALL)),
        "charged_at_authorized_projection" := Bool(true)]
  }

  function UnavailableDrafts(p: C.Projection, a: Accounting): seq<Draft> {
    if SomeUnavailable(p, a) then [Control(Warning, Unavailable, UnavailablePayload(p, a))] else []
  }

  function AccountingDraft(p: C.Projection, a: Accounting, usage: Usage): Draft {
    Control(BudgetUpdate, Observed, AccountingPayload(p, a, usage))
  }

  function ObservedOrZero(a: Accounting, u: Unit): int {
    if a.Of(u).Some? then a.Of(u).value else 0
  }

  function ProjectionErrorPayload(a: Accounting): Fields {
    map["error_type" := Str("ResourceProjectionExceeded"), "message" := Str("projection"),
        "observed_nonwall_usage" := Obj(
          map["cost_usd" := Float(ObservedOrZero(a, CostUsd)), "gpu_hours" := Float(ObservedOrZero(a, GpuHours)),
              "model_tokens" := Int(ObservedOrZero(a, ModelTokens)),
                "tool_calls" := Int(ObservedOrZero(a, ToolCalls))])]
  }

  /** Close accounting after an overrun: record it, explain it, seal, and report the failure. */
  function CloseOverrun(env: Env, s: SessionState, drafts: seq<Draft>, failure: Failure): Step<()> {
    var emitted := EmitAll(env, s, drafts);
    if !emitted.ok then Step(emitted.state, Err(EventRefused))
    else
      var sealing := Seal(env, emitted.state);
      Step(sealing.state, Err(if sealing.result.Ok? then failure else sealing.result.error))
  }

  function AttestAccounting(env: Env, s: SessionState, a: Accounting): Step<()> {
    if s.isSealed then Step(s, Err(AlreadySealed))
    else if !AuthorityOwned(env, s) then Step(s, Err(AuthorityChanged))
    else if s.accounting.Some? then Step(s, Err(AccountingClosed))
    else
      var p := s.command.projection;
      if ProjectionViolated(p, a) then
        var usage := UsageOf(p, a, s.process.wallSeconds, s.process.outputBytes);
        var s1 := s.(accounting := Some(a), status := PROJECTION_EXCEEDED, usage := usage);
        CloseOverrun(env, s1,
                     [AccountingDraft(p, a, usage), Control(Error, Observed, ProjectionErrorPayload(a))],
                     ProjectionExceeded)
      else
        var current := s.usage.Plus(UsageOf(p, a, 0, 0));
        var s1 := s.(accounting := Some(a), usage := current);
        if !Within(s.plan.budget, current) then
          CloseOverrun(env, s1.(status := BUDGET_EXCEEDED),
                       [AccountingDraft(p, a, current),
                        Control(Error, Observed, ErrorPayload("BudgetExceeded", "budget exceeded"))],
                       BudgetExceededByAccounting)
        else
          var reported := current.(wallSeconds := Max(current.wallSeconds, s.process.wallSeconds),
                                   outputBytes := Max(current.outputBytes, s.process.outputBytes));
          var emitted := EmitAll(env, s1, UnavailableDrafts(p, a) + [AccountingDraft(p, a, reported)]);
          Step(emitted.state, if emitted.ok then Ok(()) else Err(EventRefused))
  }

  // ---------------------------------------------------------- normalisation

  datatype Notice = Notice(isError: bool, kind: string, message: string, source: string, sourcePaths: seq<string>,
                           provenance: Provenance)

  datatype NormalizationResult = NormalizationResult(
    events: seq<Draft>, artifacts: seq<string>, unavailableFields: seq<string>, notices: seq<Notice>,
      accounting: Accounting)

  /** What the typed constructors guarantee of an adapter's result. */
  predicate ResultOk(r: NormalizationResult) {
    && (forall d | d in r.events :: IsAdapterType(d.eventType) && d.source != "" && d.source != CONTROL_SOURCE)
    && r.accounting.Valid()
  }

  function UnavailableFieldDrafts(fields: seq<string>): (ds: seq<Draft>)
    ensures |ds| == |fields|
  {
    seq(|fields|, i requires 0 <= i < |fields| =>
      Control(Warning, Unavailable, map["kind" := Str("unavailable-field"), "field" := Str(fields[i])]))
  }

  function NoticeDrafts(notices: seq<Notice>): (ds: seq<Draft>)
    ensures |ds| == |notices|
  {
    seq(|notices|, i requires 0 <= i < |notices| =>
      Control(if notices[i].isError then Error else Warning, notices[i].provenance,
              map["kind" := Str(notices[i].kind), "message" := Str(notices[i].message),
                  "adapter_source" := Str(notices[i].source), "source_paths" := Arr(Strings(notices[i].sourcePaths))]))
  }

  function ResultDrafts(r: NormalizationResult): seq<Draft> {
    r.events + UnavailableFieldDrafts(r.unavailableFields) + NoticeDrafts(r.notices)
  }

  /** Every artifact exists in the attempt and is neither owned already nor listed twice. */
  function ArtifactFailure(present: set<string>, taken: set<string>, artifacts: seq<string>): Option<Failure>
    decreases |artifacts|
  {
    if artifacts == [] then None
    else if artifacts[0] !in present then Some(ArtifactInvalid)
    else if artifacts[0] in taken then Some(ArtifactDuplicate)
    else ArtifactFailure(present, taken + {artifacts[0]}, artifacts[1..])
  }

  function RawRetained(artifacts: seq<string>): (rs: seq<Retained>)
    ensures |rs| == |artifacts|
    ensures forall i | 0 <= i < |artifacts| :: rs[i] == Retained(artifacts[i], "upstream-raw")
  {
    seq(|artifacts|, i requires 0 <= i < |artifacts| => Retained(artifacts[i], "upstream-raw"))
  }

  function ApplyNormalization(env: Env, s: SessionState, r: NormalizationResult): Step<()> {
    if s.isSealed then Step(s, Err(AlreadySealed))
    else if !AuthorityOwned(env, s) then Step(s, Err(AuthorityChanged))
    else if s.normalizationApplied then Step(s, Err(NormalizationClosed))
    else
      var failure := ArtifactFailure(AttemptFiles(env, s).Keys, RetainedPaths(s.retained), r.artifacts);
      if failure.Some? then Step(s, Err(failure.value))
      else
        var emitted := EmitAll(env, s.(retained := s.retained + RawRetained(r.artifacts)), ResultDrafts(r));
        if !emitted.ok then Step(emitted.state, Err(EventRefused))
        else AttestAccounting(env, emitted.state.(normalizationApplied := true), r.accounting)
  }

  /** A run whose command could not be launched closes its own accounting with zeros and seals itself. */
  function CloseLaunchFailure(env: Env, s: SessionState): Step<ExecutionOutcome> {
    var zeros := Accounting(Some(0), Some(0), Some(0), Some(0));
    var attested := if s.command.projection.HasUsage() then AttestAccounting(env, s, zeros) else Step(s, Ok(()));
    if attested.result.Err? then Step(attested.state, Err(attested.result.error)) else Seal(env, attested.state)
  }

  // ------------------------------------------------------------------ runs

  datatype Call =
    | Normalize(result: NormalizationResult)
    | SealCall
    | LaunchClose
    | External(path: string, content: Option<Bytes>)   // anyone else writing or removing a file

  /** Files nobody else may change: the two contracts and the event log. */
  const PROTECTED := {RUN_PLAN, COMMAND, EVENTS}

  predicate CallOk(c: Call) {
    match c
    case Normalize(r) => ResultOk(r)
    case External(path, content) => path !in PROTECTED
    case _ => true
  }

  function AfterExternal(s: SessionState, path: string, content: Option<Bytes>): SessionState {
    if s.isSealed then s   // sealed evidence is left alone
    else if content.Some? then s.(files := s.files[path := content.value])
    else s.(files := s.files - {path})
  }

  function AfterCall(env: Env, s: SessionState, c: Call): SessionState {
    match c
    case Normalize(r) => ApplyNormalization(env, s, r).state
    case SealCall => Seal(env, s).state
    case LaunchClose => if s.process.launchError.Some? then CloseLaunchFailure(env, s).state else s
    case External(path, content) => AfterExternal(s, path, content)
  }

  function AfterCalls(env: Env, s: SessionState, calls: seq<Call>): SessionState {
    if calls == [] then s
    else AfterCall(env, AfterCalls(env, s, calls[..|calls| - 1]), calls[|calls| - 1])
  }
}
