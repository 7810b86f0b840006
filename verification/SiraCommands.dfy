/** The pinned SiRA command: its typed configuration, its canonical document and the arguments built from it. */
module SiraCommands {
  import opened Common
  import opened Json
  import T = TaskSources
  import P = RunPlans
  import C = Commands

  datatype Mode = Reactive | Simulative
  datatype Dataset = Fanout | Flightqa | Webarena

  datatype Task = Task(
    query: Option<string>, dataset: Option<Dataset>, dataRoot: Option<string>, startIdx: Option<int>,
    endIdx: Option<int>,
    expectedGoal: Option<string>, datasetRevision: Option<string>, expectedInstanceId: Option<string>)

  datatype Config = Config(
    profile: P.RunProfile, jobName: string, mode: Mode, task: Task, model: string, agent: string,
    maxSteps: int, actionTimeout: int, maxRetry: int, seed: int, outputSubdirectory: string)

  /** What the adapter reads of the machine and of contracts kept elsewhere. */
  datatype World = World(
    text: Text, digest: Bytes -> string, commands: C.Patterns,
    admitsTask: Task -> bool, relative: string -> bool,
    checkout: string -> bool, treeSha256: string -> string, identity: string -> C.Directory,
      executableSha256: string -> string)

  function ModeWord(m: Mode): string {
    match m case Reactive => "reactive" case Simulative => "simulative"
  }

  function ModeLabel(m: Mode): string {
    match m case Reactive => "REACTIVE" case Simulative => "SIMULATIVE"
  }

  function DatasetWord(d: Dataset): string {
    match d case Fanout => "fanout" case Flightqa => "flightqa" case Webarena => "webarena"
  }

  const MODEL := "gpt-4o"
  const AGENT := "sira"
  const SMOKE_QUERY := "go to google flights"
  const SOURCE_ID := "SRC-SIRA-REPOSITORY"
  const UPSTREAM_COMMIT := "93fb8d72de71f9a4a13419670adeb34d93cf7acd"
  const RUNNER := "scripts/run_web_agent.py"
  const SECRET_NAME := "SIRA_API_KEY"

  function OpenQuery(query: string): Task {
    Task(Some(query), None, None, None, None, Some(query), None, None)
  }

  /** The shape of a task; revisions, goals and blank texts are judged by `admitsTask`. */
  predicate TaskOk(w: World, t: Task) {
    && t.query.Some? != t.dataset.Some?
    && (t.query.Some? ==> t == OpenQuery(t.query.value))
    && (t.dataset.Some? ==>
          && t.startIdx.Some? && t.endIdx.Some? && 0 <= t.startIdx.value < t.endIdx.value
          && t.dataRoot == (if t.dataset.value.Webarena? then None else Some("data"))
          && t.expectedInstanceId.Some? == t.dataset.value.Webarena?)
    && w.admitsTask(t)
  }

  predicate JobChar(c: char) { 'A' <= c <= 'Z' || '0' <= c <= '9' || c == '.' || c == '_' || c == '-' }

  predicate JobNameOk(s: string) {
    && 3 <= |s| <= 128 && ('A' <= s[0] <= 'Z' || '0' <= s[0] <= '9')
    && forall i | 0 <= i < |s| :: JobChar(s[i])
  }

  predicate ConfigOk(w: World, c: Config) {
    && !c.profile.Confirmatory?
    && JobNameOk(c.jobName) && T.EndsWith(c.jobName, "-" + ModeLabel(c.mode))
    && TaskOk(w, c.task) && c.model == MODEL && c.agent == AGENT
    && c.maxSteps == (if c.profile.Smoke? then 1 else 30)
    && (c.profile.Smoke? ==> c.task == OpenQuery(SMOKE_QUERY))
    && (c.profile.Pilot? ==> c.task.dataset.Some? && c.task.endIdx.value - c.task.startIdx.value == 1)
    && c.actionTimeout == 30 && c.maxRetry == 0 && c.seed == 42
    && w.relative(c.outputSubdirectory)
  }

  // ---------------------------------------------------------- the document

  function TaskDocument(t: Task): Fields {
    map["query" := P.OptionalStr(t.query),
        "dataset" := if t.dataset.Some? then Str(DatasetWord(t.dataset.value)) else Null,
        "data_root" := P.OptionalStr(t.dataRoot), "start_idx" := P.OptionalInt(t.startIdx),
        "end_idx" := P.OptionalInt(t.endIdx),
        "expected_goal" := P.OptionalStr(t.expectedGoal), "dataset_revision" := P.OptionalStr(t.datasetRevision),
        "expected_instance_id" := P.OptionalStr(t.expectedInstanceId)]
  }

  function ConfigDocument(c: Config): Fields {
    map["schema_version" := Str("0.1.0"), "source_id" := Str(SOURCE_ID), "upstream_commit" := Str(UPSTREAM_COMMIT),
        "profile" := Str(P.ProfileWord(c.profile)), "job_name" := Str(c.jobName), "mode" := Str(ModeWord(c.mode)),
        "task" := Obj(TaskDocument(c.task)), "model" := Str(c.model), "agent" := Str(c.agent),
        "max_steps" := Int(c.maxSteps),
        "action_timeout_seconds" := Int(c.actionTimeout), "max_retry" := Int(c.maxRetry), "seed" := Int(c.seed),
        "output_subdirectory" := Str(c.outputSubdirectory)]
  }

  function ConfigSha256(w: World, c: Config): string {
    w.digest(w.text.compact(Obj(ConfigDocument(c))))
  }

  // --------------------------------------------------------- the arguments

  datatype Flag = Flag(name: string, value: string)

  function FlagArgv(fs: seq<Flag>): (argv: seq<string>)
    ensures |argv| == 2 * |fs|
  {
    if fs == [] then [] else [fs[0].name, fs[0].value] + FlagArgv(fs[1..])
  }

  lemma {:induction false} FlagArgvAt(fs: seq<Flag>, k: nat)
    requires k < |fs|
    ensures FlagArgv(fs)[2 * k] == fs[k].name && FlagArgv(fs)[2 * k + 1] == fs[k].value
  {
    if k > 0 {
      FlagArgvAt(fs[1..], k - 1);
      assert FlagArgv(fs)[2 * k] == FlagArgv(fs[1..])[2 * (k - 1)];
      assert FlagArgv(fs)[2 * k + 1] == FlagArgv(fs[1..])[2 * (k - 1) + 1];
    }
  }

  lemma {:induction false} FlagArgvConcat(a: seq<Flag>, b: seq<Flag>)
    ensures FlagArgv(a + b) == FlagArgv(a) + FlagArgv(b)
  {
    if a == [] {
      PrependNothing(b);
      PrependNothing(FlagArgv(b));
    } else {
      assert (a + b)[1..] == a[1..] + b;
      FlagArgvConcat(a[1..], b);
      Assoc([a[0].name, a[0].value], FlagArgv(a[1..]), FlagArgv(b));
    }
  }

  const MODE_FLAG := "--mode"
  const OUTPUT_FLAG := "--output_dir"

  function Head(c: Config, uv: string): seq<string> {
    [uv, "run", "--frozen", "python", RUNNER, c.jobName]
  }

  function Number(n: int): string {
    if n >= 0 then T.Decimal(n) else "-" + T.Decimal(-n)
  }

  function TaskFlag(t: Task): Flag {
    if t.query.Some? then Flag("--query", t.query.value)
    else if t.dataset.Some? then Flag("--dataset", DatasetWord(t.dataset.value))
    else Flag("--query", "")
  }

  function LockedFlags(c: Config): seq<Flag> {
    [Flag("--agent", c.agent), Flag("--model", c.model), Flag("--max_steps", Number(c.maxSteps)),
     Flag("--timeout", Number(c.actionTimeout)), Flag("--max_retry", Number(c.maxRetry))]
  }

  function DataFlags(t: Task): seq<Flag> {
    if t.dataRoot.Some? then [Flag("--data_root", t.dataRoot.value)] else []
  }

  function SliceFlags(t: Task): seq<Flag> {
    if t.dataset.Some? && t.startIdx.Some? && t.endIdx.Some?
    then [Flag("--start_idx", Number(t.startIdx.value)), Flag("--end_idx", Number(t.endIdx.value))] else []
  }

  /** Every flag in the order it is added. */
  function Flags(c: Config, output: string): seq<Flag> {
    [TaskFlag(c.task), Flag(MODE_FLAG, ModeWord(c.mode))] + LockedFlags(c) + DataFlags(c.task)
    + [Flag(OUTPUT_FLAG, output)] + SliceFlags(c.task) + [Flag("--seed", Number(c.seed))]
  }

  function Argv(c: Config, uv: string, output: string): seq<string> {
    Head(c, uv) + FlagArgv(Flags(c, output))
  }

  /** Grows the argument list part by part, as the adapter does. */
  method BuildArgv(w: World, c: Config, uv: string, output: string) returns (argv: seq<string>)
    requires ConfigOk(w, c)
    ensures argv == Argv(c, uv, output)
  {
    argv := Head(c, uv);
    ghost var fs: seq<Flag> := [];
    var t := c.task;
    if t.query.Some? {
      argv, fs := Extend(c, uv, argv, fs, [Flag("--query", t.query.value)]);
    } else {
      argv, fs := Extend(c, uv, argv, fs, [Flag("--dataset", DatasetWord(t.dataset.value))]);
    }
    argv, fs := Extend(c, uv, argv, fs,
                       [Flag(MODE_FLAG, ModeWord(c.mode)), Flag("--agent", c.agent), Flag("--model", c.model),
                        Flag("--max_steps", Number(c.maxSteps)), Flag("--timeout", Number(c.actionTimeout)),
                        Flag("--max_retry", Number(c.maxRetry))]);
    FirstFlags(c, TaskFlag(t));
    if t.dataRoot.Some? {
      argv, fs := Extend(c, uv, argv, fs, [Flag("--data_root", t.dataRoot.value)]);
    } else {
      AppendNothing(fs);
    }
    argv, fs := Extend(c, uv, argv, fs, [Flag(OUTPUT_FLAG, output)]);
    if t.dataset.Some? {
      argv, fs := Extend(c, uv, argv, fs,
                         [Flag("--start_idx", Number(t.startIdx.value)), Flag("--end_idx", Number(t.endIdx.value))]);
    } else {
      AppendNothing(fs);
    }
    argv, fs := Extend(c, uv, argv, fs, [Flag("--seed", Number(c.seed))]);
  }

  lemma FirstFlags(c: Config, first: Flag)
    ensures ([] + [first]) + [Flag(MODE_FLAG, ModeWord(c.mode)), Flag("--agent", c.agent), Flag("--model", c.model),
                              Flag("--max_steps", Number(c.maxSteps)), Flag("--timeout", Number(c.actionTimeout)),
                              Flag("--max_retry", Number(c.maxRetry))]
         == [first, Flag(MODE_FLAG, ModeWord(c.mode))] + LockedFlags(c)
  {
  }

  /** `argv.extend((flag, value, ...))`. */
  method Extend(c: Config, uv: string, argv: seq<string>, ghost fs: seq<Flag>, more: seq<Flag>)
    returns (argv': seq<string>, ghost fs': seq<Flag>)
    requires argv == Head(c, uv) + FlagArgv(fs)
    ensures fs' == fs + more && argv' == Head(c, uv) + FlagArgv(fs') && argv' == argv + FlagArgv(more)
  {
    argv', fs' := argv + FlagArgv(more), fs + more;
    FlagArgvConcat(fs, more);
    Assoc(Head(c, uv), FlagArgv(fs), FlagArgv(more));
  }

  // ------------------------------------------------------------ the command

  predicate IsAbsolute(path: string) { path != "" && path[0] == '/' }

  predicate Under(child: string, parent: string) {
    || (parent == "/" && child != "/")
    || (|parent| < |child| && child[..|parent|] == parent && child[|parent|] == '/')
  }

  datatype BuildError = PlanContract | UnsupportedDataset | UnsafeCheckout | UnsafeOutputRoot | OverlappingRoots
    | CommandRefused

  predicate PlanContractOk(w: World, c: Config, plan: P.RunPlan) {
    && plan.sources.upstreamSourceId == SOURCE_ID && plan.sources.upstreamCommit == UPSTREAM_COMMIT
    && plan.sources.configSha256 == ConfigSha256(w, c)
    && plan.sources.modelRevision.None?
    && plan.sources.datasetRevision == c.task.datasetRevision
    && plan.identity.condition == "SIRA-" + ModeLabel(c.mode)
    && plan.profile == c.profile
    && plan.identity.seed == Some(c.seed)
    && plan.budget.maxToolCalls == Some(c.maxSteps)
  }

  function OutputDirectory(c: Config, outputRoot: string): string {
    outputRoot + "/" + c.outputSubdirectory
  }

  const LOG_PATTERNS := ["src/sira/web/logs/*.log", "logs/sira_*.log"]
  const EXCLUDED_ROOTS := [".git"]
  const SECRET_NAMES := [SECRET_NAME]
  const UNBOUNDED := [C.CostUsd, C.ModelTokens]

  /** The command before the constructor puts it in normal form. */
  function RawCommand(w: World, c: Config, uv: string, plan: P.RunPlan, sourceRoot: string,
                      outputRoot: string): C.CommandSpec {
    C.CommandSpec(
      Argv(c, uv, OutputDirectory(c, outputRoot)), sourceRoot, plan.budget.maxWallSeconds, w.identity(sourceRoot),
      map[], [], SECRET_NAMES,
      [C.InputTree(sourceRoot, w.treeSha256(sourceRoot), EXCLUDED_ROOTS, Some(UPSTREAM_COMMIT))],
      [OutputDirectory(c, outputRoot)], LOG_PATTERNS,
      C.Projection(0, 0, 0, c.maxSteps, C.AdapterCommand, UNBOUNDED),
      w.executableSha256(uv))
  }

  /** The typed constructor, its refusal as the adapter's. */
  function Constructed(w: World, raw: C.CommandSpec): (r: Result<C.CommandSpec, BuildError>)
    ensures r.Ok? ==> r.value == C.Normal(raw)
  {
    var made := C.Construct(w.commands, raw);
    if made.Ok? then Ok(made.value) else Err(CommandRefused)
  }

  predicate RootsOverlap(sourceRoot: string, outputRoot: string) {
    outputRoot == sourceRoot || Under(outputRoot, sourceRoot) || Under(sourceRoot, outputRoot)
  }

  /** What the adapter checks before it builds anything, in its order. */
  function BuildFailure(w: World, c: Config, plan: P.RunPlan, sourceRoot: string,
                        outputRoot: string): Option<BuildError> {
    if !PlanContractOk(w, c, plan) then Some(PlanContract)
    else if c.task.dataset.Some? && !c.task.dataset.value.Fanout? then Some(UnsupportedDataset)
    else if !w.checkout(sourceRoot) then Some(UnsafeCheckout)
    else if !IsAbsolute(outputRoot) then Some(UnsafeOutputRoot)
    else if RootsOverlap(sourceRoot, outputRoot) then Some(OverlappingRoots)
    else None
  }

  function BuildCommand(w: World, c: Config, uv: string, plan: P.RunPlan, sourceRoot: string, outputRoot: string)
    : Result<C.CommandSpec, BuildError>
  {
    var failure := BuildFailure(w, c, plan, sourceRoot, outputRoot);
    if failure.Some? then Err(failure.value)
    else Constructed(w, RawCommand(w, c, uv, plan, sourceRoot, outputRoot))
  }

  // -------------------------------------------------------- disjoint roots

  /** The path of a directory or of something below it. */
  predicate Within(path: string, root: string) { path == root || Under(path, root) }

  /** Two directories above the same path are nested. */
  lemma AncestorsNest(a: string, b: string, path: string)
    requires a != "/" && b != "/" && |a| <= |b| && Within(path, a) && Within(path, b)
    ensures a == b || Under(b, a)
  {
    assert a == path[..|a|] && b == path[..|b|];
    if |a| < |b| {
      assert b[..|a|] == path[..|a|] && b[|a|] == path[|a|];
    }
  }

  /** Nothing lies below both the source and the output root of a built command. */
  lemma RootsShareNothing(
      w: World, c: Config, uv: string, plan: P.RunPlan, sourceRoot: string, outputRoot: string, path: string)
    requires BuildCommand(w, c, uv, plan, sourceRoot, outputRoot).Ok?
    ensures !(Within(path, sourceRoot) && Within(path, outputRoot))
  {
    if Within(path, sourceRoot) && Within(path, outputRoot) {
      BuiltUnrefused(w, c, uv, plan, sourceRoot, outputRoot);
      UnrefusedRoots(w, c, plan, sourceRoot, outputRoot);
      ApartRoots(sourceRoot, outputRoot);
      if |sourceRoot| <= |outputRoot| {
        AncestorsNest(sourceRoot, outputRoot, path);
      } else {
        AncestorsNest(outputRoot, sourceRoot, path);
      }
    }
  }

  lemma BuiltUnrefused(w: World, c: Config, uv: string, plan: P.RunPlan, sourceRoot: string, outputRoot: string)
    requires BuildCommand(w, c, uv, plan, sourceRoot, outputRoot).Ok?
    ensures BuildFailure(w, c, plan, sourceRoot, outputRoot).None?
  {
  }

  lemma UnrefusedRoots(w: World, c: Config, plan: P.RunPlan, sourceRoot: string, outputRoot: string)
    requires BuildFailure(w, c, plan, sourceRoot, outputRoot).None?
    ensures IsAbsolute(outputRoot) && !RootsOverlap(sourceRoot, outputRoot)
  {
  }

  lemma ApartRoots(sourceRoot: string, outputRoot: string)
    requires IsAbsolute(outputRoot) && !RootsOverlap(sourceRoot, outputRoot)
    ensures sourceRoot != "/" && outputRoot != "/"
  {
  }

  // ---------------------------------------------------- flags occur once

  predicate IsValue(s: string) { s == "" || s[0] != '-' }

  /** A flag standing in one place of the list stands in one place of the arguments. */
  lemma FlagStandsOnce(head: seq<string>, fs: seq<Flag>, k: nat, flag: string)
    requires k < |fs| && fs[k].name == flag && flag !in head
    requires forall i | 0 <= i < |fs| && i != k :: fs[i].name != flag
    requires forall i | 0 <= i < |fs| :: fs[i].value != flag
    ensures var argv := head + FlagArgv(fs);
            && |argv| == |head| + 2 * |fs|
            && argv[|head| + 2 * k] == flag && argv[|head| + 2 * k + 1] == fs[k].value
            && forall i | 0 <= i < |argv| && argv[i] == flag :: i == |head| + 2 * k
  {
    var argv := head + FlagArgv(fs);
    FlagArgvAt(fs, k);
    assert forall i | 0 <= i < |head| :: argv[i] == head[i];
    forall i | 0 <= i < |argv| && argv[i] == flag ensures i == |head| + 2 * k {
      if i >= |head| {
        var j := (i - |head|) / 2;
        FlagArgvAt(fs, j);
        assert argv[i] == FlagArgv(fs)[i - |head|];
        assert i - |head| == 2 * j || i - |head| == 2 * j + 1;
      }
    }
  }

  lemma NumberIsValue(n: nat)
    ensures IsValue(Number(n))
  {
  }
}
