/** The check that a reactive and a simulative command form a matched pair, and exactly which pairs pass. */
module MatchedPair {
  import opened Common
  import opened Json
  import opened SiraCommands
  import P = RunPlans
  import C = Commands
  import CD = CommandDocuments

  /** One half of a pair: its adapter, plan, command and roots. */
  datatype Side = Side(config: Config, uv: string, plan: P.RunPlan, command: C.CommandSpec, sourceRoot: string,
                       outputRoot: string)

  datatype Mismatch =
    | NotReactive | NotSimulative | OwnContract | CommandDiffers | ConfigDrift | RegulationDrift
    | DriftOutsideArgv | ArgumentCounts | NoJobName | FlagCount | FlagPositions | ArgvDrift

  /** Where the approved argument differences stand. */
  datatype Report = Report(jobName: nat, mode: nat, output: nat)

  predicate MatchesAdapter(w: World, s: Side) {
    var expected := BuildCommand(w, s.config, s.uv, s.plan, s.sourceRoot, s.outputRoot);
    expected.Ok? && CD.CommandDocument(s.command) == CD.CommandDocument(expected.value)
  }

  /** Keys under which two documents differ. */
  function Differences(a: Fields, b: Fields): set<string> {
    set key | key in a && Get(a, key) != Get(b, key)
  }

  function PolicyRevision(plan: P.RunPlan): Option<string> {
    if plan.sources.protocolSha256 == "unknown" then None else Some(plan.sources.protocolSha256)
  }

  /** The pair-invariant part of the regulation metadata; policy, kind and modes are constants. */
  predicate SameRegulation(a: P.RunPlan, b: P.RunPlan) {
    && PolicyRevision(a) == PolicyRevision(b)
    && a.sources.upstreamSourceId == b.sources.upstreamSourceId && a.sources.upstreamCommit == b.sources.upstreamCommit
  }

  const PAIR_FIELDS := {"argv", "owned_output_roots"}

  /** The value of a flag stands at `i`, and the flag stands nowhere else. */
  predicate ValueAt(argv: seq<string>, flag: string, i: nat) {
    && 0 < i < |argv| && argv[i - 1] == flag
    && forall j | 0 <= j < |argv| && argv[j] == flag :: j == i - 1
  }

  function DifferingIndexes(a: seq<string>, b: seq<string>): set<int>
    requires |a| == |b|
  {
    set i | 0 <= i < |a| && a[i] != b[i]
  }

  predicate ArgvsPaired(a: seq<string>, b: seq<string>, mode: nat, output: nat) {
    && |a| == |b| && |a| > 5
    && ValueAt(a, MODE_FLAG, mode) && ValueAt(b, MODE_FLAG, mode)
    && ValueAt(a, OUTPUT_FLAG, output) && ValueAt(b, OUTPUT_FLAG, output)
    && DifferingIndexes(a, b) == {5, mode, output}
  }

  /** Everything the check demands of a pair. */
  predicate Paired(w: World, r: Side, s: Side, mode: nat, output: nat) {
    && r.config.mode.Reactive? && s.config.mode.Simulative?
    && MatchesAdapter(w, r) && MatchesAdapter(w, s)
    && Differences(ConfigDocument(r.config), ConfigDocument(s.config)) == {"job_name", "mode"}
    && SameRegulation(r.plan, s.plan)
    && Differences(CD.CommandDocument(r.command), CD.CommandDocument(s.command)) <= PAIR_FIELDS
    && ArgvsPaired(r.command.argv, s.command.argv, mode, output)
  }

  // ------------------------------------------------------------ the check

  /** The index of a flag's value when the flag stands exactly once and not at the end. */
  method FlagValueIndex(argv: seq<string>, flag: string) returns (index: Option<nat>)
    ensures index.Some? ==> ValueAt(argv, flag, index.value)
    ensures forall i: nat :: ValueAt(argv, flag, i) ==> index == Some(i)
  {
    var indexes: seq<nat> := [];
    for i := 0 to |argv|
      invariant forall j :: j in indexes <==> 0 <= j < i && argv[j] == flag
      invariant forall a, b | 0 <= a < b < |indexes| :: indexes[a] < indexes[b]
    {
      if argv[i] == flag {
        forall a | 0 <= a < |indexes| ensures indexes[a] < i { assert indexes[a] in indexes; }
        indexes := indexes + [i];
      }
    }
    forall i: nat | ValueAt(argv, flag, i) ensures indexes == [(i - 1) as nat] { OneIndex(indexes, i - 1); }
    if |indexes| != 1 || indexes[0] + 1 >= |argv| {
      return None;
    }
    assert indexes[0] in indexes;
    forall j | 0 <= j < |argv| && argv[j] == flag ensures j == indexes[0] { assert j in indexes; }
    index := Some(indexes[0] + 1);
  }

  lemma OneIndex(indexes: seq<nat>, i: int)
    requires i in indexes && (forall j | j in indexes :: j == i)
    requires forall a, b | 0 <= a < b < |indexes| :: indexes[a] < indexes[b]
    ensures |indexes| == 1 && indexes[0] == i
  {
    forall k | 0 <= k < |indexes| ensures indexes[k] == i { assert indexes[k] in indexes; }
    TwoAscending(indexes);
  }

  lemma TwoAscending(indexes: seq<nat>)
    requires forall a, b | 0 <= a < b < |indexes| :: indexes[a] < indexes[b]
    ensures |indexes| <= 1 || indexes[0] < indexes[1]
  {
  }

  method CompareArgvs(a: seq<string>, b: seq<string>) returns (result: Result<Report, Mismatch>)
    ensures result.Ok? ==> result.value.jobName == 5 && ArgvsPaired(a, b, result.value.mode, result.value.output)
    ensures forall mode: nat, output: nat | ArgvsPaired(a, b, mode, output) :: result == Ok(Report(5, mode, output))
  {
    if |a| != |b| {
      return Err(ArgumentCounts);
    }
    if |a| <= 5 {
      return Err(NoJobName);
    }
    var mode := FlagValueIndex(a, MODE_FLAG);
    var mode' := FlagValueIndex(b, MODE_FLAG);
    var output := FlagValueIndex(a, OUTPUT_FLAG);
    var output' := FlagValueIndex(b, OUTPUT_FLAG);
    if mode.None? || mode'.None? || output.None? || output'.None? {
      return Err(FlagCount);
    }
    if mode != mode' || output != output' {
      return Err(FlagPositions);
    }
    if DifferingIndexes(a, b) != {5, mode.value, output.value} {
      return Err(ArgvDrift);
    }
    result := Ok(Report(5, mode.value, output.value));
  }

  method AssertMatchedPair(w: World, r: Side, s: Side) returns (result: Result<Report, Mismatch>)
    ensures result.Ok? ==> result.value.jobName == 5 && Paired(w, r, s, result.value.mode, result.value.output)
    ensures forall mode: nat, output: nat | Paired(w, r, s, mode, output) :: result == Ok(Report(5, mode, output))
  {
    if !r.config.mode.Reactive? {
      return Err(NotReactive);
    }
    if !s.config.mode.Simulative? {
      return Err(NotSimulative);
    }
    if !MatchesAdapter(w, r) || !MatchesAdapter(w, s) {
      return Err(OwnContract);
    }
    if Differences(ConfigDocument(r.config), ConfigDocument(s.config)) != {"job_name", "mode"} {
      return Err(ConfigDrift);
    }
    if !SameRegulation(r.plan, s.plan) {
      return Err(RegulationDrift);
    }
    if !(Differences(CD.CommandDocument(r.command), CD.CommandDocument(s.command)) <= PAIR_FIELDS) {
      return Err(DriftOutsideArgv);
    }
    result := CompareArgvs(r.command.argv, s.command.argv);
  }

  // ------------------------------------------------- configuration documents

  const CONFIG_KEYS := {"schema_version", "source_id", "upstream_commit", "profile", "job_name", "mode",
                        "task", "model",
                        "agent", "max_steps", "action_timeout_seconds", "max_retry", "seed", "output_subdirectory"}

  lemma ConfigKeys(c: Config)
    ensures ConfigDocument(c).Keys == CONFIG_KEYS
  {
  }

  lemma ConfigWords(c: Config)
    ensures var d := ConfigDocument(c);
            && d["schema_version"] == Str("0.1.0") && d["source_id"] == Str(SOURCE_ID)
            && d["upstream_commit"] == Str(UPSTREAM_COMMIT)
            && d["profile"] == Str(P.ProfileWord(c.profile)) && d["job_name"] == Str(c.jobName)
            && d["mode"] == Str(ModeWord(c.mode))
            && d["task"] == Obj(TaskDocument(c.task))
  {
  }

  lemma ConfigNumbers(c: Config)
    ensures var d := ConfigDocument(c);
            && d["model"] == Str(c.model) && d["agent"] == Str(c.agent) && d["max_steps"] == Int(c.maxSteps)
            && d["action_timeout_seconds"] == Int(c.actionTimeout) && d["max_retry"] == Int(c.maxRetry)
            && d["seed"] == Int(c.seed)
            && d["output_subdirectory"] == Str(c.outputSubdirectory)
  {
  }

  lemma TaskLookups(t: Task)
    ensures var d := TaskDocument(t);
            && Get(d, "query") == P.OptionalStr(t.query) && Get(d, "data_root") == P.OptionalStr(t.dataRoot)
            && Get(d, "dataset") == (if t.dataset.Some? then Str(DatasetWord(t.dataset.value)) else Null)
            && Get(d, "start_idx") == P.OptionalInt(t.startIdx) && Get(d, "end_idx") == P.OptionalInt(t.endIdx)
            && Get(d, "expected_goal") == P.OptionalStr(t.expectedGoal)
            && Get(d, "dataset_revision") == P.OptionalStr(t.datasetRevision)
            && Get(d, "expected_instance_id") == P.OptionalStr(t.expectedInstanceId)
  {
  }

  lemma DatasetWordsDiffer(a: Dataset, b: Dataset)
    requires DatasetWord(a) == DatasetWord(b)
    ensures a == b
  {
  }

  lemma TaskDocumentDetermines(a: Task, b: Task)
    requires TaskDocument(a) == TaskDocument(b)
    ensures a == b
  {
    TaskLookups(a);
    TaskLookups(b);
    if a.dataset.Some? && b.dataset.Some? { DatasetWordsDiffer(a.dataset.value, b.dataset.value); }
  }

  lemma WordsDiffer(a: Config, b: Config)
    ensures P.ProfileWord(a.profile) == P.ProfileWord(b.profile) ==> a.profile == b.profile
    ensures ModeWord(a.mode) == ModeWord(b.mode) ==> a.mode == b.mode
    ensures ModeLabel(a.mode) == ModeLabel(b.mode) ==> a.mode == b.mode
  {
  }

  /** The two configurations agree on everything but job name and mode. */
  predicate SameButJobAndMode(a: Config, b: Config) {
    b == a.(jobName := b.jobName, mode := b.mode)
  }

  lemma SameValue(a: Fields, b: Fields, key: string)
    requires key in a && key in b
    ensures key !in Differences(a, b) <==> a[key] == b[key]
  {
  }

  /** The documents differ under exactly the two approved keys when the configurations do so in exactly those fields. */
  lemma ConfigDifferencesExact(a: Config, b: Config)
    ensures Differences(ConfigDocument(a), ConfigDocument(b)) == {"job_name", "mode"}
       <==> SameButJobAndMode(a, b) && a.jobName != b.jobName && a.mode != b.mode
  {
    var x, y := ConfigDocument(a), ConfigDocument(b);
    ConfigKeys(a);
    ConfigKeys(b);
    if Differences(x, y) == {"job_name", "mode"} {
      ConfigSameFields(a, b);
    }
    if SameButJobAndMode(a, b) && a.jobName != b.jobName && a.mode != b.mode {
      ConfigOnlyTwo(a, b);
    }
  }

  lemma ConfigSameFields(a: Config, b: Config)
    requires Differences(ConfigDocument(a), ConfigDocument(b)) == {"job_name", "mode"}
    ensures SameButJobAndMode(a, b) && a.jobName != b.jobName && a.mode != b.mode
  {
    var x, y := ConfigDocument(a), ConfigDocument(b);
    ConfigKeys(a);
    ConfigKeys(b);
    SameConfigWords(a, b);
    SameConfigNumbers(a, b);
  }

  lemma SameConfigWords(a: Config, b: Config)
    requires Differences(ConfigDocument(a), ConfigDocument(b)) == {"job_name", "mode"}
    ensures a.profile == b.profile && a.task == b.task && a.jobName != b.jobName && a.mode != b.mode
  {
    var x, y := ConfigDocument(a), ConfigDocument(b);
    ConfigKeys(a);
    ConfigKeys(b);
    ConfigWords(a);
    ConfigWords(b);
    SameValue(x, y, "profile");
    SameValue(x, y, "task");
    SameValue(x, y, "job_name");
    SameValue(x, y, "mode");
    WordsDiffer(a, b);
    TaskDocumentDetermines(a.task, b.task);
  }

  lemma SameConfigNumbers(a: Config, b: Config)
    requires Differences(ConfigDocument(a), ConfigDocument(b)) == {"job_name", "mode"}
    ensures a.model == b.model && a.agent == b.agent && a.maxSteps == b.maxSteps && a.actionTimeout == b.actionTimeout
    ensures a.maxRetry == b.maxRetry && a.seed == b.seed && a.outputSubdirectory == b.outputSubdirectory
  {
    var x, y := ConfigDocument(a), ConfigDocument(b);
    ConfigKeys(a);
    ConfigKeys(b);
    ConfigNumbers(a);
    ConfigNumbers(b);
    SameValue(x, y, "model");
    SameValue(x, y, "agent");
    SameValue(x, y, "max_steps");
    SameValue(x, y, "action_timeout_seconds");
    SameValue(x, y, "max_retry");
    SameValue(x, y, "seed");
    SameValue(x, y, "output_subdirectory");
  }

  lemma ConfigOnlyTwo(a: Config, b: Config)
    requires SameButJobAndMode(a, b) && a.jobName != b.jobName && a.mode != b.mode
    ensures Differences(ConfigDocument(a), ConfigDocument(b)) == {"job_name", "mode"}
  {
    var x, y := ConfigDocument(a), ConfigDocument(b);
    ConfigKeys(a);
    ConfigKeys(b);
    ConfigWords(a);
    ConfigWords(b);
    WordsDiffer(a, b);
    SameValue(x, y, "job_name");
    SameValue(x, y, "mode");
    forall key | key in CONFIG_KEYS && key != "job_name" && key != "mode" ensures key !in Differences(x, y) {
      SameUnder(a, b, key);
    }
    assert Differences(x, y) <= CONFIG_KEYS;
  }

  lemma SameUnder(a: Config, b: Config, key: string)
    requires SameButJobAndMode(a, b) && key in CONFIG_KEYS && key != "job_name" && key != "mode"
    ensures Get(ConfigDocument(a), key) == Get(ConfigDocument(b), key)
  {
    ConfigKeys(a);
    ConfigKeys(b);
    ConfigWords(a);
    ConfigWords(b);
    ConfigNumbers(a);
    ConfigNumbers(b);
  }
}
