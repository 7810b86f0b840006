/** What a built command passes to the upstream runner, flag by flag, and what it binds besides its arguments. */
module BuiltArguments {
  import opened Common
  import Json
  import opened SiraCommands
  import opened MatchedPair
  import opened PairTheorems
  import P = RunPlans
  import C = Commands
  import Sorting

  /** The value a configuration has for a flag of the runner. */
  function Given(c: Config, output: string, flag: string): Option<string> {
    if flag == "--query" then c.task.query
    else if flag == "--dataset" then
      match c.task.dataset
      case None => None
      case Some(d) => Some(if d.Fanout? then "fanout" else if d.Flightqa? then "flightqa" else "webarena")
    else if flag == "--mode" then Some(if c.mode.Reactive? then "reactive" else "simulative")
    else if flag == "--agent" then Some(c.agent)
    else if flag == "--model" then Some(c.model)
    else if flag == "--max_steps" then Some(Number(c.maxSteps))
    else if flag == "--timeout" then Some(Number(c.actionTimeout))
    else if flag == "--max_retry" then Some(Number(c.maxRetry))
    else if flag == "--data_root" then c.task.dataRoot
    else if flag == "--output_dir" then Some(output)
    else if flag == "--start_idx" then
      if c.task.startIdx.Some? then Some(Number(c.task.startIdx.value)) else None
    else if flag == "--end_idx" then
      if c.task.endIdx.Some? then Some(Number(c.task.endIdx.value)) else None
    else if flag == "--seed" then Some(Number(c.seed))
    else None
  }

  /** A number that tells the flags of the runner apart. */
  function Code(flag: string): int {
    if |flag| < 3 then 0 else 1000 * |flag| + (if |flag| == 11 then flag[6] as int else flag[2] as int)
  }

  /** Where a flag stands among those of a task. */
  function Place(dataset: bool, code: int): int {
    if code == 9000 + 'd' as int || code == 7000 + 'q' as int then 0
    else if code == 6000 + 'm' as int then 1
    else if code == 7000 + 'a' as int then 2
    else if code == 7000 + 'm' as int then 3
    else if code == 11000 + 's' as int then 4
    else if code == 9000 + 't' as int then 5
    else if code == 11000 + 'r' as int then 6
    else if code == 11000 + '_' as int then 7
    else if code == 12000 + 'o' as int then if dataset then 8 else 7
    else if code == 11000 + 't' as int then 9
    else if code == 9000 + 'e' as int then 10
    else if code == 6000 + 's' as int then if dataset then 11 else 8
    else -1
  }

  /** The flags of an open query, and those of a dataset slice. */
  function QueryFlags(c: Config, output: string, query: string): seq<Flag> {
    [Flag("--query", query), Flag("--mode", ModeWord(c.mode)), Flag("--agent", c.agent), Flag("--model", c.model),
     Flag("--max_steps", Number(c.maxSteps)), Flag("--timeout", Number(c.actionTimeout)),
     Flag("--max_retry", Number(c.maxRetry)), Flag("--output_dir", output), Flag("--seed", Number(c.seed))]
  }

  function SliceTaskFlags(c: Config, output: string, word: string, root: string, first: int, end: int): seq<Flag> {
    [Flag("--dataset", word), Flag("--mode", ModeWord(c.mode)), Flag("--agent", c.agent), Flag("--model", c.model),
     Flag("--max_steps", Number(c.maxSteps)), Flag("--timeout", Number(c.actionTimeout)),
     Flag("--max_retry", Number(c.maxRetry)), Flag("--data_root", root), Flag("--output_dir", output),
     Flag("--start_idx", Number(first)), Flag("--end_idx", Number(end)), Flag("--seed", Number(c.seed))]
  }

  lemma QueryShape(w: World, c: Config, output: string)
    requires Buildable(w, c, output) && c.task.query.Some?
    ensures Flags(c, output) == QueryFlags(c, output, c.task.query.value)
    ensures c.task.dataset.None? && c.task.dataRoot.None? && c.task.startIdx.None? && c.task.endIdx.None?
  {
  }

  lemma SliceShape(w: World, c: Config, output: string)
    requires Buildable(w, c, output) && c.task.query.None?
    ensures c.task.dataset.Some? && c.task.dataRoot.Some? && c.task.startIdx.Some? && c.task.endIdx.Some?
    ensures Flags(c, output)
         == SliceTaskFlags(c, output, DatasetWord(c.task.dataset.value), c.task.dataRoot.value, c.task.startIdx.value,
                           c.task.endIdx.value)
  {
  }

  lemma QueryPlaces(c: Config, output: string, query: string, i: nat)
    requires i < |QueryFlags(c, output, query)|
    ensures Place(false, Code(QueryFlags(c, output, query)[i].name)) == i
  {
  }

  lemma SlicePlaces(c: Config, output: string, word: string, root: string, first: int, end: int, i: nat)
    requires i < |SliceTaskFlags(c, output, word, root, first, end)|
    ensures Place(true, Code(SliceTaskFlags(c, output, word, root, first, end)[i].name)) == i
  {
  }

  lemma QueryGiven(c: Config, output: string, query: string, i: nat)
    requires i < |QueryFlags(c, output, query)| && c.task.query == Some(query)
    ensures var f := QueryFlags(c, output, query)[i]; Given(c, output, f.name) == Some(f.value)
  {
  }

  lemma SliceGiven(c: Config, output: string, word: string, root: string, first: int, end: int, i: nat)
    requires i < |SliceTaskFlags(c, output, word, root, first, end)|
    requires c.task.dataset.Some? && DatasetWord(c.task.dataset.value) == word && c.task.dataRoot == Some(root)
    requires c.task.startIdx == Some(first) && c.task.endIdx == Some(end)
    ensures var f := SliceTaskFlags(c, output, word, root, first, end)[i]; Given(c, output, f.name) == Some(f.value)
  {
  }

  lemma QueryListed(c: Config, output: string, query: string, flag: string) returns (k: nat)
    requires c.task.query == Some(query) && c.task.dataset.None? && c.task.dataRoot.None?
    requires c.task.startIdx.None? && c.task.endIdx.None? && Given(c, output, flag).Some?
    ensures k < |QueryFlags(c, output, query)| && QueryFlags(c, output, query)[k].name == flag
  {
    k := if flag == "--query" then 0 else if flag == "--mode" then 1 else if flag == "--agent" then 2
         else if flag == "--model" then 3 else if flag == "--max_steps" then 4 else if flag == "--timeout" then 5
         else if flag == "--max_retry" then 6 else if flag == "--output_dir" then 7 else 8;
  }

  lemma SliceListed(c: Config, output: string, word: string, root: string, first: int, end: int, flag: string)
    returns (k: nat)
    requires c.task.query.None? && Given(c, output, flag).Some?
    ensures k < |SliceTaskFlags(c, output, word, root, first, end)|
    ensures SliceTaskFlags(c, output, word, root, first, end)[k].name == flag
  {
    k := if flag == "--dataset" then 0 else if flag == "--mode" then 1 else if flag == "--agent" then 2
         else if flag == "--model" then 3 else if flag == "--max_steps" then 4 else if flag == "--timeout" then 5
         else if flag == "--max_retry" then 6 else if flag == "--data_root" then 7 else if flag == "--output_dir" then 8
         else if flag == "--start_idx" then 9 else if flag == "--end_idx" then 10 else 11;
  }

  /** The flags of a buildable configuration are apart, and each has the configuration's value. */
  predicate FlagsGiven(c: Config, output: string, fs: seq<Flag>) {
    && (forall i, j | 0 <= i < j < |fs| :: fs[i].name != fs[j].name)
    && (forall i | 0 <= i < |fs| :: Given(c, output, fs[i].name) == Some(fs[i].value))
  }

  lemma ApartWhenPlaced(fs: seq<Flag>, dataset: bool)
    requires forall i | 0 <= i < |fs| :: Place(dataset, Code(fs[i].name)) == i
    ensures forall i, j | 0 <= i < j < |fs| :: fs[i].name != fs[j].name
  {
    forall i, j | 0 <= i < j < |fs| ensures fs[i].name != fs[j].name {
      assert Place(dataset, Code(fs[i].name)) == i && Place(dataset, Code(fs[j].name)) == j;
    }
  }

  lemma BuildableGiven(w: World, c: Config, output: string)
    requires Buildable(w, c, output)
    ensures FlagsGiven(c, output, Flags(c, output))
  {
    var fs, t := Flags(c, output), c.task;
    if t.query.Some? {
      QueryShape(w, c, output);
      forall i | 0 <= i < |fs|
        ensures Place(false, Code(fs[i].name)) == i && Given(c, output, fs[i].name) == Some(fs[i].value)
      {
        QueryPlaces(c, output, t.query.value, i);
        QueryGiven(c, output, t.query.value, i);
      }
      ApartWhenPlaced(fs, false);
    } else {
      SliceShape(w, c, output);
      var word, root, first, end :=
        DatasetWord(t.dataset.value), t.dataRoot.value, t.startIdx.value, t.endIdx.value;
      forall i | 0 <= i < |fs|
        ensures Place(true, Code(fs[i].name)) == i && Given(c, output, fs[i].name) == Some(fs[i].value)
      {
        SlicePlaces(c, output, word, root, first, end, i);
        SliceGiven(c, output, word, root, first, end, i);
      }
      ApartWhenPlaced(fs, true);
    }
  }

  lemma GivenListed(w: World, c: Config, output: string, flag: string) returns (k: nat)
    requires Buildable(w, c, output) && Given(c, output, flag).Some?
    ensures k < |Flags(c, output)| && Flags(c, output)[k].name == flag
  {
    var t := c.task;
    if t.query.Some? {
      QueryShape(w, c, output);
      k := QueryListed(c, output, t.query.value, flag);
    } else {
      SliceShape(w, c, output);
      k := SliceListed(c, output, DatasetWord(t.dataset.value), t.dataRoot.value, t.startIdx.value,
                       t.endIdx.value, flag);
    }
  }

  /** A word no value and no other part of the arguments can be taken for. */
  predicate FlagWord(flag: string) {
    |flag| > 2 && flag[0] == '-' && flag != "--frozen"
  }

  lemma HeadHasNoFlag(w: World, c: Config, uv: string, flag: string)
    requires ConfigOk(w, c) && IsAbsolute(uv) && FlagWord(flag)
    ensures flag !in Head(c, uv)
  {
    assert "run"[0] == 'r' && "python"[0] == 'p' && RUNNER[0] == 's';
  }

  /** Every argument is the name or the value of a flag. */
  lemma ArgumentOfFlag(fs: seq<Flag>, k: nat)
    requires k < 2 * |fs|
    ensures FlagArgv(fs)[k] == fs[k / 2].name || FlagArgv(fs)[k] == fs[k / 2].value
  {
    FlagArgvAt(fs, k / 2);
    assert k == 2 * (k / 2) || k == 2 * (k / 2) + 1;
  }

  lemma NoFlagNoWord(fs: seq<Flag>, head: seq<string>, flag: string)
    requires flag !in head && forall i | 0 <= i < |fs| :: fs[i].name != flag && fs[i].value != flag
    ensures flag !in head + FlagArgv(fs)
  {
    forall k | 0 <= k < |FlagArgv(fs)| ensures FlagArgv(fs)[k] != flag { ArgumentOfFlag(fs, k); }
  }

  /** The flag stands once, in front of this value. */
  ghost predicate Stands(argv: seq<string>, flag: string, value: string) {
    exists i: nat :: ValueAt(argv, flag, i) && argv[i] == value
  }

  predicate ValuesAreNot(fs: seq<Flag>, flag: string) {
    forall i | 0 <= i < |fs| :: fs[i].value != flag
  }

  lemma ValuesAreNoFlags(fs: seq<Flag>, flag: string)
    requires AllValues(fs) && FlagWord(flag)
    ensures ValuesAreNot(fs, flag)
  {
    forall i | 0 <= i < |fs| ensures fs[i].value != flag { assert fs[i] in fs; }
  }

  lemma OnceBehind(head: seq<string>, fs: seq<Flag>, k: nat, flag: string)
    requires k < |fs| && fs[k].name == flag && flag !in head && ValuesAreNot(fs, flag)
    requires forall i, j | 0 <= i < j < |fs| :: fs[i].name != fs[j].name
    ensures Stands(head + FlagArgv(fs), flag, fs[k].value)
  {
    FlagStandsOnce(head, fs, k, flag);
    assert ValueAt(head + FlagArgv(fs), flag, |head| + 2 * k + 1);
  }

  lemma ListedStands(c: Config, output: string, head: seq<string>, fs: seq<Flag>, flag: string, k: nat)
    requires FlagsGiven(c, output, fs) && flag !in head && ValuesAreNot(fs, flag) && k < |fs| && fs[k].name == flag
    ensures Given(c, output, flag).Some? && Stands(head + FlagArgv(fs), flag, Given(c, output, flag).value)
  {
    OnceBehind(head, fs, k, flag);
  }

  lemma UnlistedAbsent(c: Config, output: string, head: seq<string>, fs: seq<Flag>, flag: string)
    requires FlagsGiven(c, output, fs) && flag !in head && ValuesAreNot(fs, flag) && Given(c, output, flag).None?
    ensures flag !in head + FlagArgv(fs)
  {
    NoFlagNoWord(fs, head, flag);
  }

  /**
   Every flag word of the runner stands in the arguments of a buildable configuration exactly when the configuration
   has a value for it, then once, and in front of that value.
   */
  lemma ArgumentsTellConfig(w: World, c: Config, uv: string, output: string, flag: string)
    requires Buildable(w, c, output) && IsAbsolute(uv) && FlagWord(flag)
    ensures Given(c, output, flag).Some? ==> Stands(Argv(c, uv, output), flag, Given(c, output, flag).value)
    ensures Given(c, output, flag).None? ==> flag !in Argv(c, uv, output)
  {
    HeadHasNoFlag(w, c, uv, flag);
    FlagValues(w, c, output);
    BuildableGiven(w, c, output);
    ValuesAreNoFlags(Flags(c, output), flag);
    if Given(c, output, flag).Some? {
      var k := GivenListed(w, c, output, flag);
      ListedStands(c, output, Head(c, uv), Flags(c, output), flag, k);
    } else {
      UnlistedAbsent(c, output, Head(c, uv), Flags(c, output), flag);
    }
  }

  // ---------------------------------------------------------- built commands

  /** The arguments start with the pinned runner and tell the configuration, flag by flag. */
  ghost predicate ArgumentsTell(argv: seq<string>, c: Config, uv: string, output: string) {
    && |argv| > 6 && argv[..6] == [uv, "run", "--frozen", "python", "scripts/run_web_agent.py", c.jobName]
    && (forall flag | FlagWord(flag) && Given(c, output, flag).Some? ::
          Stands(argv, flag, Given(c, output, flag).value))
    && (forall flag | FlagWord(flag) && Given(c, output, flag).None? :: flag !in argv)
  }

  /** Where a built command runs, how long, what it reads and writes and may use. */
  predicate BindsAs(w: World, s: Side) {
    var n := s.command;
    && n.cwd == s.sourceRoot && n.cwdIdentity == w.identity(s.sourceRoot)
    && n.timeoutSeconds == s.plan.budget.maxWallSeconds && n.executableSha256 == w.executableSha256(s.uv)
    && n.environment == map[] && n.inherit == [] && n.secretEnvironment == ["SIRA_API_KEY"]
    && n.inputTrees == [C.InputTree(s.sourceRoot, w.treeSha256(s.sourceRoot), [".git"], Some(UPSTREAM_COMMIT))]
    && n.ownedOutputRoots == [s.outputRoot + "/" + s.config.outputSubdirectory]
    && multiset(n.unownedOutputPatterns) == multiset{"src/sira/web/logs/*.log", "logs/sira_*.log"}
  }

  predicate ProjectsAs(s: Side) {
    var p := s.command.projection;
    && p.costUsd == 0 && p.gpuHours == 0 && p.modelTokens == 0 && p.toolCalls == s.config.maxSteps
    && p.enforcement == C.AdapterCommand && multiset(p.unbounded) == multiset{C.CostUsd, C.ModelTokens}
  }

  /** What the plan must say for a command to be built under it. */
  predicate PlanBinds(w: World, s: Side) {
    && s.plan.sources.upstreamSourceId == "SRC-SIRA-REPOSITORY"
    && s.plan.sources.upstreamCommit == "93fb8d72de71f9a4a13419670adeb34d93cf7acd"
    && s.plan.sources.configSha256 == w.digest(w.text.compact(Json.Obj(ConfigDocument(s.config))))
    && s.plan.sources.modelRevision.None? && s.plan.sources.datasetRevision == s.config.task.datasetRevision
    && s.plan.identity.condition == (if s.config.mode.Reactive? then "SIRA-REACTIVE" else "SIRA-SIMULATIVE")
    && s.plan.profile == s.config.profile && s.plan.identity.seed == Some(s.config.seed)
    && s.plan.budget.maxToolCalls == Some(s.config.maxSteps)
  }

  lemma NormalKeeps(raw: C.CommandSpec)
    ensures var n := C.Normal(raw);
            && n.argv == raw.argv && n.cwd == raw.cwd && n.cwdIdentity == raw.cwdIdentity
            && n.timeoutSeconds == raw.timeoutSeconds && n.executableSha256 == raw.executableSha256
            && n.environment == raw.environment
            && multiset(n.inherit) == multiset(raw.inherit)
            && multiset(n.secretEnvironment) == multiset(raw.secretEnvironment)
            && multiset(n.ownedOutputRoots) == multiset(raw.ownedOutputRoots)
            && multiset(n.unownedOutputPatterns) == multiset(raw.unownedOutputPatterns)
            && n.projection == raw.projection.(unbounded := n.projection.unbounded)
            && multiset(n.projection.unbounded) == multiset(raw.projection.unbounded)
  {
  }

  lemma OneTree(raw: C.CommandSpec, t: C.InputTree)
    requires raw.inputTrees == [t] && |t.excludedRoots| == 1
    ensures C.Normal(raw).inputTrees == [t]
  {
    var mapped := Sorting.Map(C.NORMAL_TREE, [t]);
    SortOne(t.excludedRoots[0]);
    assert t.excludedRoots == [t.excludedRoots[0]];
    assert mapped == [C.NORMAL_TREE(t)];
    assert multiset(Sorting.SortBy(C.ROOT, mapped)) == multiset{t};
  }

  lemma ArgvTells(w: World, c: Config, uv: string, output: string)
    requires Buildable(w, c, output) && IsAbsolute(uv)
    ensures ArgumentsTell(Argv(c, uv, output), c, uv, output)
  {
    forall flag | FlagWord(flag)
      ensures Given(c, output, flag).Some? ==> Stands(Argv(c, uv, output), flag, Given(c, output, flag).value)
      ensures Given(c, output, flag).None? ==> flag !in Argv(c, uv, output)
    {
      ArgumentsTellConfig(w, c, uv, output, flag);
    }
    BuiltFlags(w, c, uv, output);
    assert Argv(c, uv, output)[..6] == Head(c, uv);
  }

  lemma RawBinds(w: World, s: Side, raw: C.CommandSpec)
    requires raw == RawCommand(w, s.config, s.uv, s.plan, s.sourceRoot, s.outputRoot) && s.command == C.Normal(raw)
    ensures BindsAs(w, s) && ProjectsAs(s)
  {
    NormalKeeps(raw);
    SortOne("SIRA_API_KEY");
    SortOne(OutputDirectory(s.config, s.outputRoot));
    OneTree(raw, C.InputTree(s.sourceRoot, w.treeSha256(s.sourceRoot), [".git"], Some(UPSTREAM_COMMIT)));
  }

  lemma UnrefusedPlan(w: World, s: Side)
    requires BuildFailure(w, s.config, s.plan, s.sourceRoot, s.outputRoot).None?
    ensures PlanBinds(w, s)
  {
  }

  /** Every built command is bound as its configuration, plan and roots say. */
  lemma BuiltBindsAs(w: World, s: Side)
    requires Built(w, s)
    ensures ArgumentsTell(s.command.argv, s.config, s.uv, s.outputRoot + "/" + s.config.outputSubdirectory)
    ensures BindsAs(w, s) && ProjectsAs(s) && PlanBinds(w, s)
  {
    BuiltConstructed(w, s);
    BuiltParts(w, s);
    BuiltRaw(w, s);
    UnrefusedPlan(w, s);
    RawBinds(w, s, RawCommand(w, s.config, s.uv, s.plan, s.sourceRoot, s.outputRoot));
    ArgvTells(w, s.config, s.uv, OutputDirectory(s.config, s.outputRoot));
  }

  // --------------------------------------------------------- configurations

  /** What is locked in every configuration, and what its profile fixes besides. */
  lemma LockedSettings(w: World, c: Config)
    requires ConfigOk(w, c)
    ensures c.model == "gpt-4o" && c.agent == "sira" && c.seed == 42 && c.actionTimeout == 30 && c.maxRetry == 0
    ensures c.profile == P.Smoke || c.profile == P.Pilot
    ensures c.maxSteps == if c.profile == P.Smoke then 1 else 30
    ensures w.relative(c.outputSubdirectory) && w.admitsTask(c.task)
  {
  }

  /** The job's name ends in the mode. */
  lemma JobNamesMode(w: World, c: Config)
    requires ConfigOk(w, c)
    ensures JobNameOk(c.jobName)
    ensures c.mode == Reactive ==> T.EndsWith(c.jobName, "-REACTIVE")
    ensures c.mode == Simulative ==> T.EndsWith(c.jobName, "-SIMULATIVE")
  {
    assert "-" + "REACTIVE" == "-REACTIVE" && "-" + "SIMULATIVE" == "-SIMULATIVE";
  }

  /** A smoke run asks the one locked query; a pilot takes exactly one row of a dataset. */
  lemma LockedTask(w: World, c: Config)
    requires ConfigOk(w, c)
    ensures c.profile == P.Smoke ==> c.task.query == Some("go to google flights")
    ensures c.profile == P.Pilot ==>
              && c.task.query == None && c.task.startIdx.Some? && c.task.endIdx.Some?
              && c.task.endIdx.value == c.task.startIdx.value + 1 > 0
  {
  }

  /** A job is named in capitals, digits and three marks. */
  lemma JobNameMeans(s: string)
    ensures JobNameOk(s) <==>
              && 3 <= |s| <= 128 && (Numeral(s[0]) || Capital(s[0]))
              && forall i | 0 <= i < |s| :: Numeral(s[i]) || Capital(s[i]) || s[i] == '.' || s[i] == '_' || s[i] == '-'
  {
  }

  predicate Numeral(c: char) { '0' <= c <= '9' }

  predicate Capital(c: char) { 'A' <= c <= 'Z' }

  /**
   A task is a query and nothing else, or a slice of a dataset: data only for the first two, an instance for
   the third.
   */
  lemma TaskForms(w: World, t: Task)
    requires TaskOk(w, t)
    ensures t.query.Some? ==> t == Task(t.query, None, None, None, None, t.query, None, None)
    ensures t.query.None? ==>
              && t.dataset.Some? && t.startIdx.Some? && t.endIdx.Some? && 0 <= t.startIdx.value < t.endIdx.value
              && (t.dataset.value == Webarena ==> t.dataRoot == None && t.expectedInstanceId.Some?)
              && (t.dataset.value != Webarena ==> t.dataRoot == Some("data") && t.expectedInstanceId == None)
  {
  }

  /** Which refusal a request meets: the plan is asked first, then the dataset, the checkout and the two roots. */
  lemma RefusedFor(w: World, s: Side, error: BuildError)
    requires BuildCommand(w, s.config, s.uv, s.plan, s.sourceRoot, s.outputRoot) == Err(error)
    ensures error == PlanContract <==> !PlanBinds(w, s)
    ensures error == UnsupportedDataset ==> s.config.task.dataset in {Some(Flightqa), Some(Webarena)}
    ensures s.config.task.dataset in {Some(Flightqa), Some(Webarena)} ==> error in {PlanContract, UnsupportedDataset}
    ensures error == UnsafeCheckout ==> !w.checkout(s.sourceRoot)
    ensures !w.checkout(s.sourceRoot) ==> error in {PlanContract, UnsupportedDataset, UnsafeCheckout}
    ensures error == UnsafeOutputRoot ==> s.outputRoot == "" || s.outputRoot[0] != '/'
    ensures error == OverlappingRoots ==>
              s.sourceRoot == s.outputRoot || Under(s.outputRoot, s.sourceRoot) || Under(s.sourceRoot, s.outputRoot)
  {
    PlanContractMeans(w, s);
  }

  lemma PlanContractMeans(w: World, s: Side)
    ensures PlanContractOk(w, s.config, s.plan) <==> PlanBinds(w, s)
  {
  }
}
