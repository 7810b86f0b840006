/** Which pairs of built commands match: soundness and completeness in one condition. */
module PairTheorems {
  import opened Common
  import opened Json
  import opened SiraCommands
  import opened MatchedPair
  import P = RunPlans
  import C = Commands
  import CD = CommandDocuments
  import Sorting

  // ----------------------------------------------------- flags of a command

  /** Position of the output flag among the flags. */
  function OutputAt(c: Config): nat {
    if c.task.dataRoot.Some? then 8 else 7
  }

  predicate Buildable(w: World, c: Config, output: string) {
    ConfigOk(w, c) && IsAbsolute(output) && (c.task.dataset.Some? ==> c.task.dataset.value.Fanout?)
  }

  lemma FlagNames(w: World, c: Config, output: string, i: nat)
    requires Buildable(w, c, output) && i < |Flags(c, output)|
    ensures Flags(c, output)[i].name == MODE_FLAG <==> i == 1
    ensures Flags(c, output)[i].name == OUTPUT_FLAG <==> i == OutputAt(c)
    ensures OutputAt(c) < |Flags(c, output)| && Flags(c, output)[1].value == ModeWord(c.mode)
    ensures Flags(c, output)[OutputAt(c)].value == output
  {
  }

  predicate AllValues(fs: seq<Flag>) {
    forall f | f in fs :: IsValue(f.value)
  }

  lemma AllValuesConcat(a: seq<Flag>, b: seq<Flag>)
    requires AllValues(a) && AllValues(b)
    ensures AllValues(a + b)
  {
  }

  lemma TaskValues(w: World, c: Config)
    requires ConfigOk(w, c)
    ensures AllValues([TaskFlag(c.task), Flag(MODE_FLAG, ModeWord(c.mode))]) && AllValues(DataFlags(c.task))
            && AllValues(SliceFlags(c.task))
  {
    if c.task.dataset.Some? {
      NumberIsValue(c.task.startIdx.value);
      NumberIsValue(c.task.endIdx.value);
    }
  }

  lemma LockedValues(w: World, c: Config)
    requires ConfigOk(w, c)
    ensures AllValues(LockedFlags(c)) && AllValues([Flag("--seed", Number(c.seed))])
  {
    NumberIsValue(c.maxSteps);
    NumberIsValue(c.actionTimeout);
    NumberIsValue(c.maxRetry);
    NumberIsValue(c.seed);
  }

  /** No flag value of a valid configuration looks like a flag. */
  lemma FlagValues(w: World, c: Config, output: string)
    requires Buildable(w, c, output)
    ensures AllValues(Flags(c, output))
  {
    TaskValues(w, c);
    LockedValues(w, c);
    var a, o := [TaskFlag(c.task), Flag(MODE_FLAG, ModeWord(c.mode))], [Flag(OUTPUT_FLAG, output)];
    AllValuesConcat(a, LockedFlags(c));
    AllValuesConcat(a + LockedFlags(c), DataFlags(c.task));
    AllValuesConcat(a + LockedFlags(c) + DataFlags(c.task), o);
    AllValuesConcat(a + LockedFlags(c) + DataFlags(c.task) + o, SliceFlags(c.task));
    AllValuesConcat(a + LockedFlags(c) + DataFlags(c.task) + o + SliceFlags(c.task), [Flag("--seed", Number(c.seed))]);
  }

  lemma HeadHasNoFlags(w: World, c: Config, uv: string)
    requires ConfigOk(w, c) && IsAbsolute(uv)
    ensures MODE_FLAG !in Head(c, uv) && OUTPUT_FLAG !in Head(c, uv)
  {
    assert MODE_FLAG[0] == '-' && OUTPUT_FLAG[0] == '-' && MODE_FLAG[2] == 'm' && OUTPUT_FLAG[2] == 'o';
    assert "run"[0] == 'r' && "--frozen"[2] == 'f' && "python"[0] == 'p' && RUNNER[0] == 's';
  }

  /**
   In every built command the mode value and the output directory stand at known places and their flags
   nowhere else.
   */
  lemma BuiltFlags(w: World, c: Config, uv: string, output: string)
    requires Buildable(w, c, output) && IsAbsolute(uv)
    ensures var argv := Argv(c, uv, output);
            && |argv| > 5
            && ValueAt(argv, MODE_FLAG, 9) && argv[9] == ModeWord(c.mode)
            && ValueAt(argv, OUTPUT_FLAG, 2 * OutputAt(c) + 7) && argv[2 * OutputAt(c) + 7] == output
  {
    var fs := Flags(c, output);
    HeadHasNoFlags(w, c, uv);
    FlagNames(w, c, output, 0);
    FlagValues(w, c, output);
    assert MODE_FLAG[0] == '-' && OUTPUT_FLAG[0] == '-';
    forall i | 0 <= i < |fs|
      ensures fs[i].name == MODE_FLAG <==> i == 1
      ensures fs[i].name == OUTPUT_FLAG <==> i == OutputAt(c)
      ensures fs[i].value != MODE_FLAG && fs[i].value != OUTPUT_FLAG
    {
      FlagNames(w, c, output, i);
      assert fs[i] in fs;
    }
    FlagStandsOnce(Head(c, uv), fs, 1, MODE_FLAG);
    FlagStandsOnce(Head(c, uv), fs, OutputAt(c), OUTPUT_FLAG);
  }

  lemma SameFlagsElsewhere(a: Config, b: Config, x: string, y: string, i: nat)
    requires SameButJobAndMode(a, b) && i < |Flags(a, x)|
    ensures |Flags(a, x)| == |Flags(b, y)| && Flags(a, x)[i].name == Flags(b, y)[i].name
    ensures i != 1 && i != OutputAt(a) ==> Flags(a, x)[i] == Flags(b, y)[i]
  {
  }

  /** The flag `k` in a list of flags behind a head of six. */
  lemma JoinedFlag(head: seq<string>, fs: seq<Flag>, k: nat)
    requires |head| == 6 && k < |fs|
    ensures |head + FlagArgv(fs)| == 6 + 2 * |fs|
    ensures (head + FlagArgv(fs))[2 * k + 6] == fs[k].name && (head + FlagArgv(fs))[2 * k + 7] == fs[k].value
  {
    FlagArgvAt(fs, k);
    BehindHead(head, FlagArgv(fs), 2 * k);
    BehindHead(head, FlagArgv(fs), 2 * k + 1);
  }

  lemma BehindHead(head: seq<string>, rest: seq<string>, j: nat)
    requires j < |rest|
    ensures (head + rest)[|head| + j] == rest[j]
  {
  }

  /** Every place behind the head is a flag's name or its value. */
  lemma FlagPlace(i: nat, n: nat) returns (k: nat)
    requires 6 <= i < 6 + 2 * n
    ensures k < n && (i == 2 * k + 6 || i == 2 * k + 7)
  {
    k := (i - 6) / 2;
  }

  /** Where two lists of the same flags differ: in the head, or at the values of the flags `1` and `o`. */
  lemma JoinedDifferAt(h: seq<string>, fs: seq<Flag>, g: seq<string>, gs: seq<Flag>, o: nat, i: nat)
    requires |h| == |g| == 6 && |fs| == |gs| && 1 < |fs| && o < |fs| && i < 6 + 2 * |fs|
    requires forall k | 0 <= k < |fs| :: fs[k].name == gs[k].name && (k != 1 && k != o ==> fs[k] == gs[k])
    ensures |h + FlagArgv(fs)| == |g + FlagArgv(gs)| == 6 + 2 * |fs|
    ensures (h + FlagArgv(fs))[i] != (g + FlagArgv(gs))[i] <==>
              || (i < 6 && h[i] != g[i])
              || (i == 9 && fs[1].value != gs[1].value) || (i == 2 * o + 7 && fs[o].value != gs[o].value)
  {
    if i >= 6 {
      var k := FlagPlace(i, |fs|);
      JoinedFlag(h, fs, k);
      JoinedFlag(g, gs, k);
    }
  }

  lemma HeadsDifferAt(a: Config, b: Config, u: string, v: string, i: nat)
    requires i < 6
    ensures |Head(a, u)| == |Head(b, v)| == 6
    ensures Head(a, u)[i] != Head(b, v)[i] <==> (i == 0 && u != v) || (i == 5 && a.jobName != b.jobName)
  {
  }

  /** Where two argument lists of nearly equal configurations differ. */
  lemma ArgvsDifferAt(a: Config, b: Config, u: string, v: string, x: string, y: string, i: nat)
    requires SameButJobAndMode(a, b) && |Flags(a, x)| > OutputAt(a)
    requires Flags(a, x)[1].value == ModeWord(a.mode) && Flags(b, y)[1].value == ModeWord(b.mode)
    requires Flags(a, x)[OutputAt(a)].value == x && |Flags(b, y)| > OutputAt(a) && Flags(b, y)[OutputAt(a)].value == y
    requires i < |Argv(a, u, x)|
    ensures |Argv(a, u, x)| == |Argv(b, v, y)|
    ensures Argv(a, u, x)[i] != Argv(b, v, y)[i] <==>
              || (i == 0 && u != v) || (i == 5 && a.jobName != b.jobName)
              || (i == 9 && ModeWord(a.mode) != ModeWord(b.mode)) || (i == 2 * OutputAt(a) + 7 && x != y)
  {
    var fs, gs := Flags(a, x), Flags(b, y);
    SameFlagsElsewhere(a, b, x, y, 0);
    forall k | 0 <= k < |fs| ensures fs[k].name == gs[k].name && (k != 1 && k != OutputAt(a) ==> fs[k] == gs[k]) {
      SameFlagsElsewhere(a, b, x, y, k);
    }
    if i < 6 { HeadsDifferAt(a, b, u, v, i); }
    JoinedDifferAt(Head(a, u), fs, Head(b, v), gs, OutputAt(a), i);
  }

  lemma JobNamesDiffer(w: World, a: Config, b: Config)
    requires ConfigOk(w, a) && ConfigOk(w, b) && a.mode.Reactive? && b.mode.Simulative?
    ensures a.jobName != b.jobName
  {
    var x, y := "-" + ModeLabel(a.mode), "-" + ModeLabel(b.mode);
    assert x == "-REACTIVE" && y == "-SIMULATIVE";
    assert a.jobName[|a.jobName| - 4] == x[|x| - 4] == 'T';
    assert a.jobName[|a.jobName| - 6] == x[|x| - 6] == 'A';
    assert b.jobName[|b.jobName| - 6] == y[|y| - 6] == 'L';
  }

  /** The arguments of two such commands are paired exactly when executable agrees and output directories differ. */
  lemma BuiltArgvsPaired(w: World, a: Config, b: Config, u: string, v: string, x: string, y: string)
    requires Buildable(w, a, x) && Buildable(w, b, y) && IsAbsolute(u) && IsAbsolute(v)
    requires SameButJobAndMode(a, b) && a.mode.Reactive? && b.mode.Simulative?
    ensures ArgvsPaired(Argv(a, u, x), Argv(b, v, y), 9, 2 * OutputAt(a) + 7) <==> u == v && x != y
    ensures forall mode: nat, output: nat | ArgvsPaired(Argv(a, u, x), Argv(b, v, y), mode, output) ::
              mode == 9 && output == 2 * OutputAt(a) + 7
  {
    var p, q, o := Argv(a, u, x), Argv(b, v, y), 2 * OutputAt(a) + 7;
    BuiltFlags(w, a, u, x);
    BuiltFlags(w, b, v, y);
    JobNamesDiffer(w, a, b);
    FlagNames(w, a, x, 0);
    FlagNames(w, b, y, 0);
    ArgvsDifferAt(a, b, u, v, x, y, 0);
    forall i | 0 <= i < |p|
      ensures p[i] != q[i] <==> (i == 0 && u != v) || i == 5 || i == 9 || (i == o && x != y)
    {
      ArgvsDifferAt(a, b, u, v, x, y, i);
    }
    PairedIndexes(p, q, u != v, x != y, o);
  }

  lemma PairedIndexes(p: seq<string>, q: seq<string>, executable: bool, outputs: bool, o: nat)
    requires |p| == |q| && 9 < o < |p|
    requires forall i | 0 <= i < |p| ::
             p[i] != q[i] <==> (i == 0 && executable) || i == 5 || i == 9 || (i == o && outputs)
    ensures DifferingIndexes(p, q) == {5, 9, o} <==> !executable && outputs
  {
    var d := DifferingIndexes(p, q);
    assert 0 in d <==> executable;
    assert o in d <==> outputs;
    assert 5 in d && 9 in d;
  }

  // ------------------------------------------------------- outside the argv

  predicate SameOutside(a: C.CommandSpec, b: C.CommandSpec) {
    b == a.(argv := b.argv, ownedOutputRoots := b.ownedOutputRoots)
  }

  lemma DriftMeans(a: C.CommandSpec, b: C.CommandSpec)
    requires Differences(CD.CommandDocument(a), CD.CommandDocument(b)) <= PAIR_FIELDS
    ensures a.cwd == b.cwd && a.timeoutSeconds == b.timeoutSeconds
  {
    CD.CommandKeys(a);
    CD.CommandKeys(b);
    CD.ScalarLookups(a);
    CD.ScalarLookups(b);
    SameValue(CD.CommandDocument(a), CD.CommandDocument(b), "cwd");
    SameValue(CD.CommandDocument(a), CD.CommandDocument(b), "timeout_seconds");
    assert "cwd" !in PAIR_FIELDS && "timeout_seconds" !in PAIR_FIELDS;
  }

  lemma NoDrift(a: C.CommandSpec, b: C.CommandSpec)
    requires SameOutside(a, b)
    ensures Differences(CD.CommandDocument(a), CD.CommandDocument(b)) <= PAIR_FIELDS
  {
    CD.CommandKeys(a);
    CD.CommandKeys(b);
    CD.ScalarLookups(a);
    CD.ScalarLookups(b);
    CD.ListLookups(a);
    CD.ListLookups(b);
    forall key | key in CD.COMMAND_KEYS && key !in PAIR_FIELDS
      ensures Get(CD.CommandDocument(a), key) == Get(CD.CommandDocument(b), key)
    {
    }
  }

  // --------------------------------------------------------- built commands

  /** A side whose command is the one its own adapter builds. */
  predicate Built(w: World, s: Side) {
    && ConfigOk(w, s.config) && IsAbsolute(s.uv)
    && BuildCommand(w, s.config, s.uv, s.plan, s.sourceRoot, s.outputRoot) == Ok(s.command)
  }

  lemma SortOne(x: string)
    ensures Sorting.SortBy(C.TEXT, [x]) == [x]
  {
    assert multiset(Sorting.SortBy(C.TEXT, [x])) == multiset{x};
  }

  lemma UnrefusedBuild(w: World, c: Config, plan: P.RunPlan, sourceRoot: string, outputRoot: string)
    requires BuildFailure(w, c, plan, sourceRoot, outputRoot).None?
    ensures IsAbsolute(outputRoot) && (c.task.dataset.Some? ==> c.task.dataset.value.Fanout?)
  {
  }

  /** What the adapter built is what the constructor made of the raw command. */
  lemma BuiltConstructed(w: World, s: Side)
    requires Built(w, s)
    ensures BuildFailure(w, s.config, s.plan, s.sourceRoot, s.outputRoot).None?
    ensures Constructed(w, RawCommand(w, s.config, s.uv, s.plan, s.sourceRoot, s.outputRoot)) == Ok(s.command)
  {
  }

  /** What the constructor makes of any raw command is its normal form. */
  lemma ConstructedNormal(w: World, raw: C.CommandSpec, c: C.CommandSpec)
    requires Constructed(w, raw) == Ok(c)
    ensures c == C.Normal(raw)
  {
  }

  lemma BuiltBuildable(w: World, s: Side)
    requires ConfigOk(w, s.config) && IsAbsolute(s.outputRoot)
    requires s.config.task.dataset.Some? ==> s.config.task.dataset.value.Fanout?
    ensures Buildable(w, s.config, OutputDirectory(s.config, s.outputRoot))
  {
  }

  lemma BuiltRaw(w: World, s: Side)
    requires Built(w, s)
    ensures Buildable(w, s.config, OutputDirectory(s.config, s.outputRoot))
    ensures s.command == C.Normal(RawCommand(w, s.config, s.uv, s.plan, s.sourceRoot, s.outputRoot))
  {
    BuiltConstructed(w, s);
    UnrefusedBuild(w, s.config, s.plan, s.sourceRoot, s.outputRoot);
    BuiltBuildable(w, s);
    ConstructedNormal(w, RawCommand(w, s.config, s.uv, s.plan, s.sourceRoot, s.outputRoot), s.command);
  }

  lemma NormalParts(raw: C.CommandSpec, output: string)
    requires raw.ownedOutputRoots == [output]
    ensures var n := C.Normal(raw);
            n.argv == raw.argv && n.ownedOutputRoots == [output] && n.cwd == raw.cwd
              && n.timeoutSeconds == raw.timeoutSeconds
  {
    SortOne(output);
  }

  lemma BuiltParts(w: World, s: Side)
    requires Built(w, s)
    ensures var output := OutputDirectory(s.config, s.outputRoot);
            && Buildable(w, s.config, output)
            && s.command.argv == Argv(s.config, s.uv, output) && s.command.ownedOutputRoots == [output]
            && s.command.cwd == s.sourceRoot && s.command.timeoutSeconds == s.plan.budget.maxWallSeconds
  {
    BuiltRaw(w, s);
    NormalParts(RawCommand(w, s.config, s.uv, s.plan, s.sourceRoot, s.outputRoot),
                OutputDirectory(s.config, s.outputRoot));
  }

  lemma SameOutsideWhen(w: World, r: Side, s: Side)
    requires Built(w, r) && Built(w, s) && SameButJobAndMode(r.config, s.config)
    requires r.uv == s.uv && r.sourceRoot == s.sourceRoot
             && r.plan.budget.maxWallSeconds == s.plan.budget.maxWallSeconds
    ensures SameOutside(r.command, s.command)
  {
    BuiltRaw(w, r);
    BuiltRaw(w, s);
    NormalSameOutside(RawCommand(w, r.config, r.uv, r.plan, r.sourceRoot, r.outputRoot),
                      RawCommand(w, s.config, s.uv, s.plan, s.sourceRoot, s.outputRoot));
  }

  lemma NormalSameOutside(a: C.CommandSpec, b: C.CommandSpec)
    requires SameOutside(a, b)
    ensures SameOutside(C.Normal(a), C.Normal(b))
  {
  }

  lemma SameRoots(c: Config, a: string, b: string)
    ensures OutputDirectory(c, a) == OutputDirectory(c, b) <==> a == b
  {
    var tail := "/" + c.outputSubdirectory;
    assert OutputDirectory(c, a) == a + tail && OutputDirectory(c, b) == b + tail;
    if a + tail == b + tail {
      assert |a| == |b|;
      assert a == (a + tail)[..|a|] && b == (b + tail)[..|b|];
    }
  }

  /** What the two halves of a pair must share, and the one thing they must not. */
  predicate PairCondition(r: Side, s: Side) {
    && r.config.mode.Reactive? && s.config.mode.Simulative?
    && SameButJobAndMode(r.config, s.config)
    && r.uv == s.uv && r.sourceRoot == s.sourceRoot
    && r.plan.budget.maxWallSeconds == s.plan.budget.maxWallSeconds
    && r.plan.sources.protocolSha256 == s.plan.sources.protocolSha256
    && r.outputRoot != s.outputRoot
  }

  /** What the check found equal between the documents. */
  lemma PairedDocuments(w: World, r: Side, s: Side, mode: nat, output: nat)
    requires Paired(w, r, s, mode, output)
    ensures r.config.mode.Reactive? && s.config.mode.Simulative? && SameButJobAndMode(r.config, s.config)
    ensures r.plan.sources.protocolSha256 == s.plan.sources.protocolSha256
    ensures r.command.cwd == s.command.cwd && r.command.timeoutSeconds == s.command.timeoutSeconds
    ensures ArgvsPaired(r.command.argv, s.command.argv, mode, output)
  {
    ConfigDifferencesExact(r.config, s.config);
    DriftMeans(r.command, s.command);
  }

  /** What paired arguments say of the sides they were built for. */
  lemma PairedArgvs(w: World, r: Side, s: Side, mode: nat, output: nat)
    requires Built(w, r) && Built(w, s) && SameButJobAndMode(r.config, s.config)
    requires r.config.mode.Reactive? && s.config.mode.Simulative?
    requires ArgvsPaired(r.command.argv, s.command.argv, mode, output)
    ensures r.uv == s.uv && r.outputRoot != s.outputRoot && mode == 9 && output == 2 * OutputAt(r.config) + 7
  {
    BuiltParts(w, r);
    BuiltParts(w, s);
    BuiltArgvsPaired(w, r.config, s.config, r.uv, s.uv,
                     OutputDirectory(r.config, r.outputRoot), OutputDirectory(s.config, s.outputRoot));
    SameRoots(r.config, r.outputRoot, s.outputRoot);
  }

  lemma PairConditionNecessary(w: World, r: Side, s: Side, mode: nat, output: nat)
    requires Built(w, r) && Built(w, s) && Paired(w, r, s, mode, output)
    ensures PairCondition(r, s) && mode == 9 && output == 2 * OutputAt(r.config) + 7
  {
    PairedDocuments(w, r, s, mode, output);
    PairedArgvs(w, r, s, mode, output);
    BuiltParts(w, r);
    BuiltParts(w, s);
  }

  lemma SufficientArgvs(w: World, r: Side, s: Side)
    requires Built(w, r) && Built(w, s) && PairCondition(r, s)
    ensures ArgvsPaired(r.command.argv, s.command.argv, 9, 2 * OutputAt(r.config) + 7)
  {
    BuiltParts(w, r);
    BuiltParts(w, s);
    SameRoots(r.config, r.outputRoot, s.outputRoot);
    BuiltArgvsPaired(w, r.config, s.config, r.uv, s.uv, OutputDirectory(r.config, r.outputRoot),
                     OutputDirectory(s.config, s.outputRoot));
  }

  lemma SufficientDocuments(w: World, r: Side, s: Side)
    requires Built(w, r) && Built(w, s) && PairCondition(r, s)
    ensures Differences(CD.CommandDocument(r.command), CD.CommandDocument(s.command)) <= PAIR_FIELDS
  {
    SameOutsideWhen(w, r, s);
    NoDrift(r.command, s.command);
  }

  lemma BuiltMatches(w: World, s: Side)
    requires Built(w, s)
    ensures MatchesAdapter(w, s)
    ensures s.plan.sources.upstreamSourceId == SOURCE_ID && s.plan.sources.upstreamCommit == UPSTREAM_COMMIT
  {
  }

  lemma SufficientConfigs(w: World, r: Side, s: Side)
    requires ConfigOk(w, r.config) && ConfigOk(w, s.config) && PairCondition(r, s)
    ensures Differences(ConfigDocument(r.config), ConfigDocument(s.config)) == {"job_name", "mode"}
  {
    JobNamesDiffer(w, r.config, s.config);
    ConfigDifferencesExact(r.config, s.config);
  }

  lemma PairConditionSufficient(w: World, r: Side, s: Side)
    requires Built(w, r) && Built(w, s) && PairCondition(r, s)
    ensures Paired(w, r, s, 9, 2 * OutputAt(r.config) + 7)
  {
    BuiltMatches(w, r);
    BuiltMatches(w, s);
    SufficientConfigs(w, r, s);
    SufficientDocuments(w, r, s);
    SufficientArgvs(w, r, s);
  }

  /**
   Sound and complete: two built commands are accepted exactly when their configurations agree but for job
   name and mode, they share executable, source root, wall cap and protocol digest, and their output roots differ.
   */
  lemma MatchedPairIsExact(w: World, r: Side, s: Side)
    requires Built(w, r) && Built(w, s)
    ensures (exists mode: nat, output: nat :: Paired(w, r, s, mode, output)) <==> PairCondition(r, s)
  {
    if mode: nat, output: nat :| Paired(w, r, s, mode, output) {
      PairConditionNecessary(w, r, s, mode, output);
    }
    if PairCondition(r, s) {
      PairConditionSufficient(w, r, s);
    }
  }

  lemma PairedValues(w: World, s: Side)
    requires Built(w, s)
    ensures var argv, o := s.command.argv, 2 * OutputAt(s.config) + 7;
            && |argv| > o && argv[5] == s.config.jobName && argv[9] == ModeWord(s.config.mode)
            && s.command.ownedOutputRoots == [argv[o]]
  {
    BuiltParts(w, s);
    BuiltFlags(w, s.config, s.uv, OutputDirectory(s.config, s.outputRoot));
  }

  lemma DifferAt(a: seq<string>, b: seq<string>, mode: nat, output: nat, i: nat)
    requires ArgvsPaired(a, b, mode, output) && i < |a|
    ensures a[i] == b[i] <==> i != 5 && i != mode && i != output
  {
    assert i in DifferingIndexes(a, b) <==> i == 5 || i == mode || i == output;
  }

  lemma AcceptedDiffer(w: World, r: Side, s: Side, mode: nat, output: nat, i: nat)
    requires Paired(w, r, s, mode, output) && i < |r.command.argv|
    ensures |r.command.argv| == |s.command.argv|
    ensures r.command.argv[i] == s.command.argv[i] <==> i != 5 && i != mode && i != output
  {
    DifferAt(r.command.argv, s.command.argv, mode, output, i);
  }

  lemma AcceptedPositions(w: World, r: Side, s: Side, mode: nat, output: nat)
    requires Built(w, r) && Built(w, s) && Paired(w, r, s, mode, output)
    ensures mode == 9 && output == 2 * OutputAt(r.config) + 7 && OutputAt(r.config) == OutputAt(s.config)
    ensures r.config.mode.Reactive? && s.config.mode.Simulative?
  {
    PairConditionNecessary(w, r, s, mode, output);
  }

  /** What acceptance says of the arguments: equal everywhere but job name, mode word and output directory. */
  lemma AcceptedArgvs(w: World, r: Side, s: Side, mode: nat, output: nat, i: nat)
    requires Built(w, r) && Built(w, s) && Paired(w, r, s, mode, output) && i < |r.command.argv|
    ensures |r.command.argv| == |s.command.argv|
    ensures r.command.argv[i] == s.command.argv[i] <==> i != 5 && i != mode && i != output
    ensures mode < |r.command.argv| && output < |r.command.argv| && 5 < |r.command.argv|
    ensures r.command.argv[5] == r.config.jobName && s.command.argv[5] == s.config.jobName
    ensures r.command.argv[mode] == "reactive" && s.command.argv[mode] == "simulative"
    ensures r.command.ownedOutputRoots == [r.command.argv[output]]
            && s.command.ownedOutputRoots == [s.command.argv[output]]
  {
    AcceptedDiffer(w, r, s, mode, output, i);
    AcceptedPositions(w, r, s, mode, output);
    PairedValues(w, r);
    PairedValues(w, s);
  }
}
