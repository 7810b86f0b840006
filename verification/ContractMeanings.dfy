/**
 What the contracts of a run say, field by field: what makes a plan or a command valid, and what its document
 holds.
 */
module ContractMeanings {
  import opened Common
  import opened Json
  import opened Sorting
  import P = RunPlans
  import C = Commands
  import D = CommandDocuments

  // ------------------------------------------------------------------ plans

  /** Nonblank text without a recognisable secret. */
  predicate CleanText(p: P.Patterns, s: string) { p.nonempty(s) && p.secretSafe(s) }

  predicate Pinned(s: string, ok: string -> bool) { s == "unknown" || ok(s) }

  predicate SourcesSound(p: P.Patterns, s: P.SourceVersions) {
    && CleanText(p, s.upstreamSourceId) && Pinned(s.giclabCommit, p.commit) && Pinned(s.upstreamCommit, p.commit)
    && Pinned(s.protocolSha256, p.sha256) && Pinned(s.configSha256, p.sha256) && Pinned(s.environmentSha256, p.sha256)
    && (s.modelRevision == None || CleanText(p, s.modelRevision.value))
    && (s.datasetRevision == None || CleanText(p, s.datasetRevision.value))
  }

  /** An authorised plan names who authorised it and which command; any other plan names neither. */
  predicate AuthorizationSound(p: P.Patterns, a: P.Authorization) {
    && a.authorized == a.reference.Some? == a.commandSha256.Some?
    && (a.authorized ==>
          p.reference(a.reference.value) && p.secretSafe(a.reference.value) && p.sha256(a.commandSha256.value))
  }

  predicate BudgetSound(b: P.RunBudget) {
    && b.maxWallSeconds > 0 && b.maxOutputBytes > 0 && b.maxCostUsd >= 0 && b.maxGpuHours >= 0
    && (b.maxModelTokens == None || b.maxModelTokens.value >= 0)
    && (b.maxToolCalls == None || b.maxToolCalls.value >= 0)
  }

  /** A task is a query, or a nonempty slice of a dataset at a revision, and never a mixture. */
  predicate TaskSound(p: P.Patterns, t: P.RunTask) {
    && CleanText(p, t.taskId)
    && (t.sourceKind == P.OpenEndedQuery <==> t.query.Some?) && (t.query.Some? ==> p.nonempty(t.query.value))
    && t.datasetId.Some? == t.datasetRevision.Some? == t.startIdx.Some? == t.endIdx.Some? == t.query.None?
    && (t.query.None? ==>
          && p.nonempty(t.datasetId.value) && p.nonempty(t.datasetRevision.value)
          && t.startIdx.value >= 0 && t.endIdx.value > t.startIdx.value)
  }

  predicate PairingSound(p: P.Patterns, q: P.Pairing) { CleanText(p, q.pairId) && q.orderIndex in {1, 2} }

  predicate IdentitySound(p: P.Patterns, i: P.RunIdentity) {
    && p.experimentId(i.experimentId) && p.runId(i.runId) && CleanText(p, i.condition) && i.attempt >= 1
    && (i.seed == None || i.seed.value >= 0)
  }

  predicate PlanSound(p: P.Patterns, plan: P.RunPlan) {
    && IdentitySound(p, plan.identity) && SourcesSound(p, plan.sources)
    && AuthorizationSound(p, plan.execution.authorization) && BudgetSound(plan.budget)
    && p.relativePath(plan.artifacts.root) && p.secretSafe(plan.artifacts.root) && plan.artifacts.retainRaw
    && plan.task.Some? == plan.pairing.Some?
    && (plan.task.Some? ==> TaskSound(p, plan.task.value) && PairingSound(p, plan.pairing.value))
    && plan.profilePlanId.Some? == plan.profileSha256.Some?
    && (plan.profilePlanId.Some? ==> p.planId(plan.profilePlanId.value) && p.sha256(plan.profileSha256.value))
    && (plan.profile == P.Smoke ==> !plan.interpretationAllowed)
  }

  /** The typed constructors accept exactly the sound plans. */
  lemma PlanOkMeans(p: P.Patterns, plan: P.RunPlan)
    ensures P.PlanOk(p, plan) <==> PlanSound(p, plan)
  {
    AuthorizationMeans(p, plan.execution.authorization);
    SourcesMean(p, plan.sources);
    if plan.task.Some? { TaskMeans(p, plan.task.value); }
  }

  lemma AuthorizationMeans(p: P.Patterns, a: P.Authorization)
    ensures P.AuthorizationOk(p, a) <==> AuthorizationSound(p, a)
  {
  }

  lemma SourcesMean(p: P.Patterns, s: P.SourceVersions)
    ensures P.SourcesOk(p, s) <==> SourcesSound(p, s)
  {
  }

  lemma TaskMeans(p: P.Patterns, t: P.RunTask)
    ensures P.TaskOk(p, t) <==> TaskSound(p, t)
  {
  }

  // --------------------------------------------------------- plan documents

  /** The value under a key, through nested objects. */
  function At(d: Fields, outer: string, key: string): Value {
    if Get(d, outer).Obj? then Get(Get(d, outer).fields, key) else Null
  }

  predicate Holds(v: Value, text: Option<string>) { v == if text.Some? then Str(text.value) else Null }

  predicate HoldsNumber(v: Value, n: Option<int>) { v == if n.Some? then Int(n.value) else Null }

  predicate HoldsAmount(v: Value, a: Amount) { v == Float(a) || (v.Int? && v.i * ONE == a) }

  predicate TellsIdentity(d: Fields, plan: P.RunPlan) {
    && Get(d, "experiment_id") == Str(plan.identity.experimentId) && Get(d, "run_id") == Str(plan.identity.runId)
    && Get(d, "condition") == Str(plan.identity.condition) && Get(d, "attempt") == Int(plan.identity.attempt)
    && HoldsNumber(Get(d, "seed"), plan.identity.seed)
    && Get(d, "profile") == Str(match plan.profile
                                case Smoke => "smoke" case Pilot => "pilot" case Confirmatory => "confirmatory")
    && Get(d, "interpretation_allowed") == Bool(plan.interpretationAllowed)
    && Holds(Get(d, "profile_plan_id"), plan.profilePlanId) && Holds(Get(d, "profile_sha256"), plan.profileSha256)
  }

  predicate TellsExecution(d: Fields, e: P.ExecutionContract) {
    && At(d, "execution", "backend") == Str(if e.backend == P.Cloud then "cloud" else "local-subprocess")
    && At(d, "execution", "workload") == Str(match e.workload case Prototype => "prototype"
                                             case Benchmark => "benchmark" case Training => "training")
    && At(d, "execution", "authorization").Obj?
    && var a := At(d, "execution", "authorization").fields;
       && Get(a, "authorized") == Bool(e.authorization.authorized)
       && Holds(Get(a, "authorization_reference"), e.authorization.reference)
       && Holds(Get(a, "command_sha256"), e.authorization.commandSha256)
  }

  predicate TellsSources(d: Fields, s: P.SourceVersions) {
    && At(d, "sources", "giclab_commit") == Str(s.giclabCommit)
    && At(d, "sources", "upstream_source_id") == Str(s.upstreamSourceId)
    && At(d, "sources", "upstream_commit") == Str(s.upstreamCommit)
    && At(d, "sources", "protocol_sha256") == Str(s.protocolSha256)
    && At(d, "sources", "config_sha256") == Str(s.configSha256)
    && At(d, "sources", "environment_sha256") == Str(s.environmentSha256)
    && Holds(At(d, "sources", "model_revision"), s.modelRevision)
    && Holds(At(d, "sources", "dataset_revision"), s.datasetRevision)
  }

  predicate TellsBudget(d: Fields, b: P.RunBudget) {
    && At(d, "budget", "max_wall_seconds") == Int(b.maxWallSeconds)
    && At(d, "budget", "max_output_bytes") == Int(b.maxOutputBytes)
    && HoldsAmount(At(d, "budget", "max_cost_usd"), b.maxCostUsd)
    && HoldsAmount(At(d, "budget", "max_gpu_hours"), b.maxGpuHours)
    && HoldsNumber(At(d, "budget", "max_model_tokens"), b.maxModelTokens)
    && HoldsNumber(At(d, "budget", "max_tool_calls"), b.maxToolCalls)
  }

  predicate TellsArtifacts(d: Fields, a: P.ArtifactPolicy) {
    At(d, "artifacts", "root") == Str(a.root) && At(d, "artifacts", "retain_raw") == Bool(a.retainRaw)
  }

  predicate TellsTask(d: Fields, t: P.RunTask) {
    && At(d, "task", "task_id") == Str(t.taskId)
    && At(d, "task", "source_kind") == Str(if t.sourceKind == P.DatasetSlice then "dataset-slice"
                                           else "open-ended-query")
    && Holds(At(d, "task", "query"), t.query) && Holds(At(d, "task", "dataset_id"), t.datasetId)
    && Holds(At(d, "task", "dataset_revision"), t.datasetRevision)
    && HoldsNumber(At(d, "task", "start_idx"), t.startIdx) && HoldsNumber(At(d, "task", "end_idx"), t.endIdx)
  }

  predicate TellsPairing(d: Fields, q: P.Pairing) {
    At(d, "pairing", "pair_id") == Str(q.pairId) && At(d, "pairing", "order_index") == Int(q.orderIndex)
  }

  predicate TellsTaskAndPairing(d: Fields, task: Option<P.RunTask>, pairing: Option<P.Pairing>) {
    && task.Some? == pairing.Some? && (task.None? ==> Get(d, "task") == Null && Get(d, "pairing") == Null)
    && (task.Some? ==> TellsTask(d, task.value) && TellsPairing(d, pairing.value))
  }

  /** A document that reads as a plan says so under the contract's own keys, and the plan is sound. */
  lemma ReadPlanTells(p: P.Patterns, d: Fields)
    requires P.PlanFrom(p, d).Ok?
    ensures var plan := P.PlanFrom(p, d).value;
            && TellsIdentity(d, plan) && TellsExecution(d, plan.execution) && TellsSources(d, plan.sources)
            && TellsBudget(d, plan.budget) && TellsArtifacts(d, plan.artifacts)
            && TellsTaskAndPairing(d, plan.task, plan.pairing) && PlanSound(p, plan)
  {
    ReadParts(p, d);
    PlanOkMeans(p, P.PlanFrom(p, d).value);
    ReadExecution(d);
    ReadSources(d);
    ReadBudget(d);
    ReadArtifacts(d);
    ReadTaskAndPairing(d);
    ReadIdentity(p, d);
  }

  /** An assembled plan is made of its parts, and the constructors accept it. */
  lemma AssembledOf(
      p: P.Patterns, execution: Result<P.ExecutionContract, string>, sources: Result<P.SourceVersions, string>,
      budget: Result<P.RunBudget, string>, artifacts: Result<P.ArtifactPolicy, string>,
      identity: Result<P.RunIdentity, string>, both: Result<(Option<P.RunTask>, Option<P.Pairing>), string>,
      profileWord: Value, planId: Value, sha: Value, interpretation: Value, plan: P.RunPlan)
    requires P.Assemble(p, execution, sources, budget, artifacts, identity, both, profileWord, planId, sha,
                        interpretation) == Ok(plan)
    ensures P.PlanOk(p, plan) && execution == Ok(plan.execution) && sources == Ok(plan.sources)
    ensures budget == Ok(plan.budget) && artifacts == Ok(plan.artifacts) && identity == Ok(plan.identity)
    ensures both == Ok((plan.task, plan.pairing))
    ensures profileWord.Str? && P.ProfileFrom(profileWord.s) == Ok(plan.profile)
    ensures interpretation == Bool(plan.interpretationAllowed)
    ensures Holds(planId, plan.profilePlanId) && Holds(sha, plan.profileSha256)
  {
  }

  lemma ReadParts(p: P.Patterns, d: Fields)
    requires P.PlanFrom(p, d).Ok?
    ensures var plan := P.PlanFrom(p, d).value;
            && P.PlanOk(p, plan) && P.ExecutionFrom(Get(d, "execution")) == Ok(plan.execution)
            && P.SourcesFrom(Get(d, "sources")) == Ok(plan.sources)
            && P.BudgetFrom(Get(d, "budget")) == Ok(plan.budget)
            && P.ArtifactsFrom(Get(d, "artifacts")) == Ok(plan.artifacts)
            && P.IdentityFrom(d) == Ok(plan.identity) && P.TaskAndPairingFrom(d) == Ok((plan.task, plan.pairing))
            && Get(d, "profile").Str? && P.ProfileFrom(Get(d, "profile").s) == Ok(plan.profile)
            && Get(d, "interpretation_allowed") == Bool(plan.interpretationAllowed)
            && Holds(Get(d, "profile_plan_id"), plan.profilePlanId)
            && Holds(Get(d, "profile_sha256"), plan.profileSha256)
  {
    AssembledOf(p, P.ExecutionFrom(Get(d, "execution")), P.SourcesFrom(Get(d, "sources")),
                P.BudgetFrom(Get(d, "budget")), P.ArtifactsFrom(Get(d, "artifacts")),
                P.IdentityFrom(d), P.TaskAndPairingFrom(d),
                Get(d, "profile"), Get(d, "profile_plan_id"), Get(d, "profile_sha256"),
                Get(d, "interpretation_allowed"), P.PlanFrom(p, d).value);
  }

  lemma ReadIdentity(p: P.Patterns, d: Fields)
    requires P.PlanFrom(p, d).Ok?
    ensures TellsIdentity(d, P.PlanFrom(p, d).value)
  {
    ReadParts(p, d);
    IdentityTold(d, P.PlanFrom(p, d).value.identity);
  }

  lemma IdentityTold(d: Fields, i: P.RunIdentity)
    requires P.IdentityFrom(d) == Ok(i)
    ensures Get(d, "experiment_id") == Str(i.experimentId) && Get(d, "run_id") == Str(i.runId)
    ensures Get(d, "condition") == Str(i.condition) && Get(d, "attempt") == Int(i.attempt)
    ensures HoldsNumber(Get(d, "seed"), i.seed)
  {
  }

  lemma ReadExecution(d: Fields)
    ensures var e := P.ExecutionFrom(Get(d, "execution")); e.Ok? ==> TellsExecution(d, e.value)
  {
  }

  lemma ReadSources(d: Fields)
    ensures var s := P.SourcesFrom(Get(d, "sources")); s.Ok? ==> TellsSources(d, s.value)
  {
  }

  lemma ReadBudget(d: Fields)
    ensures var b := P.BudgetFrom(Get(d, "budget")); b.Ok? ==> TellsBudget(d, b.value)
  {
  }

  lemma ReadArtifacts(d: Fields)
    ensures var a := P.ArtifactsFrom(Get(d, "artifacts")); a.Ok? ==> TellsArtifacts(d, a.value)
  {
  }

  lemma ReadTaskAndPairing(d: Fields)
    ensures var both := P.TaskAndPairingFrom(d); both.Ok? ==> TellsTaskAndPairing(d, both.value.0, both.value.1)
  {
  }

  // --------------------------------------------------------------- commands

  /** No two of the keys are equal. */
  predicate Different<T>(key: T -> string, s: seq<T>) {
    forall i, j | 0 <= i < |s| && 0 <= j < |s| && key(s[i]) == key(s[j]) :: i == j
  }

  lemma {:induction false} DifferentMeans<T>(key: T -> string, s: seq<T>)
    ensures DistinctKeys(key, s) <==> Different(key, s)
  {
    if s != [] {
      var rest := s[1..];
      DifferentMeans(key, rest);
      KeysMember(key, rest, key(s[0]));
      if Different(key, s) {
        forall i, j | 0 <= i < |rest| && 0 <= j < |rest| && key(rest[i]) == key(rest[j]) ensures i == j {
          assert s[i + 1] == rest[i] && s[j + 1] == rest[j];
        }
        forall x | x in rest ensures key(x) != key(s[0]) {
          var j :| 0 <= j < |rest| && rest[j] == x;
          assert s[j + 1] == x;
        }
      }
      if DistinctKeys(key, s) {
        forall i, j | 0 <= i < |s| && 0 <= j < |s| && key(s[i]) == key(s[j]) ensures i == j {
          assert i > 0 ==> s[i] == rest[i - 1] && s[i] in rest;
          assert j > 0 ==> s[j] == rest[j - 1] && s[j] in rest;
        }
      }
    }
  }

  predicate SafePaths(ok: string -> bool, p: C.Patterns, paths: seq<string>) {
    (forall q | q in paths :: ok(q) && p.secretSafe(q)) && Different(C.TEXT, paths)
  }

  predicate TreeSound(p: C.Patterns, t: C.InputTree) {
    && p.canonicalRoot(t.root) && p.secretSafe(t.root) && p.sha256(t.sha256)
    && (t.gitCommit == None || p.commit(t.gitCommit.value)) && SafePaths(p.relative, p, t.excludedRoots)
  }

  /** No name is set twice: literally, by inheritance and as a secret exclude one another. */
  predicate EnvironmentSound(p: C.Patterns, c: C.CommandSpec) {
    var inherited := set b | b in c.inherit :: b.name;
    && c.environment.Keys !! inherited && inherited !! Elements(c.secretEnvironment)
    && c.environment.Keys !! Elements(c.secretEnvironment)
    && Different(C.NAME, c.inherit) && Different(C.TEXT, c.secretEnvironment)
    && (forall name | name in c.environment :: p.environmentName(name) && p.literal(name, c.environment[name]))
    && (forall b | b in c.inherit :: p.environmentName(b.name) && p.inheritedName(b.name) && p.sha256(b.valueSha256))
    && (forall name | name in c.secretEnvironment :: p.environmentName(name) && p.secretSafe(name))
  }

  /** Nothing is projected for what is unbounded, and use is projected only where the adapter's command limits it. */
  predicate ProjectionSound(q: C.Projection) {
    && q.costUsd >= 0 && q.gpuHours >= 0 && q.modelTokens >= 0 && q.toolCalls >= 0
    && (C.CostUsd in q.unbounded ==> q.costUsd == 0) && (C.GpuHours in q.unbounded ==> q.gpuHours == 0)
    && (C.ModelTokens in q.unbounded ==> q.modelTokens == 0) && (C.ToolCalls in q.unbounded ==> q.toolCalls == 0)
    && Different(C.WORD, q.unbounded)
    && (q.costUsd + q.gpuHours + q.modelTokens + q.toolCalls > 0 ==> q.enforcement == C.AdapterCommand)
  }

  predicate CommandSound(p: C.Patterns, c: C.CommandSpec) {
    && |c.argv| > 0 && (forall a | a in c.argv :: |a| > 0 && p.argument(a)) && p.absolute(c.argv[0])
    && p.absolute(c.cwd) && p.secretSafe(c.cwd) && c.cwdIdentity.device >= 0 && c.cwdIdentity.inode >= 0
    && c.timeoutSeconds > 0 && p.sha256(c.executableSha256)
    && EnvironmentSound(p, c)
    && (forall t | t in c.inputTrees :: TreeSound(p, t)) && Different(C.ROOT, c.inputTrees)
    && SafePaths(p.canonicalRoot, p, c.ownedOutputRoots) && SafePaths(p.relative, p, c.unownedOutputPatterns)
    && ProjectionSound(c.projection)
  }

  lemma EnvironmentMeans(p: C.Patterns, c: C.CommandSpec)
    ensures C.EnvironmentOk(p, c.environment, c.inherit, c.secretEnvironment) <==> EnvironmentSound(p, c)
  {
    DifferentMeans(C.NAME, c.inherit);
    DifferentMeans(C.TEXT, c.secretEnvironment);
    NamesApart(c.environment.Keys, c.inherit, c.secretEnvironment);
  }

  lemma NamesApart(literal: set<string>, inherit: seq<C.InheritedBinding>, secret: seq<string>)
    ensures var inherited := set b | b in inherit :: b.name;
            && (literal !! inherited && inherited !! Elements(secret) <==>
                forall b | b in inherit :: b.name !in literal && b.name !in secret)
            && (literal !! Elements(secret) <==> forall name | name in secret :: name !in literal)
  {
    var inherited := set b | b in inherit :: b.name;
    assert forall b | b in inherit :: b.name in inherited;
    assert forall name :: name in secret <==> name in Elements(secret);
  }

  lemma ProjectionMeans(q: C.Projection)
    ensures C.ProjectionOk(q) <==> ProjectionSound(q)
  {
    DifferentMeans(C.WORD, q.unbounded);
    assert (forall r | r in q.unbounded :: C.Projected(q, r) == 0) <==>
           && (C.CostUsd in q.unbounded ==> C.Projected(q, C.CostUsd) == 0)
           && (C.GpuHours in q.unbounded ==> C.Projected(q, C.GpuHours) == 0)
           && (C.ModelTokens in q.unbounded ==> C.Projected(q, C.ModelTokens) == 0)
           && (C.ToolCalls in q.unbounded ==> C.Projected(q, C.ToolCalls) == 0);
  }

  lemma TreesMean(p: C.Patterns, ts: seq<C.InputTree>)
    ensures C.TreesOk(p, ts) <==> (forall t | t in ts :: TreeSound(p, t)) && Different(C.ROOT, ts)
  {
    DifferentMeans(C.ROOT, ts);
    forall t ensures C.TreeOk(p, t) <==> TreeSound(p, t) { DifferentMeans(C.TEXT, t.excludedRoots); }
  }

  lemma PathsMean(p: C.Patterns, ok: string -> bool, paths: seq<string>)
    ensures C.PathsOk(ok, p.secretSafe, paths) <==> SafePaths(ok, p, paths)
  {
    DifferentMeans(C.TEXT, paths);
  }

  lemma ScalarsMean(p: C.Patterns, c: C.CommandSpec)
    ensures C.ScalarsOk(p, c) <==>
              && |c.argv| > 0 && (forall a | a in c.argv :: |a| > 0 && p.argument(a)) && p.absolute(c.argv[0])
              && p.absolute(c.cwd) && p.secretSafe(c.cwd) && c.cwdIdentity.device >= 0 && c.cwdIdentity.inode >= 0
              && c.timeoutSeconds > 0 && p.sha256(c.executableSha256)
  {
  }

  /** The constructor accepts exactly the sound commands. */
  lemma ConstructMeans(p: C.Patterns, c: C.CommandSpec)
    ensures C.Construct(p, c).Ok? <==> CommandSound(p, c)
  {
    ScalarsMean(p, c);
    EnvironmentMeans(p, c);
    TreesMean(p, c.inputTrees);
    PathsMean(p, p.canonicalRoot, c.ownedOutputRoots);
    PathsMean(p, p.relative, c.unownedOutputPatterns);
    ProjectionMeans(c.projection);
  }

  // ------------------------------------------------------- the normal form

  /** One list holds the other's entries in ascending order of their keys. */
  ghost predicate Ordered<T>(key: T -> string, s: seq<T>, raw: seq<T>) {
    && multiset(s) == multiset(raw) && forall i, j | 0 <= i < j < |s| :: TextLeq(key(s[i]), key(s[j]))
  }

  /** At the first place where two texts differ the first one is smaller, or it ends there. */
  ghost predicate TextLeq(a: string, b: string) {
    a <= b || exists k: nat :: k < |a| && k < |b| && a[..k] == b[..k] && a[k] < b[k]
  }

  lemma {:induction false} LeqMeans(a: string, b: string)
    ensures Leq(a, b) <==> TextLeq(a, b)
  {
    if a != [] && b != [] {
      if a[0] == b[0] { LeqMeans(a[1..], b[1..]); }
      TextLeqStep(a, b);
    }
  }

  /** The order goes by the first character, and behind equal ones by the rest. */
  lemma TextLeqStep(a: string, b: string)
    requires a != [] && b != []
    ensures TextLeq(a, b) <==> a[0] < b[0] || (a[0] == b[0] && TextLeq(a[1..], b[1..]))
  {
    assert a == [a[0]] + a[1..] && b == [b[0]] + b[1..];
    if a[0] < b[0] { assert a[..0] == b[..0]; }
    if a[0] == b[0] && TextLeq(a[1..], b[1..]) && !(a[1..] <= b[1..]) {
      var k: nat :| k < |a[1..]| && k < |b[1..]| && a[1..][..k] == b[1..][..k] && a[1..][k] < b[1..][k];
      assert a[..k + 1] == [a[0]] + a[1..][..k] && b[..k + 1] == [b[0]] + b[1..][..k];
      assert a[k + 1] < b[k + 1];
    }
    if TextLeq(a, b) && !(a <= b) {
      var k: nat :| k < |a| && k < |b| && a[..k] == b[..k] && a[k] < b[k];
      if k > 0 {
        assert a[..k][0] == a[0] && b[..k][0] == b[0];
        assert a[1..][..k - 1] == a[..k][1..] && b[1..][..k - 1] == b[..k][1..];
        assert a[1..][k - 1] < b[1..][k - 1];
      }
    }
  }

  lemma {:induction false} SortedAscends<T>(key: T -> string, s: seq<T>, i: nat, j: nat)
    requires Sorted(key, s) && i < j < |s|
    ensures Leq(key(s[i]), key(s[j]))
  {
    if i == 0 {
      assert s[1..][j - 1] == s[j];
    } else {
      SortedAscends(key, s[1..], i - 1, j - 1);
    }
  }

  lemma SortOrders<T>(key: T -> string, raw: seq<T>)
    ensures Ordered(key, SortBy(key, raw), raw)
  {
    var s := SortBy(key, raw);
    SortBySorted(key, raw);
    forall i, j | 0 <= i < j < |s| ensures TextLeq(key(s[i]), key(s[j])) {
      SortedAscends(key, s, i, j);
      LeqMeans(key(s[i]), key(s[j]));
    }
  }

  lemma {:induction false} MapAt<T, U>(f: T -> U, s: seq<T>, i: nat)
    requires i < |s|
    ensures Map(f, s)[i] == f(s[i])
  {
    if i > 0 { MapAt(f, s[1..], i - 1); }
  }

  /** A tree with its exclusions in order. */
  ghost predicate OrderedTree(t: C.InputTree, raw: C.InputTree) {
    && t == raw.(excludedRoots := t.excludedRoots) && Ordered(C.TEXT, t.excludedRoots, raw.excludedRoots)
  }

  /** The constructed command is the given one with every list in order, and nothing added or lost. */
  lemma ConstructedOrdered(p: C.Patterns, raw: C.CommandSpec)
    requires C.Construct(p, raw).Ok?
    ensures var c := C.Construct(p, raw).value;
            && c == raw.(inherit := c.inherit, secretEnvironment := c.secretEnvironment, inputTrees := c.inputTrees,
                         ownedOutputRoots := c.ownedOutputRoots, unownedOutputPatterns := c.unownedOutputPatterns,
                         projection := raw.projection.(unbounded := c.projection.unbounded))
            && Ordered(C.NAME, c.inherit, raw.inherit)
            && Ordered(C.TEXT, c.secretEnvironment, raw.secretEnvironment)
            && Ordered(C.TEXT, c.ownedOutputRoots, raw.ownedOutputRoots)
            && Ordered(C.TEXT, c.unownedOutputPatterns, raw.unownedOutputPatterns)
            && Ordered(C.WORD, c.projection.unbounded, raw.projection.unbounded)
            && exists trees: seq<C.InputTree> ::
                 && Ordered(C.ROOT, c.inputTrees, trees) && |trees| == |raw.inputTrees|
                 && forall i | 0 <= i < |trees| :: OrderedTree(trees[i], raw.inputTrees[i])
  {
    SortOrders(C.NAME, raw.inherit);
    SortOrders(C.TEXT, raw.secretEnvironment);
    SortOrders(C.TEXT, raw.ownedOutputRoots);
    SortOrders(C.TEXT, raw.unownedOutputPatterns);
    SortOrders(C.WORD, raw.projection.unbounded);
    OrderedTrees(raw.inputTrees);
  }

  lemma OrderedTrees(raw: seq<C.InputTree>)
    ensures var trees := Map(C.NORMAL_TREE, raw);
            && Ordered(C.ROOT, SortBy(C.ROOT, trees), trees) && |trees| == |raw|
            && forall i | 0 <= i < |trees| :: OrderedTree(trees[i], raw[i])
  {
    var trees := Map(C.NORMAL_TREE, raw);
    SortOrders(C.ROOT, trees);
    forall i | 0 <= i < |trees| ensures OrderedTree(trees[i], raw[i]) {
      MapAt(C.NORMAL_TREE, raw, i);
      SortOrders(C.TEXT, raw[i].excludedRoots);
    }
  }

  // ------------------------------------------------------ command documents

  predicate TextsAre(v: Value, s: seq<string>) {
    v.Arr? && |v.items| == |s| && forall i | 0 <= i < |s| :: v.items[i] == Str(s[i])
  }

  predicate TellsTree(v: Value, t: C.InputTree) {
    && v.Obj? && v.fields.Keys == {"root", "sha256", "excluded_roots", "git_commit"}
    && v.fields["root"] == Str(t.root) && v.fields["sha256"] == Str(t.sha256)
    && TextsAre(v.fields["excluded_roots"], t.excludedRoots) && Holds(v.fields["git_commit"], t.gitCommit)
  }

  predicate TellsInherited(v: Value, b: C.InheritedBinding) {
    && v.Obj? && v.fields.Keys == {"name", "value_sha256"}
    && v.fields["name"] == Str(b.name) && v.fields["value_sha256"] == Str(b.valueSha256)
  }

  predicate TellsProjection(v: Value, q: C.Projection) {
    && v.Obj?
    && Get(v.fields, "cost_usd") == Float(q.costUsd) && Get(v.fields, "gpu_hours") == Float(q.gpuHours)
    && Get(v.fields, "model_tokens") == Int(q.modelTokens) && Get(v.fields, "tool_calls") == Int(q.toolCalls)
    && Get(v.fields, "enforcement") == Str(if q.enforcement == C.AdapterCommand then "adapter-command"
                                           else "not-applicable")
    && Get(v.fields, "unbounded_applicable").Arr?
    && var items := Get(v.fields, "unbounded_applicable").items;
       && |items| == |q.unbounded|
       && forall i | 0 <= i < |items| :: items[i] == Str(UnitName(q.unbounded[i]))
  }

  function UnitName(r: C.NonWallResource): string {
    if r == C.ToolCalls then "tool_calls" else if r == C.ModelTokens then "model_tokens"
    else if r == C.GpuHours then "gpu_hours" else "cost_usd"
  }

  predicate TellsTrees(v: Value, ts: seq<C.InputTree>) {
    v.Arr? && |v.items| == |ts| && forall i | 0 <= i < |ts| :: TellsTree(v.items[i], ts[i])
  }

  predicate TellsInheritance(v: Value, bs: seq<C.InheritedBinding>) {
    v.Arr? && |v.items| == |bs| && forall i | 0 <= i < |bs| :: TellsInherited(v.items[i], bs[i])
  }

  predicate TellsLists(d: Fields, c: C.CommandSpec) {
    && TextsAre(Get(d, "argv"), c.argv) && TextsAre(Get(d, "secret_environment"), c.secretEnvironment)
    && TextsAre(Get(d, "owned_output_roots"), c.ownedOutputRoots)
    && TextsAre(Get(d, "unowned_output_patterns"), c.unownedOutputPatterns)
    && TellsTrees(Get(d, "input_trees"), c.inputTrees) && TellsInheritance(Get(d, "inherit_environment"), c.inherit)
    && Get(d, "environment").Obj? && Get(d, "environment").fields.Keys == c.environment.Keys
    && (forall name | name in c.environment :: Get(d, "environment").fields[name] == Str(c.environment[name]))
  }

  /** What the canonical document says: no shell, and every field of the command under its own key. */
  lemma CommandDocumentTells(c: C.CommandSpec)
    ensures var d := D.CommandDocument(c);
            && Get(d, "schema_version") == Str("0.1.0") && Get(d, "shell") == Bool(false)
            && Get(d, "executable_sha256") == Str(c.executableSha256)
            && Get(d, "cwd") == Str(c.cwd) && Get(d, "timeout_seconds") == Int(c.timeoutSeconds)
            && At(d, "cwd_identity", "device") == Int(c.cwdIdentity.device)
            && At(d, "cwd_identity", "inode") == Int(c.cwdIdentity.inode)
            && TellsProjection(Get(d, "resource_projection"), c.projection)
    ensures TellsLists(D.CommandDocument(c), c)
  {
    ScalarsTold(c);
    ListsTold(c);
  }

  lemma ScalarsTold(c: C.CommandSpec)
    ensures var d := D.CommandDocument(c);
            && Get(d, "schema_version") == Str("0.1.0") && Get(d, "shell") == Bool(false)
            && Get(d, "executable_sha256") == Str(c.executableSha256)
            && Get(d, "cwd") == Str(c.cwd) && Get(d, "timeout_seconds") == Int(c.timeoutSeconds)
            && At(d, "cwd_identity", "device") == Int(c.cwdIdentity.device)
            && At(d, "cwd_identity", "inode") == Int(c.cwdIdentity.inode)
            && TellsProjection(Get(d, "resource_projection"), c.projection)
  {
    D.ScalarLookups(c);
    ProjectionTold(c.projection);
  }

  lemma ListsTold(c: C.CommandSpec)
    ensures TellsLists(D.CommandDocument(c), c)
  {
    D.ListLookups(c);
    D.CommandKeys(c);
    ListsHeld(D.CommandDocument(c), c);
  }

  lemma ListsHeld(d: Fields, c: C.CommandSpec)
    requires d.Keys == D.COMMAND_KEYS
    requires d["argv"] == Arr(Strings(c.argv)) && d["secret_environment"] == Arr(Strings(c.secretEnvironment))
    requires d["owned_output_roots"] == Arr(Strings(c.ownedOutputRoots))
    requires d["unowned_output_patterns"] == Arr(Strings(c.unownedOutputPatterns))
    requires d["input_trees"] == Arr(Map(D.TreeDocument, c.inputTrees))
    requires d["inherit_environment"] == Arr(Map(D.InheritedDocument, c.inherit))
    requires d["environment"] == Obj(D.EnvironmentDocument(c.environment))
    ensures TellsLists(d, c)
  {
    TreesTold(c.inputTrees);
    InheritedTold(c.inherit);
  }

  lemma TreesTold(ts: seq<C.InputTree>)
    ensures TellsTrees(Arr(Map(D.TreeDocument, ts)), ts)
  {
    forall i | 0 <= i < |ts| ensures TellsTree(Map(D.TreeDocument, ts)[i], ts[i]) { MapAt(D.TreeDocument, ts, i); }
  }

  lemma InheritedTold(bs: seq<C.InheritedBinding>)
    ensures TellsInheritance(Arr(Map(D.InheritedDocument, bs)), bs)
  {
    forall i | 0 <= i < |bs| ensures TellsInherited(Map(D.InheritedDocument, bs)[i], bs[i]) {
      MapAt(D.InheritedDocument, bs, i);
    }
  }

  lemma ProjectionTold(q: C.Projection)
    ensures TellsProjection(D.ProjectionDocument(q), q)
  {
    forall i | 0 <= i < |q.unbounded|
      ensures Map(D.ResourceDocument, q.unbounded)[i] == Str(UnitName(q.unbounded[i]))
    {
      MapAt(D.ResourceDocument, q.unbounded, i);
    }
  }

  // ------------------------------------------------------- reading commands

  /** What a readable projection says; either kind of number stands for an amount. */
  predicate SaysProjection(v: Value, q: C.Projection) {
    && v.Obj? && |v.fields.Keys| == 6
    && HoldsAmount(Get(v.fields, "cost_usd"), q.costUsd) && HoldsAmount(Get(v.fields, "gpu_hours"), q.gpuHours)
    && Get(v.fields, "model_tokens") == Int(q.modelTokens) && Get(v.fields, "tool_calls") == Int(q.toolCalls)
    && Get(v.fields, "enforcement") == Str(if q.enforcement == C.AdapterCommand then "adapter-command"
                                           else "not-applicable")
    && Get(v.fields, "unbounded_applicable").Arr?
    && var items := Get(v.fields, "unbounded_applicable").items;
       && |items| == |q.unbounded|
       && forall i | 0 <= i < |items| :: items[i] == Str(UnitName(q.unbounded[i]))
  }

  predicate SaysScalars(d: Fields, c: C.CommandSpec) {
    && d.Keys == D.COMMAND_KEYS && Get(d, "schema_version") == Str("0.1.0") && Get(d, "shell") == Bool(false)
    && Get(d, "executable_sha256") == Str(c.executableSha256) && Get(d, "cwd") == Str(c.cwd)
    && Get(d, "timeout_seconds") == Int(c.timeoutSeconds)
    && At(d, "cwd_identity", "device") == Int(c.cwdIdentity.device)
    && At(d, "cwd_identity", "inode") == Int(c.cwdIdentity.inode)
  }

  /** What a readable document says of the command it is read into, before its lists are put in order. */
  predicate SaysCommand(d: Fields, c: C.CommandSpec) {
    SaysScalars(d, c) && SaysProjection(Get(d, "resource_projection"), c.projection) && TellsLists(d, c)
  }

  lemma {:induction false} EachReads<T>(read: Value -> Result<T, string>, items: seq<Value>)
    ensures var all := D.Each(read, items);
            all.Ok? ==> |all.value| == |items| && forall i | 0 <= i < |items| :: read(items[i]) == Ok(all.value[i])
  {
    if items != [] { EachReads(read, items[1..]); }
  }

  lemma TextsRead(v: Value)
    ensures var read := D.ListFrom(P.AsString, v); read.Ok? ==> TextsAre(v, read.value)
  {
    if v.Arr? { EachReads(P.AsString, v.items); }
  }

  lemma TreesRead(v: Value)
    ensures var read := D.ListFrom(D.TreeFrom, v); read.Ok? ==> TellsTrees(v, read.value)
  {
    if v.Arr? {
      EachReads(D.TreeFrom, v.items);
      forall i | 0 <= i < |v.items| && D.TreeFrom(v.items[i]).Ok?
        ensures TellsTree(v.items[i], D.TreeFrom(v.items[i]).value)
      {
        TextsRead(v.items[i].fields["excluded_roots"]);
      }
    }
  }

  lemma InheritanceRead(v: Value)
    ensures var read := D.ListFrom(D.InheritedFrom, v); read.Ok? ==> TellsInheritance(v, read.value)
  {
    if v.Arr? {
      EachReads(D.InheritedFrom, v.items);
      forall i | 0 <= i < |v.items| && D.InheritedFrom(v.items[i]).Ok?
        ensures TellsInherited(v.items[i], D.InheritedFrom(v.items[i]).value) {}
    }
  }

  lemma ProjectionRead(v: Value)
    ensures var read := D.ProjectionFrom(v); read.Ok? ==> SaysProjection(v, read.value)
  {
    if D.ProjectionFrom(v).Ok? { UnitsRead(v.fields["unbounded_applicable"]); }
  }

  lemma UnitsRead(v: Value)
    ensures var read := D.ListFrom(D.ResourceItemFrom, v);
            read.Ok? ==> v.Arr? && |v.items| == |read.value|
                         && forall i | 0 <= i < |v.items| :: v.items[i] == Str(UnitName(read.value[i]))
  {
    if v.Arr? {
      EachReads(D.ResourceItemFrom, v.items);
      forall i | 0 <= i < |v.items| && D.ResourceItemFrom(v.items[i]).Ok?
        ensures v.items[i] == Str(UnitName(D.ResourceItemFrom(v.items[i]).value)) {}
    }
  }

  /** The parts of a command, each read from its own entry. */
  predicate ReadsParts(d: Fields, raw: C.CommandSpec)
    requires d.Keys == D.COMMAND_KEYS
  {
    && D.ListFrom(P.AsString, d["argv"]) == Ok(raw.argv)
    && P.AsString(d["executable_sha256"]) == Ok(raw.executableSha256)
    && P.AsString(d["cwd"]) == Ok(raw.cwd) && D.DirectoryFrom(d["cwd_identity"]) == Ok(raw.cwdIdentity)
    && P.AsInteger(d["timeout_seconds"]) == Ok(raw.timeoutSeconds)
    && D.EnvironmentFrom(d["environment"]) == Ok(raw.environment)
    && D.ListFrom(D.InheritedFrom, d["inherit_environment"]) == Ok(raw.inherit)
    && D.ListFrom(P.AsString, d["secret_environment"]) == Ok(raw.secretEnvironment)
    && D.ListFrom(D.TreeFrom, d["input_trees"]) == Ok(raw.inputTrees)
    && D.ListFrom(P.AsString, d["owned_output_roots"]) == Ok(raw.ownedOutputRoots)
    && D.ListFrom(P.AsString, d["unowned_output_patterns"]) == Ok(raw.unownedOutputPatterns)
    && D.ProjectionFrom(d["resource_projection"]) == Ok(raw.projection)
  }

  lemma ReadRaw(p: C.Patterns, d: Fields) returns (raw: C.CommandSpec)
    requires D.CommandFrom(p, d).Ok?
    ensures d.Keys == D.COMMAND_KEYS && ReadsParts(d, raw) && C.Construct(p, raw) == D.CommandFrom(p, d)
    ensures d["schema_version"] == Str("0.1.0") && d["shell"] == Bool(false)
  {
    raw := AssembledFrom(p, D.ListFrom(P.AsString, d["argv"]), P.AsString(d["executable_sha256"]), P.AsString(d["cwd"]),
                         D.DirectoryFrom(d["cwd_identity"]), P.AsInteger(d["timeout_seconds"]),
                         D.EnvironmentFrom(d["environment"]), D.ListFrom(D.InheritedFrom, d["inherit_environment"]),
                         D.ListFrom(P.AsString, d["secret_environment"]), D.ListFrom(D.TreeFrom, d["input_trees"]),
                         D.ListFrom(P.AsString, d["owned_output_roots"]),
                         D.ListFrom(P.AsString, d["unowned_output_patterns"]),
                         D.ProjectionFrom(d["resource_projection"]));
  }

  lemma ListsSay(d: Fields, raw: C.CommandSpec)
    requires d.Keys == D.COMMAND_KEYS && ReadsParts(d, raw)
    ensures TellsLists(d, raw)
  {
    TextsRead(d["argv"]);
    TextsRead(d["secret_environment"]);
    TextsRead(d["owned_output_roots"]);
    TextsRead(d["unowned_output_patterns"]);
    TreesRead(d["input_trees"]);
    InheritanceRead(d["inherit_environment"]);
  }

  lemma ScalarsSay(d: Fields, raw: C.CommandSpec)
    requires d.Keys == D.COMMAND_KEYS && ReadsParts(d, raw)
    requires d["schema_version"] == Str("0.1.0") && d["shell"] == Bool(false)
    ensures SaysScalars(d, raw)
  {
  }

  lemma ProjectionSays(d: Fields, raw: C.CommandSpec)
    requires d.Keys == D.COMMAND_KEYS && ReadsParts(d, raw)
    ensures SaysProjection(Get(d, "resource_projection"), raw.projection)
  {
    ProjectionRead(d["resource_projection"]);
  }

  lemma PartsSay(d: Fields, raw: C.CommandSpec)
    requires SaysScalars(d, raw) && SaysProjection(Get(d, "resource_projection"), raw.projection) && TellsLists(d, raw)
    ensures SaysCommand(d, raw)
  {
  }

  /** A command is read from a document that says it, without a shell, through the constructor. */
  lemma ReadCommandTells(p: C.Patterns, d: Fields) returns (raw: C.CommandSpec)
    requires D.CommandFrom(p, d).Ok?
    ensures SaysCommand(d, raw) && C.Construct(p, raw) == D.CommandFrom(p, d)
  {
    raw := ReadRaw(p, d);
    ScalarsSay(d, raw);
    ProjectionSays(d, raw);
    ListsSay(d, raw);
    PartsSay(d, raw);
  }

  lemma AssembledFrom(
      p: C.Patterns, argv: Result<seq<string>, string>, executable: Result<string, string>,
      cwd: Result<string, string>, directory: Result<C.Directory, string>, timeout: Result<int, string>,
      environment: Result<map<string, string>, string>, inherit: Result<seq<C.InheritedBinding>, string>,
      secret: Result<seq<string>, string>, trees: Result<seq<C.InputTree>, string>,
      roots: Result<seq<string>, string>, patterns: Result<seq<string>, string>,
      projection: Result<C.Projection, string>) returns (raw: C.CommandSpec)
    requires D.Assemble(p, argv, executable, cwd, directory, timeout, environment, inherit, secret, trees, roots,
                        patterns, projection).Ok?
    ensures argv == Ok(raw.argv) && executable == Ok(raw.executableSha256) && cwd == Ok(raw.cwd)
    ensures directory == Ok(raw.cwdIdentity) && timeout == Ok(raw.timeoutSeconds)
    ensures environment == Ok(raw.environment) && inherit == Ok(raw.inherit)
    ensures secret == Ok(raw.secretEnvironment) && trees == Ok(raw.inputTrees) && roots == Ok(raw.ownedOutputRoots)
    ensures patterns == Ok(raw.unownedOutputPatterns) && projection == Ok(raw.projection)
    ensures D.Assemble(p, argv, executable, cwd, directory, timeout, environment, inherit, secret, trees, roots,
                       patterns, projection) == C.Construct(p, raw)
  {
    raw := C.CommandSpec(argv.value, cwd.value, timeout.value, directory.value, environment.value, inherit.value,
                         secret.value, trees.value, roots.value, patterns.value, projection.value, executable.value);
  }
}
