/** Typed run plans and their canonical document. */
module RunPlans {
  import opened Common
  import opened Json

  /** The textual patterns of the contracts, as parameters. */
  datatype Patterns = Patterns(
    experimentId: string -> bool, runId: string -> bool, planId: string -> bool,
    commit: string -> bool, sha256: string -> bool, reference: string -> bool,
    nonempty: string -> bool, secretSafe: string -> bool, relativePath: string -> bool)

  datatype RunProfile = Smoke | Pilot | Confirmatory
  datatype WorkloadKind = Prototype | Benchmark | Training
  datatype ExecutionBackend = LocalSubprocess | Cloud
  datatype TaskSourceKind = OpenEndedQuery | DatasetSlice

  datatype RunIdentity = RunIdentity(experimentId: string, runId: string, condition: string, attempt: int,
                                     seed: Option<int>)

  datatype SourceVersions = SourceVersions(
    giclabCommit: string, upstreamSourceId: string, upstreamCommit: string,
    protocolSha256: string, configSha256: string,
    modelRevision: Option<string>, datasetRevision: Option<string>, environmentSha256: string)

  datatype Authorization = Authorization(authorized: bool, reference: Option<string>, commandSha256: Option<string>)

  datatype ExecutionContract = ExecutionContract(backend: ExecutionBackend, workload: WorkloadKind,
                                                 authorization: Authorization)

  datatype RunBudget = RunBudget(
    maxWallSeconds: int, maxCostUsd: Amount, maxGpuHours: Amount,
    maxModelTokens: Option<int>, maxToolCalls: Option<int>, maxOutputBytes: int)

  datatype ArtifactPolicy = ArtifactPolicy(root: string, retainRaw: bool)

  datatype RunTask = RunTask(
    taskId: string, sourceKind: TaskSourceKind, query: Option<string>,
    datasetId: Option<string>, datasetRevision: Option<string>, startIdx: Option<int>, endIdx: Option<int>)

  datatype Pairing = Pairing(pairId: string, orderIndex: int)

  datatype RunPlan = RunPlan(
    identity: RunIdentity, profile: RunProfile, interpretationAllowed: bool,
    execution: ExecutionContract, sources: SourceVersions, budget: RunBudget, artifacts: ArtifactPolicy,
    task: Option<RunTask>, pairing: Option<Pairing>,
    profilePlanId: Option<string>, profileSha256: Option<string>)

  // ------------------------------------------------- construction checks

  predicate OptionalOk<T>(value: Option<T>, ok: T -> bool) {
    value.Some? ==> ok(value.value)
  }

  predicate IdentityOk(p: Patterns, i: RunIdentity) {
    && p.experimentId(i.experimentId) && p.runId(i.runId)
    && p.nonempty(i.condition) && p.secretSafe(i.condition)
    && i.attempt >= 1
    && (i.seed.Some? ==> i.seed.value >= 0)
  }

  predicate SourcesOk(p: Patterns, s: SourceVersions) {
    && (s.giclabCommit != "unknown" ==> p.commit(s.giclabCommit))
    && p.nonempty(s.upstreamSourceId) && p.secretSafe(s.upstreamSourceId)
    && (s.upstreamCommit != "unknown" ==> p.commit(s.upstreamCommit))
    && (s.protocolSha256 != "unknown" ==> p.sha256(s.protocolSha256))
    && (s.configSha256 != "unknown" ==> p.sha256(s.configSha256))
    && (s.environmentSha256 != "unknown" ==> p.sha256(s.environmentSha256))
    && OptionalOk(s.modelRevision, r => p.nonempty(r) && p.secretSafe(r))
    && OptionalOk(s.datasetRevision, r => p.nonempty(r) && p.secretSafe(r))
  }

  predicate AuthorizationOk(p: Patterns, a: Authorization) {
    if a.authorized then
      && a.reference.Some? && p.reference(a.reference.value) && p.secretSafe(a.reference.value)
      && a.commandSha256.Some? && p.sha256(a.commandSha256.value)
    else a.reference.None? && a.commandSha256.None?
  }

  predicate BudgetOk(b: RunBudget) {
    && b.maxWallSeconds > 0 && b.maxCostUsd >= 0 && b.maxGpuHours >= 0
    && OptionalOk(b.maxModelTokens, n => n >= 0) && OptionalOk(b.maxToolCalls, n => n >= 0)
    && b.maxOutputBytes > 0
  }

  predicate ArtifactsOk(p: Patterns, a: ArtifactPolicy) {
    p.relativePath(a.root) && p.secretSafe(a.root) && a.retainRaw
  }

  predicate TaskOk(p: Patterns, t: RunTask) {
    && p.nonempty(t.taskId) && p.secretSafe(t.taskId)
    && match t.sourceKind
       case OpenEndedQuery =>
         && t.query.Some? && p.nonempty(t.query.value)
         && t.datasetId.None? && t.datasetRevision.None? && t.startIdx.None? && t.endIdx.None?
       case DatasetSlice =>
         && t.query.None?
         && t.datasetId.Some? && p.nonempty(t.datasetId.value)
         && t.datasetRevision.Some? && p.nonempty(t.datasetRevision.value)
         && t.startIdx.Some? && t.endIdx.Some? && 0 <= t.startIdx.value < t.endIdx.value
  }

  predicate PairingOk(p: Patterns, q: Pairing) {
    p.nonempty(q.pairId) && p.secretSafe(q.pairId) && (q.orderIndex == 1 || q.orderIndex == 2)
  }

  /** Everything the typed constructors require of a plan. */
  predicate PlanOk(p: Patterns, plan: RunPlan) {
    && IdentityOk(p, plan.identity) && SourcesOk(p, plan.sources)
    && AuthorizationOk(p, plan.execution.authorization)
    && BudgetOk(plan.budget) && ArtifactsOk(p, plan.artifacts)
    && OptionalOk(plan.task, t => TaskOk(p, t)) && OptionalOk(plan.pairing, q => PairingOk(p, q))
    && OptionalOk(plan.profilePlanId, p.planId) && OptionalOk(plan.profileSha256, p.sha256)
    && plan.profilePlanId.None? == plan.profileSha256.None?
    && !(plan.profile.Smoke? && plan.interpretationAllowed)
    && plan.task.None? == plan.pairing.None?
  }

  // ------------------------------------------------------------- words

  function ProfileWord(v: RunProfile): string {
    match v case Smoke => "smoke" case Pilot => "pilot" case Confirmatory => "confirmatory"
  }

  function ProfileFrom(s: string): Result<RunProfile, string> {
    if s == "smoke" then Ok(Smoke) else if s == "pilot" then Ok(Pilot)
    else if s == "confirmatory" then Ok(Confirmatory) else Err("profile")
  }

  function WorkloadWord(v: WorkloadKind): string {
    match v case Prototype => "prototype" case Benchmark => "benchmark" case Training => "training"
  }

  function WorkloadFrom(s: string): Result<WorkloadKind, string> {
    if s == "prototype" then Ok(Prototype) else if s == "benchmark" then Ok(Benchmark)
    else if s == "training" then Ok(Training) else Err("execution.workload")
  }

  function BackendWord(v: ExecutionBackend): string {
    match v case LocalSubprocess => "local-subprocess" case Cloud => "cloud"
  }

  function BackendFrom(s: string): Result<ExecutionBackend, string> {
    if s == "local-subprocess" then Ok(LocalSubprocess) else if s == "cloud" then Ok(Cloud)
    else Err("execution.backend")
  }

  function SourceKindWord(v: TaskSourceKind): string {
    match v case OpenEndedQuery => "open-ended-query" case DatasetSlice => "dataset-slice"
  }

  function SourceKindFrom(s: string): Result<TaskSourceKind, string> {
    if s == "open-ended-query" then Ok(OpenEndedQuery) else if s == "dataset-slice" then Ok(DatasetSlice)
    else Err("task.source_kind")
  }

  // ---------------------------------------------------------- typed reads

  function AsMapping(v: Value): Result<Fields, string> {
    if v.Obj? then Ok(v.fields) else Err("must be an object")
  }

  function AsString(v: Value): Result<string, string> {
    if v.Str? then Ok(v.s) else Err("must be a string")
  }

  function AsOptionalString(v: Value): Result<Option<string>, string> {
    if v.Null? then Ok(None) else if v.Str? then Ok(Some(v.s)) else Err("must be a string or null")
  }

  function AsInteger(v: Value): Result<int, string> {
    if v.Int? then Ok(v.i) else Err("must be an integer")
  }

  function AsOptionalInteger(v: Value): Result<Option<int>, string> {
    if v.Null? then Ok(None) else if v.Int? then Ok(Some(v.i)) else Err("must be an integer")
  }

  /** A number of either kind, as a float. */
  function AsNumber(v: Value): Result<Amount, string> {
    if v.Float? then Ok(v.a) else if v.Int? then Ok(Whole(v.i)) else Err("must be a number")
  }

  function AsBoolean(v: Value): Result<bool, string> {
    if v.Bool? then Ok(v.b) else Err("must be a boolean")
  }

  function OptionalStr(v: Option<string>): Value {
    if v.Some? then Str(v.value) else Null
  }

  function OptionalInt(v: Option<int>): Value {
    if v.Some? then Int(v.value) else Null
  }

  // ------------------------------------------------------------- documents

  function AuthorizationDocument(a: Authorization): Value {
    Obj(map["authorized" := Bool(a.authorized),
            "authorization_reference" := OptionalStr(a.reference),
            "command_sha256" := OptionalStr(a.commandSha256)])
  }

  function ExecutionDocument(e: ExecutionContract): Value {
    Obj(map["backend" := Str(BackendWord(e.backend)),
            "workload" := Str(WorkloadWord(e.workload)),
            "authorization" := AuthorizationDocument(e.authorization)])
  }

  function SourcesDocument(s: SourceVersions): Value {
    Obj(map["giclab_commit" := Str(s.giclabCommit),
            "upstream_source_id" := Str(s.upstreamSourceId),
            "upstream_commit" := Str(s.upstreamCommit),
            "protocol_sha256" := Str(s.protocolSha256),
            "config_sha256" := Str(s.configSha256),
            "model_revision" := OptionalStr(s.modelRevision),
            "dataset_revision" := OptionalStr(s.datasetRevision),
            "environment_sha256" := Str(s.environmentSha256)])
  }

  function BudgetDocument(b: RunBudget): Value {
    Obj(map["max_wall_seconds" := Int(b.maxWallSeconds),
            "max_cost_usd" := Float(b.maxCostUsd),
            "max_gpu_hours" := Float(b.maxGpuHours),
            "max_model_tokens" := OptionalInt(b.maxModelTokens),
            "max_tool_calls" := OptionalInt(b.maxToolCalls),
            "max_output_bytes" := Int(b.maxOutputBytes)])
  }

  function ArtifactsDocument(a: ArtifactPolicy): Value {
    Obj(map["root" := Str(a.root), "retain_raw" := Bool(a.retainRaw)])
  }

  function TaskDocument(t: RunTask): Value {
    Obj(map["task_id" := Str(t.taskId),
            "source_kind" := Str(SourceKindWord(t.sourceKind)),
            "query" := OptionalStr(t.query),
            "dataset_id" := OptionalStr(t.datasetId),
            "dataset_revision" := OptionalStr(t.datasetRevision),
            "start_idx" := OptionalInt(t.startIdx),
            "end_idx" := OptionalInt(t.endIdx)])
  }

  function PairingDocument(q: Pairing): Value {
    Obj(map["pair_id" := Str(q.pairId), "order_index" := Int(q.orderIndex)])
  }

  function BaseDocument(plan: RunPlan): Fields {
    map["schema_version" := Str("0.1.0"),
        "experiment_id" := Str(plan.identity.experimentId),
        "run_id" := Str(plan.identity.runId),
        "profile" := Str(ProfileWord(plan.profile)),
        "condition" := Str(plan.identity.condition),
        "attempt" := Int(plan.identity.attempt),
        "seed" := OptionalInt(plan.identity.seed),
        "interpretation_allowed" := Bool(plan.interpretationAllowed),
        "execution" := ExecutionDocument(plan.execution),
        "sources" := SourcesDocument(plan.sources),
        "budget" := BudgetDocument(plan.budget),
        "artifacts" := ArtifactsDocument(plan.artifacts)]
  }

  function ParentFields(plan: RunPlan): Fields {
    if plan.profilePlanId.Some? && plan.profileSha256.Some? then
      map["profile_plan_id" := Str(plan.profilePlanId.value), "profile_sha256" := Str(plan.profileSha256.value)]
    else map[]
  }

  function TaskFields(plan: RunPlan): Fields {
    if plan.task.Some? && plan.pairing.Some? then
      map["task" := TaskDocument(plan.task.value), "pairing" := PairingDocument(plan.pairing.value)]
    else map[]
  }

  /** The retained document; parent binding and task appear only in full. */
  function PlanDocument(plan: RunPlan): Fields {
    BaseDocument(plan) + ParentFields(plan) + TaskFields(plan)
  }

  // ------------------------------------------------------------ reading back

  function IdentityFrom(data: Fields): Result<RunIdentity, string> {
    var experimentId :- AsString(Get(data, "experiment_id"));
    var runId :- AsString(Get(data, "run_id"));
    var condition :- AsString(Get(data, "condition"));
    var attempt :- AsInteger(Get(data, "attempt"));
    var seed :- AsOptionalInteger(Get(data, "seed"));
    Ok(RunIdentity(experimentId, runId, condition, attempt, seed))
  }

  function AuthorizationFrom(v: Value): Result<Authorization, string> {
    var data :- AsMapping(v);
    var authorized :- AsBoolean(Get(data, "authorized"));
    var reference :- AsOptionalString(Get(data, "authorization_reference"));
    var commandSha256 :- AsOptionalString(Get(data, "command_sha256"));
    Ok(Authorization(authorized, reference, commandSha256))
  }

  function ExecutionFrom(v: Value): Result<ExecutionContract, string> {
    var data :- AsMapping(v);
    var authorization :- AuthorizationFrom(Get(data, "authorization"));
    var backendWord :- AsString(Get(data, "backend"));
    var backend :- BackendFrom(backendWord);
    var workloadWord :- AsString(Get(data, "workload"));
    var workload :- WorkloadFrom(workloadWord);
    Ok(ExecutionContract(backend, workload, authorization))
  }

  function SourcesFrom(v: Value): Result<SourceVersions, string> {
    var data :- AsMapping(v);
    var giclabCommit :- AsString(Get(data, "giclab_commit"));
    var upstreamSourceId :- AsString(Get(data, "upstream_source_id"));
    var upstreamCommit :- AsString(Get(data, "upstream_commit"));
    var protocolSha256 :- AsString(Get(data, "protocol_sha256"));
    var configSha256 :- AsString(Get(data, "config_sha256"));
    var modelRevision :- AsOptionalString(Get(data, "model_revision"));
    var datasetRevision :- AsOptionalString(Get(data, "dataset_revision"));
    var environmentSha256 :- AsString(Get(data, "environment_sha256"));
    Ok(SourceVersions(giclabCommit, upstreamSourceId, upstreamCommit, protocolSha256, configSha256,
                      modelRevision, datasetRevision, environmentSha256))
  }

  function BudgetFrom(v: Value): Result<RunBudget, string> {
    var data :- AsMapping(v);
    var maxWallSeconds :- AsInteger(Get(data, "max_wall_seconds"));
    var maxCostUsd :- AsNumber(Get(data, "max_cost_usd"));
    var maxGpuHours :- AsNumber(Get(data, "max_gpu_hours"));
    var maxModelTokens :- AsOptionalInteger(Get(data, "max_model_tokens"));
    var maxToolCalls :- AsOptionalInteger(Get(data, "max_tool_calls"));
    var maxOutputBytes :- AsInteger(Get(data, "max_output_bytes"));
    Ok(RunBudget(maxWallSeconds, maxCostUsd, maxGpuHours, maxModelTokens, maxToolCalls, maxOutputBytes))
  }

  function ArtifactsFrom(v: Value): Result<ArtifactPolicy, string> {
    var data :- AsMapping(v);
    var root :- AsString(Get(data, "root"));
    var retainRaw :- AsBoolean(Get(data, "retain_raw"));
    Ok(ArtifactPolicy(root, retainRaw))
  }

  function TaskFrom(v: Value): Result<RunTask, string> {
    var data :- AsMapping(v);
    var taskId :- AsString(Get(data, "task_id"));
    var kindWord :- AsString(Get(data, "source_kind"));
    var sourceKind :- SourceKindFrom(kindWord);
    var query :- AsOptionalString(Get(data, "query"));
    var datasetId :- AsOptionalString(Get(data, "dataset_id"));
    var datasetRevision :- AsOptionalString(Get(data, "dataset_revision"));
    var startIdx :- AsOptionalInteger(Get(data, "start_idx"));
    var endIdx :- AsOptionalInteger(Get(data, "end_idx"));
    Ok(RunTask(taskId, sourceKind, query, datasetId, datasetRevision, startIdx, endIdx))
  }

  function PairingFrom(v: Value): Result<Pairing, string> {
    var data :- AsMapping(v);
    var pairId :- AsString(Get(data, "pair_id"));
    var orderIndex :- AsInteger(Get(data, "order_index"));
    Ok(Pairing(pairId, orderIndex))
  }

  function TaskAndPairingFrom(data: Fields): Result<(Option<RunTask>, Option<Pairing>), string> {
    if Get(data, "task").Null? && Get(data, "pairing").Null? then Ok((None, None))
    else
      var task :- TaskFrom(Get(data, "task"));
      var pairing :- PairingFrom(Get(data, "pairing"));
      Ok((Some(task), Some(pairing)))
  }

  /** The typed plan of its parts; the first unreadable part is the error. */
  function Assemble(p: Patterns,
                    execution: Result<ExecutionContract, string>, sources: Result<SourceVersions, string>,
                    budget: Result<RunBudget, string>, artifacts: Result<ArtifactPolicy, string>,
                    identity: Result<RunIdentity, string>,
                    both: Result<(Option<RunTask>, Option<Pairing>), string>,
                    profileWord: Value, planId: Value, sha: Value, interpretation: Value): Result<RunPlan, string>
  {
    var execution :- execution;
    var sources :- sources;
    var budget :- budget;
    var artifacts :- artifacts;
    var identity :- identity;
    var both :- both;
    var word :- AsString(profileWord);
    var profile :- ProfileFrom(word);
    var profilePlanId :- AsOptionalString(planId);
    var profileSha256 :- AsOptionalString(sha);
    var interpretationAllowed :- AsBoolean(interpretation);
    var plan := RunPlan(identity, profile, interpretationAllowed, execution, sources, budget, artifacts,
                        both.0, both.1, profilePlanId, profileSha256);
    if PlanOk(p, plan) then Ok(plan) else Err("plan")
  }

  /** The typed plan of a document, after the constructors' own checks. */
  function PlanFrom(p: Patterns, data: Fields): Result<RunPlan, string> {
    Assemble(p,
             ExecutionFrom(Get(data, "execution")), SourcesFrom(Get(data, "sources")),
             BudgetFrom(Get(data, "budget")), ArtifactsFrom(Get(data, "artifacts")),
             IdentityFrom(data), TaskAndPairingFrom(data),
             Get(data, "profile"), Get(data, "profile_plan_id"), Get(data, "profile_sha256"),
             Get(data, "interpretation_allowed"))
  }

  // ------------------------------------------------------------- round trip

  lemma AuthorizationRoundTrip(a: Authorization)
    ensures AuthorizationFrom(AuthorizationDocument(a)) == Ok(a)
  {
  }

  lemma ExecutionRoundTrip(e: ExecutionContract)
    ensures ExecutionFrom(ExecutionDocument(e)) == Ok(e)
  {
    AuthorizationRoundTrip(e.authorization);
    assert BackendFrom(BackendWord(e.backend)) == Ok(e.backend);
    assert WorkloadFrom(WorkloadWord(e.workload)) == Ok(e.workload);
  }

  lemma SourcesRoundTrip(s: SourceVersions)
    ensures SourcesFrom(SourcesDocument(s)) == Ok(s)
  {
  }

  lemma BudgetRoundTrip(b: RunBudget)
    ensures BudgetFrom(BudgetDocument(b)) == Ok(b)
  {
  }

  lemma ArtifactsRoundTrip(a: ArtifactPolicy)
    ensures ArtifactsFrom(ArtifactsDocument(a)) == Ok(a)
  {
  }

  lemma TaskRoundTrip(t: RunTask)
    ensures TaskFrom(TaskDocument(t)) == Ok(t)
  {
    assert SourceKindFrom(SourceKindWord(t.sourceKind)) == Ok(t.sourceKind);
  }

  lemma PairingRoundTrip(q: Pairing)
    ensures PairingFrom(PairingDocument(q)) == Ok(q)
  {
  }

  lemma IdentityRoundTrip(plan: RunPlan)
    ensures IdentityFrom(BaseDocument(plan)) == Ok(plan.identity)
  {
  }

  lemma BaseLookups(plan: RunPlan)
    ensures Get(BaseDocument(plan), "execution") == ExecutionDocument(plan.execution)
    ensures Get(BaseDocument(plan), "sources") == SourcesDocument(plan.sources)
    ensures Get(BaseDocument(plan), "budget") == BudgetDocument(plan.budget)
    ensures Get(BaseDocument(plan), "artifacts") == ArtifactsDocument(plan.artifacts)
    ensures Get(BaseDocument(plan), "profile") == Str(ProfileWord(plan.profile))
    ensures Get(BaseDocument(plan), "interpretation_allowed") == Bool(plan.interpretationAllowed)
  {
  }

  const OPTIONAL_KEYS := {"profile_plan_id", "profile_sha256", "task", "pairing"}

  /** The optional parts leave every other key alone. */
  lemma OptionalPartsAreSeparate(plan: RunPlan, key: string)
    requires key !in OPTIONAL_KEYS
    ensures Get(PlanDocument(plan), key) == Get(BaseDocument(plan), key)
  {
    assert ParentFields(plan).Keys <= OPTIONAL_KEYS && TaskFields(plan).Keys <= OPTIONAL_KEYS;
  }

  lemma BaseHasNoOptionalKeys(plan: RunPlan)
    ensures BaseDocument(plan).Keys !! OPTIONAL_KEYS
  {
  }

  lemma OptionalLookupsOver(base: Fields, plan: RunPlan)
    requires base.Keys !! OPTIONAL_KEYS
    requires plan.profilePlanId.None? == plan.profileSha256.None? && plan.task.None? == plan.pairing.None?
    ensures var data := base + ParentFields(plan) + TaskFields(plan);
            && Get(data, "profile_plan_id") == OptionalStr(plan.profilePlanId)
            && Get(data, "profile_sha256") == OptionalStr(plan.profileSha256)
            && Get(data, "task") == (if plan.task.Some? then TaskDocument(plan.task.value) else Null)
            && Get(data, "pairing") == (if plan.pairing.Some? then PairingDocument(plan.pairing.value) else Null)
  {
  }

  lemma OptionalLookups(plan: RunPlan)
    requires plan.profilePlanId.None? == plan.profileSha256.None? && plan.task.None? == plan.pairing.None?
    ensures Get(PlanDocument(plan), "profile_plan_id") == OptionalStr(plan.profilePlanId)
    ensures Get(PlanDocument(plan), "profile_sha256") == OptionalStr(plan.profileSha256)
    ensures Get(PlanDocument(plan), "task") == if plan.task.Some? then TaskDocument(plan.task.value) else Null
    ensures Get(PlanDocument(plan), "pairing")
            == if plan.pairing.Some? then PairingDocument(plan.pairing.value) else Null
  {
    BaseHasNoOptionalKeys(plan);
    OptionalLookupsOver(BaseDocument(plan), plan);
  }

  lemma TaskAndPairingRoundTrip(plan: RunPlan)
    requires plan.profilePlanId.None? == plan.profileSha256.None? && plan.task.None? == plan.pairing.None?
    ensures TaskAndPairingFrom(PlanDocument(plan)) == Ok((plan.task, plan.pairing))
  {
    OptionalLookups(plan);
    if plan.task.Some? {
      TaskRoundTrip(plan.task.value);
      PairingRoundTrip(plan.pairing.value);
    }
  }

  lemma SameIdentityRead(a: Fields, b: Fields)
    requires forall key | key in {"experiment_id", "run_id", "condition", "attempt", "seed"} ::
             Get(a, key) == Get(b, key)
    ensures IdentityFrom(a) == IdentityFrom(b)
  {
  }

  lemma IdentityFromPlanDocument(plan: RunPlan)
    ensures IdentityFrom(PlanDocument(plan)) == Ok(plan.identity)
  {
    forall key | key in {"experiment_id", "run_id", "condition", "attempt", "seed"}
      ensures Get(PlanDocument(plan), key) == Get(BaseDocument(plan), key)
    {
      OptionalPartsAreSeparate(plan, key);
    }
    SameIdentityRead(PlanDocument(plan), BaseDocument(plan));
    IdentityRoundTrip(plan);
  }

  lemma PartLookups(plan: RunPlan)
    ensures Get(PlanDocument(plan), "execution") == ExecutionDocument(plan.execution)
    ensures Get(PlanDocument(plan), "sources") == SourcesDocument(plan.sources)
    ensures Get(PlanDocument(plan), "budget") == BudgetDocument(plan.budget)
    ensures Get(PlanDocument(plan), "artifacts") == ArtifactsDocument(plan.artifacts)
  {
    BaseLookups(plan);
    OptionalPartsAreSeparate(plan, "execution");
    OptionalPartsAreSeparate(plan, "sources");
    OptionalPartsAreSeparate(plan, "budget");
    OptionalPartsAreSeparate(plan, "artifacts");
  }

  lemma FlagLookups(plan: RunPlan)
    ensures Get(PlanDocument(plan), "profile") == Str(ProfileWord(plan.profile))
    ensures Get(PlanDocument(plan), "interpretation_allowed") == Bool(plan.interpretationAllowed)
  {
    BaseLookups(plan);
    OptionalPartsAreSeparate(plan, "profile");
    OptionalPartsAreSeparate(plan, "interpretation_allowed");
  }

  lemma AssembleParts(p: Patterns, plan: RunPlan)
    requires PlanOk(p, plan)
    ensures Assemble(p, Ok(plan.execution), Ok(plan.sources), Ok(plan.budget), Ok(plan.artifacts),
                     Ok(plan.identity), Ok((plan.task, plan.pairing)),
                     Str(ProfileWord(plan.profile)), OptionalStr(plan.profilePlanId), OptionalStr(plan.profileSha256),
                     Bool(plan.interpretationAllowed)) == Ok(plan)
  {
    assert ProfileFrom(ProfileWord(plan.profile)) == Ok(plan.profile);
  }

  lemma PartsRoundTrip(plan: RunPlan)
    ensures ExecutionFrom(ExecutionDocument(plan.execution)) == Ok(plan.execution)
    ensures SourcesFrom(SourcesDocument(plan.sources)) == Ok(plan.sources)
    ensures BudgetFrom(BudgetDocument(plan.budget)) == Ok(plan.budget)
    ensures ArtifactsFrom(ArtifactsDocument(plan.artifacts)) == Ok(plan.artifacts)
  {
    ExecutionRoundTrip(plan.execution);
    SourcesRoundTrip(plan.sources);
    BudgetRoundTrip(plan.budget);
    ArtifactsRoundTrip(plan.artifacts);
  }

  /** The document of a valid plan reads back as exactly that plan. */
  lemma PlanRoundTrip(p: Patterns, plan: RunPlan)
    requires PlanOk(p, plan)
    ensures PlanFrom(p, PlanDocument(plan)) == Ok(plan)
  {
    PartLookups(plan);
    FlagLookups(plan);
    OptionalLookups(plan);
    PartsRoundTrip(plan);
    IdentityFromPlanDocument(plan);
    TaskAndPairingRoundTrip(plan);
    AssembleParts(p, plan);
  }

  lemma AssembledIsValid(p: Patterns,
                         execution: Result<ExecutionContract, string>, sources: Result<SourceVersions, string>,
                         budget: Result<RunBudget, string>, artifacts: Result<ArtifactPolicy, string>,
                         identity: Result<RunIdentity, string>,
                         both: Result<(Option<RunTask>, Option<Pairing>), string>,
                         profileWord: Value, planId: Value, sha: Value, interpretation: Value)
    ensures var r := Assemble(p, execution, sources, budget, artifacts, identity, both, profileWord, planId, sha,
                              interpretation);
            r.Ok? ==> PlanOk(p, r.value)
  {
  }

  /** Whatever document a plan was read from, the canonical one stands for it. */
  lemma ReadPlanIsCanonical(p: Patterns, data: Fields)
    requires PlanFrom(p, data).Ok?
    ensures var plan := PlanFrom(p, data).value; PlanOk(p, plan) && PlanFrom(p, PlanDocument(plan)) == Ok(plan)
  {
    AssembledIsValid(p, ExecutionFrom(Get(data, "execution")), SourcesFrom(Get(data, "sources")),
                     BudgetFrom(Get(data, "budget")), ArtifactsFrom(Get(data, "artifacts")),
                     IdentityFrom(data), TaskAndPairingFrom(data),
                     Get(data, "profile"), Get(data, "profile_plan_id"), Get(data, "profile_sha256"),
                     Get(data, "interpretation_allowed"));
    PlanRoundTrip(p, PlanFrom(p, data).value);
  }
}
