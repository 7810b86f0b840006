/** The shell-free command contract, its normal form and its canonical document. */
module Commands {
  import opened Common
  import opened Json
  import opened Sorting

  /** The textual patterns of the command contract, as parameters. */
  datatype Patterns = Patterns(
    argument: string -> bool, absolute: string -> bool, relative: string -> bool, canonicalRoot: string -> bool,
    environmentName: string -> bool, literal: (string, string) -> bool, inheritedName: string -> bool,
    sha256: string -> bool, commit: string -> bool, secretSafe: string -> bool)

  datatype Enforcement = NotApplicable | AdapterCommand
  datatype NonWallResource = CostUsd | GpuHours | ModelTokens | ToolCalls

  datatype Projection = Projection(
    costUsd: Amount, gpuHours: Amount, modelTokens: int, toolCalls: int,
    enforcement: Enforcement, unbounded: seq<NonWallResource>)
  {
    predicate HasUsage() { costUsd > 0 || gpuHours > 0 || modelTokens > 0 || toolCalls > 0 }
  }

  datatype InheritedBinding = InheritedBinding(name: string, valueSha256: string)
  datatype InputTree = InputTree(root: string, sha256: string, excludedRoots: seq<string>, gitCommit: Option<string>)
  datatype Directory = Directory(device: int, inode: int)

  datatype CommandSpec = CommandSpec(
    argv: seq<string>, cwd: string, timeoutSeconds: int, cwdIdentity: Directory,
    environment: map<string, string>, inherit: seq<InheritedBinding>, secretEnvironment: seq<string>,
    inputTrees: seq<InputTree>, ownedOutputRoots: seq<string>, unownedOutputPatterns: seq<string>,
    projection: Projection, executableSha256: string)

  function ResourceWord(r: NonWallResource): string {
    match r
    case CostUsd => "cost_usd" case GpuHours => "gpu_hours"
    case ModelTokens => "model_tokens" case ToolCalls => "tool_calls"
  }

  function ResourceFrom(s: string): Result<NonWallResource, string> {
    if s == "cost_usd" then Ok(CostUsd) else if s == "gpu_hours" then Ok(GpuHours)
    else if s == "model_tokens" then Ok(ModelTokens) else if s == "tool_calls" then Ok(ToolCalls)
    else Err("resource")
  }

  function EnforcementWord(e: Enforcement): string {
    match e case NotApplicable => "not-applicable" case AdapterCommand => "adapter-command"
  }

  function EnforcementFrom(s: string): Result<Enforcement, string> {
    if s == "not-applicable" then Ok(NotApplicable) else if s == "adapter-command" then Ok(AdapterCommand)
    else Err("enforcement")
  }

  // ---------------------------------------------------------- normalisation

  const TEXT: string -> string := (s: string) => s
  const NAME: InheritedBinding -> string := (b: InheritedBinding) => b.name
  const ROOT: InputTree -> string := (t: InputTree) => t.root
  const WORD: NonWallResource -> string := (r: NonWallResource) => ResourceWord(r)
  const NORMAL_TREE: InputTree -> InputTree := (t: InputTree) => NormalTree(t)

  function Projected(p: Projection, r: NonWallResource): int {
    match r
    case CostUsd => p.costUsd case GpuHours => p.gpuHours
    case ModelTokens => p.modelTokens case ToolCalls => p.toolCalls
  }

  predicate ProjectionOk(p: Projection) {
    && p.costUsd >= 0 && p.gpuHours >= 0 && p.modelTokens >= 0 && p.toolCalls >= 0
    && DistinctKeys(WORD, p.unbounded)
    && (forall r | r in p.unbounded :: Projected(p, r) == 0)
    && (p.HasUsage() ==> p.enforcement.AdapterCommand?)
  }

  predicate TreeOk(p: Patterns, t: InputTree) {
    && p.canonicalRoot(t.root) && p.secretSafe(t.root) && p.sha256(t.sha256)
    && (t.gitCommit.Some? ==> p.commit(t.gitCommit.value))
    && DistinctKeys(TEXT, t.excludedRoots)
    && (forall e | e in t.excludedRoots :: p.relative(e) && p.secretSafe(e))
  }

  predicate InheritedOk(p: Patterns, b: InheritedBinding) {
    p.environmentName(b.name) && p.inheritedName(b.name) && p.sha256(b.valueSha256)
  }

  predicate ScalarsOk(p: Patterns, c: CommandSpec) {
    && c.argv != [] && (forall a | a in c.argv :: a != "" && p.argument(a))
    && p.absolute(c.argv[0]) && p.sha256(c.executableSha256)
    && c.timeoutSeconds > 0
    && p.absolute(c.cwd) && p.secretSafe(c.cwd) && c.cwdIdentity.device >= 0 && c.cwdIdentity.inode >= 0
  }

  /** Every variable comes from one source only, and its name is usable there. */
  predicate EnvironmentOk(p: Patterns, literal: map<string, string>, inherit: seq<InheritedBinding>,
                          secret: seq<string>) {
    && (forall name | name in literal :: p.environmentName(name) && p.literal(name, literal[name]))
    && (forall b | b in inherit :: InheritedOk(p, b) && b.name !in literal && b.name !in secret)
    && (forall name | name in secret :: p.environmentName(name) && p.secretSafe(name) && name !in literal)
    && DistinctKeys(NAME, inherit) && DistinctKeys(TEXT, secret)
  }

  predicate TreesOk(p: Patterns, trees: seq<InputTree>) {
    (forall t | t in trees :: TreeOk(p, t)) && DistinctKeys(ROOT, trees)
  }

  predicate PathsOk(ok: string -> bool, safe: string -> bool, paths: seq<string>) {
    (forall q | q in paths :: ok(q) && safe(q)) && DistinctKeys(TEXT, paths)
  }

  /** Everything the typed constructors require, none of it about order. */
  predicate CommandOk(p: Patterns, c: CommandSpec) {
    && ScalarsOk(p, c)
    && EnvironmentOk(p, c.environment, c.inherit, c.secretEnvironment)
    && TreesOk(p, c.inputTrees)
    && PathsOk(p.canonicalRoot, p.secretSafe, c.ownedOutputRoots)
    && PathsOk(p.relative, p.secretSafe, c.unownedOutputPatterns)
    && ProjectionOk(c.projection)
  }

  function NormalTree(t: InputTree): InputTree {
    t.(excludedRoots := SortBy(TEXT, t.excludedRoots))
  }

  function NormalProjection(p: Projection): Projection {
    p.(unbounded := SortBy(WORD, p.unbounded))
  }

  /** Every order-free list in its sorted order. */
  function Normal(c: CommandSpec): CommandSpec {
    c.(inherit := SortBy(NAME, c.inherit),
       secretEnvironment := SortBy(TEXT, c.secretEnvironment),
       inputTrees := SortBy(ROOT, Map(NORMAL_TREE, c.inputTrees)),
       ownedOutputRoots := SortBy(TEXT, c.ownedOutputRoots),
       unownedOutputPatterns := SortBy(TEXT, c.unownedOutputPatterns),
       projection := NormalProjection(c.projection))
  }

  /** The constructor: check, then normalise. */
  function Construct(p: Patterns, c: CommandSpec): Result<CommandSpec, string> {
    if CommandOk(p, c) then Ok(Normal(c)) else Err("command")
  }

  /** Listed the same up to order, tree by tree and list by list. */
  ghost predicate SamePermuted(a: CommandSpec, b: CommandSpec) {
    && a.argv == b.argv && a.cwd == b.cwd && a.timeoutSeconds == b.timeoutSeconds
    && a.cwdIdentity == b.cwdIdentity && a.environment == b.environment && a.executableSha256 == b.executableSha256
    && multiset(a.inherit) == multiset(b.inherit)
    && multiset(a.secretEnvironment) == multiset(b.secretEnvironment)
    && TreesPermuted(a.inputTrees, b.inputTrees)
    && multiset(a.ownedOutputRoots) == multiset(b.ownedOutputRoots)
    && multiset(a.unownedOutputPatterns) == multiset(b.unownedOutputPatterns)
    && a.projection.(unbounded := []) == b.projection.(unbounded := [])
    && multiset(a.projection.unbounded) == multiset(b.projection.unbounded)
  }

  ghost predicate SameTree(a: InputTree, b: InputTree) {
    a.(excludedRoots := []) == b.(excludedRoots := []) && multiset(a.excludedRoots) == multiset(b.excludedRoots)
  }

  /** `middle` lists the same trees as `a`, and agrees with `b` position by position up to exclusion order. */
  ghost predicate TreesPermuted(a: seq<InputTree>, b: seq<InputTree>) {
    exists middle: seq<InputTree> :: multiset(a) == multiset(middle) && PairwiseSame(middle, b)
  }

  ghost predicate PairwiseSame(a: seq<InputTree>, b: seq<InputTree>) {
    |a| == |b| && forall i | 0 <= i < |a| :: SameTree(a[i], b[i])
  }

  // --------------------------------------------- what normalisation keeps

  lemma SortKeepsDistinct<T>(key: T -> string, s: seq<T>)
    requires DistinctKeys(key, s)
    ensures DistinctKeys(key, SortBy(key, s))
  {
    DistinctPermuted(key, s, SortBy(key, s));
  }

  lemma NormalTreeOk(p: Patterns, t: InputTree)
    requires TreeOk(p, t)
    ensures TreeOk(p, NormalTree(t)) && NormalTree(NormalTree(t)) == NormalTree(t)
  {
    SortKeepsDistinct(TEXT, t.excludedRoots);
    SortMembers(TEXT, t.excludedRoots);
    SortBySorted(TEXT, t.excludedRoots);
    SortOfSorted(TEXT, SortBy(TEXT, t.excludedRoots));
  }

  lemma NormalTreesOk(p: Patterns, ts: seq<InputTree>)
    requires TreesOk(p, ts)
    ensures var r := SortBy(ROOT, Map(NORMAL_TREE, ts));
            TreesOk(p, r) && forall t | t in r :: NormalTree(t) == t
  {
    var mapped := Map(NORMAL_TREE, ts);
    MapKeepsDistinct(ROOT, NORMAL_TREE, ts);
    SortKeepsDistinct(ROOT, mapped);
    SortMembers(ROOT, mapped);
    forall t | t in mapped
      ensures TreeOk(p, t) && NormalTree(t) == t
    {
      MapMembers(NORMAL_TREE, ts, t);
      var t0 :| t0 in ts && NORMAL_TREE(t0) == t;
      NormalTreeOk(p, t0);
    }
  }

  lemma {:induction false} MapIdentity(ts: seq<InputTree>)
    requires forall t | t in ts :: NormalTree(t) == t
    ensures Map(NORMAL_TREE, ts) == ts
  {
    if ts != [] {
      MapIdentity(ts[1..]);
      assert ts == [ts[0]] + ts[1..];
    }
  }

  lemma EnvironmentPermuted(p: Patterns, literal: map<string, string>,
                            inherit: seq<InheritedBinding>, secret: seq<string>,
                            inherit': seq<InheritedBinding>, secret': seq<string>)
    requires EnvironmentOk(p, literal, inherit, secret)
    requires multiset(inherit) == multiset(inherit') && multiset(secret) == multiset(secret')
    ensures EnvironmentOk(p, literal, inherit', secret')
  {
    SameMembers(inherit, inherit');
    SameMembers(secret, secret');
    DistinctPermuted(NAME, inherit, inherit');
    DistinctPermuted(TEXT, secret, secret');
  }

  lemma PathsPermuted(ok: string -> bool, safe: string -> bool, paths: seq<string>, paths': seq<string>)
    requires PathsOk(ok, safe, paths) && multiset(paths) == multiset(paths')
    ensures PathsOk(ok, safe, paths') && SortBy(TEXT, paths) == SortBy(TEXT, paths')
  {
    SameMembers(paths, paths');
    SortPermuted(TEXT, paths, paths');
  }

  lemma ProjectionPermuted(a: Projection, b: Projection)
    requires a.(unbounded := []) == b.(unbounded := []) && ProjectionOk(a)
    requires multiset(a.unbounded) == multiset(b.unbounded)
    ensures ProjectionOk(b) && NormalProjection(a) == NormalProjection(b)
  {
    assert a.costUsd == b.costUsd && a.gpuHours == b.gpuHours && a.modelTokens == b.modelTokens
        && a.toolCalls == b.toolCalls && a.enforcement == b.enforcement;
    UnboundedPermuted(a, b);
    SortPermuted(WORD, a.unbounded, b.unbounded);
  }

  lemma UnboundedPermuted(a: Projection, b: Projection)
    requires (forall r :: Projected(a, r) == Projected(b, r)) && ProjectionOk(a)
    requires multiset(a.unbounded) == multiset(b.unbounded)
    ensures DistinctKeys(WORD, b.unbounded) && forall r | r in b.unbounded :: Projected(b, r) == 0
  {
    SameMembers(a.unbounded, b.unbounded);
    DistinctPermuted(WORD, a.unbounded, b.unbounded);
  }

  /** Normalising a valid command keeps it valid. */
  lemma NormalOk(p: Patterns, c: CommandSpec)
    requires CommandOk(p, c)
    ensures CommandOk(p, Normal(c))
  {
    var n := Normal(c);
    EnvironmentPermuted(p, c.environment, c.inherit, c.secretEnvironment, n.inherit, n.secretEnvironment);
    NormalTreesOk(p, c.inputTrees);
    PathsPermuted(p.canonicalRoot, p.secretSafe, c.ownedOutputRoots, n.ownedOutputRoots);
    PathsPermuted(p.relative, p.secretSafe, c.unownedOutputPatterns, n.unownedOutputPatterns);
    ProjectionPermuted(c.projection, n.projection);
  }

  lemma SortTwice<T>(key: T -> string, s: seq<T>)
    ensures SortBy(key, SortBy(key, s)) == SortBy(key, s)
  {
    SortBySorted(key, s);
    SortOfSorted(key, SortBy(key, s));
  }

  /** A normal form is its own normal form. */
  lemma NormalTwice(p: Patterns, c: CommandSpec)
    requires CommandOk(p, c)
    ensures Normal(Normal(c)) == Normal(c)
  {
    SortTwice(NAME, c.inherit);
    SortTwice(TEXT, c.secretEnvironment);
    SortTwice(TEXT, c.ownedOutputRoots);
    SortTwice(TEXT, c.unownedOutputPatterns);
    SortTwice(WORD, c.projection.unbounded);
    NormalTreesOk(p, c.inputTrees);
    MapIdentity(SortBy(ROOT, Map(NORMAL_TREE, c.inputTrees)));
    SortTwice(ROOT, Map(NORMAL_TREE, c.inputTrees));
  }

  // ------------------------------------------------ order independence

  lemma SameTreeNormal(p: Patterns, a: InputTree, b: InputTree)
    requires SameTree(a, b) && TreeOk(p, a)
    ensures TreeOk(p, b) && NormalTree(a) == NormalTree(b)
  {
    SortPermuted(TEXT, a.excludedRoots, b.excludedRoots);
    SameMembers(a.excludedRoots, b.excludedRoots);
  }

  lemma PairwiseNormal(p: Patterns, a: seq<InputTree>, b: seq<InputTree>)
    requires PairwiseSame(a, b) && forall t | t in a :: TreeOk(p, t)
    ensures Map(NORMAL_TREE, a) == Map(NORMAL_TREE, b) && Keys(ROOT, a) == Keys(ROOT, b)
    ensures forall t | t in b :: TreeOk(p, t)
    ensures DistinctKeys(ROOT, a) ==> DistinctKeys(ROOT, b)
  {
    forall i | 0 <= i < |a|
      ensures TreeOk(p, b[i]) && NORMAL_TREE(a[i]) == NORMAL_TREE(b[i]) && ROOT(a[i]) == ROOT(b[i])
    {
      SameTreeNormal(p, a[i], b[i]);
    }
    PairwiseMap(NORMAL_TREE, a, b);
    PairwiseMap(ROOT, a, b);
    SameKeysDistinct(ROOT, a, b);
  }

  lemma TreesPermutedNormal(p: Patterns, a: seq<InputTree>, b: seq<InputTree>)
    requires TreesPermuted(a, b) && TreesOk(p, a)
    ensures SortBy(ROOT, Map(NORMAL_TREE, a)) == SortBy(ROOT, Map(NORMAL_TREE, b))
    ensures TreesOk(p, b)
  {
    var middle: seq<InputTree> :| multiset(a) == multiset(middle) && PairwiseSame(middle, b);
    SameMembers(a, middle);
    DistinctPermuted(ROOT, a, middle);
    MapPermuted(NORMAL_TREE, a, middle);
    MapKeepsDistinct(ROOT, NORMAL_TREE, a);
    SortPermuted(ROOT, Map(NORMAL_TREE, a), Map(NORMAL_TREE, middle));
    PairwiseNormal(p, middle, b);
  }

  lemma PermutedOk(p: Patterns, a: CommandSpec, b: CommandSpec)
    requires SamePermuted(a, b) && CommandOk(p, a)
    ensures CommandOk(p, b)
  {
    EnvironmentPermuted(p, a.environment, a.inherit, a.secretEnvironment, b.inherit, b.secretEnvironment);
    TreesPermutedNormal(p, a.inputTrees, b.inputTrees);
    PathsPermuted(p.canonicalRoot, p.secretSafe, a.ownedOutputRoots, b.ownedOutputRoots);
    PathsPermuted(p.relative, p.secretSafe, a.unownedOutputPatterns, b.unownedOutputPatterns);
    ProjectionPermuted(a.projection, b.projection);
    assert ScalarsOk(p, b);
  }

  lemma PermutedListsNormal(p: Patterns, a: CommandSpec, b: CommandSpec)
    requires SamePermuted(a, b) && CommandOk(p, a)
    ensures SortBy(NAME, a.inherit) == SortBy(NAME, b.inherit)
    ensures SortBy(TEXT, a.secretEnvironment) == SortBy(TEXT, b.secretEnvironment)
    ensures SortBy(TEXT, a.ownedOutputRoots) == SortBy(TEXT, b.ownedOutputRoots)
    ensures SortBy(TEXT, a.unownedOutputPatterns) == SortBy(TEXT, b.unownedOutputPatterns)
  {
    SortPermuted(NAME, a.inherit, b.inherit);
    SortPermuted(TEXT, a.secretEnvironment, b.secretEnvironment);
    SortPermuted(TEXT, a.ownedOutputRoots, b.ownedOutputRoots);
    SortPermuted(TEXT, a.unownedOutputPatterns, b.unownedOutputPatterns);
  }

  /** Listing anything in another order constructs the very same command. */
  lemma ConstructionIgnoresOrder(p: Patterns, a: CommandSpec, b: CommandSpec)
    requires SamePermuted(a, b) && CommandOk(p, a)
    ensures CommandOk(p, b) && Construct(p, a) == Construct(p, b)
  {
    PermutedOk(p, a, b);
    PermutedListsNormal(p, a, b);
    TreesPermutedNormal(p, a.inputTrees, b.inputTrees);
    ProjectionPermuted(a.projection, b.projection);
    assert Normal(a) == Normal(b);
  }
}
