/** The canonical command document, its reader, and the round trip between them. */
module CommandDocuments {
  import opened Common
  import opened Json
  import opened Sorting
  import opened Commands
  import P = RunPlans

  // ---------------------------------------------------------------- writing

  function EnvironmentDocument(e: map<string, string>): Fields {
    map name | name in e :: Str(e[name])
  }

  function InheritedDocument(b: InheritedBinding): Value {
    Obj(map["name" := Str(b.name), "value_sha256" := Str(b.valueSha256)])
  }

  function CommitDocument(commit: Option<string>): Value {
    if commit.Some? then Str(commit.value) else Null
  }

  function TreeDocument(t: InputTree): Value {
    Obj(map["root" := Str(t.root), "sha256" := Str(t.sha256),
            "excluded_roots" := Arr(Strings(t.excludedRoots)), "git_commit" := CommitDocument(t.gitCommit)])
  }

  function ResourceDocument(r: NonWallResource): Value { Str(ResourceWord(r)) }

  function ProjectionDocument(p: Projection): Value {
    Obj(map["cost_usd" := Float(p.costUsd), "gpu_hours" := Float(p.gpuHours),
            "model_tokens" := Int(p.modelTokens), "tool_calls" := Int(p.toolCalls),
            "enforcement" := Str(EnforcementWord(p.enforcement)),
            "unbounded_applicable" := Arr(Map(ResourceDocument, p.unbounded))])
  }

  function DirectoryDocument(d: Directory): Value {
    Obj(map["device" := Int(d.device), "inode" := Int(d.inode)])
  }

  function CommandDocument(c: CommandSpec): Fields {
    map["schema_version" := Str("0.1.0"),
        "argv" := Arr(Strings(c.argv)),
        "executable_sha256" := Str(c.executableSha256),
        "cwd" := Str(c.cwd),
        "cwd_identity" := DirectoryDocument(c.cwdIdentity),
        "timeout_seconds" := Int(c.timeoutSeconds),
        "environment" := Obj(EnvironmentDocument(c.environment)),
        "inherit_environment" := Arr(Map(InheritedDocument, c.inherit)),
        "secret_environment" := Arr(Strings(c.secretEnvironment)),
        "input_trees" := Arr(Map(TreeDocument, c.inputTrees)),
        "owned_output_roots" := Arr(Strings(c.ownedOutputRoots)),
        "unowned_output_patterns" := Arr(Strings(c.unownedOutputPatterns)),
        "resource_projection" := ProjectionDocument(c.projection),
        "shell" := Bool(false)]
  }

  const COMMAND_KEYS := {
    "schema_version", "argv", "executable_sha256", "cwd", "cwd_identity", "timeout_seconds", "environment",
    "inherit_environment", "secret_environment", "input_trees", "owned_output_roots", "unowned_output_patterns",
    "resource_projection", "shell"}

  // ---------------------------------------------------------------- reading

  /** Reads every item, or fails with the first item that does not read. */
  function Each<T>(read: Value -> Result<T, string>, items: seq<Value>): Result<seq<T>, string> {
    if items == [] then Ok([])
    else
      var first :- read(items[0]);
      var rest :- Each(read, items[1..]);
      Ok([first] + rest)
  }

  function ListFrom<T>(read: Value -> Result<T, string>, v: Value): Result<seq<T>, string> {
    if v.Arr? then Each(read, v.items) else Err("array")
  }

  function EnvironmentFrom(v: Value): Result<map<string, string>, string> {
    if v.Obj? && forall name | name in v.fields :: v.fields[name].Str?
    then Ok(map name | name in v.fields :: v.fields[name].s)
    else Err("environment")
  }

  function InheritedFrom(v: Value): Result<InheritedBinding, string> {
    if v.Obj? && v.fields.Keys == {"name", "value_sha256"} then
      var name :- P.AsString(v.fields["name"]);
      var digest :- P.AsString(v.fields["value_sha256"]);
      Ok(InheritedBinding(name, digest))
    else Err("inherit_environment item")
  }

  function CommitFrom(v: Value): Result<Option<string>, string> {
    if v.Null? then Ok(None) else if v.Str? then Ok(Some(v.s)) else Err("git_commit")
  }

  function TreeFrom(v: Value): Result<InputTree, string> {
    if v.Obj? && v.fields.Keys == {"root", "sha256", "excluded_roots", "git_commit"} then
      var root :- P.AsString(v.fields["root"]);
      var sha256 :- P.AsString(v.fields["sha256"]);
      var excluded :- ListFrom(P.AsString, v.fields["excluded_roots"]);
      var commit :- CommitFrom(v.fields["git_commit"]);
      Ok(InputTree(root, sha256, excluded, commit))
    else Err("input_trees item")
  }

  function ResourceItemFrom(v: Value): Result<NonWallResource, string> {
    var word :- P.AsString(v);
    ResourceFrom(word)
  }

  function ProjectionFrom(v: Value): Result<Projection, string> {
    if v.Obj? && v.fields.Keys
      == {"cost_usd", "gpu_hours", "model_tokens", "tool_calls", "enforcement", "unbounded_applicable"} then
      var cost :- P.AsNumber(v.fields["cost_usd"]);
      var gpu :- P.AsNumber(v.fields["gpu_hours"]);
      var tokens :- P.AsInteger(v.fields["model_tokens"]);
      var tools :- P.AsInteger(v.fields["tool_calls"]);
      var word :- P.AsString(v.fields["enforcement"]);
      var enforcement :- EnforcementFrom(word);
      var unbounded :- ListFrom(ResourceItemFrom, v.fields["unbounded_applicable"]);
      Ok(Projection(cost, gpu, tokens, tools, enforcement, unbounded))
    else Err("resource_projection")
  }

  function DirectoryFrom(v: Value): Result<Directory, string> {
    if v.Obj? && v.fields.Keys == {"device", "inode"} then
      var device :- P.AsInteger(v.fields["device"]);
      var inode :- P.AsInteger(v.fields["inode"]);
      Ok(Directory(device, inode))
    else Err("cwd_identity")
  }

  /** The typed command of its parts, through the constructor. */
  function Assemble(
      p: Patterns, argv: Result<seq<string>, string>, executable: Result<string, string>, cwd: Result<string, string>,
      directory: Result<Directory, string>, timeout: Result<int, string>,
      environment: Result<map<string, string>, string>,
      inherit: Result<seq<InheritedBinding>, string>, secret: Result<seq<string>, string>,
      trees: Result<seq<InputTree>, string>, roots: Result<seq<string>, string>, patterns: Result<seq<string>, string>,
      projection: Result<Projection, string>): Result<CommandSpec, string>
  {
    var argv :- argv;
    var environment :- environment;
    var inherit :- inherit;
    var secret :- secret;
    var trees :- trees;
    var patterns :- patterns;
    var roots :- roots;
    var projection :- projection;
    var directory :- directory;
    var cwd :- cwd;
    var timeout :- timeout;
    var executable :- executable;
    Construct(p, CommandSpec(argv, cwd, timeout, directory, environment, inherit, secret, trees, roots, patterns,
                             projection, executable))
  }

  function CommandFrom(p: Patterns, d: Fields): Result<CommandSpec, string> {
    if d.Keys != COMMAND_KEYS || d["schema_version"] != Str("0.1.0") || d["shell"] != Bool(false) then Err("document")
    else
      Assemble(p, ListFrom(P.AsString, d["argv"]), P.AsString(d["executable_sha256"]), P.AsString(d["cwd"]),
               DirectoryFrom(d["cwd_identity"]), P.AsInteger(d["timeout_seconds"]), EnvironmentFrom(d["environment"]),
               ListFrom(InheritedFrom, d["inherit_environment"]), ListFrom(P.AsString, d["secret_environment"]),
               ListFrom(TreeFrom, d["input_trees"]), ListFrom(P.AsString, d["owned_output_roots"]),
               ListFrom(P.AsString, d["unowned_output_patterns"]), ProjectionFrom(d["resource_projection"]))
  }

  /** The loop that reads the input trees one by one, stopping at the first malformed item. */
  method ReadTrees(items: seq<Value>) returns (r: Result<seq<InputTree>, string>)
    ensures r == Each(TreeFrom, items)
  {
    var bindings: seq<InputTree> := [];
    ghost var all := Each(TreeFrom, items);
    assert items[0..] == items && (all.Ok? ==> [] + all.value == all.value);
    for k := 0 to |items|
      invariant Each(TreeFrom, items)
             == Prepend(bindings, Each(TreeFrom, items[k..]))
    {
      var read := TreeFrom(items[k]);
      assert items[k..][0] == items[k] && items[k..][1..] == items[k + 1..];
      if read.Err? {
        return Err(read.error);
      }
      PrependStep(bindings, read.value, Each(TreeFrom, items[k + 1..]));
      bindings := bindings + [read.value];
    }
    assert bindings + [] == bindings;
    r := Ok(bindings);
  }

  function Prepend<T>(front: seq<T>, rest: Result<seq<T>, string>): Result<seq<T>, string> {
    if rest.Ok? then Ok(front + rest.value) else rest
  }

  lemma PrependStep<T>(front: seq<T>, x: T, rest: Result<seq<T>, string>)
    ensures Prepend(front, Prepend([x], rest)) == Prepend(front + [x], rest)
  {
    if rest.Ok? { Assoc(front, [x], rest.value); }
  }

  // ------------------------------------------------------------- round trip

  lemma {:induction false} EachRoundTrip<T>(write: T -> Value, read: Value -> Result<T, string>, items: seq<T>)
    requires forall x | x in items :: read(write(x)) == Ok(x)
    ensures Each(read, Map(write, items)) == Ok(items)
  {
    if items != [] {
      EachRoundTrip(write, read, items[1..]);
      assert Map(write, items)[1..] == Map(write, items[1..]);
      assert items == [items[0]] + items[1..];
    }
  }

  lemma {:induction false} StringsRoundTrip(ss: seq<string>)
    ensures Each(P.AsString, Strings(ss)) == Ok(ss)
  {
    if ss != [] {
      StringsRoundTrip(ss[1..]);
      assert Strings(ss)[1..] == Strings(ss[1..]);
      assert ss == [ss[0]] + ss[1..];
    }
  }

  lemma EnvironmentRoundTrip(e: map<string, string>)
    ensures EnvironmentFrom(Obj(EnvironmentDocument(e))) == Ok(e)
  {
    var d := EnvironmentDocument(e);
    assert d.Keys == e.Keys;
    assert (map name | name in d :: d[name].s) == e;
  }

  lemma TreeRoundTrip(t: InputTree)
    ensures TreeFrom(TreeDocument(t)) == Ok(t)
  {
    StringsRoundTrip(t.excludedRoots);
  }

  lemma InheritedRoundTrip(b: InheritedBinding)
    ensures InheritedFrom(InheritedDocument(b)) == Ok(b)
  {
  }

  lemma ResourcesRoundTrip(rs: seq<NonWallResource>)
    ensures Each(ResourceItemFrom, Map(ResourceDocument, rs)) == Ok(rs)
  {
    forall r ensures ResourceItemFrom(ResourceDocument(r)) == Ok(r) {
      assert ResourceFrom(ResourceWord(r)) == Ok(r);
    }
    EachRoundTrip(ResourceDocument, ResourceItemFrom, rs);
  }

  lemma ProjectionRoundTrip(p: Projection)
    ensures ProjectionFrom(ProjectionDocument(p)) == Ok(p)
  {
    ResourcesRoundTrip(p.unbounded);
    EnforcementRoundTrip(p.enforcement);
  }

  lemma EnforcementRoundTrip(e: Enforcement)
    ensures EnforcementFrom(EnforcementWord(e)) == Ok(e)
  {
  }

  lemma DirectoryRoundTrip(d: Directory)
    ensures DirectoryFrom(DirectoryDocument(d)) == Ok(d)
  {
  }

  lemma InheritedListRoundTrip(bs: seq<InheritedBinding>)
    ensures Each(InheritedFrom, Map(InheritedDocument, bs)) == Ok(bs)
  {
    forall b ensures InheritedFrom(InheritedDocument(b)) == Ok(b) { InheritedRoundTrip(b); }
    EachRoundTrip(InheritedDocument, InheritedFrom, bs);
  }

  lemma TreeListRoundTrip(ts: seq<InputTree>)
    ensures Each(TreeFrom, Map(TreeDocument, ts)) == Ok(ts)
  {
    forall t ensures TreeFrom(TreeDocument(t)) == Ok(t) { TreeRoundTrip(t); }
    EachRoundTrip(TreeDocument, TreeFrom, ts);
  }

  lemma CommandKeys(c: CommandSpec)
    ensures CommandDocument(c).Keys == COMMAND_KEYS
  {
  }

  lemma AssembleParts(p: Patterns, c: CommandSpec)
    requires Construct(p, c) == Ok(c)
    ensures Assemble(p, Ok(c.argv), Ok(c.executableSha256), Ok(c.cwd), Ok(c.cwdIdentity), Ok(c.timeoutSeconds),
                     Ok(c.environment), Ok(c.inherit), Ok(c.secretEnvironment), Ok(c.inputTrees),
                     Ok(c.ownedOutputRoots), Ok(c.unownedOutputPatterns), Ok(c.projection)) == Ok(c)
  {
  }

  lemma ScalarLookups(c: CommandSpec)
    ensures var d := CommandDocument(c);
            && d["schema_version"] == Str("0.1.0") && d["shell"] == Bool(false)
            && d["executable_sha256"] == Str(c.executableSha256) && d["cwd"] == Str(c.cwd)
            && d["cwd_identity"] == DirectoryDocument(c.cwdIdentity)
            && d["timeout_seconds"] == Int(c.timeoutSeconds)
            && d["resource_projection"] == ProjectionDocument(c.projection)
  {
  }

  lemma ListLookups(c: CommandSpec)
    ensures var d := CommandDocument(c);
            && d["argv"] == Arr(Strings(c.argv))
            && d["environment"] == Obj(EnvironmentDocument(c.environment))
            && d["inherit_environment"] == Arr(Map(InheritedDocument, c.inherit))
            && d["secret_environment"] == Arr(Strings(c.secretEnvironment))
            && d["input_trees"] == Arr(Map(TreeDocument, c.inputTrees))
            && d["owned_output_roots"] == Arr(Strings(c.ownedOutputRoots))
            && d["unowned_output_patterns"] == Arr(Strings(c.unownedOutputPatterns))
  {
  }

  /** Every constructed command is rebuilt exactly from its document. */
  lemma CommandRoundTrip(p: Patterns, raw: CommandSpec, c: CommandSpec)
    requires Construct(p, raw) == Ok(c)
    ensures CommandFrom(p, CommandDocument(c)) == Ok(c)
  {
    NormalOk(p, raw);
    NormalTwice(p, raw);
    CommandKeys(c);
    ScalarLookups(c);
    ListLookups(c);
    ReadCommand(p, c, CommandDocument(c));
  }

  lemma ReadCommand(p: Patterns, c: CommandSpec, d: Fields)
    requires Construct(p, c) == Ok(c) && d.Keys == COMMAND_KEYS
    requires d["schema_version"] == Str("0.1.0") && d["shell"] == Bool(false)
    requires d["executable_sha256"] == Str(c.executableSha256) && d["cwd"] == Str(c.cwd)
    requires d["cwd_identity"] == DirectoryDocument(c.cwdIdentity) && d["timeout_seconds"] == Int(c.timeoutSeconds)
    requires d["resource_projection"] == ProjectionDocument(c.projection)
    requires d["argv"] == Arr(Strings(c.argv)) && d["environment"] == Obj(EnvironmentDocument(c.environment))
    requires d["inherit_environment"] == Arr(Map(InheritedDocument, c.inherit))
    requires d["secret_environment"] == Arr(Strings(c.secretEnvironment))
    requires d["input_trees"] == Arr(Map(TreeDocument, c.inputTrees))
    requires d["owned_output_roots"] == Arr(Strings(c.ownedOutputRoots))
    requires d["unowned_output_patterns"] == Arr(Strings(c.unownedOutputPatterns))
    ensures CommandFrom(p, d) == Ok(c)
  {
    StringsRoundTrip(c.argv);
    StringsRoundTrip(c.secretEnvironment);
    StringsRoundTrip(c.ownedOutputRoots);
    StringsRoundTrip(c.unownedOutputPatterns);
    EnvironmentRoundTrip(c.environment);
    DirectoryRoundTrip(c.cwdIdentity);
    ProjectionRoundTrip(c.projection);
    InheritedListRoundTrip(c.inherit);
    TreeListRoundTrip(c.inputTrees);
    AssembleParts(p, c);
  }

  /** One canonical form: commands listed in any permutation have the same document. */
  lemma DocumentIgnoresOrder(p: Patterns, a: CommandSpec, b: CommandSpec)
    requires SamePermuted(a, b) && CommandOk(p, a)
    ensures Construct(p, a).Ok? && Construct(p, b).Ok?
    ensures CommandDocument(Construct(p, a).value) == CommandDocument(Construct(p, b).value)
  {
    ConstructionIgnoresOrder(p, a, b);
  }

  /** Distinct commands have distinct documents. */
  lemma DocumentDeterminesCommand(p: Patterns, raw: CommandSpec, a: CommandSpec, raw': CommandSpec, b: CommandSpec)
    requires Construct(p, raw) == Ok(a) && Construct(p, raw') == Ok(b)
    requires CommandDocument(a) == CommandDocument(b)
    ensures a == b
  {
    CommandRoundTrip(p, raw, a);
    CommandRoundTrip(p, raw', b);
  }

  lemma AssembledIsConstructed(
      p: Patterns, argv: Result<seq<string>, string>, executable: Result<string, string>, cwd: Result<string, string>,
      directory: Result<Directory, string>, timeout: Result<int, string>,
      environment: Result<map<string, string>, string>,
      inherit: Result<seq<InheritedBinding>, string>, secret: Result<seq<string>, string>,
      trees: Result<seq<InputTree>, string>, roots: Result<seq<string>, string>, patterns: Result<seq<string>, string>,
      projection: Result<Projection, string>) returns (raw: CommandSpec)
    requires Assemble(p, argv, executable, cwd, directory, timeout, environment, inherit, secret, trees, roots,
                      patterns, projection).Ok?
    ensures Assemble(p, argv, executable, cwd, directory, timeout, environment, inherit, secret, trees, roots, patterns,
                     projection) == Construct(p, raw)
  {
    raw := CommandSpec(argv.value, cwd.value, timeout.value, directory.value, environment.value, inherit.value,
                       secret.value,
                       trees.value, roots.value, patterns.value, projection.value, executable.value);
  }

  /** Whatever document a command was read from, in whatever order it lists things, the canonical one stands for it. */
  lemma ReadCommandIsCanonical(p: Patterns, d: Fields)
    requires CommandFrom(p, d).Ok?
    ensures CommandFrom(p, CommandDocument(CommandFrom(p, d).value)) == CommandFrom(p, d)
  {
    var raw := AssembledIsConstructed(
      p, ListFrom(P.AsString, d["argv"]), P.AsString(d["executable_sha256"]), P.AsString(d["cwd"]),
      DirectoryFrom(d["cwd_identity"]), P.AsInteger(d["timeout_seconds"]), EnvironmentFrom(d["environment"]),
      ListFrom(InheritedFrom, d["inherit_environment"]), ListFrom(P.AsString, d["secret_environment"]),
      ListFrom(TreeFrom, d["input_trees"]), ListFrom(P.AsString, d["owned_output_roots"]),
      ListFrom(P.AsString, d["unowned_output_patterns"]), ProjectionFrom(d["resource_projection"]));
    CommandRoundTrip(p, raw, CommandFrom(p, d).value);
  }

  /** `command_sha256`. */
  function CommandSha256(text: Text, digest: Bytes -> string, c: CommandSpec): string {
    digest(text.compact(Obj(CommandDocument(c))))
  }
}
