/** The validator of a sealed attempt directory, and what its acceptance means. */
module DirectoryJudge {
  import opened Common
  import opened Json
  import E = Events
  import L = Lifecycle
  import H = BudgetHistory
  import M = Manifest
  import P = RunPlans
  import C = Commands
  import CD = CommandDocuments
  import S = Session

  type Files = map<string, Bytes>

  /** `PurePosixPath(path).name`. */
  function BaseName(path: string): string
    decreases |path|
  {
    if '/' !in path then path else BaseName(path[1..])
  }

  // ------------------------------------------------- declarative acceptance

  /** One record describes the file that is there. */
  predicate RecordMatches(env: S.Env, files: Files, r: M.ArtifactRecord) {
    && r.path in files
    && |files[r.path]| == r.sizeBytes
    && env.digest(files[r.path]) == r.sha256
  }

  /** Exactly one record per file except the manifest itself, each matching its file. */
  predicate ManifestAccepted(env: S.Env, files: Files) {
    && S.MANIFEST in files
    && var records := M.ReadRecords(env.text, env.records, files[S.MANIFEST]);
       && records.Ok? && records.value != []
       && M.DistinctPaths(records.value)
       && (forall r | r in records.value :: RecordMatches(env, files, r))
       && M.Paths(records.value) == files.Keys - {S.MANIFEST}
  }

  predicate OnlyEventPath(files: Files, path: string) {
    && path in files && path != S.MANIFEST && BaseName(path) == S.EVENTS
    && forall other | other in files && other != S.MANIFEST && BaseName(other) == S.EVENTS :: other == path
  }

  /** Every line decodes to a document the event schema accepts. */
  predicate DocumentsAccepted(env: S.Env, content: Bytes) {
    var ds := E.DecodeLines(env.text, SplitLines(content));
    ds.Ok? && forall d | d in ds.value :: env.eventSchema(d)
  }

  predicate StreamAccepted(env: S.Env, content: Bytes) {
    var es := E.ReadEvents(env.text, env.rules, content);
    DocumentsAccepted(env, content) && es.Ok? && es.value != [] && L.Completed(es.value)
  }

  /** Reads the plan behind its schema. */
  function ReadPlan(env: S.Env, content: Bytes): Result<P.RunPlan, string> {
    match env.text.parse(content)
    case None => Err("json")
    case Some(v) =>
      if !v.Obj? then Err("object")
      else if !env.planSchema(v.fields) then Err("schema")
      else P.PlanFrom(env.plans, v.fields)
  }

  function ReadCommand(env: S.Env, content: Bytes): Result<C.CommandSpec, string> {
    match env.text.parse(content)
    case None => Err("json")
    case Some(v) => if v.Obj? then CD.CommandFrom(env.commands, v.fields) else Err("object")
  }

  predicate CommandBound(env: S.Env, plan: P.RunPlan, command: C.CommandSpec) {
    plan.execution.authorization.commandSha256 == Some(CD.CommandSha256(env.text, env.digest, command))
  }

  predicate IdentityMatches(plan: P.RunPlan, first: E.HarnessEvent) {
    first.runId == plan.identity.runId && first.attempt == plan.identity.attempt
  }

  /** Everything the validator demands of a directory. */
  predicate DirectoryAccepted(env: S.Env, files: Files) {
    && ManifestAccepted(env, files)
    && (exists path | path in files ::
        OnlyEventPath(files, path) && StreamAccepted(env, files[path]) && HistoryAndIdentityAccepted(env, files, path))
    && ContractsAccepted(env, files)
  }

  predicate ContractsAccepted(env: S.Env, files: Files) {
    && S.RUN_PLAN in files && S.COMMAND in files
    && var plan, command := ReadPlan(env, files[S.RUN_PLAN]), ReadCommand(env, files[S.COMMAND]);
       plan.Ok? && command.Ok? && CommandBound(env, plan.value, command.value)
  }

  predicate HistoryAndIdentityAccepted(env: S.Env, files: Files, path: string)
    requires path in files
  {
    && S.RUN_PLAN in files && S.COMMAND in files
    && var plan, command := ReadPlan(env, files[S.RUN_PLAN]), ReadCommand(env, files[S.COMMAND]);
       var es := E.ReadEvents(env.text, env.rules, files[path]);
       && plan.Ok? && command.Ok? && es.Ok? && es.value != []
       && H.HistoryAccepted(H.Updates(es.value), H.TerminalStatus(es.value), plan.value.budget,
                            command.value.projection)
       && IdentityMatches(plan.value, es.value[0])
  }

  // ------------------------------------------------------------ the validator

  datatype DirectoryError =
    | UnreadableManifest | DuplicateRecord(path: string) | RecordMismatch(path: string)
    | MissingRecords | MissingFiles | EventStreamCount | BadEventStream
    | MissingContracts | BadRunPlan | BadCommand | CommandUnbound
    | SchemaViolation(line: nat) | BadHistory | IdentityMismatch | NoRecords

  /** Walks the records, remembering the paths seen. */
  method CheckRecords(env: S.Env, files: Files, records: seq<M.ArtifactRecord>)
    returns (seen: set<string>, errors: seq<DirectoryError>)
    ensures seen == M.Paths(records)
    ensures errors == [] <==> M.DistinctPaths(records) && forall r | r in records :: RecordMatches(env, files, r)
  {
    seen, errors := {}, [];
    for k := 0 to |records|
      invariant seen == M.Paths(records[..k])
      invariant errors == [] <==> M.DistinctPaths(records[..k]) && forall r | r in records[..k] ::
                RecordMatches(env, files, r)
    {
      var r := records[k];
      assert records[..k + 1] == records[..k] + [r];
      M.PathsConcat(records[..k], [r]);
      DistinctSnoc(records[..k], r);
      if r.path in seen {
        errors := errors + [DuplicateRecord(r.path)];
      } else {
        seen := seen + {r.path};
        if r.path !in files || |files[r.path]| != r.sizeBytes || env.digest(files[r.path]) != r.sha256 {
          errors := errors + [RecordMismatch(r.path)];
        }
      }
    }
    assert records[..|records|] == records;
  }

  lemma {:induction false} DistinctSnoc(rs: seq<M.ArtifactRecord>, r: M.ArtifactRecord)
    ensures M.DistinctPaths(rs + [r]) <==> M.DistinctPaths(rs) && r.path !in M.Paths(rs)
  {
    if rs == [] {
      assert rs + [r] == [r] && [r][1..] == [];
    } else {
      assert (rs + [r])[1..] == rs[1..] + [r];
      DistinctSnoc(rs[1..], r);
      M.PathsSplit(rs);
      M.PathsConcat(rs[1..], [r]);
    }
  }

  /** Every decoded document against the event schema, line by line. */
  method CheckDocuments(env: S.Env, documents: seq<Fields>) returns (errors: seq<DirectoryError>)
    ensures errors == [] <==> forall d | d in documents :: env.eventSchema(d)
  {
    errors := [];
    for k := 0 to |documents|
      invariant errors == [] <==> forall i | 0 <= i < k :: env.eventSchema(documents[i])
    {
      if !env.eventSchema(documents[k]) {
        errors := errors + [SchemaViolation(k + 1)];
      }
    }
  }

  method JudgeStream(env: S.Env, content: Bytes) returns (events: seq<E.HarnessEvent>, errors: seq<DirectoryError>)
    ensures errors == [] <==> StreamAccepted(env, content)
    ensures errors == [] ==> E.ReadEvents(env.text, env.rules, content) == Ok(events)
  {
    events := [];
    var documents := E.DecodeLines(env.text, SplitLines(content));
    if documents.Err? {
      return [], [BadEventStream];
    }
    errors := CheckDocuments(env, documents.value);
    if errors != [] {
      return;
    }
    var read := E.ReadEvents(env.text, env.rules, content);
    if read.Err? || read.value == [] {
      return [], [BadEventStream];
    }
    events := read.value;
    var lifecycle := L.CompletedStreamErrors(events);
    if lifecycle != [] {
      errors := [BadEventStream];
    }
  }

  method JudgeManifest(env: S.Env, files: Files) returns (errors: seq<DirectoryError>)
    ensures errors == [] <==> ManifestAccepted(env, files)
  {
    if S.MANIFEST !in files {
      return [UnreadableManifest];
    }
    var read := M.ReadRecords(env.text, env.records, files[S.MANIFEST]);
    if read.Err? {
      return [UnreadableManifest];
    }
    var seen;
    seen, errors := CheckRecords(env, files, read.value);
    var retained := files.Keys - {S.MANIFEST};
    if retained - seen != {} { errors := errors + [MissingRecords]; }
    if seen - retained != {} { errors := errors + [MissingFiles]; }
    assert seen == retained <==> retained - seen == {} && seen - retained == {};
    if read.value == [] { errors := errors + [NoRecords]; }
  }

  function EventPaths(files: Files): set<string> {
    set path | path in files.Keys - {S.MANIFEST} && BaseName(path) == S.EVENTS
  }

  method FindEventPath(files: Files) returns (found: Option<string>)
    ensures found.Some? ==> OnlyEventPath(files, found.value)
    ensures forall path :: OnlyEventPath(files, path) ==> found == Some(path)
  {
    var eventPaths := EventPaths(files);
    forall path | OnlyEventPath(files, path) ensures eventPaths == {path} { OnlyPathIsSingleton(files, path); }
    if |eventPaths| != 1 {
      return None;
    }
    var path :| path in eventPaths;
    SingleMember(eventPaths, path);
    assert forall other | other in files && other != S.MANIFEST && BaseName(other) == S.EVENTS :: other in eventPaths;
    found := Some(path);
  }

  lemma OnlyPathIsSingleton(files: Files, path: string)
    requires OnlyEventPath(files, path)
    ensures EventPaths(files) == {path}
  {
  }

  /** The validator: `errors` is empty exactly for accepted directories. */
  method ValidateArtifactDirectory(env: S.Env, files: Files) returns (errors: seq<DirectoryError>)
    ensures errors == [] <==> DirectoryAccepted(env, files)
  {
    errors := JudgeManifest(env, files);
    var path := FindEventPath(files);
    var events: seq<E.HarnessEvent> := [];
    var streamErrors: seq<DirectoryError> := [EventStreamCount];
    if path.Some? {
      events, streamErrors := JudgeStream(env, files[path.value]);
    }
    var contractErrors := JudgeContracts(env, files, streamErrors == [], events);
    errors := errors + streamErrors + contractErrors;
  }

  /** The two contracts, and with a clean stream its history and identity against them. */
  method JudgeContracts(env: S.Env, files: Files, streamClean: bool, events: seq<E.HarnessEvent>)
    returns (errors: seq<DirectoryError>)
    requires streamClean ==> events != []
    ensures errors == [] ==> ContractsAccepted(env, files)
    ensures streamClean && ContractsAccepted(env, files) ==>
              var plan, command := ReadPlan(env, files[S.RUN_PLAN]).value, ReadCommand(env, files[S.COMMAND]).value;
              errors == [] <==>
                && H.HistoryAccepted(H.Updates(events), H.TerminalStatus(events), plan.budget, command.projection)
                && IdentityMatches(plan, events[0])
  {
    errors := [];
    if S.RUN_PLAN !in files || S.COMMAND !in files {
      return [MissingContracts];
    }
    var plan, command := ReadPlan(env, files[S.RUN_PLAN]), ReadCommand(env, files[S.COMMAND]);
    if plan.Err? { errors := errors + [BadRunPlan]; }
    if command.Err? { errors := errors + [BadCommand]; }
    if plan.Ok? && command.Ok? {
      if !CommandBound(env, plan.value, command.value) { errors := errors + [CommandUnbound]; }
      if streamClean {
        var history := H.ValidateBudgetHistory(events, plan.value.budget, command.value.projection);
        if history != [] { errors := errors + [BadHistory]; }
        if !IdentityMatches(plan.value, events[0]) { errors := errors + [IdentityMismatch]; }
      }
    }
  }

  lemma SingleMember(s: set<string>, x: string)
    requires |s| == 1 && x in s
    ensures s == {x}
  {
    assert |s - {x}| == 0;
  }
}
