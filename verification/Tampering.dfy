/**
 What the validator's acceptance rules out, read off the files alone: a directory that was accepted is no longer
 accepted once a file is changed, added or removed, and its contracts, its log and its manifest speak of one run.
 */
module Tampering {
  import opened Common
  import opened Json
  import E = Events
  import L = Lifecycle
  import H = BudgetHistory
  import M = Manifest
  import P = RunPlans
  import C = Commands
  import CD = CommandDocuments
  import S = Session
  import A = Authorization
  import R = SealedRuns
  import I = SessionInvariant
  import EE = EndToEnd
  import opened DirectoryJudge

  // ------------------------------------------------ the manifest and the files

  function RecordsOf(env: S.Env, files: Files): seq<M.ArtifactRecord>
    requires S.MANIFEST in files && M.ReadRecords(env.text, env.records, files[S.MANIFEST]).Ok?
  {
    M.ReadRecords(env.text, env.records, files[S.MANIFEST]).value
  }

  /** In an accepted directory every other file has its record, with its size and its digest. */
  lemma RecordOfFile(env: S.Env, files: Files, path: string) returns (r: M.ArtifactRecord)
    requires ManifestAccepted(env, files) && path in files && path != S.MANIFEST
    ensures r in RecordsOf(env, files) && r.path == path
    ensures r.sizeBytes == |files[path]| && r.sha256 == env.digest(files[path])
  {
    assert path in M.Paths(RecordsOf(env, files));
    r :| r in RecordsOf(env, files) && r.path == path;
  }

  lemma {:induction false} OneRecordPerPath(rs: seq<M.ArtifactRecord>, a: M.ArtifactRecord, b: M.ArtifactRecord)
    requires M.DistinctPaths(rs) && a in rs && b in rs && a.path == b.path
    ensures a == b
  {
    if a in rs[1..] && b in rs[1..] {
      OneRecordPerPath(rs[1..], a, b);
    }
  }

  /** Nothing is recorded that is not there. */
  lemma RecordedFiles(env: S.Env, files: Files)
    requires ManifestAccepted(env, files)
    ensures S.MANIFEST in files && M.Paths(RecordsOf(env, files)) == files.Keys - {S.MANIFEST}
    ensures M.DistinctPaths(RecordsOf(env, files))
  {
  }

  /** The same files, each of the same size and digest; only the manifests may differ. */
  predicate Agrees(env: S.Env, a: Files, b: Files) {
    && a.Keys == b.Keys
    && forall path | path in a && path != S.MANIFEST ::
         |a[path]| == |b[path]| && env.digest(a[path]) == env.digest(b[path])
  }

  lemma AcceptedManifestsAgree(env: S.Env, a: Files, b: Files)
    requires ManifestAccepted(env, a) && ManifestAccepted(env, b) && a[S.MANIFEST] == b[S.MANIFEST]
    ensures Agrees(env, a, b)
  {
    RecordedFiles(env, a);
    RecordedFiles(env, b);
    SameKeys(a, b);
    forall path | path in a && path != S.MANIFEST
      ensures |a[path]| == |b[path]| && env.digest(a[path]) == env.digest(b[path])
    {
      var r := RecordOfFile(env, a, path);
      var s := RecordOfFile(env, b, path);
      OneRecordPerPath(RecordsOf(env, a), r, s);
    }
  }

  lemma AcceptedHasManifest(env: S.Env, files: Files)
    requires DirectoryAccepted(env, files)
    ensures S.MANIFEST in files && ManifestAccepted(env, files)
  {
  }

  /**
   The manifest pins the directory: two accepted directories with the same manifest hold the same files, each of
   the same size and digest.
   */
  lemma ManifestPinsFiles(env: S.Env, a: Files, b: Files)
    requires DirectoryAccepted(env, a) && DirectoryAccepted(env, b) && a[S.MANIFEST] == b[S.MANIFEST]
    ensures Agrees(env, a, b)
  {
    AcceptedHasManifest(env, a);
    AcceptedHasManifest(env, b);
    AcceptedManifestsAgree(env, a, b);
  }

  lemma SameKeys(a: Files, b: Files)
    requires S.MANIFEST in a && S.MANIFEST in b && a.Keys - {S.MANIFEST} == b.Keys - {S.MANIFEST}
    ensures a.Keys == b.Keys
  {
    forall path ensures path in a.Keys <==> path in b.Keys {
      assert path != S.MANIFEST ==> (path in a.Keys <==> path in a.Keys - {S.MANIFEST});
      assert path != S.MANIFEST ==> (path in b.Keys <==> path in b.Keys - {S.MANIFEST});
    }
  }

  /** With a digest that tells contents apart, the manifest determines the directory. */
  lemma ManifestDeterminesDirectory(env: S.Env, a: Files, b: Files)
    requires A.Injective(env.digest)
    requires DirectoryAccepted(env, a) && DirectoryAccepted(env, b) && a[S.MANIFEST] == b[S.MANIFEST]
    ensures a == b
  {
    ManifestPinsFiles(env, a, b);
    AgreeingAreEqual(env, a, b);
  }

  lemma AgreeingAreEqual(env: S.Env, a: Files, b: Files)
    requires A.Injective(env.digest) && Agrees(env, a, b) && S.MANIFEST in a && a[S.MANIFEST] == b[S.MANIFEST]
    ensures a == b
  {
    forall path | path in a ensures a[path] == b[path] {
      assert path != S.MANIFEST ==> env.digest(a[path]) == env.digest(b[path]);
    }
  }

  lemma ChangeDisagrees(env: S.Env, files: Files, path: string, content: Bytes)
    requires path in files && path != S.MANIFEST
    requires env.digest(content) != env.digest(files[path]) || |content| != |files[path]|
    ensures !Agrees(env, files, files[path := content])
  {
  }

  lemma OtherKeysDisagree(env: S.Env, a: Files, b: Files, path: string)
    requires path in a <==> path !in b
    ensures !Agrees(env, a, b)
  {
    assert path in a.Keys <==> path !in b.Keys;
  }

  /** Beside an accepted directory nothing that disagrees with it is accepted under the same manifest. */
  lemma DisagreeingRejected(env: S.Env, a: Files, b: Files)
    requires DirectoryAccepted(env, a) && !Agrees(env, a, b)
    requires S.MANIFEST in a && S.MANIFEST in b ==> a[S.MANIFEST] == b[S.MANIFEST]
    ensures !DirectoryAccepted(env, b)
  {
    AcceptedHasManifest(env, a);
    if DirectoryAccepted(env, b) {
      AcceptedHasManifest(env, b);
      ManifestPinsFiles(env, a, b);
    }
  }

  lemma PutElsewhere(files: Files, path: string, content: Bytes, after: Files, other: string)
    requires after == files[path := content] && other in files && (path !in files || path != other)
    ensures other in after && after[other] == files[other]
  {
  }

  /** A file was given other content, of another size or digest. */
  lemma ChangedFileRejected(env: S.Env, files: Files, path: string, content: Bytes, changed: Files)
    requires DirectoryAccepted(env, files) && path in files && path != S.MANIFEST
    requires env.digest(content) != env.digest(files[path]) || |content| != |files[path]|
    requires changed == files[path := content]
    ensures !DirectoryAccepted(env, changed)
  {
    AcceptedHasManifest(env, files);
    PutElsewhere(files, path, content, changed, S.MANIFEST);
    ChangeDisagrees(env, files, path, content);
    DisagreeingRejected(env, files, changed);
  }

  lemma AddedFileRejected(env: S.Env, files: Files, path: string, content: Bytes, larger: Files)
    requires DirectoryAccepted(env, files) && path !in files && larger == files[path := content]
    ensures !DirectoryAccepted(env, larger)
  {
    AcceptedHasManifest(env, files);
    PutElsewhere(files, path, content, larger, S.MANIFEST);
    OtherKeysDisagree(env, files, larger, path);
    DisagreeingRejected(env, files, larger);
  }

  lemma RemovedFileRejected(env: S.Env, files: Files, path: string, smaller: Files)
    requires DirectoryAccepted(env, files) && path in files && smaller == files - {path}
    ensures !DirectoryAccepted(env, smaller)
  {
    OtherKeysDisagree(env, files, smaller, path);
    DisagreeingRejected(env, files, smaller);
  }

  /** The files pin what every manifest accepted beside them says of sizes and digests. */
  lemma FilesPinManifest(env: S.Env, files: Files, content: Bytes)
    requires DirectoryAccepted(env, files) && DirectoryAccepted(env, files[S.MANIFEST := content])
    ensures forall r | r in RecordsOf(env, files) ::
              exists s :: s in RecordsOf(env, files[S.MANIFEST := content])
                          && s.path == r.path && s.sizeBytes == r.sizeBytes && s.sha256 == r.sha256
  {
    var other := files[S.MANIFEST := content];
    RecordedFiles(env, files);
    forall r | r in RecordsOf(env, files)
      ensures exists s :: s in RecordsOf(env, other)
                          && s.path == r.path && s.sizeBytes == r.sizeBytes && s.sha256 == r.sha256
    {
      assert r.path in M.Paths(RecordsOf(env, files));
      var found := RecordOfFile(env, files, r.path);
      OneRecordPerPath(RecordsOf(env, files), r, found);
      var s := RecordOfFile(env, other, r.path);
    }
  }

  /**
   The directory of every sealed run with ordinary names: nothing the validator accepts under its manifest differs
   from it in any file's presence, size or digest.
   */
  lemma SealedRunIsPinned(env: S.Env, run: R.Run, files: Files)
    requires R.Lawful(env, run) && R.Final(env, run).isSealed
    requires I.NamesOk(R.Final(env, run).retained) && EE.SchemasAccept(env, R.Final(env, run))
    requires S.MANIFEST in S.AttemptFiles(env, R.Final(env, run)) && S.MANIFEST in files
    requires files[S.MANIFEST] == S.AttemptFiles(env, R.Final(env, run))[S.MANIFEST] && DirectoryAccepted(env, files)
    ensures Agrees(env, S.AttemptFiles(env, R.Final(env, run)), files)
  {
    R.SealedDirectoryVerdict(env, run);
    ManifestPinsFiles(env, S.AttemptFiles(env, R.Final(env, run)), files);
  }

  // ---------------------------------------------------- contracts, log, identity

  /** What is read where. */
  datatype Contents = Contents(plan: P.RunPlan, command: C.CommandSpec, log: string, events: seq<E.HarnessEvent>)

  lemma AcceptedContracts(env: S.Env, files: Files) returns (plan: P.RunPlan, command: C.CommandSpec)
    requires ContractsAccepted(env, files)
    ensures S.RUN_PLAN in files && S.COMMAND in files
    ensures ReadPlan(env, files[S.RUN_PLAN]) == Ok(plan) && ReadCommand(env, files[S.COMMAND]) == Ok(command)
    ensures plan.execution.authorization.commandSha256
         == Some(env.digest(env.text.compact(Obj(CD.CommandDocument(command)))))
  {
    plan, command := ReadPlan(env, files[S.RUN_PLAN]).value, ReadCommand(env, files[S.COMMAND]).value;
  }

  /** A plan or a command is read from one JSON object, the plan from one its schema takes. */
  lemma ReadFromObjects(env: S.Env, content: Bytes)
    ensures ReadPlan(env, content).Ok? ==>
              var v := env.text.parse(content);
              && v.Some? && v.value.Obj? && env.planSchema(v.value.fields)
              && P.PlanFrom(env.plans, v.value.fields) == ReadPlan(env, content)
    ensures ReadCommand(env, content).Ok? ==>
              var v := env.text.parse(content);
              v.Some? && v.value.Obj? && CD.CommandFrom(env.commands, v.value.fields) == ReadCommand(env, content)
  {
  }

  /**
   An accepted directory is of one run: one file has the log's name; it reads as a complete stream whose documents
   the schema takes; plan and command read, the plan naming the command's digest; and every event is of the plan's
   run and attempt, with a budget history the contracts allow.
   */
  lemma AcceptedIsOneRun(env: S.Env, files: Files) returns (c: Contents)
    requires DirectoryAccepted(env, files)
    ensures c.log in files && BaseName(c.log) == S.EVENTS
    ensures forall path | path in files && path != S.MANIFEST && BaseName(path) == S.EVENTS :: path == c.log
    ensures E.ReadEvents(env.text, env.rules, files[c.log]) == Ok(c.events) && c.events != []
    ensures forall e | e in c.events ::
              e.runId == c.plan.identity.runId && e.attempt == c.plan.identity.attempt
    ensures L.Completed(c.events) && forall e | e in c.events :: env.eventSchema(E.EventDocument(e))
    ensures S.RUN_PLAN in files && S.COMMAND in files
    ensures ReadPlan(env, files[S.RUN_PLAN]) == Ok(c.plan) && ReadCommand(env, files[S.COMMAND]) == Ok(c.command)
    ensures c.plan.execution.authorization.commandSha256
         == Some(env.digest(env.text.compact(Obj(CD.CommandDocument(c.command)))))
    ensures H.HistoryAccepted(H.Updates(c.events), H.TerminalStatus(c.events), c.plan.budget, c.command.projection)
  {
    var plan, command := AcceptedContracts(env, files);
    var log :| log in files && OnlyEventPath(files, log) && StreamAccepted(env, files[log])
               && HistoryAndIdentityAccepted(env, files, log);
    var events := E.ReadEvents(env.text, env.rules, files[log]).value;
    ReadIsConsistent(env, files[log], events);
    SchemaTakesEvents(env, files[log], events);
    c := Contents(plan, command, log, events);
  }

  lemma ReadIsConsistent(env: S.Env, content: Bytes, es: seq<E.HarnessEvent>)
    requires E.ReadEvents(env.text, env.rules, content) == Ok(es)
    ensures forall e | e in es :: e.runId == es[0].runId && e.attempt == es[0].attempt
  {
  }

  lemma SchemaTakesEvents(env: S.Env, content: Bytes, es: seq<E.HarnessEvent>)
    requires E.ReadEvents(env.text, env.rules, content) == Ok(es) && DocumentsAccepted(env, content)
    ensures forall e | e in es :: env.eventSchema(E.EventDocument(e))
  {
    var lines := SplitLines(content);
    var ds := E.DecodeLines(env.text, lines).value;
    E.DecodedMeans(env.text, lines);
    E.ReadEventsMeans(env.text, env.rules, content, es);
    forall e | e in es ensures env.eventSchema(E.EventDocument(e)) {
      var i :| 0 <= i < |es| && es[i] == e;
      assert Some(Obj(ds[i])) == env.text.parse(lines[i]) == Some(Obj(E.EventDocument(es[i])));
      assert ds[i] in ds;
    }
  }
}
