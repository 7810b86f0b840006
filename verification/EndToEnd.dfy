/**
 The producer against the judge: every session that seals leaves a directory the validator accepts,
 exactly when no declared artifact takes a name the validator reads specially.
 */
module EndToEnd {
  import opened Common
  import opened Json
  import opened Events
  import opened Lifecycle
  import opened BudgetHistory
  import opened Manifest
  import opened AttemptDirectories
  import opened Session
  import opened SessionInvariant
  import J = DirectoryJudge
  import Sorting
  import P = RunPlans
  import C = Commands
  import CD = CommandDocuments

  // ------------------------------------------------------------------ names

  lemma HarnessNames()
    ensures EVENTS != MANIFEST && RUN_PLAN != MANIFEST && COMMAND != MANIFEST && RUN_PLAN != EVENTS && COMMAND != EVENTS
    ensures STDOUT != MANIFEST && STDERR != MANIFEST && STDOUT != EVENTS && STDERR != EVENTS
    ensures J.BaseName(EVENTS) == EVENTS
  {
    EventsPlain();
  }

  lemma EventsPlain()
    ensures '/' !in EVENTS
  {
    var name := EVENTS;
    assert name == ['e', 'v', 'e', 'n', 't', 's', '.', 'j', 's', 'o', 'n', 'l'];
  }

  lemma HarnessPaths()
    ensures RetainedPaths(HARNESS_RETAINED) == {STDOUT, STDERR, RUN_PLAN, COMMAND}
  {
    assert HARNESS_RETAINED[0] in HARNESS_RETAINED && HARNESS_RETAINED[1] in HARNESS_RETAINED
        && HARNESS_RETAINED[2] in HARNESS_RETAINED && HARNESS_RETAINED[3] in HARNESS_RETAINED;
  }

  lemma OtherName(x: string)
    requires x != STDOUT && x != STDERR && x != RUN_PLAN && x != COMMAND
    ensures x !in RetainedPaths(HARNESS_RETAINED)
  {
    HarnessPaths();
  }

  lemma RootNamesApart()
    ensures EVENTS !in RetainedPaths(HARNESS_RETAINED) && MANIFEST !in RetainedPaths(HARNESS_RETAINED)
  {
    HarnessNames();
    OtherName(EVENTS);
    OtherName(MANIFEST);
  }

  lemma NamesOkMeans(rs: seq<Retained>)
    requires NamesOk(rs)
    ensures PlainNames(rs)
    ensures forall path | path in RetainedPaths(rs) :: J.BaseName(path) != EVENTS
  {
    HarnessNames();
  }

  // ------------------------------------------------- records of the retained

  /** One record per retained entry, path by path. */
  predicate SamePaths(records: seq<ArtifactRecord>, rs: seq<Retained>) {
    |records| == |rs| && forall i | 0 <= i < |rs| :: records[i].path == rs[i].path
  }

  lemma SamePathsTail(records: seq<ArtifactRecord>, rs: seq<Retained>)
    requires SamePaths(records, rs) && rs != []
    ensures SamePaths(records[1..], rs[1..])
  {
    forall i | 0 <= i < |rs[1..]|
      ensures records[1..][i].path == rs[1..][i].path
    {
      assert records[1..][i] == records[i + 1] && rs[1..][i] == rs[i + 1];
    }
  }

  lemma {:induction false} RecordPaths(records: seq<ArtifactRecord>, rs: seq<Retained>)
    requires SamePaths(records, rs)
    ensures Paths(records) == RetainedPaths(rs)
    ensures Sorting.DistinctKeys(PATH, rs) ==> DistinctPaths(records)
  {
    if rs != [] {
      SamePathsTail(records, rs);
      RecordPaths(records[1..], rs[1..]);
      PathsSplit(records);
      RetainedSplit(rs);
      Sorting.KeysMember(PATH, rs[1..], PATH(rs[0]));
    }
  }

  lemma RetainedSplit(rs: seq<Retained>)
    requires rs != []
    ensures RetainedPaths(rs) == {rs[0].path} + RetainedPaths(rs[1..])
  {
    assert rs == [rs[0]] + rs[1..];
  }

  lemma TwoMembers<T>(s: seq<T>, a: T, b: T)
    requires a in s && b in s && a != b
    ensures |s| >= 2
  {
    var i :| 0 <= i < |s| && s[i] == a;
    var j :| 0 <= j < |s| && s[j] == b;
  }

  lemma SortedPresent(env: Env, s: SessionState)
    requires RetainedPresent(env, s)
    ensures forall r | r in SortedRetained(s) :: r.path in AttemptFiles(env, s)
  {
    Sorting.SortMembers(PATH, s.retained);
  }

  lemma SortedPaths(s: SessionState)
    requires RetainedOk(s)
    ensures RetainedPaths(SortedRetained(s)) == RetainedPaths(s.retained) && DistinctRetained(SortedRetained(s))
    ensures |SortedRetained(s)| >= 2
  {
    Sorting.SortMembers(PATH, s.retained);
    C.SortKeepsDistinct(PATH, s.retained);
    assert HARNESS_RETAINED[0] in s.retained && HARNESS_RETAINED[1] in s.retained;
    TwoMembers(SortedRetained(s), HARNESS_RETAINED[0], HARNESS_RETAINED[1]);
  }

  lemma RecordsOfPaths(env: Env, s: SessionState, rs: seq<Retained>)
    requires forall r | r in rs :: r.path in AttemptFiles(env, s)
    ensures SamePaths(RecordsFor(env, s, rs), rs)
  {
  }

  lemma RecordsReady(env: Env, s: SessionState)
    requires RetainedReady(env, s)
    requires forall r | r in SortedRetained(s) :: r.path in AttemptFiles(env, s)
    ensures forall r | r in RecordsFor(env, s, SortedRetained(s)) :: RecordOk(env.records, r)
  {
    Sorting.SortMembers(PATH, s.retained);
    var sorted := SortedRetained(s);
    forall r | r in RecordsFor(env, s, sorted) ensures RecordOk(env.records, r) {
      var i :| 0 <= i < |sorted| && RecordsFor(env, s, sorted)[i] == r;
      assert sorted[i] in sorted;
    }
  }

  /** The records of a session: one per retained path, of the file as it is now. */
  lemma RetainedRecords(env: Env, s: SessionState)
    requires RetainedPresent(env, s) && RetainedOk(s)
    ensures forall r | r in SortedRetained(s) :: r.path in AttemptFiles(env, s)
    ensures var records := RecordsFor(env, s, SortedRetained(s));
            Paths(records) == RetainedPaths(s.retained) && DistinctPaths(records) && |records| >= 2
  {
    SortedPresent(env, s);
    SortedPaths(s);
    RecordsOfPaths(env, s, SortedRetained(s));
    RecordPaths(RecordsFor(env, s, SortedRetained(s)), SortedRetained(s));
  }

  lemma {:induction false} DistinctAddOne(rs: seq<ArtifactRecord>, r: ArtifactRecord)
    ensures DistinctPaths(rs + [r]) <==> DistinctPaths(rs) && r.path !in Paths(rs)
  {
    J.DistinctSnoc(rs, r);
  }

  // ------------------------------------------------------------ the stream

  /** What a successful sealing emission leaves in the log. */
  lemma SealEmission(env: Env, s: SessionState, records: seq<ArtifactRecord>)
    requires LogOk(env, s)
    ensures var ds := RecordDrafts(records) + [StopDraft(s)];
            var r := EmitAll(env, s, ds);
            && r.state == Grown(s, Added(env, s, ds))
            && LogOk(env, r.state)
            && Updates(r.state.events) == Updates(s.events)
            && (!r.ok && !Stopped(s.events) && Opening(s.events) ==> Opening(r.state.events))
            && (!r.ok ==> (Stopped(r.state.events) <==> Stopped(s.events)))
            && (r.ok ==>
                  && r.state.events != [] && Stopped(r.state.events)
                  && TerminalStatus(r.state.events) == Some(s.status)
                  && (Opening(s.events) && StatusOk(s) ==> Completed(r.state.events))
                  && (Stopped(s.events) ==> !Completed(r.state.events)))
  {
    var front, stop := RecordDrafts(records), StopDraft(s);
    SealDraftsPlain(records, stop);
    EmitAllGrows(env, s, front + [stop]);
    EmitAllKeepsLog(env, s, front + [stop]);
    EmitAllKeepsUpdates(env, s, front + [stop]);
    EmitAllConcat(env, s, front, [stop]);
    RecordEmission(env, s, front);
    var mid := EmitAll(env, s, front);
    if mid.ok {
      StopEmission(env, s, mid.state);
    }
  }

  lemma SealDraftsPlain(records: seq<ArtifactRecord>, stop: Draft)
    requires stop.eventType.RunStopped? && stop.source == CONTROL_SOURCE
    ensures AllOwned(RecordDrafts(records)) && NoneLifecycle(RecordDrafts(records))
    ensures AllOwned(RecordDrafts(records) + [stop]) && NoneBudget(RecordDrafts(records) + [stop])
  {
  }

  lemma RecordEmission(env: Env, s: SessionState, front: seq<Draft>)
    requires LogOk(env, s) && AllOwned(front) && NoneLifecycle(front)
    ensures var mid := EmitAll(env, s, front);
            && LogOk(env, mid.state) && mid.state.status == s.status && mid.state.process == s.process
            && (Opening(s.events) ==> Opening(mid.state.events))
            && (Stopped(mid.state.events) <==> Stopped(s.events))
  {
    EmitAllGrows(env, s, front);
    EmitAllKeepsLog(env, s, front);
    EmitAllKeepsStopped(env, s, front);
    if Opening(s.events) {
      EmitAllKeepsOpening(env, s, front);
    }
  }

  lemma StopEmission(env: Env, s: SessionState, mid: SessionState)
    requires mid.status == s.status && mid.process == s.process && LogOk(env, mid)
    ensures var r := EmitAll(env, mid, [StopDraft(s)]);
            && (!r.ok ==> r.state == mid)
            && (r.ok ==>
                  && r.state.events == mid.events + [EventOf(env, mid, StopDraft(s))]
                  && Stopped(r.state.events) && TerminalStatus(r.state.events) == Some(s.status)
                  && (Opening(mid.events) && StatusOk(s) ==> Completed(r.state.events))
                  && (Stopped(mid.events) ==> !Completed(r.state.events)))
  {
    var stop := EventOf(env, mid, StopDraft(s));
    assert [StopDraft(s)][1..] == [];
    StopIsTerminal(mid.events, stop, s);
    if Stopped(mid.events) { SecondStopIncomplete(mid.events, stop); }
    if Opening(mid.events) && StatusOk(s) {
      AllLogged(env, mid);
      OpeningCompletes(mid.events, stop);
    }
  }

  lemma StopIsTerminal(es: seq<HarnessEvent>, stop: HarnessEvent, s: SessionState)
    requires stop.eventType.RunStopped? && stop.payload == StopDraft(s).payload
    ensures TerminalStatus(es + [stop]) == Some(s.status) && Stopped(es + [stop])
    ensures StatusOk(s) ==> TerminalOk(stop)
  {
    assert (es + [stop])[|es|] == stop;
  }

  lemma AllLogged(env: Env, s: SessionState)
    requires LogOk(env, s)
    ensures forall i | 0 <= i < |s.events| :: Owned(s.events[i])
  {
    forall i | 0 <= i < |s.events| ensures Owned(s.events[i]) { assert EventOk(env, s, s.events[i], i); }
  }

  lemma SessionLogConsistent(env: Env, s: SessionState)
    requires LogOk(env, s) && env.text.Lawful()
    ensures ReadEvents(env.text, env.rules, LogBytes(env.text, s.events)) == Ok(s.events)
  {
    forall i | 0 <= i < |s.events| ensures EventOk(env, s, s.events[i], i) {}
    ReadLog(env.text, env.rules, s.events);
  }

  // ----------------------------------------------------------- the contracts

  /** The schemas accept the session's plan document and every document of its log. */
  predicate SchemasAccept(env: Env, s: SessionState) {
    && env.planSchema(P.PlanDocument(s.plan))
    && forall i | 0 <= i < |s.events| :: env.eventSchema(EventDocument(s.events[i]))
  }

  /** The retained contracts read back as the session's own, bound by digest, once the schema accepts the plan. */
  lemma ContractsHold(env: Env, s: SessionState, files: map<string, Bytes>)
    requires env.text.Lawful() && FixedOk(env, s)
    requires RUN_PLAN in files && COMMAND in files
    requires files[RUN_PLAN] == s.files[RUN_PLAN] && files[COMMAND] == s.files[COMMAND]
    ensures J.ContractsAccepted(env, files) <==> env.planSchema(P.PlanDocument(s.plan))
    ensures env.planSchema(P.PlanDocument(s.plan)) ==> J.ReadPlan(env, files[RUN_PLAN]) == Ok(s.plan)
    ensures J.ReadCommand(env, files[COMMAND]) == Ok(s.command)
  {
    PlanReadsBack(env, s.plan);
    CommandReadsBack(env, s.command);
  }

  lemma PlanReadsBack(env: Env, plan: P.RunPlan)
    requires env.text.Lawful() && P.PlanOk(env.plans, plan)
    ensures J.ReadPlan(env, env.text.indented(Obj(P.PlanDocument(plan))) + [LF])
         == if env.planSchema(P.PlanDocument(plan)) then Ok(plan) else Err("schema")
  {
    var v := Obj(P.PlanDocument(plan));
    assert env.text.parse(env.text.indented(v) + [LF]) == Some(v);
    P.PlanRoundTrip(env.plans, plan);
  }

  lemma CommandReadsBack(env: Env, command: C.CommandSpec)
    requires env.text.Lawful() && C.Construct(env.commands, command) == Ok(command)
    ensures J.ReadCommand(env, env.text.indented(Obj(CD.CommandDocument(command))) + [LF]) == Ok(command)
  {
    var v := Obj(CD.CommandDocument(command));
    assert env.text.parse(env.text.indented(v) + [LF]) == Some(v);
    CD.CommandRoundTrip(env.commands, command, command);
  }

  // ------------------------------------------------------------ the manifest

  /** The directory as a successful seal leaves it. */
  function SealedFiles(env: Env, stopped: SessionState, manifest: Bytes): map<string, Bytes> {
    stopped.files[MANIFEST := manifest][EVENTS := LogBytes(env.text, stopped.events)]
  }

  /** Where neither root name is declared, the files of a sealable session are its retained ones. */
  lemma PlainFiles(env: Env, s: SessionState)
    requires FilesDeclared(env, s) && RetainedPresent(env, s) && PlainNames(s.retained) && EVENTS !in s.files
    ensures s.files.Keys == RetainedPaths(s.retained) && MANIFEST !in s.files
  {
    HarnessNames();
    forall path | path in s.files ensures path in RetainedPaths(s.retained) {
      assert path in AttemptFiles(env, s);
    }
    forall path | path in RetainedPaths(s.retained) ensures path in s.files {
      var r :| r in s.retained && r.path == path;
      assert r.path in AttemptFiles(env, s);
    }
  }

  /** Records describe any directory that still holds the retained files unchanged. */
  lemma RecordsStillMatch(env: Env, s: SessionState, files: map<string, Bytes>)
    requires forall r | r in SortedRetained(s) :: r.path in AttemptFiles(env, s)
    requires forall path | path in RetainedPaths(s.retained) ::
             path in files && path in AttemptFiles(env, s) && files[path] == AttemptFiles(env, s)[path]
    ensures forall r | r in RecordsFor(env, s, SortedRetained(s)) :: J.RecordMatches(env, files, r)
  {
    Sorting.SortMembers(PATH, s.retained);
    forall r | r in RecordsFor(env, s, SortedRetained(s)) ensures J.RecordMatches(env, files, r) {
      var i :| 0 <= i < |SortedRetained(s)| && RecordsFor(env, s, SortedRetained(s))[i] == r;
      var entry := SortedRetained(s)[i];
      assert entry in SortedRetained(s);
      assert entry in s.retained;
      assert entry.path in RetainedPaths(s.retained);
    }
  }

  lemma ManifestAcceptedFrom(env: Env, files: map<string, Bytes>, records: seq<ArtifactRecord>)
    requires MANIFEST in files && ReadRecords(env.text, env.records, files[MANIFEST]) == Ok(records) && records != []
    requires DistinctPaths(records) && (forall r | r in records :: J.RecordMatches(env, files, r))
    requires files.Keys - {MANIFEST} == Paths(records)
    ensures J.ManifestAccepted(env, files)
  {
  }

  /** The records of the retained files and of the finished log. */
  function ManifestRecords(env: Env, s: SessionState, stopped: SessionState): seq<ArtifactRecord>
    requires forall r | r in SortedRetained(s) :: r.path in AttemptFiles(env, s)
  {
    RecordsFor(env, s, SortedRetained(s)) + [EventLogRecord(env, stopped)]
  }

  /** The records of a session that does not declare its own log are fit for an empty manifest. */
  lemma PlainAppended(env: Env, s: SessionState, stopped: SessionState)
    requires env.text.Lawful() && LogRecordAdmitted(env) && RetainedOk(s) && RetainedReady(env, s)
    requires EVENTS !in RetainedPaths(s.retained)
    requires forall r | r in SortedRetained(s) :: r.path in AttemptFiles(env, s)
    ensures var records := ManifestRecords(env, s, stopped);
            var appended := AppendAll(env.text, env.records, [], records);
            && appended.error.None? && ReadRecords(env.text, env.records, appended.content) == Ok(records)
            && DistinctPaths(records) && Paths(records) == RetainedPaths(s.retained) + {EVENTS}
  {
    RetainedRecords(env, s);
    RecordsReady(env, s);
    LogRecordReady(env, stopped);
    var records, last := RecordsFor(env, s, SortedRetained(s)), EventLogRecord(env, stopped);
    DistinctAddOne(records, last);
    PathsConcat(records, [last]);
    AllAppended(env, records, last);
  }

  /** The records of the retained files describe the sealed directory. */
  lemma SealedMatches(env: Env, s: SessionState, stopped: SessionState, manifest: Bytes)
    requires RetainedPresent(env, s) && PlainNames(s.retained) && stopped.files == s.files && EVENTS !in s.files
    requires forall r | r in SortedRetained(s) :: r.path in AttemptFiles(env, s)
    ensures forall r | r in ManifestRecords(env, s, stopped) ::
            J.RecordMatches(env, SealedFiles(env, stopped, manifest), r)
  {
    HarnessNames();
    var files := SealedFiles(env, stopped, manifest);
    forall path | path in RetainedPaths(s.retained)
      ensures path in files && path in AttemptFiles(env, s) && files[path] == AttemptFiles(env, s)[path]
    {
      var r :| r in s.retained && r.path == path;
    }
    RecordsStillMatch(env, s, files);
    SealedKeys(env, stopped, manifest);
  }

  /** Where neither root name is declared the manifest is written from scratch and lists exactly what is there. */
  lemma PlainManifest(env: Env, s: SessionState, stopped: SessionState)
    requires env.text.Lawful() && LogRecordAdmitted(env)
    requires RetainedOk(s) && FilesDeclared(env, s) && RetainedReady(env, s)
    requires PlainNames(s.retained) && stopped.files == s.files && EVENTS !in s.files
    requires forall r | r in SortedRetained(s) :: r.path in AttemptFiles(env, s)
    ensures MANIFEST !in s.files
    ensures var appended := AppendAll(env.text, env.records, [], ManifestRecords(env, s, stopped));
            && appended.error.None?
            && J.ManifestAccepted(env, SealedFiles(env, stopped, appended.content))
  {
    var records := ManifestRecords(env, s, stopped);
    var content := AppendAll(env.text, env.records, [], records).content;
    PlainFiles(env, s);
    PlainAppended(env, s, stopped);
    SealedMatches(env, s, stopped, content);
    SealedKeys(env, stopped, content);
    HarnessNames();
    ManifestAcceptedFrom(env, SealedFiles(env, stopped, content), records);
  }

  lemma SealedKeys(env: Env, stopped: SessionState, manifest: Bytes)
    ensures SealedFiles(env, stopped, manifest).Keys == stopped.files.Keys + {MANIFEST, EVENTS}
    ensures SealedFiles(env, stopped, manifest)[EVENTS] == LogBytes(env.text, stopped.events)
    ensures SealedFiles(env, stopped, manifest)[MANIFEST] == manifest
  {
    HarnessNames();
  }

  lemma LogRecordReady(env: Env, s: SessionState)
    requires LogRecordAdmitted(env)
    ensures RecordOk(env.records, EventLogRecord(env, s))
  {
  }

  lemma AllAppended(env: Env, records: seq<ArtifactRecord>, last: ArtifactRecord)
    requires env.text.Lawful() && DistinctPaths(records + [last])
    requires (forall r | r in records :: RecordOk(env.records, r)) && RecordOk(env.records, last)
    ensures AppendAll(env.text, env.records, [], records + [last]).error.None?
    ensures ReadRecords(env.text, env.records, AppendAll(env.text, env.records, [], records + [last]).content)
            == Ok(records + [last])
  {
    AppendAllExact(env.text, env.records, [], [], records + [last]);
    PrependNothing(records + [last]);
    assert Paths([]) == {};
  }

  /** The only event stream of a directory with ordinary names is the log itself. */
  lemma OrdinaryEventPath(s: SessionState, files: map<string, Bytes>)
    requires NamesOk(s.retained) && files.Keys == RetainedPaths(s.retained) + {MANIFEST, EVENTS}
    ensures J.OnlyEventPath(files, EVENTS)
  {
    HarnessNames();
    NamesOkMeans(s.retained);
  }

  /** What the schemas decide about a session's own log. */
  lemma LogDocuments(env: Env, s: SessionState)
    requires env.text.Lawful()
    ensures J.DocumentsAccepted(env, LogBytes(env.text, s.events))
       <==> forall i | 0 <= i < |s.events| :: env.eventSchema(EventDocument(s.events[i]))
  {
    DecodedLog(env.text, s.events);
    var ds := FieldsOf(s.events);
    assert forall i | 0 <= i < |ds| :: ds[i] in ds;
  }

  /** Every part of the validator's condition in one place, for a directory whose one stream is the session's log. */
  lemma AcceptedFrom(env: Env, files: map<string, Bytes>, plan: P.RunPlan, command: C.CommandSpec,
                     es: seq<HarnessEvent>)
    requires J.ManifestAccepted(env, files) && J.OnlyEventPath(files, EVENTS)
    requires ReadEvents(env.text, env.rules, files[EVENTS]) == Ok(es) && es != [] && Completed(es)
    requires J.ContractsAccepted(env, files) ==> J.ReadPlan(env, files[RUN_PLAN]) == Ok(plan)
    requires J.ContractsAccepted(env, files) ==> J.ReadCommand(env, files[COMMAND]) == Ok(command)
    requires HistoryAccepted(Updates(es), TerminalStatus(es), plan.budget, command.projection)
    requires J.IdentityMatches(plan, es[0])
    ensures J.DirectoryAccepted(env, files)
            <==> J.ContractsAccepted(env, files) && J.DocumentsAccepted(env, files[EVENTS])
  {
    if J.ContractsAccepted(env, files) && J.DocumentsAccepted(env, files[EVENTS]) {
      assert J.StreamAccepted(env, files[EVENTS]);
      assert J.HistoryAndIdentityAccepted(env, files, EVENTS);
    }
  }

  /** With ordinary names the sealed directory passes every part of the validator the schemas do not decide. */
  lemma OrdinaryDirectoryJudged(env: Env, s: SessionState, stopped: SessionState, manifest: Bytes)
    requires FixedOk(env, s) && BudgetShape(s) && StatusOk(s) && env.text.Lawful()
    requires NamesOk(s.retained) && FilesDeclared(env, s) && RetainedPresent(env, s)
    requires s.command.projection.HasUsage() ==> s.accounting.Some?
    requires stopped.files == s.files && stopped.plan == s.plan && LogOk(env, stopped) && stopped.events != []
    requires Updates(stopped.events) == Updates(s.events) && TerminalStatus(stopped.events) == Some(s.status)
    requires Completed(stopped.events)
    requires J.ManifestAccepted(env, SealedFiles(env, stopped, manifest))
    ensures J.DirectoryAccepted(env, SealedFiles(env, stopped, manifest)) <==> SchemasAccept(env, stopped)
  {
    OrdinaryLookups(env, s, stopped, manifest);
    SessionLogConsistent(env, stopped);
    LogDocuments(env, stopped);
    ContractsHold(env, s, SealedFiles(env, stopped, manifest));
    FixedHistoryAccepted(env, s);
    FirstIdentity(env, stopped);
    AcceptedFrom(env, SealedFiles(env, stopped, manifest), s.plan, s.command, stopped.events);
  }

  lemma OrdinaryLookups(env: Env, s: SessionState, stopped: SessionState, manifest: Bytes)
    requires NamesOk(s.retained) && FilesDeclared(env, s) && RetainedPresent(env, s) && EVENTS !in s.files
    requires stopped.files == s.files && RUN_PLAN in s.files && COMMAND in s.files
    ensures var files := SealedFiles(env, stopped, manifest);
            && J.OnlyEventPath(files, EVENTS) && files[EVENTS] == LogBytes(env.text, stopped.events)
            && RUN_PLAN in files && files[RUN_PLAN] == s.files[RUN_PLAN]
            && COMMAND in files && files[COMMAND] == s.files[COMMAND]
  {
    HarnessNames();
    NamesOkMeans(s.retained);
    PlainFiles(env, s);
    SealedKeys(env, stopped, manifest);
    OrdinaryEventPath(s, SealedFiles(env, stopped, manifest));
  }

  lemma FixedHistoryAccepted(env: Env, s: SessionState)
    requires FixedOk(env, s) && BudgetShape(s) && StatusOk(s)
    requires s.command.projection.HasUsage() ==> s.accounting.Some?
    ensures HistoryAccepted(Updates(s.events), Some(s.status), s.plan.budget, s.command.projection)
  {
    SessionHistoryAccepted(s);
  }

  lemma FirstIdentity(env: Env, s: SessionState)
    requires LogOk(env, s) && s.events != []
    ensures J.IdentityMatches(s.plan, s.events[0])
  {
    assert EventOk(env, s, s.events[0], 0);
  }

  // --------------------------------------------------------------- the seal

  /** What sealing does after a successful emission. */
  lemma SealOpenAfter(env: Env, s: SessionState, records: seq<ArtifactRecord>, stopped: SessionState,
                      appended: Appended)
    requires RetainedPresent(env, s) && (forall r | r in SortedRetained(s) :: r.path in AttemptFiles(env, s))
    requires records == RecordsFor(env, s, SortedRetained(s))
    requires EmitAll(env, s, RecordDrafts(records) + [StopDraft(s)]) == Emitted(stopped, true)
    requires RecordOk(env.records, EventLogRecord(env, stopped))
    requires appended == AppendAll(env.text, env.records, ContentOf(stopped.files, MANIFEST),
                                   records + [EventLogRecord(env, stopped)])
    ensures var r := SealOpen(env, s);
            var written := stopped.(files := stopped.files[MANIFEST := appended.content]);
            && (appended.error.Some? ==> r == Step(written, Err(ManifestRefused)))
            && (appended.error.None? ==>
                  && r.result == Ok(ExecutionOutcome(s.process, s.usage, s.status))
                  && r.state == written.(outcome := Some(r.result.value), isSealed := true)
                  && AttemptFiles(env, r.state) == SealedFiles(env, stopped, appended.content))
  {
  }

  lemma SealOpenRefused(env: Env, s: SessionState, records: seq<ArtifactRecord>, refused: SessionState)
    requires RetainedPresent(env, s) && (forall r | r in SortedRetained(s) :: r.path in AttemptFiles(env, s))
    requires records == RecordsFor(env, s, SortedRetained(s))
    requires EmitAll(env, s, RecordDrafts(records) + [StopDraft(s)]) == Emitted(refused, false)
    ensures SealOpen(env, s) == Step(refused, Err(EventRefused))
  {
  }

  /** With ordinary names a begun seal fails only on a refused event, and the schemas decide on its directory. */
  lemma OrdinarySealJudged(env: Env, s: SessionState)
    requires OpenInv(env, s) && EnvOk(env, s) && NamesOk(s.retained) && Sealable(env, s)
    ensures var r := SealOpen(env, s);
            && (r.result.Ok? || r.result.error == EventRefused)
            && (r.result.Ok?
                ==> (J.DirectoryAccepted(env, AttemptFiles(env, r.state)) <==> SchemasAccept(env, r.state)))
  {
    RetainedRecords(env, s);
    NamesOkMeans(s.retained);
    var records := RecordsFor(env, s, SortedRetained(s));
    SealEmission(env, s, records);
    var emitted := EmitAll(env, s, RecordDrafts(records) + [StopDraft(s)]);
    if emitted.ok {
      OrdinarySealFinished(env, s, records, emitted.state);
    } else {
      SealOpenRefused(env, s, records, emitted.state);
    }
  }

  lemma OrdinarySealFinished(env: Env, s: SessionState, records: seq<ArtifactRecord>, stopped: SessionState)
    requires OpenInv(env, s) && EnvOk(env, s) && NamesOk(s.retained) && Sealable(env, s)
    requires forall r | r in SortedRetained(s) :: r.path in AttemptFiles(env, s)
    requires records == RecordsFor(env, s, SortedRetained(s))
    requires EmitAll(env, s, RecordDrafts(records) + [StopDraft(s)]) == Emitted(stopped, true)
    requires stopped.files == s.files && stopped.plan == s.plan && LogOk(env, stopped) && stopped.events != []
    requires Updates(stopped.events) == Updates(s.events) && TerminalStatus(stopped.events) == Some(s.status)
    requires Completed(stopped.events)
    ensures var r := SealOpen(env, s);
            r.result.Ok? && (J.DirectoryAccepted(env, AttemptFiles(env, r.state)) <==> SchemasAccept(env, r.state))
  {
    NamesOkMeans(s.retained);
    LogRecordReady(env, stopped);
    PlainManifest(env, s, stopped);
    var appended := AppendAll(env.text, env.records, [], ManifestRecords(env, s, stopped));
    SealOpenAfter(env, s, records, stopped, appended);
    OrdinaryDirectoryJudged(env, s, stopped, appended.content);
  }
}
