/**
 What a seal leaves behind that the manifest file refused: records that stand in the way of every later seal,
 until somebody else rewrites that file.
 */
module ManifestRefusals {
  import opened Common
  import opened Events
  import opened Lifecycle
  import opened Budget
  import opened Manifest
  import opened AttemptDirectories
  import opened Session
  import opened SessionInvariant
  import opened EndToEnd
  import opened SessionRuns
  import opened SealedRuns
  import opened SealedLifecycles

  /** An open session no seal can finish: it declares the root's event log, or its manifest file is in the way. */
  predicate Stuck(env: Env, s: SessionState) {
    && !s.isSealed && s.outcome.None?
    && (EVENTS in RetainedPaths(s.retained) || !ManifestFree(env, s))
  }

  /**
   What an operation does to a session that may be stuck: one that is stays so, a refusal over the manifest
   makes it so and happens under a declared root name only, and nothing but `names` is declared.
   */
  predicate Blocks(env: Env, s: SessionState, t: SessionState, names: set<string>, refused: bool) {
    && RetainedOk(t) && RetainedPaths(s.retained) <= RetainedPaths(t.retained) <= RetainedPaths(s.retained) + names
    && (Stuck(env, s) ==> Stuck(env, t))
    && (refused ==> Stuck(env, t) && !PlainNames(t.retained))
  }

  lemma BlocksThen(env: Env, s: SessionState, t: SessionState, u: SessionState, names: set<string>, refused: bool)
    requires Blocks(env, s, t, names, false) && Blocks(env, t, u, {}, refused)
    ensures Blocks(env, s, u, names, refused)
  {
  }

  /** More declared names leave less room in the same manifest file. */
  lemma SameManifest(env: Env, s: SessionState, t: SessionState)
    requires ContentOf(t.files, MANIFEST) == ContentOf(s.files, MANIFEST)
    requires RetainedPaths(s.retained) <= RetainedPaths(t.retained) && ManifestFree(env, t)
    ensures ManifestFree(env, s)
  {
  }

  lemma LeavesManifest(env: Env, s: SessionState, t: SessionState, names: set<string>)
    requires RetainedOk(t) && t.isSealed == s.isSealed && t.outcome == s.outcome
    requires ContentOf(t.files, MANIFEST) == ContentOf(s.files, MANIFEST)
    requires RetainedPaths(s.retained) <= RetainedPaths(t.retained) <= RetainedPaths(s.retained) + names
    ensures Blocks(env, s, t, names, false)
  {
    if ManifestFree(env, t) { SameManifest(env, s, t); }
  }

  // ------------------------------------------------------------ one refusal

  /** The content a refusal leaves holds one of the paths still to be recorded, or cannot be read. */
  lemma RefusedContent(env: Env, s: SessionState, written: SessionState, records: seq<ArtifactRecord>)
    requires written.retained == s.retained && Paths(records) == RetainedPaths(s.retained) + {EVENTS}
    requires AppendAll(env.text, env.records, ContentOf(s.files, MANIFEST), records).error.Some?
    requires ContentOf(written.files, MANIFEST)
          == AppendAll(env.text, env.records, ContentOf(s.files, MANIFEST), records).content
    ensures !ManifestFree(env, written)
  {
    AppendAllBlocks(env.text, env.records, ContentOf(s.files, MANIFEST), records);
    var left := ReadRecords(env.text, env.records, ContentOf(written.files, MANIFEST));
    if left.Ok? {
      var r :| r in records && r.path in Paths(left.value);
      assert r.path in Paths(records);
    }
  }

  /** Only a declared root name brings the manifest file to refuse. */
  lemma RefusedUnderRootName(env: Env, s: SessionState)
    requires FilesDeclared(env, s) && !(EVENTS !in RetainedPaths(s.retained) && ManifestFree(env, s))
    ensures !PlainNames(s.retained)
  {
    if PlainNames(s.retained) {
      HarnessNames();
      assert MANIFEST !in AttemptFiles(env, s);
      EmptyManifest(env);
    }
  }

  lemma EmptyManifest(env: Env)
    ensures ReadRecords(env.text, env.records, []) == Ok([]) && EndsLine([]) && Paths([]) == {}
  {
  }

  /** What became of the manifest file decides whether the session is stuck. */
  lemma WrittenBlocks(env: Env, s: SessionState, records: seq<ArtifactRecord>, r: Step<ExecutionOutcome>)
    requires RetainedOk(s) && FilesDeclared(env, s) && !s.isSealed && s.outcome.None?
    requires Paths(records) == RetainedPaths(s.retained) + {EVENTS} && r.state.retained == s.retained
    requires var appended := AppendAll(env.text, env.records, ContentOf(s.files, MANIFEST), records);
             && (appended.error.None? <==> EVENTS !in RetainedPaths(s.retained) && ManifestFree(env, s))
             && (r.result == Err(ManifestRefused) ==> appended.error.Some?)
             && ContentOf(r.state.files, MANIFEST) == appended.content
             && (appended.error.Some? ==> !r.state.isSealed && r.state.outcome.None?)
    ensures Blocks(env, s, r.state, {}, r.result == Err(ManifestRefused))
  {
    if AppendAll(env.text, env.records, ContentOf(s.files, MANIFEST), records).error.Some? {
      RefusedContent(env, s, r.state, records);
      RefusedUnderRootName(env, s);
    }
  }

  /** Begun behind open gates and refused, the seal leaves the session stuck. */
  lemma SealOpenBlocks(env: Env, s: SessionState)
    requires env.text.Lawful() && LogRecordAdmitted(env) && RetainedOk(s) && Sealable(env, s)
    requires !s.isSealed && s.outcome.None?
    ensures var r := SealOpen(env, s); Blocks(env, s, r.state, {}, r.result == Err(ManifestRefused))
  {
    RetainedRecords(env, s);
    var records := RecordsFor(env, s, SortedRetained(s));
    var emitted := EmitAll(env, s, RecordDrafts(records) + [StopDraft(s)]);
    EmitAllGrows(env, s, RecordDrafts(records) + [StopDraft(s)]);
    if emitted.ok {
      StoppedBlocks(env, s, records, emitted.state);
    } else {
      SealOpenRefused(env, s, records, emitted.state);
      LeavesManifest(env, s, emitted.state, {});
    }
  }

  lemma StoppedBlocks(env: Env, s: SessionState, records: seq<ArtifactRecord>, stopped: SessionState)
    requires env.text.Lawful() && LogRecordAdmitted(env) && RetainedOk(s) && Sealable(env, s)
    requires !s.isSealed && s.outcome.None?
    requires forall r | r in SortedRetained(s) :: r.path in AttemptFiles(env, s)
    requires records == RecordsFor(env, s, SortedRetained(s))
    requires EmitAll(env, s, RecordDrafts(records) + [StopDraft(s)]) == Emitted(stopped, true)
    requires stopped == s.(events := stopped.events, sequence := stopped.sequence)
    ensures var r := SealOpen(env, s); Blocks(env, s, r.state, {}, r.result == Err(ManifestRefused))
  {
    RetainedRecords(env, s);
    RecordsReady(env, s);
    LogRecordReady(env, stopped);
    var last := EventLogRecord(env, stopped);
    PathsAddOne(records, last);
    ManifestExactly(env, ContentOf(s.files, MANIFEST), records, last);
    SealOpenAfter(env, s, records, stopped,
                  AppendAll(env.text, env.records, ContentOf(s.files, MANIFEST), records + [last]));
    WrittenBlocks(env, s, records + [last], SealOpen(env, s));
  }

  lemma SealBlocks(env: Env, s: SessionState)
    requires env.text.Lawful() && LogRecordAdmitted(env) && RetainedOk(s) && Whole(s)
    ensures var r := Seal(env, s); Blocks(env, s, r.state, {}, r.result == Err(ManifestRefused))
  {
    if !s.isSealed {
      SealCases(env, s);
      if Sealable(env, s) { SealOpenBlocks(env, s); }
    }
  }

  // ----------------------------------------------------- what a call does

  lemma EmissionBlocks(env: Env, s: SessionState, t: SessionState, ds: seq<Draft>)
    requires RetainedOk(s) && Whole(s) && SameButAccounting(s, t)
    ensures var u := EmitAll(env, t, ds).state; Blocks(env, s, u, {}, false) && RetainedOk(u) && Whole(u)
  {
    EmitAllGrows(env, t, ds);
    LeavesManifest(env, s, EmitAll(env, t, ds).state, {});
  }

  lemma CloseOverrunBlocks(env: Env, s: SessionState, t: SessionState, ds: seq<Draft>, failure: Failure)
    requires env.text.Lawful() && LogRecordAdmitted(env) && RetainedOk(s) && Whole(s) && SameButAccounting(s, t)
    requires failure != ManifestRefused
    ensures var r := CloseOverrun(env, t, ds, failure); Blocks(env, s, r.state, {}, r.result == Err(ManifestRefused))
  {
    EmissionBlocks(env, s, t, ds);
    var u := EmitAll(env, t, ds).state;
    SealBlocks(env, u);
    BlocksThen(env, s, u, Seal(env, u).state, {}, Seal(env, u).result == Err(ManifestRefused));
  }

  lemma AttestBlocks(env: Env, s: SessionState, a: Accounting)
    requires env.text.Lawful() && LogRecordAdmitted(env) && RetainedOk(s) && Whole(s)
    ensures var r := AttestAccounting(env, s, a); Blocks(env, s, r.state, {}, r.result == Err(ManifestRefused))
  {
    var t, ds, failure := AttestForms(env, s, a);
    EmissionBlocks(env, s, t, ds);
    CloseOverrunBlocks(env, s, t, ds, failure);
  }

  lemma RawPaths(rs: seq<Retained>, artifacts: seq<string>)
    ensures RetainedPaths(rs + RawRetained(artifacts)) == RetainedPaths(rs) + Elements(artifacts)
  {
    var raw := RawRetained(artifacts);
    assert forall r :: r in rs + raw <==> r in rs || r in raw;
    forall path ensures path in RetainedPaths(raw) <==> path in Elements(artifacts) {
      if path in Elements(artifacts) {
        var i :| 0 <= i < |artifacts| && artifacts[i] == path;
        assert raw[i] in raw;
      }
    }
  }

  lemma DeclaredBlocks(env: Env, s: SessionState, r: NormalizationResult, applied: bool)
    requires RetainedOk(s) && Whole(s)
    requires ArtifactFailure(AttemptFiles(env, s).Keys, RetainedPaths(s.retained), r.artifacts).None?
    ensures var t := EmitAll(env, Declared(s, r), ResultDrafts(r)).state.(normalizationApplied := applied);
            Blocks(env, s, t, Elements(r.artifacts), false) && RetainedOk(t) && Whole(t)
  {
    EmitAllGrows(env, Declared(s, r), ResultDrafts(r));
    ArtifactsDistinct(AttemptFiles(env, s).Keys, s.retained, r.artifacts);
    MoreRetained(s, RawRetained(r.artifacts));
    RawPaths(s.retained, r.artifacts);
    var t := EmitAll(env, Declared(s, r), ResultDrafts(r)).state.(normalizationApplied := applied);
    LeavesManifest(env, s, t, Elements(r.artifacts));
  }

  lemma NormalizationBlocks(env: Env, s: SessionState, r: NormalizationResult)
    requires env.text.Lawful() && LogRecordAdmitted(env) && RetainedOk(s) && Whole(s)
    ensures var n := ApplyNormalization(env, s, r);
            Blocks(env, s, n.state, Elements(r.artifacts), n.result == Err(ManifestRefused))
  {
    ArtifactErrors(AttemptFiles(env, s).Keys, RetainedPaths(s.retained), r.artifacts);
    var failure := ArtifactFailure(AttemptFiles(env, s).Keys, RetainedPaths(s.retained), r.artifacts);
    if !s.isSealed && AuthorityOwned(env, s) && !s.normalizationApplied && failure.None? {
      var emitted := EmitAll(env, Declared(s, r), ResultDrafts(r));
      DeclaredBlocks(env, s, r, emitted.state.normalizationApplied);
      DeclaredBlocks(env, s, r, true);
      var t := emitted.state.(normalizationApplied := true);
      AttestBlocks(env, t, r.accounting);
      var a := AttestAccounting(env, t, r.accounting);
      BlocksThen(env, s, t, a.state, Elements(r.artifacts), a.result == Err(ManifestRefused));
    }
  }

  /** A seal behind an accounting that went through, and none behind one that did not. */
  lemma ThenSealBlocks(env: Env, s: SessionState, t: Step<()>)
    requires env.text.Lawful() && LogRecordAdmitted(env) && Whole(t.state)
    requires Blocks(env, s, t.state, {}, t.result == Err(ManifestRefused))
    ensures var r := if t.result.Err? then Step(t.state, Err(t.result.error)) else Seal(env, t.state);
            Blocks(env, s, r.state, {}, r.result == Err(ManifestRefused))
  {
    if t.result.Ok? {
      SealBlocks(env, t.state);
      BlocksThen(env, s, t.state, Seal(env, t.state).state, {}, Seal(env, t.state).result == Err(ManifestRefused));
    }
  }

  lemma LaunchCloseBlocks(env: Env, s: SessionState)
    requires env.text.Lawful() && LogRecordAdmitted(env) && RetainedOk(s) && Whole(s)
    ensures var r := CloseLaunchFailure(env, s); Blocks(env, s, r.state, {}, r.result == Err(ManifestRefused))
  {
    var zeros := Accounting(Some(0), Some(0), Some(0), Some(0));
    if s.command.projection.HasUsage() {
      AttestBlocks(env, s, zeros);
      AttestStops(env, s, zeros);
      ThenSealBlocks(env, s, AttestAccounting(env, s, zeros));
    } else {
      SealBlocks(env, s);
    }
  }

  /** Somebody else writes or removes the manifest file. */
  predicate RewritesManifest(c: Call) {
    c.External? && c.path == MANIFEST
  }

  /** What a call may declare. */
  function Names(c: Call): set<string> {
    if c.Normalize? then Elements(c.result.artifacts) else {}
  }

  lemma CallBlocks(env: Env, s: SessionState, c: Call)
    requires env.text.Lawful() && LogRecordAdmitted(env) && RetainedOk(s) && Whole(s)
    requires RewritesManifest(c) ==> EVENTS in RetainedPaths(s.retained) || !Stuck(env, s)
    ensures Blocks(env, s, AfterCall(env, s, c), Names(c), RefusedOverManifest(env, s, c))
  {
    match c
    case Normalize(r) => NormalizationBlocks(env, s, r);
    case SealCall => SealBlocks(env, s);
    case LaunchClose => LaunchCloseBlocks(env, s);
    case External(path, content) =>
      if path != MANIFEST { LeavesManifest(env, s, AfterExternal(s, path, content), {}); }
  }

  // ------------------------------------------------------------- whole runs

  /** From a stuck session on, calls that leave the manifest file alone never seal. */
  lemma {:induction false} StuckStays(env: Env, s: SessionState, calls: seq<Call>)
    requires env.text.Lawful() && LogRecordAdmitted(env) && RetainedOk(s) && Whole(s) && Stuck(env, s)
    requires forall c | c in calls :: CallOk(c) && !RewritesManifest(c)
    ensures var t := AfterCalls(env, s, calls); Stuck(env, t) && RetainedOk(t) && Whole(t)
  {
    if calls != [] {
      var front, c := calls[..|calls| - 1], calls[|calls| - 1];
      StuckStays(env, s, front);
      CallBlocks(env, AfterCalls(env, s, front), c);
      CallStops(env, AfterCalls(env, s, front), c);
    }
  }

  /**
   A seal refused over the manifest ends a run's sealing: until somebody else rewrites that file, whatever is
   called, the session stays open and its manifest stays in the way.
   */
  lemma RefusedNeverSeals(env: Env, run: Run, before: seq<Call>, c: Call, after: seq<Call>)
    requires Lawful(env, run) && run.calls == before + [c] + after
    requires RefusedOverManifest(env, AfterCalls(env, Opened(env, run), before), c)
    requires forall d | d in after :: !RewritesManifest(d)
    ensures Stuck(env, Final(env, run)) && !Seal(env, Final(env, run)).result.Ok?
  {
    var o := Opened(env, run);
    OpenedWhole(env, run);
    assert forall d | d in before :: d in run.calls;
    assert forall d | d in after :: d in run.calls;
    assert c in run.calls;
    CallsWhole(env, o, before);
    var s := AfterCalls(env, o, before);
    CallBlocks(env, s, c);
    CallStops(env, s, c);
    CallsConcat(env, o, before + [c], after);
    CallsConcat(env, o, before, [c]);
    OneCall(env, s, c);
    StuckStays(env, AfterCall(env, s, c), after);
    SealsExactlyWhen(env, run);
  }

  lemma OpenedWhole(env: Env, run: Run)
    requires Lawful(env, run)
    ensures RetainedOk(Opened(env, run)) && Whole(Opened(env, run)) && !Opened(env, run).isSealed
  {
    OpenedUnstopped(env, run);
    RunKeeps(env, run);
  }

  lemma {:induction false} CallsWhole(env: Env, s: SessionState, calls: seq<Call>)
    requires env.text.Lawful() && LogRecordAdmitted(env) && RetainedOk(s) && Whole(s)
    requires forall c | c in calls :: CallOk(c)
    ensures RetainedOk(AfterCalls(env, s, calls)) && Whole(AfterCalls(env, s, calls))
  {
    if calls != [] {
      var front, c := calls[..|calls| - 1], calls[|calls| - 1];
      CallsWhole(env, s, front);
      CallWhole(env, AfterCalls(env, s, front), c);
    }
  }

  lemma CallWhole(env: Env, s: SessionState, c: Call)
    requires env.text.Lawful() && LogRecordAdmitted(env) && RetainedOk(s) && Whole(s) && CallOk(c)
    ensures RetainedOk(AfterCall(env, s, c)) && Whole(AfterCall(env, s, c))
    ensures RetainedPaths(AfterCall(env, s, c).retained) <= RetainedPaths(s.retained) + Names(c)
  {
    if !RewritesManifest(c) { CallBlocks(env, s, c); }
    CallStops(env, s, c);
  }

  // -------------------------------------------------- a condition on the calls

  predicate DeclaresManifest(c: Call) {
    MANIFEST in Names(c)
  }

  /** Nobody else rewrites the manifest file behind a call that declares it. */
  predicate ManifestLeftAlone(calls: seq<Call>) {
    forall i, j | 0 <= i < j < |calls| && DeclaresManifest(calls[i]) :: !RewritesManifest(calls[j])
  }

  predicate ManifestDeclared(calls: seq<Call>) {
    exists i | 0 <= i < |calls| :: DeclaresManifest(calls[i])
  }

  lemma DeclaredInFront(calls: seq<Call>)
    requires calls != []
    ensures ManifestDeclared(calls) <==> ManifestDeclared(calls[..|calls| - 1]) || DeclaresManifest(calls[|calls| - 1])
    ensures ManifestLeftAlone(calls) ==> ManifestLeftAlone(calls[..|calls| - 1])
    ensures ManifestLeftAlone(calls) && RewritesManifest(calls[|calls| - 1]) ==> !ManifestDeclared(calls[..|calls| - 1])
  {
    var front := calls[..|calls| - 1];
    if ManifestDeclared(calls) && !DeclaresManifest(calls[|calls| - 1]) {
      var i :| 0 <= i < |calls| && DeclaresManifest(calls[i]);
      assert front[i] == calls[i];
    }
    if ManifestDeclared(front) {
      var i :| 0 <= i < |front| && DeclaresManifest(front[i]);
      assert calls[i] == front[i];
    }
    if ManifestLeftAlone(calls) {
      forall i, j | 0 <= i < j < |front| && DeclaresManifest(front[i]) ensures !RewritesManifest(front[j]) {
        assert front[i] == calls[i] && front[j] == calls[j];
      }
    }
  }

  /** Up to here no seal was refused over the manifest, or the session is stuck for good. */
  predicate Undoubted(env: Env, o: SessionState, calls: seq<Call>) {
    var t := AfterCalls(env, o, calls);
    && (MANIFEST in RetainedPaths(t.retained) ==> ManifestDeclared(calls))
    && (NeverRefused(env, o, calls)
        || (Stuck(env, t) && (EVENTS in RetainedPaths(t.retained) || ManifestDeclared(calls))))
  }

  lemma UndoubtedNext(env: Env, o: SessionState, calls: seq<Call>)
    requires env.text.Lawful() && LogRecordAdmitted(env) && calls != []
    requires var s := AfterCalls(env, o, calls[..|calls| - 1]); RetainedOk(s) && Whole(s)
    requires Undoubted(env, o, calls[..|calls| - 1]) && ManifestLeftAlone(calls)
    ensures Undoubted(env, o, calls)
  {
    var front, c := calls[..|calls| - 1], calls[|calls| - 1];
    var s := AfterCalls(env, o, front);
    DeclaredInFront(calls);
    if RewritesManifest(c) && NeverRefused(env, o, front) {
      assert AfterCall(env, s, c).retained == s.retained;
    } else {
      CallBlocks(env, s, c);
    }
  }

  lemma {:induction false} LeftAloneUndoubted(env: Env, o: SessionState, calls: seq<Call>)
    requires env.text.Lawful() && LogRecordAdmitted(env) && RetainedOk(o) && Whole(o)
    requires MANIFEST !in RetainedPaths(o.retained)
    requires (forall c | c in calls :: CallOk(c)) && ManifestLeftAlone(calls)
    ensures Undoubted(env, o, calls)
  {
    if calls != [] {
      var front := calls[..|calls| - 1];
      DeclaredInFront(calls);
      LeftAloneUndoubted(env, o, front);
      CallsWhole(env, o, front);
      UndoubtedNext(env, o, calls);
    }
  }

  /**
   A condition on the calls alone: while nobody else rewrites the manifest file behind a call that declares it,
   every sealed stream is complete.
   */
  lemma CompleteWhenLeftAlone(env: Env, run: Run)
    requires Lawful(env, run) && Final(env, run).isSealed && ManifestLeftAlone(run.calls)
    ensures Completed(Final(env, run).events)
  {
    OpenedWhole(env, run);
    OpenedNames(env, run);
    LeftAloneUndoubted(env, Opened(env, run), run.calls);
    SealedLifecycleComplete(env, run);
  }

  lemma OpenedNames(env: Env, run: Run)
    requires Lawful(env, run)
    ensures MANIFEST !in RetainedPaths(Opened(env, run).retained)
  {
    OpenedRetained(env, run);
    RootNamesApart();
  }

  lemma OpenedRetained(env: Env, run: Run)
    requires Open(env, run.plan, run.command, run.process, run.left).Ok?
    ensures Opened(env, run).retained == HARNESS_RETAINED
  {
    EmitAllGrows(env, Fresh(env, run.plan, run.command, run.process, run.left),
                 OpeningDrafts(env, run.plan, run.command, run.process));
  }
}
