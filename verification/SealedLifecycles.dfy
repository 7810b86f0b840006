/** When the stream of a sealed session is complete: its stops counted over a whole run. */
module SealedLifecycles {
  import opened Common
  import opened Events
  import opened Lifecycle
  import opened Budget
  import opened Manifest
  import opened Session
  import opened SessionInvariant
  import opened EndToEnd
  import opened SessionRuns
  import opened SealedRuns
  import P = RunPlans
  import C = Commands

  /** How many run-stopped events stand in a stream. */
  function Stops(es: seq<HarnessEvent>): nat {
    if es == [] then 0 else Stops(es[..|es| - 1]) + if es[|es| - 1].eventType.RunStopped? then 1 else 0
  }

  lemma {:induction false} NoStops(es: seq<HarnessEvent>)
    ensures Stops(es) == 0 <==> !Stopped(es)
  {
    if es != [] {
      var front, last := es[..|es| - 1], es[|es| - 1];
      NoStops(front);
      assert es == front + [last];
      StoppedConcat(front, [last]);
      assert [last][0] == last;
    }
  }

  predicate NoneStop(ds: seq<Draft>) {
    forall d | d in ds :: !d.eventType.RunStopped?
  }

  lemma EmittedStops(env: Env, s: SessionState, d: Draft)
    ensures Stops(AfterEmit(env, s, d).events) == Stops(s.events) + if d.eventType.RunStopped? then 1 else 0
  {
    var e := EventOf(env, s, d);
    assert (s.events + [e])[..|s.events|] == s.events;
  }

  /** Only a stop stops: other drafts leave the count, whether or not all are admitted. */
  lemma {:induction false} EmitStops(env: Env, s: SessionState, ds: seq<Draft>)
    requires NoneStop(ds)
    ensures Stops(EmitAll(env, s, ds).state.events) == Stops(s.events)
    decreases |ds|
  {
    if ds != [] && ValidEvent(env.rules, EventOf(env, s, ds[0])) {
      assert ds[0] in ds && forall d | d in ds[1..] :: d in ds;
      EmittedStops(env, s, ds[0]);
      EmitStops(env, AfterEmit(env, s, ds[0]), ds[1..]);
    }
  }

  lemma RecordsStopNothing(records: seq<ArtifactRecord>)
    ensures NoneStop(RecordDrafts(records))
  {
  }

  lemma SealingStops(env: Env, s: SessionState, records: seq<ArtifactRecord>)
    ensures var r := EmitAll(env, s, RecordDrafts(records) + [StopDraft(s)]);
            Stops(r.state.events) == Stops(s.events) + if r.ok then 1 else 0
  {
    RecordsStopNothing(records);
    EmitAllConcat(env, s, RecordDrafts(records), [StopDraft(s)]);
    EmitStops(env, s, RecordDrafts(records));
    OneStop(env, EmitAll(env, s, RecordDrafts(records)).state, StopDraft(s));
  }

  lemma OneStop(env: Env, s: SessionState, stop: Draft)
    requires stop.eventType.RunStopped?
    ensures var r := EmitAll(env, s, [stop]); Stops(r.state.events) == Stops(s.events) + if r.ok then 1 else 0
  {
    assert [stop][1..] == [];
    EmittedStops(env, s, stop);
  }

  // ----------------------------------------------------- what a call adds

  /** A session is sealed exactly once it has an outcome. */
  predicate Whole(s: SessionState) {
    s.isSealed <==> s.outcome.Some?
  }

  /** One more stop for a seal that succeeded on the way, and one for a seal refused over the manifest. */
  predicate StopsBetween(s: SessionState, t: SessionState, refused: bool) {
    && Whole(t) && (s.isSealed ==> t.isSealed)
    && Stops(t.events) == Stops(s.events) + (if t.isSealed && !s.isSealed then 1 else 0) + (if refused then 1 else 0)
  }

  lemma SealOpenStops(env: Env, s: SessionState)
    requires LogRecordAdmitted(env) && RetainedPresent(env, s) && !s.isSealed && s.outcome.None?
    ensures var r := SealOpen(env, s); StopsBetween(s, r.state, r.result == Err(ManifestRefused))
  {
    SortedPresent(env, s);
    var records := RecordsFor(env, s, SortedRetained(s));
    var ds := RecordDrafts(records) + [StopDraft(s)];
    SealingStops(env, s, records);
    EmitAllGrows(env, s, ds);
    LogRecordReady(env, EmitAll(env, s, ds).state);
  }

  lemma SealStops(env: Env, s: SessionState)
    requires LogRecordAdmitted(env) && Whole(s)
    ensures var r := Seal(env, s); StopsBetween(s, r.state, r.result == Err(ManifestRefused))
  {
    if !s.isSealed {
      SealCases(env, s);
      if Sealable(env, s) { SealOpenStops(env, s); }
    }
  }

  lemma CloseOverrunStops(env: Env, s: SessionState, ds: seq<Draft>, failure: Failure)
    requires LogRecordAdmitted(env) && Whole(s) && NoneStop(ds) && failure != ManifestRefused
    ensures var r := CloseOverrun(env, s, ds, failure); StopsBetween(s, r.state, r.result == Err(ManifestRefused))
  {
    EmitStops(env, s, ds);
    EmitAllGrows(env, s, ds);
    SealStops(env, EmitAll(env, s, ds).state);
  }

  lemma AccountingStopsNothing(ds: seq<Draft>)
    requires AccountingKinds(ds)
    ensures NoneStop(ds)
  {
  }

  lemma AttestStops(env: Env, s: SessionState, a: Accounting)
    requires LogRecordAdmitted(env) && Whole(s)
    ensures var r := AttestAccounting(env, s, a); StopsBetween(s, r.state, r.result == Err(ManifestRefused))
  {
    var t, ds, failure := AttestForms(env, s, a);
    AccountingStopsNothing(ds);
    EmitStops(env, t, ds);
    EmitAllGrows(env, t, ds);
    CloseOverrunStops(env, t, ds, failure);
  }

  lemma ResultStopsNothing(r: NormalizationResult)
    requires ResultOk(r)
    ensures NoneStop(ResultDrafts(r))
  {
  }

  lemma NormalizationStops(env: Env, s: SessionState, r: NormalizationResult)
    requires LogRecordAdmitted(env) && Whole(s) && ResultOk(r)
    ensures var n := ApplyNormalization(env, s, r); StopsBetween(s, n.state, n.result == Err(ManifestRefused))
  {
    if !s.isSealed && AuthorityOwned(env, s) && !s.normalizationApplied {
      ArtifactErrors(AttemptFiles(env, s).Keys, RetainedPaths(s.retained), r.artifacts);
      var s1 := s.(retained := s.retained + RawRetained(r.artifacts));
      ResultStopsNothing(r);
      EmitStops(env, s1, ResultDrafts(r));
      EmitAllGrows(env, s1, ResultDrafts(r));
      AttestStops(env, EmitAll(env, s1, ResultDrafts(r)).state.(normalizationApplied := true), r.accounting);
    }
  }

  lemma {:induction false} ArtifactErrors(present: set<string>, taken: set<string>, artifacts: seq<string>)
    ensures ArtifactFailure(present, taken, artifacts) != Some(ManifestRefused)
    decreases |artifacts|
  {
    if artifacts != [] { ArtifactErrors(present, taken + {artifacts[0]}, artifacts[1..]); }
  }

  lemma LaunchCloseStops(env: Env, s: SessionState)
    requires LogRecordAdmitted(env) && Whole(s)
    ensures var r := CloseLaunchFailure(env, s); StopsBetween(s, r.state, r.result == Err(ManifestRefused))
  {
    var zeros := Accounting(Some(0), Some(0), Some(0), Some(0));
    AttestStops(env, s, zeros);
    SealStops(env, s);
    SealStops(env, AttestAccounting(env, s, zeros).state);
  }

  // ------------------------------------------------------------- whole runs

  /** The call began a seal that the manifest file then refused. */
  predicate RefusedOverManifest(env: Env, s: SessionState, c: Call) {
    match c
    case Normalize(r) => ApplyNormalization(env, s, r).result == Err(ManifestRefused)
    case SealCall => Seal(env, s).result == Err(ManifestRefused)
    case LaunchClose => s.process.launchError.Some? && CloseLaunchFailure(env, s).result == Err(ManifestRefused)
    case External(_, _) => false
  }

  lemma CallStops(env: Env, s: SessionState, c: Call)
    requires LogRecordAdmitted(env) && Whole(s) && CallOk(c)
    ensures StopsBetween(s, AfterCall(env, s, c), RefusedOverManifest(env, s, c))
  {
    match c
    case Normalize(r) => NormalizationStops(env, s, r);
    case SealCall => SealStops(env, s);
    case LaunchClose => LaunchCloseStops(env, s);
    case External(path, content) =>
  }

  /** How many of the calls were refused over the manifest. */
  function Refusals(env: Env, s: SessionState, calls: seq<Call>): nat {
    if calls == [] then 0
    else
      var front, c := calls[..|calls| - 1], calls[|calls| - 1];
      Refusals(env, s, front) + if RefusedOverManifest(env, AfterCalls(env, s, front), c) then 1 else 0
  }

  lemma {:induction false} CallsStops(env: Env, s: SessionState, calls: seq<Call>)
    requires LogRecordAdmitted(env) && Whole(s) && !s.isSealed && forall c | c in calls :: CallOk(c)
    ensures var t := AfterCalls(env, s, calls);
            Whole(t) && Stops(t.events) == Stops(s.events) + Refusals(env, s, calls) + if t.isSealed then 1 else 0
  {
    if calls != [] {
      var front, c := calls[..|calls| - 1], calls[|calls| - 1];
      CallsStops(env, s, front);
      CallStops(env, AfterCalls(env, s, front), c);
    }
  }

  /** None of the calls was refused over the manifest. */
  predicate NeverRefused(env: Env, s: SessionState, calls: seq<Call>) {
    calls != [] ==>
      var front, c := calls[..|calls| - 1], calls[|calls| - 1];
      NeverRefused(env, s, front) && !RefusedOverManifest(env, AfterCalls(env, s, front), c)
  }

  lemma {:induction false} NoRefusals(env: Env, s: SessionState, calls: seq<Call>)
    ensures Refusals(env, s, calls) == 0 <==> NeverRefused(env, s, calls)
  {
    if calls != [] {
      NoRefusals(env, s, calls[..|calls| - 1]);
    }
  }

  lemma FreshStops(env: Env, start: SessionState, ds: seq<Draft>)
    requires start.events == [] && !start.isSealed && start.outcome.None? && NoneStop(ds)
    ensures var t := EmitAll(env, start, ds).state; Whole(t) && !t.isSealed && Stops(t.events) == 0
  {
    EmitStops(env, start, ds);
    EmitAllGrows(env, start, ds);
  }

  lemma OpeningDraftsStopless(env: Env, plan: P.RunPlan, command: C.CommandSpec, process: ProcessResult)
    ensures NoneStop(OpeningDrafts(env, plan, command, process))
  {
  }

  lemma OpenedUnstopped(env: Env, run: Run)
    requires Open(env, run.plan, run.command, run.process, run.left).Ok?
    ensures Whole(Opened(env, run)) && !Opened(env, run).isSealed && Stops(Opened(env, run).events) == 0
  {
    OpeningDraftsStopless(env, run.plan, run.command, run.process);
    FreshStops(env, Fresh(env, run.plan, run.command, run.process, run.left),
               OpeningDrafts(env, run.plan, run.command, run.process));
  }

  /** A sealed stream is complete exactly when its only stop is the last one. */
  lemma SealedCompletion(env: Env, u: SessionState, s: SessionState)
    requires Core(env, u) && EnvOk(env, u) && SealedBy(env, u, s)
    ensures Completed(s.events) <==> Stops(s.events) == 1
    ensures MANIFEST !in RetainedPaths(s.retained) ==> Completed(s.events)
  {
    SealedParts(env, u, s);
    SealOpenStops(env, u);
    SealedBySealed(env, u, s);
    NoStops(u.events);
    if EVENTS in RetainedPaths(u.retained) { RootLogNeverSeals(env, u); }
  }

  lemma FinalStops(env: Env, run: Run)
    requires Lawful(env, run) && Final(env, run).isSealed
    ensures Stops(Final(env, run).events) == 1 <==> NeverRefused(env, Opened(env, run), run.calls)
  {
    OpenedUnstopped(env, run);
    CallsStops(env, Opened(env, run), run.calls);
    NoRefusals(env, Opened(env, run), run.calls);
  }

  /**
   A sealed stream is complete exactly when no earlier seal of its run was begun and then refused over the
   manifest; without a declared root manifest that never happens.
   */
  lemma SealedLifecycleComplete(env: Env, run: Run)
    requires Lawful(env, run) && Final(env, run).isSealed
    ensures Completed(Final(env, run).events) <==> NeverRefused(env, Opened(env, run), run.calls)
    ensures MANIFEST !in RetainedPaths(Final(env, run).retained) ==> Completed(Final(env, run).events)
  {
    var u := SealedOrigin(env, run);
    SealedCompletion(env, u, Final(env, run));
    FinalStops(env, run);
  }
}
