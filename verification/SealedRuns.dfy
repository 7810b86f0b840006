/** The theorems about whole runs: from opening, through any calls, to the validator's verdict. */
module SealedRuns {
  import opened Common
  import opened Events
  import opened Lifecycle
  import opened Budget
  import opened BudgetHistory
  import opened Session
  import opened SessionInvariant
  import opened EndToEnd
  import opened SessionRuns
  import J = DirectoryJudge
  import opened AttemptDirectories
  import Manifest
  import Sorting
  import P = RunPlans
  import C = Commands

  /** One authorised run: how it was opened, and every call made on the session since. */
  datatype Run = Run(plan: P.RunPlan, command: C.CommandSpec, process: ProcessResult, left: map<string, Bytes>,
                     calls: seq<Call>)

  /**
   What the runs are assumed to satisfy: the typed constructors accepted plan and command, the process
   result respects the output quota, nobody else wrote the contracts or the event log, and the
   constructors admit the session's own accounting events and its record of the log.
   */
  ghost predicate Lawful(env: Env, run: Run) {
    && env.text.Lawful() && AccountingAdmitted(env, run.plan.identity.runId) && LogRecordAdmitted(env)
    && P.PlanOk(env.plans, run.plan) && C.Construct(env.commands, run.command) == Ok(run.command)
    && ProcessOk(run.plan, run.process)
    && run.left.Keys !! PROTECTED
    && (forall c | c in run.calls :: CallOk(c))
    && Open(env, run.plan, run.command, run.process, run.left).Ok?
  }

  function Opened(env: Env, run: Run): SessionState
    requires Open(env, run.plan, run.command, run.process, run.left).Ok?
  {
    Open(env, run.plan, run.command, run.process, run.left).value
  }

  /** The session after all calls of the run. */
  function Final(env: Env, run: Run): SessionState
    requires Open(env, run.plan, run.command, run.process, run.left).Ok?
  {
    AfterCalls(env, Opened(env, run), run.calls)
  }

  lemma RunKeeps(env: Env, run: Run)
    requires Lawful(env, run)
    ensures Core(env, Opened(env, run)) && From(Opened(env, run), Opened(env, run)) && EnvOk(env, Opened(env, run))
    ensures RunInv(env, Opened(env, run), Final(env, run)) && Final(env, run).plan == run.plan
  {
    OpenKeeps(env, run.plan, run.command, run.process, run.left);
    CallsKeep(env, Opened(env, run), run.calls);
  }

  lemma FixedFrom(env: Env, o: SessionState, s: SessionState)
    requires FixedOk(env, o) && From(o, s) && EVENTS !in s.files
    ensures FixedOk(env, s)
  {
  }

  /** The open session a sealed one was sealed from. */
  lemma SealedOrigin(env: Env, run: Run) returns (u: SessionState)
    requires Lawful(env, run) && Final(env, run).isSealed
    ensures OpenInv(env, u) && EnvOk(env, u) && SealedBy(env, u, Final(env, run))
  {
    var o := Opened(env, run);
    OpenKeeps(env, run.plan, run.command, run.process, run.left);
    RunKeeps(env, run);
    u :| Core(env, u) && From(o, u) && SealedBy(env, u, Final(env, run));
    FixedFrom(env, o, u);
  }

  /** What sealing carries over from the open session, and what it adds. */
  lemma SealedParts(env: Env, u: SessionState, s: SessionState)
    requires Core(env, u) && env.text.Lawful() && SealedBy(env, u, s)
    ensures s.retained == u.retained && s.plan == u.plan && s.command == u.command && s.status == u.status
    ensures LogOk(env, s) && Updates(s.events) == Updates(u.events)
    ensures TerminalStatus(s.events) == Some(s.status)
    ensures Completed(s.events) <==> !Stopped(u.events)
  {
    SortedPresent(env, u);
    var records := RecordsFor(env, u, SortedRetained(u));
    SealEmission(env, u, records);
    SealedStops(env, u, records);
    SameLog(env, EmitAll(env, u, RecordDrafts(records) + [StopDraft(u)]).state, s);
  }

  lemma SealedStops(env: Env, u: SessionState, records: seq<Manifest.ArtifactRecord>)
    requires RetainedPresent(env, u) && (forall r | r in SortedRetained(u) :: r.path in AttemptFiles(env, u))
    requires records == RecordsFor(env, u, SortedRetained(u)) && SealOpen(env, u).result.Ok?
    ensures var e := EmitAll(env, u, RecordDrafts(records) + [StopDraft(u)]); var s := SealOpen(env, u).state;
            e.ok && s.events == e.state.events && s.sequence == e.state.sequence && s.plan == e.state.plan
            && s == u.(events := s.events, sequence := s.sequence, files := s.files, outcome := s.outcome,
                       isSealed := true)
  {
    EmitAllGrows(env, u, RecordDrafts(records) + [StopDraft(u)]);
  }

  // ---------------------------------------------------------- main theorems

  /**
   Whatever is called on an opened session, in whatever order: if it ends sealed, the validator accepts
   its directory exactly when no declared artifact takes a name the validator reads specially and the
   schemas accept the plan and the events.
   */
  lemma SealedDirectoryVerdict(env: Env, run: Run)
    requires Lawful(env, run) && Final(env, run).isSealed
    ensures J.DirectoryAccepted(env, AttemptFiles(env, Final(env, run)))
       <==> NamesOk(Final(env, run).retained) && SchemasAccept(env, Final(env, run))
  {
    var u := SealedOrigin(env, run);
    SealedVerdict(env, u);
    SealedParts(env, u, Final(env, run));
  }

  /** Every session, open or sealed: events numbered 1..n, all of this run and attempt, all well owned. */
  lemma EveryRunIsNumbered(env: Env, run: Run)
    requires Lawful(env, run)
    ensures LogOk(env, Final(env, run))
    ensures ReadEvents(env.text, env.rules, LogBytes(env.text, Final(env, run).events)) == Ok(Final(env, run).events)
  {
    var o, s := Opened(env, run), Final(env, run);
    RunKeeps(env, run);
    if !Core(env, s) {
      var u :| Core(env, u) && From(o, u) && SealedBy(env, u, s);
      SealedParts(env, u, s);
    }
    SessionLogConsistent(env, s);
  }

  /** Whatever the names, process result, projection and accounting: a sealed budget history is acceptable. */
  lemma SealedHistoryAccepted(env: Env, run: Run)
    requires Lawful(env, run) && Final(env, run).isSealed
    ensures var s := Final(env, run);
            HistoryAccepted(Updates(s.events), TerminalStatus(s.events), s.plan.budget, s.command.projection)
  {
    var u := SealedOrigin(env, run);
    SealedParts(env, u, Final(env, run));
    FixedHistoryAccepted(env, u);
  }

  /**
   Budget soundness over whole runs: when an adapter reports use inside the authorised projection,
   accounting can pass the plan's budget on wall time only, and the status was then already the terminal one.
   */
  lemma AccountingPassesOnlyWallTime(env: Env, run: Run, a: Accounting, u: Unit)
    requires Lawful(env, run) && !Final(env, run).isSealed && Final(env, run).accounting.None? && a.Valid()
    requires !ProjectionViolated(run.command.projection, a)
    requires Exceeds(run.plan.budget, u, Final(env, run).usage.Plus(UsageOf(run.command.projection, a, 0, 0)).Of(u))
    ensures u == WallSeconds && Final(env, run).status == BUDGET_EXCEEDED
  {
    var o, s := Opened(env, run), Final(env, run);
    OpenKeeps(env, run.plan, run.command, run.process, run.left);
    OpenedContracts(env, run);
    RunKeeps(env, run);
    if !Core(env, s) {
      var v :| Core(env, v) && From(o, v) && SealedBy(env, v, s);
      SealedBySealed(env, v, s);
      assert false;
    }
    OpenFrom(env, o, s);
    AccountingExceedsOnlyWallTime(env, s, a, u);
  }

  lemma OpenedContracts(env: Env, run: Run)
    requires Open(env, run.plan, run.command, run.process, run.left).Ok?
    ensures Opened(env, run).command == run.command && Opened(env, run).process == run.process
            && Opened(env, run).plan == run.plan
  {
    EmitAllGrows(env, Fresh(env, run.plan, run.command, run.process, run.left),
                 OpeningDrafts(env, run.plan, run.command, run.process));
  }

  lemma OpenFrom(env: Env, o: SessionState, s: SessionState)
    requires RunInv(env, o, s) && !s.isSealed
    ensures From(o, s)
  {
    if !(Core(env, s) && From(o, s)) {
      var u :| Core(env, u) && From(o, u) && SealedBy(env, u, s);
      SealedBySealed(env, u, s);
      assert false;
    }
  }

  /**
   The authority guard never fires: an open session's overruns always have their terminal status, its command
   its digest.
   */
  lemma AuthorityNeverLost(env: Env, run: Run)
    requires Lawful(env, run) && !Final(env, run).isSealed
    ensures AuthorityOwned(env, Final(env, run))
  {
    var o, s := Opened(env, run), Final(env, run);
    OpenKeeps(env, run.plan, run.command, run.process, run.left);
    RunKeeps(env, run);
    OpenFrom(env, o, s);
    OpenInOrder(env, o, s);
    OwnedInOrder(env, o, s);
  }

  lemma OpenInOrder(env: Env, o: SessionState, s: SessionState)
    requires RunInv(env, o, s) && !s.isSealed
    ensures Core(env, s)
  {
    if !(Core(env, s) && From(o, s)) {
      var u :| Core(env, u) && From(o, u) && SealedBy(env, u, s);
      SealedBySealed(env, u, s);
      assert false;
    }
  }

  lemma OwnedInOrder(env: Env, o: SessionState, s: SessionState)
    requires FixedOk(env, o) && From(o, s) && StatusOk(s)
    ensures AuthorityOwned(env, s)
  {
  }

  /** The event constructor admits the records of the retained files and the stop, from where the log stands. */
  predicate SealingAdmitted(env: Env, s: SessionState)
    requires RetainedPresent(env, s)
  {
    Sorting.SortMembers(PATH, s.retained);
    EmitAll(env, s, RecordDrafts(RecordsFor(env, s, SortedRetained(s))) + [StopDraft(s)]).ok
  }

  /** What stands in the manifest file can be read and continued, and records none of the files to be recorded. */
  predicate ManifestFree(env: Env, s: SessionState) {
    var before := ContentOf(s.files, MANIFEST);
    var existing := Manifest.ReadRecords(env.text, env.records, before);
    Manifest.EndsLine(before) && existing.Ok? && Manifest.Paths(existing.value) !! RetainedPaths(s.retained) + {EVENTS}
  }

  /**
   When an open session seals: every file is declared, every declared file is there and can be recorded,
   projected use is accounted for, the sealing events are admitted, the root's event log is not declared,
   and nothing stands in the way in the manifest file. Nothing else can stop it.
   */
  lemma SealsExactlyWhen(env: Env, run: Run)
    requires Lawful(env, run) && !Final(env, run).isSealed
    ensures var s := Final(env, run);
            Seal(env, s).result.Ok? <==>
              && Sealable(env, s) && SealingAdmitted(env, s)
              && EVENTS !in RetainedPaths(s.retained) && ManifestFree(env, s)
  {
    OpenSessionInOrder(env, run);
    AuthorityNeverLost(env, run);
    OwnedSealsExactlyWhen(env, Final(env, run));
  }

  lemma OpenSessionInOrder(env: Env, run: Run)
    requires Lawful(env, run) && !Final(env, run).isSealed
    ensures Core(env, Final(env, run))
  {
    RunKeeps(env, run);
    OpenInOrder(env, Opened(env, run), Final(env, run));
  }

  lemma OwnedSealsExactlyWhen(env: Env, s: SessionState)
    requires env.text.Lawful() && LogRecordAdmitted(env) && Core(env, s) && AuthorityOwned(env, s)
    ensures Seal(env, s).result.Ok? <==>
              && Sealable(env, s) && SealingAdmitted(env, s)
              && EVENTS !in RetainedPaths(s.retained) && ManifestFree(env, s)
  {
    SealGates(env, s);
    if Sealable(env, s) {
      SealOpenExactly(env, s);
    }
  }

  /** Behind an owned authority only the gates of sealing stand before the seal. */
  lemma SealGates(env: Env, s: SessionState)
    requires !s.isSealed && s.outcome.None? && AuthorityOwned(env, s)
    ensures Seal(env, s).result.Ok? ==> Sealable(env, s)
    ensures Sealable(env, s) ==> Seal(env, s) == SealOpen(env, s)
  {
  }

  lemma SealOpenExactly(env: Env, s: SessionState)
    requires env.text.Lawful() && LogRecordAdmitted(env) && RetainedOk(s) && Sealable(env, s)
    ensures SealOpen(env, s).result.Ok?
       <==> SealingAdmitted(env, s) && EVENTS !in RetainedPaths(s.retained) && ManifestFree(env, s)
  {
    RetainedRecords(env, s);
    RecordsReady(env, s);
    var records := RecordsFor(env, s, SortedRetained(s));
    EmitAllGrows(env, s, RecordDrafts(records) + [StopDraft(s)]);
    var emitted := EmitAll(env, s, RecordDrafts(records) + [StopDraft(s)]);
    var last := EventLogRecord(env, emitted.state);
    if emitted.ok {
      LogRecordReady(env, emitted.state);
      ManifestExactly(env, ContentOf(s.files, MANIFEST), records, last);
      SealOpenAfter(env, s, records, emitted.state,
                    Manifest.AppendAll(env.text, env.records, ContentOf(s.files, MANIFEST), records + [last]));
    } else {
      SealOpenRefused(env, s, records, emitted.state);
    }
  }

  lemma ManifestExactly(env: Env, before: Bytes, records: seq<Manifest.ArtifactRecord>, last: Manifest.ArtifactRecord)
    requires env.text.Lawful() && |records| >= 2 && Manifest.DistinctPaths(records)
    requires (forall r | r in records :: Manifest.RecordOk(env.records, r)) && Manifest.RecordOk(env.records, last)
    ensures Manifest.AppendAll(env.text, env.records, before, records + [last]).error.None? <==>
              var existing := Manifest.ReadRecords(env.text, env.records, before);
              && last.path !in Manifest.Paths(records) && Manifest.EndsLine(before) && existing.Ok?
              && Manifest.Paths(existing.value) !! Manifest.Paths(records) + {last.path}
  {
    var all := records + [last];
    DistinctAddOne(records, last);
    Manifest.PathsAddOne(records, last);
    if Manifest.AppendAll(env.text, env.records, before, all).error.None? {
      Manifest.AppendAllRequires(env.text, env.records, before, all);
    }
    if Manifest.EndsLine(before) && Manifest.ReadRecords(env.text, env.records, before).Ok? {
      Manifest.AppendAllExact(env.text, env.records, before,
                              Manifest.ReadRecords(env.text, env.records, before).value, all);
    }
  }

  lemma {:induction false} CallsConcat(env: Env, s: SessionState, a: seq<Call>, b: seq<Call>)
    ensures AfterCalls(env, s, a + b) == AfterCalls(env, AfterCalls(env, s, a), b)
    decreases |b|
  {
    if b == [] {
      assert a + b == a;
    } else {
      ConcatFront(a, b);
      CallsConcat(env, s, a, b[..|b| - 1]);
    }
  }

  /**
   A seal refused before anything is written leaves no trace, whatever the refusal, and neither does one of an
   ended session: later calls see nothing of it.
   */
  lemma RefusedSealLeavesNoTrace(env: Env, s: SessionState, before: seq<Call>, after: seq<Call>)
    requires var u := AfterCalls(env, s, before); u.outcome.Some? || SealRefusal(env, u).Some?
    ensures AfterCalls(env, s, before + [SealCall] + after) == AfterCalls(env, s, before + after)
  {
    RefusalKeepsState(env, AfterCalls(env, s, before));
    CallsConcat(env, s, before + [SealCall], after);
    CallsConcat(env, s, before, [SealCall]);
    CallsConcat(env, s, before, after);
    OneCall(env, AfterCalls(env, s, before), SealCall);
  }

  lemma OneCall(env: Env, s: SessionState, c: Call)
    ensures AfterCalls(env, s, [c]) == AfterCall(env, s, c)
  {
    assert [c][..0] == [];
  }

  lemma RefusalKeepsState(env: Env, s: SessionState)
    requires s.outcome.Some? || SealRefusal(env, s).Some?
    ensures AfterCall(env, s, SealCall) == s
  {
  }
}
