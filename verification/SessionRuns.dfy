/** Runs: every call keeps the session invariant, so every sealed session is judged as the names decide. */
module SessionRuns {
  import opened Common
  import opened Events
  import opened Lifecycle
  import opened Budget
  import opened BudgetHistory
  import opened Manifest
  import opened AttemptDirectories
  import opened Session
  import opened SessionInvariant
  import opened EndToEnd
  import J = DirectoryJudge
  import Sorting
  import P = RunPlans
  import C = Commands

  // ------------------------------------------------- special names are fatal

  /** What a successful seal has written, and over what. */
  lemma SealOpenSucceeded(env: Env, s: SessionState)
    returns (records: seq<ArtifactRecord>, stopped: SessionState, appended: Appended)
    requires env.text.Lawful() && RetainedOk(s) && RetainedReady(env, s) && SealOpen(env, s).result.Ok?
    ensures forall r | r in SortedRetained(s) :: r.path in AttemptFiles(env, s)
    ensures records == RecordsFor(env, s, SortedRetained(s)) && SealOpen(env, s).state.events == stopped.events
    ensures Paths(records) == RetainedPaths(s.retained)
    ensures stopped.files == s.files
            && EmitAll(env, s, RecordDrafts(records) + [StopDraft(s)]) == Emitted(stopped, true)
    ensures appended.error.None? && DistinctPaths(records + [EventLogRecord(env, stopped)])
    ensures var before := ContentOf(s.files, MANIFEST);
            && ReadRecords(env.text, env.records, before).Ok?
            && ReadRecords(env.text, env.records, appended.content)
            == Ok(ReadRecords(env.text, env.records, before).value + (records + [EventLogRecord(env, stopped)]))
    ensures AttemptFiles(env, SealOpen(env, s).state) == SealedFiles(env, stopped, appended.content)
  {
    RetainedRecords(env, s);
    RecordsReady(env, s);
    records := RecordsFor(env, s, SortedRetained(s));
    EmitAllGrows(env, s, RecordDrafts(records) + [StopDraft(s)]);
    stopped := EmitAll(env, s, RecordDrafts(records) + [StopDraft(s)]).state;
    appended := AppendAll(env.text, env.records, ContentOf(s.files, MANIFEST),
                          records + [EventLogRecord(env, stopped)]);
    SucceededEmission(env, s, records, stopped);
    SealOpenAfter(env, s, records, stopped, appended);
    AllAppendedTo(env, ContentOf(s.files, MANIFEST), records, EventLogRecord(env, stopped));
  }

  lemma SucceededEmission(env: Env, s: SessionState, records: seq<ArtifactRecord>, stopped: SessionState)
    requires RetainedPresent(env, s) && (forall r | r in SortedRetained(s) :: r.path in AttemptFiles(env, s))
    requires records == RecordsFor(env, s, SortedRetained(s)) && SealOpen(env, s).result.Ok?
    requires stopped == EmitAll(env, s, RecordDrafts(records) + [StopDraft(s)]).state
    ensures EmitAll(env, s, RecordDrafts(records) + [StopDraft(s)]) == Emitted(stopped, true)
    ensures RecordOk(env.records, EventLogRecord(env, stopped))
  {
  }

  lemma AllAppendedTo(env: Env, before: Bytes, records: seq<ArtifactRecord>, last: ArtifactRecord)
    requires env.text.Lawful() && |records| >= 2
    requires (forall r | r in records :: RecordOk(env.records, r)) && RecordOk(env.records, last)
    requires AppendAll(env.text, env.records, before, records + [last]).error.None?
    ensures ReadRecords(env.text, env.records, before).Ok? && DistinctPaths(records + [last])
    ensures ReadRecords(env.text, env.records, AppendAll(env.text, env.records, before, records + [last]).content)
         == Ok(ReadRecords(env.text, env.records, before).value + (records + [last]))
  {
    AppendAllRequires(env.text, env.records, before, records + [last]);
    AppendAllExact(env.text, env.records, before, ReadRecords(env.text, env.records, before).value, records + [last]);
  }

  /** A session that declares the event log of the root never seals: that log would be recorded twice. */
  lemma RootLogNeverSeals(env: Env, s: SessionState)
    requires env.text.Lawful() && RetainedOk(s) && RetainedReady(env, s)
    requires EVENTS in RetainedPaths(s.retained)
    ensures SealOpen(env, s).result.Err?
  {
    if SealOpen(env, s).result.Ok? {
      var records, stopped, appended := SealOpenSucceeded(env, s);
      DistinctAddOne(records, EventLogRecord(env, stopped));
    }
  }

  /** A declared artifact with a special name makes every successful seal unacceptable. */
  lemma SpecialNamesRejected(env: Env, s: SessionState)
    requires env.text.Lawful() && RetainedOk(s) && RetainedReady(env, s) && EVENTS !in s.files
    requires !NamesOk(s.retained) && SealOpen(env, s).result.Ok?
    ensures !J.DirectoryAccepted(env, AttemptFiles(env, SealOpen(env, s).state))
  {
    var records, stopped, appended := SealOpenSucceeded(env, s);
    DistinctAddOne(records, EventLogRecord(env, stopped));
    SpecialFilesRejected(env, s, stopped, records, appended.content);
  }

  lemma SpecialFilesRejected(env: Env, s: SessionState, stopped: SessionState, records: seq<ArtifactRecord>,
                             content: Bytes)
    requires RetainedPresent(env, s) && !NamesOk(s.retained) && stopped.files == s.files
    requires Paths(records) == RetainedPaths(s.retained) && EVENTS !in RetainedPaths(s.retained)
    requires var before := ContentOf(stopped.files, MANIFEST);
             ReadRecords(env.text, env.records, before).Ok?
             && ReadRecords(env.text, env.records, content)
             == Ok(ReadRecords(env.text, env.records, before).value + (records + [EventLogRecord(env, stopped)]))
    ensures !J.DirectoryAccepted(env, SealedFiles(env, stopped, content))
  {
    if MANIFEST in RetainedPaths(s.retained) {
      ManifestListsItself(env, stopped, records, content);
    } else {
      NestedLogRejected(env, s, stopped, content);
    }
  }

  /** A declared log in a subdirectory leaves two event streams. */
  lemma NestedLogRejected(env: Env, s: SessionState, stopped: SessionState, manifest: Bytes)
    requires !NamesOk(s.retained) && PlainNames(s.retained) && RetainedPresent(env, s) && stopped.files == s.files
    ensures !J.DirectoryAccepted(env, SealedFiles(env, stopped, manifest))
  {
    HarnessNames();
    SealedKeys(env, stopped, manifest);
    var r :| r in s.retained && (J.BaseName(r.path) == EVENTS || r.path == MANIFEST);
    assert r.path in RetainedPaths(s.retained);
    TwoEventPaths(env, s, SealedFiles(env, stopped, manifest), r);
  }

  /** A manifest with a record of itself never covers exactly the other files. */
  lemma ManifestListsItself(env: Env, stopped: SessionState, records: seq<ArtifactRecord>, content: Bytes)
    requires MANIFEST in Paths(records)
    requires var before := ContentOf(stopped.files, MANIFEST);
             ReadRecords(env.text, env.records, before).Ok?
             && ReadRecords(env.text, env.records, content)
             == Ok(ReadRecords(env.text, env.records, before).value + (records + [EventLogRecord(env, stopped)]))
    ensures !J.ManifestAccepted(env, SealedFiles(env, stopped, content))
  {
    var last := EventLogRecord(env, stopped);
    PathsConcat(ReadRecords(env.text, env.records, ContentOf(stopped.files, MANIFEST)).value, records + [last]);
    PathsConcat(records, [last]);
    SealedKeys(env, stopped, content);
  }

  lemma TwoEventPaths(env: Env, s: SessionState, files: map<string, Bytes>, r: Retained)
    requires r in s.retained && RetainedPresent(env, s) && J.BaseName(r.path) == EVENTS
    requires r.path != MANIFEST && r.path != EVENTS
    requires files.Keys == s.files.Keys + {MANIFEST, EVENTS}
    ensures !J.DirectoryAccepted(env, files)
  {
    HarnessNames();
    assert r.path in AttemptFiles(env, s);
    forall path | path in files ensures !J.OnlyEventPath(files, path) {
      assert J.OnlyEventPath(files, path) ==> r.path == path && EVENTS == path;
    }
  }

  // --------------------------------------------------------- sealing keeps

  lemma SameLog(env: Env, s: SessionState, t: SessionState)
    requires LogOk(env, s) && t.events == s.events && t.sequence == s.sequence && t.plan == s.plan
    ensures LogOk(env, t)
  {
    forall i | 0 <= i < |t.events| ensures EventOk(env, t, t.events[i], i) { assert EventOk(env, s, s.events[i], i); }
  }

  /** A step that only extended the log with events that move no total, and perhaps wrote the manifest. */
  lemma CoreExtended(env: Env, s: SessionState, t: SessionState)
    requires Core(env, s) && LogOk(env, t) && Updates(t.events) == Updates(s.events)
    requires t == s.(events := t.events, sequence := t.sequence, files := t.files, retained := t.retained,
                     normalizationApplied := t.normalizationApplied)
    requires EVENTS !in t.files && RetainedOk(t)
    requires !Stopped(t.events) ==> Opening(t.events)
    requires PlainNames(t.retained) ==> !Stopped(t.events)
    ensures Core(env, t)
  {
  }

  /** Where neither root name is declared only a refused event can stop a seal that was begun. */
  lemma PlainSealFinishes(env: Env, s: SessionState)
    requires env.text.Lawful() && LogRecordAdmitted(env)
    requires RetainedOk(s) && EVENTS !in s.files && Sealable(env, s) && PlainNames(s.retained)
    ensures SealOpen(env, s).result.Err? ==> SealOpen(env, s).result.error == EventRefused
  {
    RetainedRecords(env, s);
    var records := RecordsFor(env, s, SortedRetained(s));
    EmitAllGrows(env, s, RecordDrafts(records) + [StopDraft(s)]);
    var emitted := EmitAll(env, s, RecordDrafts(records) + [StopDraft(s)]);
    if emitted.ok {
      LogRecordReady(env, emitted.state);
      PlainManifest(env, s, emitted.state);
      SealOpenAfter(env, s, records, emitted.state,
                    AppendAll(env.text, env.records, [], ManifestRecords(env, s, emitted.state)));
    } else {
      SealOpenRefused(env, s, records, emitted.state);
    }
  }

  /** A seal that was begun and failed leaves an open session in order. */
  lemma SealFailureKeeps(env: Env, s: SessionState)
    requires Core(env, s) && env.text.Lawful() && LogRecordAdmitted(env)
    requires Sealable(env, s) && SealOpen(env, s).result.Err?
    ensures Core(env, SealOpen(env, s).state)
    ensures From(s, s) ==> From(s, SealOpen(env, s).state)
  {
    RetainedRecords(env, s);
    var records := RecordsFor(env, s, SortedRetained(s));
    var emitted := EmitAll(env, s, RecordDrafts(records) + [StopDraft(s)]);
    SealEmission(env, s, records);
    if emitted.ok {
      ManifestFailureKeeps(env, s, records, emitted.state);
    } else {
      SealOpenRefused(env, s, records, emitted.state);
      CoreExtended(env, s, emitted.state);
    }
  }

  /** A manifest refused behind the stop: the log stays stopped, which only a declared root name can bring about. */
  lemma ManifestFailureKeeps(env: Env, s: SessionState, records: seq<ArtifactRecord>, stopped: SessionState)
    requires Core(env, s) && env.text.Lawful() && LogRecordAdmitted(env)
    requires Sealable(env, s) && SealOpen(env, s).result.Err?
    requires forall r | r in SortedRetained(s) :: r.path in AttemptFiles(env, s)
    requires records == RecordsFor(env, s, SortedRetained(s))
    requires EmitAll(env, s, RecordDrafts(records) + [StopDraft(s)]) == Emitted(stopped, true)
    requires stopped == s.(events := stopped.events, sequence := stopped.sequence)
    requires LogOk(env, stopped) && Updates(stopped.events) == Updates(s.events) && Stopped(stopped.events)
    ensures Core(env, SealOpen(env, s).state)
    ensures From(s, s) ==> From(s, SealOpen(env, s).state)
  {
    LogRecordReady(env, stopped);
    var appended :=
      AppendAll(env.text, env.records, ContentOf(stopped.files, MANIFEST), records + [EventLogRecord(env, stopped)]);
    SealOpenAfter(env, s, records, stopped, appended);
    if PlainNames(s.retained) {
      PlainSealFinishes(env, s);
    }
    var t := SealOpen(env, s).state;
    SameLog(env, stopped, t);
    ManifestOnly(s, t);
    CoreExtended(env, s, t);
  }

  lemma ManifestOnly(s: SessionState, t: SessionState)
    requires MANIFEST in t.files && t.files == s.files[MANIFEST := t.files[MANIFEST]]
    requires t.plan == s.plan && t.command == s.command && t.process == s.process
    ensures EVENTS !in s.files ==> EVENTS !in t.files
    ensures From(s, s) ==> From(s, t)
  {
    HarnessNames();
  }

  /** A seal leaves the session alone, or all its gates were open and it was begun. */
  lemma SealCases(env: Env, s: SessionState)
    requires !s.isSealed && s.outcome.None?
    ensures || (Seal(env, s).state == s && Seal(env, s).result.Err? && Seal(env, s).result.error != ManifestRefused)
            || (Sealable(env, s) && Seal(env, s) == SealOpen(env, s))
  {
  }

  lemma SealKeeps(env: Env, o: SessionState, s: SessionState)
    requires Core(env, s) && From(o, s) && EnvOk(env, s)
    ensures RunInv(env, o, Seal(env, s).state)
  {
    SealCases(env, s);
    var t := Seal(env, s).state;
    if t != s {
      if SealOpen(env, s).result.Ok? {
        assert SealedBy(env, s, t);
      } else {
        SealFailureKeeps(env, s);
      }
    }
  }

  /** The verdict on a sealed directory is decided by the declared names and the schemas alone. */
  lemma SealedVerdict(env: Env, s: SessionState)
    requires OpenInv(env, s) && EnvOk(env, s) && Sealable(env, s) && SealOpen(env, s).result.Ok?
    ensures J.DirectoryAccepted(env, AttemptFiles(env, SealOpen(env, s).state))
       <==> NamesOk(s.retained) && SchemasAccept(env, SealOpen(env, s).state)
  {
    if NamesOk(s.retained) {
      OrdinarySealJudged(env, s);
    } else {
      SpecialNamesRejected(env, s);
    }
  }

  // ------------------------------------------------------ accounting keeps

  /** Nothing, or the one warning about unavailable units. */
  ghost predicate IsWarning(pre: seq<Draft>) {
    || pre == []
    || (|pre| == 1 && pre[0].eventType.Warning? && pre[0].source == CONTROL_SOURCE
        && IsUnavailablePayload(pre[0].payload))
  }

  ghost predicate IsAccounting(d: Draft) {
    d.eventType.BudgetUpdate? && d.source == CONTROL_SOURCE && IsAccountingPayload(d.payload)
  }

  predicate IsPlain(ds: seq<Draft>) {
    AllOwned(ds) && NoneLifecycle(ds) && NoneBudget(ds)
  }

  lemma AccountingDraftsOwned(pre: seq<Draft>, d: Draft, post: seq<Draft>)
    requires IsWarning(pre) && IsAccounting(d) && IsPlain(post)
    ensures AllOwned(pre + [d] + post) && NoneLifecycle(pre + [d] + post)
  {
  }

  /** An accounting update behind at most the warning is never refused, whatever happens to what follows. */
  lemma AccountingEmitted(env: Env, s: SessionState, pre: seq<Draft>, d: Draft, post: seq<Draft>)
    requires LogOk(env, s) && EnvOk(env, s) && s.plan.identity.attempt >= 1
    requires IsWarning(pre) && IsAccounting(d) && IsPlain(post)
    ensures var r := EmitAll(env, s, pre + [d] + post);
            && r.state == Grown(s, Added(env, s, pre + [d] + post)) && LogOk(env, r.state)
            && Updates(r.state.events) == Updates(s.events) + [d.payload]
            && (Opening(s.events) ==> Opening(r.state.events))
            && (Stopped(r.state.events) <==> Stopped(s.events))
  {
    AccountingDraftsOwned(pre, d, post);
    EmitAllGrows(env, s, pre + [d] + post);
    EmitAllKeepsLog(env, s, pre + [d] + post);
    EmitAllKeepsStopped(env, s, pre + [d] + post);
    if Opening(s.events) {
      EmitAllKeepsOpening(env, s, pre + [d] + post);
    }
    AccountingUpdates(env, s, pre, d, post);
  }

  lemma AccountingUpdates(env: Env, s: SessionState, pre: seq<Draft>, d: Draft, post: seq<Draft>)
    requires EnvOk(env, s) && s.plan.identity.attempt >= 1
    requires IsWarning(pre) && IsAccounting(d) && NoneBudget(post)
    ensures Updates(EmitAll(env, s, pre + [d] + post).state.events) == Updates(s.events) + [d.payload]
  {
    EmitAllConcat(env, s, pre + [d], post);
    EmitAllConcat(env, s, pre, [d]);
    WarningEmitted(env, s, pre);
    var s1 := EmitAll(env, s, pre).state;
    OneAccountingEvent(env, s1, d);
    EmitAllKeepsUpdates(env, AfterEmit(env, s1, d), post);
  }

  /** The warning about unavailable units is never refused and changes no total. */
  lemma WarningEmitted(env: Env, s: SessionState, pre: seq<Draft>)
    requires EnvOk(env, s) && s.plan.identity.attempt >= 1
    requires IsWarning(pre)
    ensures EmitAll(env, s, pre).ok && Updates(EmitAll(env, s, pre).state.events) == Updates(s.events)
    ensures EmitAll(env, s, pre).state
            == s.(events := EmitAll(env, s, pre).state.events, sequence := EmitAll(env, s, pre).state.sequence)
  {
    EmitAllGrows(env, s, pre);
    EmitAllKeepsUpdates(env, s, pre);
    if pre != [] {
      AccountingDraftValid(env, s, pre[0]);
      assert pre[1..] == [];
    }
  }

  lemma OneAccountingEvent(env: Env, s: SessionState, d: Draft)
    requires EnvOk(env, s) && s.plan.identity.attempt >= 1
    requires IsAccounting(d)
    ensures EmitAll(env, s, [d]) == Emitted(AfterEmit(env, s, d), true)
    ensures Updates(AfterEmit(env, s, d).events) == Updates(s.events) + [d.payload]
  {
    AccountingDraftValid(env, s, d);
    assert [d][1..] == [];
    var e := EventOf(env, s, d);
    assert (s.events + [e])[..|s.events|] == s.events;
  }

  /** The session with its accounting closed, before anything about it is emitted. */
  function Closed(s: SessionState, a: Accounting, status: string): SessionState {
    s.(accounting := Some(a), status := status, usage := ChargedUsage(s, a))
  }

  lemma ClosedBudgetShape(s: SessionState, a: Accounting, status: string, t: SessionState)
    requires BudgetShape(s) && s.accounting.None? && a.Valid()
    requires t == Closed(s, a, status).(events := t.events, sequence := t.sequence)
    requires Updates(t.events) == Updates(s.events) + [SecondPayload(s, a)]
    ensures BudgetShape(t)
  {
    assert SecondPayload(t, a) == SecondPayload(s, a) && FirstPayload(t) == FirstPayload(s);
  }

  /** Once the one accounting update is in the log, the closed session is in order. */
  lemma ClosedCore(env: Env, s: SessionState, a: Accounting, status: string, t: SessionState)
    requires Core(env, s) && s.accounting.None? && a.Valid()
    requires StatusOk(Closed(s, a, status))
    requires t == Closed(s, a, status).(events := t.events, sequence := t.sequence)
    requires LogOk(env, t) && BudgetShape(t)
    requires (Opening(s.events) ==> Opening(t.events)) && (Stopped(t.events) <==> Stopped(s.events))
    ensures Core(env, t)
  {
  }

  /** Closing accounting with any valid record keeps the session in order up to sealing. */
  lemma AttestedCore(env: Env, s: SessionState, a: Accounting, status: string, pre: seq<Draft>, d: Draft,
                     post: seq<Draft>)
    requires Core(env, s) && EnvOk(env, s) && s.accounting.None? && a.Valid()
    requires IsWarning(pre) && IsPlain(post)
    requires d.eventType.BudgetUpdate? && d.source == CONTROL_SOURCE && d.payload == SecondPayload(s, a)
    requires StatusOk(Closed(s, a, status))
    ensures var t := EmitAll(env, Closed(s, a, status), pre + [d] + post).state;
            Core(env, t) && t == Closed(s, a, status).(events := t.events, sequence := t.sequence)
  {
    var s1 := Closed(s, a, status);
    SameLog(env, s, s1);
    AccountingEmitted(env, s1, pre, d, post);
    var t := EmitAll(env, s1, pre + [d] + post).state;
    ClosedBudgetShape(s, a, status, t);
    ClosedCore(env, s, a, status, t);
  }

  lemma CurrentIsCharged(s: SessionState, a: Accounting)
    requires s.usage == ProcessUsage(s.process)
    ensures s.usage.Plus(UsageOf(s.command.projection, a, 0, 0)) == ChargedUsage(s, a)
  {
  }

  lemma CloseOverrunKeeps(env: Env, o: SessionState, s: SessionState, a: Accounting, status: string, d: Draft,
                          error: Draft, failure: Failure)
    requires Core(env, s) && From(o, s) && EnvOk(env, s) && s.accounting.None? && a.Valid()
    requires d.eventType.BudgetUpdate? && d.source == CONTROL_SOURCE && d.payload == SecondPayload(s, a)
    requires error.eventType.Error? && error.source == CONTROL_SOURCE
    requires StatusOk(Closed(s, a, status))
    ensures RunInv(env, o, CloseOverrun(env, Closed(s, a, status), [d, error], failure).state)
  {
    AttestedCore(env, s, a, status, [], d, [error]);
    assert [] + [d] + [error] == [d, error];
    SealKeeps(env, o, EmitAll(env, Closed(s, a, status), [d, error]).state);
  }

  lemma StatusWordsSolid()
    ensures !IsSpace(BUDGET_EXCEEDED[0]) && !IsSpace(PROJECTION_EXCEEDED[0])
  {
  }

  /** The status an accounting record leads to. */
  function ClosingStatus(s: SessionState, a: Accounting): string {
    if ProjectionViolated(s.command.projection, a) then PROJECTION_EXCEEDED
    else if !Within(s.plan.budget, ChargedUsage(s, a)) then BUDGET_EXCEEDED
    else s.status
  }

  function ClosingError(s: SessionState, a: Accounting): Draft {
    Control(Error, Observed,
            if ProjectionViolated(s.command.projection, a) then ProjectionErrorPayload(a)
            else ErrorPayload("BudgetExceeded", "budget exceeded"))
  }

  function ClosingFailure(s: SessionState, a: Accounting): Failure {
    if ProjectionViolated(s.command.projection, a) then ProjectionExceeded else BudgetExceededByAccounting
  }

  lemma ClosingStatusOk(s: SessionState, a: Accounting)
    requires StatusOk(s)
    ensures StatusOk(Closed(s, a, ClosingStatus(s, a)))
  {
    StatusWordsSolid();
  }

  /** Accounting in one view: nothing, an overrun that is closed and sealed, or one accounting update. */
  lemma AttestCases(env: Env, s: SessionState, a: Accounting)
    requires s.accounting.None? ==> s.usage == ProcessUsage(s.process)
    ensures var r := AttestAccounting(env, s, a);
            var t := Closed(s, a, ClosingStatus(s, a));
            var d := AccountingDraft(s.command.projection, a, ChargedUsage(s, a));
            || r.state == s
            || (!s.isSealed && s.accounting.None? &&
                (|| r.state == CloseOverrun(env, t, [d, ClosingError(s, a)], ClosingFailure(s, a)).state
                 || r.state == EmitAll(env, t, UnavailableDrafts(s.command.projection, a) + [d]).state))
  {
    if !s.isSealed && AuthorityOwned(env, s) && s.accounting.None? {
      CurrentIsCharged(s, a);
    }
  }

  lemma UnavailableIsWarning(p: C.Projection, a: Accounting)
    ensures IsWarning(UnavailableDrafts(p, a))
  {
  }

  /** One accounting update, behind the warning about unavailable units if there are any. */
  lemma ChargeKeeps(env: Env, o: SessionState, s: SessionState, a: Accounting, d: Draft)
    requires Core(env, s) && From(o, s) && EnvOk(env, s) && s.accounting.None? && a.Valid()
    requires d == AccountingDraft(s.command.projection, a, ChargedUsage(s, a))
    ensures var ds := UnavailableDrafts(s.command.projection, a) + [d];
            RunInv(env, o, EmitAll(env, Closed(s, a, ClosingStatus(s, a)), ds).state)
  {
    var pre := UnavailableDrafts(s.command.projection, a);
    ClosingStatusOk(s, a);
    UnavailableIsWarning(s.command.projection, a);
    AttestedCore(env, s, a, ClosingStatus(s, a), pre, d, []);
    AppendNothing(pre + [d]);
  }

  lemma AttestKeeps(env: Env, o: SessionState, s: SessionState, a: Accounting)
    requires Core(env, s) && From(o, s) && EnvOk(env, s) && a.Valid()
    ensures RunInv(env, o, AttestAccounting(env, s, a).state)
  {
    AttestCases(env, s, a);
    if AttestAccounting(env, s, a).state != s {
      var d := AccountingDraft(s.command.projection, a, ChargedUsage(s, a));
      ClosingStatusOk(s, a);
      ChargeKeeps(env, o, s, a, d);
      CloseOverrunKeeps(env, o, s, a, ClosingStatus(s, a), d, ClosingError(s, a), ClosingFailure(s, a));
    }
  }

  /** What accounting can exceed, and the status it then already had. */
  lemma AccountingExceedsOnlyWallTime(env: Env, s: SessionState, a: Accounting, u: Unit)
    requires Core(env, s) && s.accounting.None? && a.Valid()
    requires Within(s.plan.budget, ProjectedUsage(s.command)) && ProcessOk(s.plan, s.process)
    requires !ProjectionViolated(s.command.projection, a)
    requires Exceeds(s.plan.budget, u, s.usage.Plus(UsageOf(s.command.projection, a, 0, 0)).Of(u))
    ensures u == WallSeconds && s.status == BUDGET_EXCEEDED
  {
    CurrentIsCharged(s, a);
    OnlyWallTimeCanExceed(s.plan.budget, s.command, a, s.process.wallSeconds, s.process.outputBytes, u);
    assert Exceeds(s.plan.budget, WallSeconds, s.usage.Of(WallSeconds));
  }

  // ------------------------------------------------------ normalisation keeps

  lemma DistinctAppend<T>(key: T -> string, s: seq<T>, x: T)
    requires Sorting.DistinctKeys(key, s) && key(x) !in Sorting.Keys(key, s)
    ensures Sorting.DistinctKeys(key, s + [x])
  {
    assert ([x] + s)[1..] == s;
    assert multiset([x] + s) == multiset(s + [x]);
    Sorting.DistinctPermuted(key, [x] + s, s + [x]);
  }

  lemma OneMorePath(rs: seq<Retained>, r: Retained)
    ensures RetainedPaths(rs + [r]) == RetainedPaths(rs) + {r.path}
  {
    assert forall x :: x in rs + [r] <==> x in rs || x == r;
  }

  lemma OneMoreRaw(rs: seq<Retained>, artifacts: seq<string>)
    requires artifacts != []
    ensures rs + RawRetained(artifacts) == rs + [Retained(artifacts[0], "upstream-raw")] + RawRetained(artifacts[1..])
  {
  }

  lemma {:induction false} ArtifactsDistinct(present: set<string>, rs: seq<Retained>, artifacts: seq<string>)
    requires DistinctRetained(rs) && ArtifactFailure(present, RetainedPaths(rs), artifacts).None?
    ensures DistinctRetained(rs + RawRetained(artifacts))
    decreases |artifacts|
  {
    if artifacts == [] {
      assert rs + RawRetained(artifacts) == rs;
    } else {
      var first := Retained(artifacts[0], "upstream-raw");
      Sorting.KeysMember(PATH, rs, PATH(first));
      DistinctAppend(PATH, rs, first);
      OneMorePath(rs, first);
      ArtifactsDistinct(present, rs + [first], artifacts[1..]);
      OneMoreRaw(rs, artifacts);
    }
  }

  lemma ResultDraftsPlain(r: NormalizationResult)
    requires ResultOk(r)
    ensures AllOwned(ResultDrafts(r)) && NoneLifecycle(ResultDrafts(r)) && NoneBudget(ResultDrafts(r))
  {
  }

  lemma MoreNames(rs: seq<Retained>, more: seq<Retained>)
    requires PlainNames(rs + more)
    ensures PlainNames(rs)
  {
    assert forall r | r in rs :: r in rs + more;
  }

  lemma MoreRetained(s: SessionState, more: seq<Retained>)
    requires RetainedOk(s) && DistinctRetained(s.retained + more)
    ensures RetainedOk(s.(retained := s.retained + more))
  {
    assert forall r | r in s.retained :: r in s.retained + more;
  }

  /** Emitting plain drafts, possibly after declaring artifacts, keeps an open session in order. */
  lemma PlainEmissionKeeps(env: Env, s: SessionState, more: seq<Retained>, ds: seq<Draft>, applied: bool)
    requires Core(env, s) && DistinctRetained(s.retained + more)
    requires AllOwned(ds) && NoneLifecycle(ds) && NoneBudget(ds)
    ensures Core(env, EmitAll(env, s.(retained := s.retained + more), ds).state.(normalizationApplied := applied))
  {
    var s1 := s.(retained := s.retained + more);
    SameLog(env, s, s1);
    EmitAllGrows(env, s1, ds);
    EmitAllKeepsLog(env, s1, ds);
    EmitAllKeepsUpdates(env, s1, ds);
    MoreRetained(s, more);
    var e := EmitAll(env, s1, ds).state;
    var t := e.(normalizationApplied := applied);
    SameLog(env, e, t);
    EmitAllKeepsStopped(env, s1, ds);
    if PlainNames(t.retained) {
      MoreNames(s.retained, more);
    }
    if Opening(s1.events) {
      EmitAllKeepsOpening(env, s1, ds);
    }
    CoreExtended(env, s, t);
  }

  /** The session after declaring the artifacts of a result. */
  function Declared(s: SessionState, r: NormalizationResult): SessionState {
    s.(retained := s.retained + RawRetained(r.artifacts))
  }

  /** The events of a result whose artifacts may be declared, all of them in or broken off. */
  lemma ResultEventsKeep(env: Env, o: SessionState, s: SessionState, r: NormalizationResult, emitted: Emitted)
    requires Core(env, s) && From(o, s) && ResultOk(r) && !s.normalizationApplied
    requires ArtifactFailure(AttemptFiles(env, s).Keys, RetainedPaths(s.retained), r.artifacts).None?
    requires emitted == EmitAll(env, Declared(s, r), ResultDrafts(r))
    ensures var t := emitted.state.(normalizationApplied := emitted.ok); Core(env, t) && From(o, t)
    ensures !emitted.ok ==> emitted.state.(normalizationApplied := false) == emitted.state
  {
    ArtifactsDistinct(AttemptFiles(env, s).Keys, s.retained, r.artifacts);
    ResultDraftsPlain(r);
    EmitAllGrows(env, Declared(s, r), ResultDrafts(r));
    PlainEmissionKeeps(env, s, RawRetained(r.artifacts), ResultDrafts(r), emitted.ok);
  }

  lemma NormalizationKeeps(env: Env, o: SessionState, s: SessionState, r: NormalizationResult)
    requires Core(env, s) && From(o, s) && EnvOk(env, s) && ResultOk(r)
    ensures RunInv(env, o, ApplyNormalization(env, s, r).state)
  {
    var failure := ArtifactFailure(AttemptFiles(env, s).Keys, RetainedPaths(s.retained), r.artifacts);
    var emitted := EmitAll(env, Declared(s, r), ResultDrafts(r));
    if AuthorityOwned(env, s) && !s.normalizationApplied && failure.None? {
      ResultEventsKeep(env, o, s, r, emitted);
      if emitted.ok {
        AttestKeeps(env, o, emitted.state.(normalizationApplied := true), r.accounting);
      }
    }
  }

  lemma SealedBySealed(env: Env, u: SessionState, s: SessionState)
    requires SealedBy(env, u, s)
    ensures s.isSealed && s.outcome.Some?
  {
    Sorting.SortMembers(PATH, u.retained);
  }

  lemma SealAnyKeeps(env: Env, o: SessionState, s: SessionState)
    requires RunInv(env, o, s) && EnvOk(env, s)
    ensures RunInv(env, o, Seal(env, s).state)
  {
    if Core(env, s) && From(o, s) {
      SealKeeps(env, o, s);
    } else {
      var u :| Core(env, u) && From(o, u) && SealedBy(env, u, s);
      SealedBySealed(env, u, s);
    }
  }

  lemma LaunchCloseKeeps(env: Env, o: SessionState, s: SessionState)
    requires Core(env, s) && From(o, s) && EnvOk(env, s)
    ensures RunInv(env, o, CloseLaunchFailure(env, s).state)
  {
    var zeros := Accounting(Some(0), Some(0), Some(0), Some(0));
    if s.command.projection.HasUsage() {
      AttestKeeps(env, o, s, zeros);
      AttestSamePlan(env, s, zeros);
      SealAnyKeeps(env, o, AttestAccounting(env, s, zeros).state);
    } else {
      SealKeeps(env, o, s);
    }
  }

  /** The session with the accounting charged and nothing emitted yet. */
  function WithCharge(s: SessionState, a: Accounting): SessionState {
    s.(accounting := Some(a), usage := s.usage.Plus(UsageOf(s.command.projection, a, 0, 0)))
  }

  lemma AttestedOverProjection(env: Env, s: SessionState, a: Accounting)
    requires !s.isSealed && AuthorityOwned(env, s) && s.accounting.None? && ProjectionViolated(s.command.projection, a)
    ensures AttestAccounting(env, s, a)
         == CloseOverrun(env, Closed(s, a, PROJECTION_EXCEEDED),
                         [AccountingDraft(s.command.projection, a, ChargedUsage(s, a)),
                          Control(Error, Observed, ProjectionErrorPayload(a))],
                         ProjectionExceeded)
  {
  }

  lemma AttestedCharge(env: Env, s: SessionState, a: Accounting)
    requires !s.isSealed && AuthorityOwned(env, s) && s.accounting.None? && !ProjectionViolated(s.command.projection, a)
    ensures var s1 := WithCharge(s, a); var p := s.command.projection;
            var reported := s1.usage.(wallSeconds := Max(s1.usage.wallSeconds, s.process.wallSeconds),
                                      outputBytes := Max(s1.usage.outputBytes, s.process.outputBytes));
            var emitted := EmitAll(env, s1, UnavailableDrafts(p, a) + [AccountingDraft(p, a, reported)]);
            AttestAccounting(env, s, a) == (
              if Within(s.plan.budget, s1.usage) then
                Step(emitted.state, if emitted.ok then Ok(()) else Err(EventRefused))
              else CloseOverrun(env, s1.(status := BUDGET_EXCEEDED),
                                [AccountingDraft(p, a, s1.usage),
                                 Control(Error, Observed, ErrorPayload("BudgetExceeded", "budget exceeded"))],
                                BudgetExceededByAccounting))
  {
  }

  /** Drafts of accounting: updates, errors and warnings of the harness. */
  predicate AccountingKinds(ds: seq<Draft>) {
    forall d | d in ds :: d.eventType.BudgetUpdate? || d.eventType.Error? || d.eventType.Warning?
  }

  lemma OverrunKinds(d: Draft, e: Draft)
    requires d.eventType.BudgetUpdate? && e.eventType.Error?
    ensures AccountingKinds([d, e])
  {
  }

  lemma ChargeKinds(p: C.Projection, a: Accounting, d: Draft)
    requires d.eventType.BudgetUpdate?
    ensures AccountingKinds(UnavailableDrafts(p, a) + [d])
  {
  }

  /** A session that differs in accounting, status and use only. */
  predicate SameButAccounting(s: SessionState, t: SessionState) {
    t == s.(accounting := t.accounting, status := t.status, usage := t.usage)
  }

  /** Accounting in one view: refused, some accounting drafts, or some accounting drafts and a seal. */
  lemma AttestForms(env: Env, s: SessionState, a: Accounting)
    returns (t: SessionState, ds: seq<Draft>, failure: Failure)
    ensures SameButAccounting(s, t) && AccountingKinds(ds) && failure != ManifestRefused
    ensures var r := AttestAccounting(env, s, a);
            || (r.state == s && r.result.Err? && r.result.error != ManifestRefused)
            || r == Step(EmitAll(env, t, ds).state, if EmitAll(env, t, ds).ok then Ok(()) else Err(EventRefused))
            || r == CloseOverrun(env, t, ds, failure)
  {
    if s.isSealed || !AuthorityOwned(env, s) || s.accounting.Some? {
      t, ds, failure := s, [], EventRefused;
    } else if ProjectionViolated(s.command.projection, a) {
      t, ds, failure := OverProjectionForm(env, s, a);
    } else {
      t, ds, failure := ChargeForm(env, s, a);
    }
  }

  lemma OverProjectionForm(env: Env, s: SessionState, a: Accounting)
    returns (t: SessionState, ds: seq<Draft>, failure: Failure)
    requires !s.isSealed && AuthorityOwned(env, s) && s.accounting.None? && ProjectionViolated(s.command.projection, a)
    ensures SameButAccounting(s, t) && AccountingKinds(ds) && failure == ProjectionExceeded
    ensures AttestAccounting(env, s, a) == CloseOverrun(env, t, ds, failure)
  {
    var p := s.command.projection;
    t, failure := Closed(s, a, PROJECTION_EXCEEDED), ProjectionExceeded;
    var d, e := AccountingDraft(p, a, ChargedUsage(s, a)), Control(Error, Observed, ProjectionErrorPayload(a));
    OverrunKinds(d, e);
    ds := [d, e];
    AttestedOverProjection(env, s, a);
  }

  lemma ChargeForm(env: Env, s: SessionState, a: Accounting)
    returns (t: SessionState, ds: seq<Draft>, failure: Failure)
    requires !s.isSealed && AuthorityOwned(env, s) && s.accounting.None? && !ProjectionViolated(s.command.projection, a)
    ensures SameButAccounting(s, t) && AccountingKinds(ds) && failure == BudgetExceededByAccounting
    ensures var r := AttestAccounting(env, s, a);
            || r == Step(EmitAll(env, t, ds).state, if EmitAll(env, t, ds).ok then Ok(()) else Err(EventRefused))
            || r == CloseOverrun(env, t, ds, failure)
  {
    AttestedCharge(env, s, a);
    var p, s1 := s.command.projection, WithCharge(s, a);
    failure := BudgetExceededByAccounting;
    if Within(s.plan.budget, s1.usage) {
      var d := AccountingDraft(p, a, s1.usage.(wallSeconds := Max(s1.usage.wallSeconds, s.process.wallSeconds),
                                               outputBytes := Max(s1.usage.outputBytes, s.process.outputBytes)));
      ChargeKinds(p, a, d);
      t, ds := s1, UnavailableDrafts(p, a) + [d];
    } else {
      var d, e := AccountingDraft(p, a, s1.usage),
        Control(Error, Observed, ErrorPayload("BudgetExceeded", "budget exceeded"));
      OverrunKinds(d, e);
      t, ds := s1.(status := BUDGET_EXCEEDED), [d, e];
    }
  }

  // -------------------------------------------------- the plan never changes

  lemma SealSamePlan(env: Env, s: SessionState)
    ensures Seal(env, s).state.plan == s.plan
  {
    if !s.isSealed && s.outcome.None? {
      SealCases(env, s);
      if Sealable(env, s) { SealOpenSamePlan(env, s); }
    }
  }

  lemma SealOpenSamePlan(env: Env, s: SessionState)
    requires RetainedPresent(env, s)
    ensures SealOpen(env, s).state.plan == s.plan
  {
    SortedPresent(env, s);
    EmitAllGrows(env, s, RecordDrafts(RecordsFor(env, s, SortedRetained(s))) + [StopDraft(s)]);
  }

  lemma CloseOverrunSamePlan(env: Env, s: SessionState, ds: seq<Draft>, failure: Failure)
    ensures CloseOverrun(env, s, ds, failure).state.plan == s.plan
  {
    EmitAllGrows(env, s, ds);
    SealSamePlan(env, EmitAll(env, s, ds).state);
  }

  lemma AttestSamePlan(env: Env, s: SessionState, a: Accounting)
    ensures AttestAccounting(env, s, a).state.plan == s.plan
  {
    var t, ds, failure := AttestForms(env, s, a);
    EmitAllGrows(env, t, ds);
    CloseOverrunSamePlan(env, t, ds, failure);
  }

  lemma CallSamePlan(env: Env, s: SessionState, c: Call)
    ensures AfterCall(env, s, c).plan == s.plan
  {
    match c
    case SealCall => SealSamePlan(env, s);
    case External(path, content) =>
    case LaunchClose =>
      var zeros := Accounting(Some(0), Some(0), Some(0), Some(0));
      AttestSamePlan(env, s, zeros);
      SealSamePlan(env, s);
      SealSamePlan(env, AttestAccounting(env, s, zeros).state);
    case Normalize(r) =>
      var s1 := s.(retained := s.retained + RawRetained(r.artifacts));
      EmitAllGrows(env, s1, ResultDrafts(r));
      AttestSamePlan(env, EmitAll(env, s1, ResultDrafts(r)).state.(normalizationApplied := true), r.accounting);
  }

  // ------------------------------------------------------------------ runs

  lemma ExternalKeeps(env: Env, s: SessionState, path: string, content: Option<Bytes>)
    requires Core(env, s) && path !in PROTECTED
    ensures Core(env, AfterExternal(s, path, content))
    ensures From(s, s) ==> From(s, AfterExternal(s, path, content))
  {
    var t := AfterExternal(s, path, content);
    SameLog(env, s, t);
    assert path != EVENTS && path != RUN_PLAN && path != COMMAND;
    CoreExtended(env, s, t);
  }

  lemma OpenCallKeeps(env: Env, o: SessionState, s: SessionState, c: Call)
    requires Core(env, s) && From(o, s) && EnvOk(env, s) && CallOk(c)
    ensures RunInv(env, o, AfterCall(env, s, c))
  {
    match c
    case Normalize(r) => NormalizationKeeps(env, o, s, r);
    case SealCall => SealKeeps(env, o, s);
    case LaunchClose => LaunchCloseKeeps(env, o, s);
    case External(path, content) => ExternalKeeps(env, s, path, content);
  }

  lemma SealedCallIdle(env: Env, s: SessionState, c: Call)
    requires s.isSealed && s.outcome.Some?
    ensures AfterCall(env, s, c) == s
  {
  }

  lemma CallKeeps(env: Env, o: SessionState, s: SessionState, c: Call)
    requires RunInv(env, o, s) && EnvOk(env, s) && CallOk(c)
    ensures RunInv(env, o, AfterCall(env, s, c))
  {
    if Core(env, s) && From(o, s) {
      OpenCallKeeps(env, o, s, c);
    } else {
      var u :| Core(env, u) && From(o, u) && SealedBy(env, u, s);
      SealedBySealed(env, u, s);
      SealedCallIdle(env, s, c);
    }
  }

  lemma {:induction false} CallsKeep(env: Env, o: SessionState, calls: seq<Call>)
    requires Core(env, o) && From(o, o) && EnvOk(env, o) && forall c | c in calls :: CallOk(c)
    ensures RunInv(env, o, AfterCalls(env, o, calls)) && AfterCalls(env, o, calls).plan == o.plan
  {
    if calls != [] {
      var front, c := calls[..|calls| - 1], calls[|calls| - 1];
      CallsKeep(env, o, front);
      CallKeeps(env, o, AfterCalls(env, o, front), c);
      CallSamePlan(env, AfterCalls(env, o, front), c);
    }
  }

  /** After sealing every call leaves everything as it is, and sealing again returns the same outcome. */
  lemma {:induction false} SealedForever(env: Env, s: SessionState, calls: seq<Call>)
    requires s.isSealed && s.outcome.Some?
    ensures AfterCalls(env, s, calls) == s
    ensures Seal(env, s) == Step(s, Ok(s.outcome.value))
  {
    if calls != [] {
      SealedForever(env, s, calls[..|calls| - 1]);
    }
  }

  // --------------------------------------------------------------- opening

  lemma CommandDraftsOwned(command: C.CommandSpec, process: ProcessResult)
    ensures AllOwned(CommandDrafts(command, process)) && NoneBudget(CommandDrafts(command, process))
  {
  }

  lemma OpeningEvents(env: Env, plan: P.RunPlan, command: C.CommandSpec, process: ProcessResult, es: seq<HarnessEvent>)
    requires var ds := OpeningDrafts(env, plan, command, process);
             |es| == |ds| && forall i | 0 <= i < |ds| :: es[i].eventType == ds[i].eventType
    ensures Opening(es)
  {
    var ds := OpeningDrafts(env, plan, command, process);
    var launched := process.launchError.None?;
    assert ds[0].eventType == RunStarted && ds[1].eventType == PreflightCompleted;
    assert launched ==> ds[2].eventType == CommandStarted && ds[3].eventType == CommandCompleted;
    assert !launched ==> ds[2].eventType == Error;
    forall i | 2 <= i < |ds| && (launched ==> i >= 4) ensures !IsLifecycle(es[i].eventType) {
      assert ds[i].eventType == Error || ds[i].eventType == BudgetUpdate;
    }
    if launched {
      forall i | 0 <= i < |es[4..]| ensures !IsLifecycle(es[4..][i].eventType) { assert es[4..][i] == es[i + 4]; }
    } else {
      forall i | 0 <= i < |es[2..]| ensures !IsLifecycle(es[2..][i].eventType) { assert es[2..][i] == es[i + 2]; }
    }
  }

  /** The session before its first event. */
  function Fresh(env: Env, plan: P.RunPlan, command: C.CommandSpec, process: ProcessResult,
                 left: map<string, Bytes>): SessionState {
    SessionState(plan, command, process, ProcessUsage(process), 0, OpeningStatus(plan, process), false, None,
                 None, false,
                 HARNESS_RETAINED, left + Contracts(env, plan, command), [])
  }

  lemma OpeningDraftsOwned(env: Env, plan: P.RunPlan, command: C.CommandSpec, process: ProcessResult)
    returns (front: seq<Draft>, last: Draft)
    ensures OpeningDrafts(env, plan, command, process) == front + [last]
    ensures AllOwned(front) && NoneBudget(front) && DraftOwned(last)
    ensures last.eventType.BudgetUpdate?
    ensures last.payload
            == FirstUpdate(process, Within(plan.budget, ProcessUsage(process)) && !process.outputBudgetExceeded)
  {
    var within := Within(plan.budget, ProcessUsage(process));
    CommandDraftsOwned(command, process);
    front := [Control(RunStarted, Observed, RunStartedPayload(plan)),
              Control(PreflightCompleted, Derived, PreflightPayload(env, plan, command))]
           + CommandDrafts(command, process)
           + (if within then [] else [Control(Error, Observed, ErrorPayload("BudgetExceeded", "budget exceeded"))]);
    last := Control(BudgetUpdate, Observed, FirstUpdate(process, within && !process.outputBudgetExceeded));
  }

  lemma OneUpdate(env: Env, start: SessionState, front: seq<Draft>, last: Draft)
    requires start.events == [] && NoneBudget(front) && last.eventType.BudgetUpdate?
    requires EmitAll(env, start, front + [last]).ok
    ensures Updates(EmitAll(env, start, front + [last]).state.events) == [last.payload]
  {
    EmitAllConcat(env, start, front, [last]);
    EmitAllKeepsUpdates(env, start, front);
    var mid := EmitAll(env, start, front).state;
    var e := EventOf(env, mid, last);
    assert [last][1..] == [];
    assert (mid.events + [e])[..|mid.events|] == mid.events;
    assert Updates(mid.events) == [];
  }

  /** The opening emission: numbered from one, ending in its one budget update, in opening shape. */
  lemma OpeningLog(env: Env, start: SessionState)
    requires start.events == [] && start.sequence == 0
    requires EmitAll(env, start, OpeningDrafts(env, start.plan, start.command, start.process)).ok
    ensures var t := EmitAll(env, start, OpeningDrafts(env, start.plan, start.command, start.process)).state;
            && t == start.(events := t.events, sequence := t.sequence)
            && LogOk(env, t) && Updates(t.events) == [FirstPayload(start)] && Opening(t.events)
  {
    var ds := OpeningDrafts(env, start.plan, start.command, start.process);
    var front, last := OpeningDraftsOwned(env, start.plan, start.command, start.process);
    OneUpdate(env, start, front, last);
    OpeningLogged(env, start, ds, front, last);
    OpeningEvents(env, start.plan, start.command, start.process, Added(env, start, ds));
  }

  lemma OpeningLogged(env: Env, start: SessionState, ds: seq<Draft>, front: seq<Draft>, last: Draft)
    requires start.events == [] && start.sequence == 0
    requires ds == front + [last] && AllOwned(front) && DraftOwned(last)
    requires EmitAll(env, start, ds).ok
    ensures var t := EmitAll(env, start, ds).state;
            && t == start.(events := t.events, sequence := t.sequence) && LogOk(env, t)
            && t.events == Added(env, start, ds) && |t.events| == |ds|
            && forall i | 0 <= i < |ds| :: t.events[i].eventType == ds[i].eventType
  {
    assert AllOwned(ds);
    EmitAllGrows(env, start, ds);
    EmitAllKeepsLog(env, start, ds);
    assert [] + Added(env, start, ds) == Added(env, start, ds);
  }

  lemma OpeningStatusSolid(plan: P.RunPlan, process: ProcessResult)
    ensures var status := OpeningStatus(plan, process);
            && (exists i | 0 <= i < |status| :: !IsSpace(status[i]))
            && (Within(plan.budget, ProcessUsage(process)) || status == BUDGET_EXCEEDED)
  {
    StatusWordsSolid();
    assert !IsSpace("launch-error"[0]) && !IsSpace("output-budget-exceeded"[0]) && !IsSpace("timed-out"[0])
        && !IsSpace("completed"[0]) && !IsSpace("command-failed"[0]);
    assert !IsSpace(OpeningStatus(plan, process)[0]);
  }

  lemma DistinctCons(x: Retained, rest: seq<Retained>)
    requires DistinctRetained(rest) && forall r | r in rest :: r.path != x.path
    ensures DistinctRetained([x] + rest)
  {
    assert ([x] + rest)[1..] == rest;
    Sorting.KeysMember(PATH, rest, PATH(x));
  }

  lemma HarnessRetainedDistinct()
    ensures DistinctRetained(HARNESS_RETAINED)
  {
    HarnessNames();
    var a, b, c, d := Retained(STDOUT, "raw-log"), Retained(STDERR, "raw-log"), Retained(RUN_PLAN, "run-plan"),
      Retained(COMMAND, "command");
    assert STDOUT != STDERR && STDOUT != RUN_PLAN && STDOUT != COMMAND && STDERR != RUN_PLAN && STDERR != COMMAND
           && RUN_PLAN != COMMAND;
    DistinctCons(d, []);
    DistinctCons(c, [d] + []);
    DistinctCons(b, [c] + ([d] + []));
    DistinctCons(a, [b] + ([c] + ([d] + [])));
    assert [a] + ([b] + ([c] + ([d] + []))) == HARNESS_RETAINED;
  }

  lemma FreshFiles(env: Env, plan: P.RunPlan, command: C.CommandSpec, left: map<string, Bytes>)
    requires left.Keys !! PROTECTED
    ensures var files := left + Contracts(env, plan, command);
            && RUN_PLAN in files && files[RUN_PLAN] == Contracts(env, plan, command)[RUN_PLAN]
            && COMMAND in files && files[COMMAND] == Contracts(env, plan, command)[COMMAND]
            && EVENTS !in files
  {
    HarnessNames();
    assert EVENTS in PROTECTED && RUN_PLAN != COMMAND;
  }

  lemma OpenCore(env: Env, start: SessionState, t: SessionState)
    requires start.retained == HARNESS_RETAINED && start.status == OpeningStatus(start.plan, start.process)
    requires start.usage == ProcessUsage(start.process) && start.accounting.None? && !start.isSealed
             && start.outcome.None?
    requires t == start.(events := t.events, sequence := t.sequence)
    requires LogOk(env, t) && Updates(t.events) == [FirstPayload(start)] && Opening(t.events)
    requires EVENTS !in start.files && start.plan.identity.attempt >= 1
    ensures Core(env, t)
  {
    OpeningIsUnstopped(t.events);
    OpeningStatusSolid(start.plan, start.process);
    HarnessRetainedDistinct();
    assert FirstPayload(t) == FirstPayload(start);
  }

  /** An opened session satisfies the invariant. */
  lemma OpenKeeps(env: Env, plan: P.RunPlan, command: C.CommandSpec, process: ProcessResult, left: map<string, Bytes>)
    requires P.PlanOk(env.plans, plan) && C.Construct(env.commands, command) == Ok(command) && ProcessOk(plan, process)
    requires left.Keys !! PROTECTED
    requires Open(env, plan, command, process, left).Ok?
    ensures var s := Open(env, plan, command, process, left).value;
            Core(env, s) && FixedOk(env, s) && From(s, s) && s.plan == plan
  {
    var start := Fresh(env, plan, command, process, left);
    FreshFiles(env, plan, command, left);
    OpeningLog(env, start);
    OpenCore(env, start, Open(env, plan, command, process, left).value);
  }
}
