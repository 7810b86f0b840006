/**
 The run session as the object it is: fields updated in place over a shared attempt directory. Every
 method is proved to do exactly what the session functions say.
 */
module RunSessions {
  import opened Common
  import opened Json
  import opened Events
  import opened EventLog
  import opened Budget
  import opened BudgetHistory
  import opened Manifest
  import opened AttemptDirectories
  import opened Session
  import opened SessionInvariant
  import E = EndToEnd
  import R = SessionRuns
  import Sorting
  import P = RunPlans
  import C = Commands
  import CD = CommandDocuments

  class RunSession {
    const env: Env
    const plan: P.RunPlan
    const command: C.CommandSpec
    const process: ProcessResult
    const directory: AttemptDirectory
    var usage: Usage
    var sequence: nat
    var status: string
    var isSealed: bool
    var outcome: Option<ExecutionOutcome>
    var accounting: Option<Accounting>
    var normalizationApplied: bool
    var retained: seq<Retained>
    ghost var events: seq<HarnessEvent>

    /** The abstract state: the log as its events, the directory without the log. */
    ghost function State(): SessionState
      reads this, directory
    {
      SessionState(plan, command, process, usage, sequence, status, isSealed, outcome, accounting,
                   normalizationApplied, retained, directory.files - {EVENTS}, events)
    }

    /** The log on disk holds exactly the session's events, numbered from one. */
    ghost predicate Valid()
      reads this, directory
    {
      && env.text.Lawful()
      && EVENTS in directory.files && directory.files[EVENTS] == LogBytes(env.text, events)
      && LogOk(env, State())
      && plan.identity.attempt >= 1
    }

    constructor Start(env: Env, plan: P.RunPlan, command: C.CommandSpec, process: ProcessResult,
                      directory: AttemptDirectory)
      requires env.text.Lawful() && plan.identity.attempt >= 1
      requires EVENTS in directory.files && directory.files[EVENTS] == []
      ensures Valid() && this.directory == directory && this.env == env
      ensures State() == SessionState(plan, command, process, ProcessUsage(process), 0, OpeningStatus(plan, process),
                                      false, None,
                                      None, false, HARNESS_RETAINED, directory.files - {EVENTS}, [])
    {
      this.env, this.plan, this.command, this.process, this.directory := env, plan, command, process, directory;
      usage := ProcessUsage(process);
      sequence, status, isSealed, outcome := 0, OpeningStatus(plan, process), false, None;
      accounting, normalizationApplied, retained := None, false, HARNESS_RETAINED;
      events := [];
    }

    /** Builds one event and appends it to the log; a refused event changes nothing. */
    method Emit(d: Draft) returns (ok: bool)
      requires Valid() && DraftOwned(d)
      modifies this, directory
      ensures Valid()
      ensures ok <==> ValidEvent(env.rules, EventOf(env, old(State()), d))
      ensures State() == if ok then AfterEmit(env, old(State()), d) else old(State())
    {
      var e := HarnessEvent(plan.identity.runId, plan.identity.attempt, sequence + 1, env.clock(sequence + 1),
                            d.eventType, d.source, d.provenance, d.payload, CURRENT_VERSION);
      if !ValidEvent(env.rules, e) {
        return false;
      }
      ghost var before := State();
      OwnLogAccepts(env, before, e);
      LogSnoc(env.text, events, e);
      var writer := new JsonlEventWriter(Identity(plan.identity.runId, plan.identity.attempt), directory, EVENTS);
      var appended := writer.Append(env.text, env.rules, e);
      sequence := e.sequence;
      events := events + [e];
      ok := true;
      assert directory.files - {EVENTS} == before.files;
      EmittedLogOk(env, before, d);
    }

    /** Emits the drafts in order until one is refused. */
    method EmitEach(drafts: seq<Draft>) returns (ok: bool)
      requires Valid() && AllOwned(drafts)
      modifies this, directory
      ensures Valid()
      ensures Emitted(State(), ok) == EmitAll(env, old(State()), drafts)
    {
      for k := 0 to |drafts|
        invariant Valid()
        invariant EmitAll(env, State(), drafts[k..]) == EmitAll(env, old(State()), drafts)
      {
        assert drafts[k] in drafts && drafts[k..][0] == drafts[k] && drafts[k..][1..] == drafts[k + 1..];
        ok := Emit(drafts[k]);
        if !ok {
          return;
        }
      }
      assert drafts[|drafts|..] == [];
      ok := true;
    }

    predicate AuthorityIsOwned()
      reads this
      ensures AuthorityIsOwned()
              <==> AuthorityOwned(env, SessionState(plan, command, process, usage, sequence, status, isSealed,
                outcome, accounting, normalizationApplied, retained, map[], []))
    {
      && (Within(plan.budget, usage) || status == BUDGET_EXCEEDED || status == PROJECTION_EXCEEDED)
      && plan.execution.authorization.commandSha256 == Some(CD.CommandSha256(env.text, env.digest, command))
    }

    /** Validates the artifacts one by one against the files and everything already owned. */
    method CheckArtifacts(artifacts: seq<string>) returns (failure: Option<Failure>)
      requires EVENTS in directory.files
      ensures failure == ArtifactFailure(directory.files.Keys, RetainedPaths(retained), artifacts)
    {
      var taken := RetainedPaths(retained);
      for k := 0 to |artifacts|
        invariant ArtifactFailure(directory.files.Keys, taken, artifacts[k..])
               == ArtifactFailure(directory.files.Keys, RetainedPaths(retained), artifacts)
      {
        assert artifacts[k..][0] == artifacts[k] && artifacts[k..][1..] == artifacts[k + 1..];
        if artifacts[k] !in directory.files {
          return Some(ArtifactInvalid);
        }
        if artifacts[k] in taken {
          return Some(ArtifactDuplicate);
        }
        taken := taken + {artifacts[k]};
      }
      assert artifacts[|artifacts|..] == [];
      failure := None;
    }

    /** Sizes and digests of the entries, one by one, up to the first that cannot be recorded. */
    method DescribeEach(entries: seq<Retained>, ghost s: SessionState) returns (r: Result<seq<ArtifactRecord>, Failure>)
      requires AttemptFiles(env, s) == directory.files && s.sequence == sequence
      ensures var failure := DescribeFailure(env, s, entries);
              (r.Ok? <==> failure.None?) && (r.Err? ==> failure == Some(r.error))
      ensures r.Ok? ==> (forall entry | entry in entries :: entry.path in AttemptFiles(env, s))
      ensures r.Ok? ==> r.value == RecordsFor(env, s, entries)
    {
      var described: seq<ArtifactRecord> := [];
      WholeSuffix(entries);
      for k := 0 to |entries|
        invariant |described| == k && Described(env, s, entries, described)
        invariant DescribeFailure(env, s, entries) == DescribeFailure(env, s, entries[k..])
      {
        DescribeNext(env, s, entries, k);
        if entries[k].path !in directory.files {
          return Err(RetainedFileMissing);
        }
        var content := directory.files[entries[k].path];
        var record :=
          ArtifactRecord(entries[k].path, entries[k].kind, |content|, env.digest(content), env.clock(sequence));
        if !env.records(record) {
          return Err(RecordRefused);
        }
        DescribedMore(env, s, entries, described, record);
        described := described + [record];
      }
      DescribedAll(env, s, entries, described);
      r := Ok(described);
    }

    /** The records of the retained files, in path order. */
    method DescribeRetained() returns (r: Result<seq<ArtifactRecord>, Failure>)
      requires Valid()
      ensures var failure := DescribeFailure(env, State(), SortedRetained(State()));
              (r.Ok? <==> failure.None?) && (r.Err? ==> failure == Some(r.error))
      ensures r.Ok? ==> (forall entry | entry in SortedRetained(State()) :: entry.path in AttemptFiles(env, State()))
      ensures r.Ok? ==> r.value == RecordsFor(env, State(), SortedRetained(State()))
    {
      WholeDirectory();
      r := DescribeEach(Sorting.SortBy(PATH, retained), State());
    }

    lemma WholeDirectory()
      requires Valid()
      ensures AttemptFiles(env, State()) == directory.files
    {
    }

    /** The manifest is written in the attempt directory; nothing else of the session changes. */
    method WriteManifest(records: seq<ArtifactRecord>) returns (error: Option<RecordError>)
      requires Valid() && records != []
      modifies directory
      ensures Valid()
      ensures var appended := AppendAll(env.text, env.records, ContentOf(old(State()).files, MANIFEST), records);
              State() == old(State()).(files := old(State()).files[MANIFEST := appended.content])
                && error == appended.error
    {
      E.HarnessNames();
      ghost var before := directory.files;
      var writer := new ArtifactRecordWriter(directory, MANIFEST);
      error := writer.AppendEach(env.text, env.records, records);
      WrittenFile(before, directory.files, MANIFEST);
      OnlyManifestWritten(before, directory.files,
                          AppendAll(env.text, env.records, ContentOf(before, MANIFEST), records).content);
      R.SameLog(env, old(State()), State());
    }

    /** Records every retained file, stops, and commits. */
    method FinishSeal(records: seq<ArtifactRecord>) returns (r: Result<ExecutionOutcome, Failure>)
      requires Valid() && RetainedPresent(env, State())
      requires forall entry | entry in SortedRetained(State()) :: entry.path in AttemptFiles(env, State())
      requires records == RecordsFor(env, State(), SortedRetained(State()))
      modifies this, directory
      ensures Valid()
      ensures Step(State(), r) == SealOpen(env, old(State()))
    {
      ghost var s := State();
      var stop := Control(RunStopped, Observed, map["status" := Str(status), "return_code" := Int(process.returnCode)]);
      assert stop == StopDraft(s);
      SealDraftsOwned(records, stop);
      EmitAllGrows(env, s, RecordDrafts(records) + [stop]);
      var ok := EmitEach(RecordDrafts(records) + [stop]);
      if ok {
        r := CommitManifest(records, s);
      } else {
        E.SealOpenRefused(env, s, records, State());
        r := Err(EventRefused);
      }
    }

    /** Hashes the finished log, appends every record to the manifest, and makes the run immutable. */
    method CommitManifest(records: seq<ArtifactRecord>, ghost s: SessionState)
      returns (r: Result<ExecutionOutcome, Failure>)
      requires Valid() && RetainedPresent(env, s)
      requires forall entry | entry in SortedRetained(s) :: entry.path in AttemptFiles(env, s)
      requires records == RecordsFor(env, s, SortedRetained(s))
      requires EmitAll(env, s, RecordDrafts(records) + [StopDraft(s)]) == Emitted(State(), true)
      requires s.process == process && s.usage == usage && s.status == status
      modifies this, directory
      ensures Valid()
      ensures Step(State(), r) == SealOpen(env, s)
    {
      ghost var stopped := State();
      WholeDirectory();
      var log := directory.files[EVENTS];
      var last := ArtifactRecord(EVENTS, "event-stream", |log|, env.digest(log), env.clock(sequence));
      assert last == EventLogRecord(env, stopped);
      if !env.records(last) {
        LogRecordRefused(env, s, records, stopped);
        return Err(RecordRefused);
      }
      E.SealOpenAfter(env, s, records, stopped,
                      AppendAll(env.text, env.records, ContentOf(stopped.files, MANIFEST), records + [last]));
      var error := WriteManifest(records + [last]);
      if error.Some? {
        return Err(ManifestRefused);
      }
      var result := ExecutionOutcome(process, usage, status);
      Close(result);
      r := Ok(result);
    }

    /** From here on the run is immutable. */
    method Close(result: ExecutionOutcome)
      requires Valid()
      modifies this
      ensures Valid() && State() == old(State()).(outcome := Some(result), isSealed := true)
    {
      outcome, isSealed := Some(result), true;
      R.SameLog(env, old(State()), State());
    }

    method Seal() returns (r: Result<ExecutionOutcome, Failure>)
      requires Valid()
      modifies this, directory
      ensures Valid()
      ensures Step(State(), r) == Session.Seal(env, old(State()))
    {
      if outcome.Some? {
        return Ok(outcome.value);
      }
      if isSealed {
        return Err(AlreadySealed);
      }
      if !AuthorityIsOwned() {
        return Err(AuthorityChanged);
      }
      WholeDirectory();
      var unowned := set path | path in directory.files && path != EVENTS && path !in RetainedPaths(retained);
      assert unowned == {} <==> FilesDeclared(env, State());
      if unowned != {} {
        return Err(UndeclaredFiles);
      }
      if command.projection.HasUsage() && accounting.None? {
        return Err(AccountingOpen);
      }
      var records := DescribeRetained();
      if records.Err? {
        return Err(records.error);
      }
      Sorting.SortMembers(PATH, retained);
      r := FinishSeal(records.value);
    }

    /** Records an overrun, explains it, seals, and reports the failure. */
    method CloseAfterOverrun(drafts: seq<Draft>, failure: Failure) returns (r: Result<(), Failure>)
      requires Valid() && AllOwned(drafts)
      modifies this, directory
      ensures Valid()
      ensures Step(State(), r) == CloseOverrun(env, old(State()), drafts, failure)
    {
      var ok := EmitEach(drafts);
      if !ok {
        return Err(EventRefused);
      }
      var sealing := Seal();
      r := Err(if sealing.Ok? then failure else sealing.error);
    }

    /** Observed use above the preflight projection: charged, explained and sealed. */
    method CloseOverProjection(a: Accounting) returns (r: Result<(), Failure>)
      requires Valid() && !isSealed && AuthorityOwned(env, State()) && accounting.None?
               && ProjectionViolated(command.projection, a)
      modifies this, directory
      ensures Valid()
      ensures Step(State(), r) == Session.AttestAccounting(env, old(State()), a)
    {
      R.AttestedOverProjection(env, State(), a);
      accounting := Some(a);
      status := PROJECTION_EXCEEDED;
      usage := UsageOf(command.projection, a, process.wallSeconds, process.outputBytes);
      assert State() == R.Closed(old(State()), a, PROJECTION_EXCEEDED);
      R.SameLog(env, old(State()), State());
      var d, error := AccountingDraft(command.projection, a, usage),
                      Control(Error, Observed, ProjectionErrorPayload(a));
      OverrunDraftsOwned(d, error);
      r := CloseAfterOverrun([d, error], ProjectionExceeded);
    }

    /** Closes non-wall accounting with observed or unavailable values, once. */
    method AttestAccounting(a: Accounting) returns (r: Result<(), Failure>)
      requires Valid()
      modifies this, directory
      ensures Valid()
      ensures Step(State(), r) == Session.AttestAccounting(env, old(State()), a)
    {
      if isSealed {
        return Err(AlreadySealed);
      }
      if !AuthorityIsOwned() {
        return Err(AuthorityChanged);
      }
      if accounting.Some? {
        return Err(AccountingClosed);
      }
      if ProjectionViolated(command.projection, a) {
        r := CloseOverProjection(a);
      } else {
        r := ChargeAccounting(a);
      }
    }

    /** Charges the accounting to the running usage; past the budget it is explained and sealed. */
    method ChargeAccounting(a: Accounting) returns (r: Result<(), Failure>)
      requires Valid() && !isSealed && AuthorityOwned(env, State()) && accounting.None?
               && !ProjectionViolated(command.projection, a)
      modifies this, directory
      ensures Valid()
      ensures Step(State(), r) == Session.AttestAccounting(env, old(State()), a)
    {
      R.AttestedCharge(env, State(), a);
      Charge(a);
      if !Within(plan.budget, usage) {
        r := CloseOverBudget(a);
      } else {
        r := ReportCharge(a);
      }
    }

    method Charge(a: Accounting)
      requires Valid()
      modifies this`accounting, this`usage
      ensures Valid() && State() == R.WithCharge(old(State()), a)
    {
      accounting := Some(a);
      usage := usage.Plus(UsageOf(command.projection, a, 0, 0));
      R.SameLog(env, old(State()), State());
    }

    /** Records the charged use, explains the overrun, and seals. */
    method CloseOverBudget(a: Accounting) returns (r: Result<(), Failure>)
      requires Valid()
      modifies this, directory
      ensures Valid()
      ensures Step(State(), r)
           == CloseOverrun(env, old(State()).(status := BUDGET_EXCEEDED),
                           [AccountingDraft(command.projection, a, old(usage)),
                            Control(Error, Observed, ErrorPayload("BudgetExceeded", "budget exceeded"))],
                           BudgetExceededByAccounting)
    {
      status := BUDGET_EXCEEDED;
      R.SameLog(env, old(State()), State());
      var d, error := AccountingDraft(command.projection, a, usage),
                      Control(Error, Observed, ErrorPayload("BudgetExceeded", "budget exceeded"));
      OverrunDraftsOwned(d, error);
      r := CloseAfterOverrun([d, error], BudgetExceededByAccounting);
    }

    /** Warns about unavailable units and records the charged use. */
    method ReportCharge(a: Accounting) returns (r: Result<(), Failure>)
      requires Valid()
      modifies this, directory
      ensures Valid()
      ensures var reported := old(usage).(wallSeconds := Max(old(usage).wallSeconds, process.wallSeconds),
                                          outputBytes := Max(old(usage).outputBytes, process.outputBytes));
              var emitted := EmitAll(env, old(State()), UnavailableDrafts(command.projection, a)
                                                        + [AccountingDraft(command.projection, a, reported)]);
              Step(State(), r) == Step(emitted.state, if emitted.ok then Ok(()) else Err(EventRefused))
    {
      var reported := usage.(wallSeconds := Max(usage.wallSeconds, process.wallSeconds),
                             outputBytes := Max(usage.outputBytes, process.outputBytes));
      AccountingDraftsAllOwned(command.projection, a, reported);
      var ok := EmitEach(UnavailableDrafts(command.projection, a) + [AccountingDraft(command.projection, a, reported)]);
      r := if ok then Ok(()) else Err(EventRefused);
    }

    /** Declares the artifacts of a result, emits all it says, and marks it applied once that is through. */
    method CommitResult(result: NormalizationResult) returns (ok: bool)
      requires Valid() && ResultOk(result)
      modifies this, directory
      ensures Valid()
      ensures var emitted := EmitAll(env, R.Declared(old(State()), result), ResultDrafts(result));
              ok == emitted.ok && State() == if ok then emitted.state.(normalizationApplied := true) else emitted.state
    {
      retained := retained + RawRetained(result.artifacts);
      R.SameLog(env, old(State()), State());
      R.ResultDraftsPlain(result);
      ok := EmitEach(ResultDrafts(result));
      if ok {
        ghost var before := State();
        normalizationApplied := true;
        R.SameLog(env, before, State());
      }
    }

    /** Commits one adapter result and closes its accounting. */
    method ApplyNormalization(result: NormalizationResult) returns (r: Result<(), Failure>)
      requires Valid() && ResultOk(result)
      modifies this, directory
      ensures Valid()
      ensures Step(State(), r) == Session.ApplyNormalization(env, old(State()), result)
    {
      if isSealed {
        return Err(AlreadySealed);
      }
      if !AuthorityIsOwned() {
        return Err(AuthorityChanged);
      }
      if normalizationApplied {
        return Err(NormalizationClosed);
      }
      WholeDirectory();
      var failure := CheckArtifacts(result.artifacts);
      if failure.Some? {
        return Err(failure.value);
      }
      var ok := CommitResult(result);
      if !ok {
        return Err(EventRefused);
      }
      r := AttestAccounting(result.accounting);
    }

    /** After a launch failure: zero accounting where something was projected, then the seal. */
    method CloseLaunchFailure() returns (r: Result<ExecutionOutcome, Failure>)
      requires Valid()
      modifies this, directory
      ensures Valid()
      ensures Step(State(), r) == Session.CloseLaunchFailure(env, old(State()))
    {
      if command.projection.HasUsage() {
        var attested := AttestAccounting(Accounting(Some(0), Some(0), Some(0), Some(0)));
        if attested.Err? {
          return Err(attested.error);
        }
      }
      r := Seal();
    }
  }

  lemma LogRecordRefused(env: Env, s: SessionState, records: seq<ArtifactRecord>, stopped: SessionState)
    requires RetainedPresent(env, s) && (forall r | r in SortedRetained(s) :: r.path in AttemptFiles(env, s))
    requires records == RecordsFor(env, s, SortedRetained(s))
    requires EmitAll(env, s, RecordDrafts(records) + [StopDraft(s)]) == Emitted(stopped, true)
    requires !env.records(EventLogRecord(env, stopped))
    ensures SealOpen(env, s) == Step(stopped, Err(RecordRefused))
  {
  }

  /** The record describes the entry's file, and the constructor accepts it. */
  predicate DescribedAs(env: Env, s: SessionState, entry: Retained, record: ArtifactRecord) {
    && entry.path in AttemptFiles(env, s) && record == RecordFor(env, s, entry.path, entry.kind)
    && RecordOk(env.records, record)
  }

  /** The first entries are described, one record each. */
  predicate Described(env: Env, s: SessionState, entries: seq<Retained>, records: seq<ArtifactRecord>) {
    |records| <= |entries| && forall i | 0 <= i < |records| :: DescribedAs(env, s, entries[i], records[i])
  }

  lemma DescribedMore(
    env: Env, s: SessionState, entries: seq<Retained>, records: seq<ArtifactRecord>, record: ArtifactRecord)
    requires |records| < |entries| && Described(env, s, entries, records)
    requires DescribedAs(env, s, entries[|records|], record)
    ensures Described(env, s, entries, records + [record])
  {
  }

  lemma DescribeNext(env: Env, s: SessionState, entries: seq<Retained>, k: nat)
    requires k < |entries|
    ensures DescribeFailure(env, s, entries[k..]) ==
              if entries[k].path !in AttemptFiles(env, s) then Some(RetainedFileMissing)
              else if !RecordOk(env.records, RecordFor(env, s, entries[k].path, entries[k].kind)) then
                Some(RecordRefused)
              else DescribeFailure(env, s, entries[k + 1..])
  {
    assert entries[k..][0] == entries[k] && entries[k..][1..] == entries[k + 1..];
  }

  lemma DescribedAll(env: Env, s: SessionState, entries: seq<Retained>, records: seq<ArtifactRecord>)
    requires |records| == |entries| && Described(env, s, entries, records)
    ensures forall entry | entry in entries :: entry.path in AttemptFiles(env, s)
    ensures records == RecordsFor(env, s, entries)
  {
    forall entry | entry in entries ensures entry.path in AttemptFiles(env, s) {
      var i :| 0 <= i < |entries| && entries[i] == entry;
      assert DescribedAs(env, s, entries[i], records[i]);
    }
  }

  lemma OnlyManifestWritten(before: Files, after: Files, content: Bytes)
    requires after == before[MANIFEST := content]
    ensures after - {EVENTS} == (before - {EVENTS})[MANIFEST := content]
    ensures EVENTS in before ==> EVENTS in after && after[EVENTS] == before[EVENTS]
  {
    E.HarnessNames();
  }

  lemma SealDraftsOwned(records: seq<ArtifactRecord>, stop: Draft)
    requires stop.eventType.RunStopped? && stop.source == CONTROL_SOURCE
    ensures AllOwned(RecordDrafts(records) + [stop])
  {
  }

  lemma OverrunDraftsOwned(d: Draft, error: Draft)
    requires d.eventType.BudgetUpdate? && d.source == CONTROL_SOURCE && error.eventType.Error?
             && error.source == CONTROL_SOURCE
    ensures AllOwned([d, error])
  {
  }

  lemma AccountingDraftsAllOwned(p: C.Projection, a: Accounting, usage: Usage)
    ensures AllOwned(UnavailableDrafts(p, a) + [AccountingDraft(p, a, usage)])
  {
  }

  /** Runs one authorised command up to the open session. */
  method Execute(env: Env, plan: P.RunPlan, command: C.CommandSpec, process: ProcessResult, left: map<string, Bytes>)
    returns (r: Result<RunSession, OpenFailure>)
    requires env.text.Lawful() && plan.identity.attempt >= 1 && EVENTS !in left
    ensures r.Ok? <==> Open(env, plan, command, process, left).Ok?
    ensures r.Ok?
            ==> fresh(r.value) && r.value.Valid() && r.value.State() == Open(env, plan, command, process, left).value
  {
    if !ExecutionAllowed(env, plan, command) {
      return Err(Disallowed);
    }
    E.HarnessNames();
    var files := left + Contracts(env, plan, command);
    var directory := new AttemptDirectory(files[EVENTS := []]);
    PutAndRemove(files, EVENTS, []);
    var session := new RunSession.Start(env, plan, command, process, directory);
    ghost var front, last := R.OpeningDraftsOwned(env, plan, command, process);
    var ok := session.EmitEach(OpeningDrafts(env, plan, command, process));
    if !ok {
      return Err(OpeningEventRefused);
    }
    r := Ok(session);
  }

  /** The log writer never refuses what its own session emits next. */
  lemma OwnLogAccepts(env: Env, s: SessionState, e: HarnessEvent)
    requires env.text.Lawful() && LogOk(env, s)
    requires e.runId == s.plan.identity.runId && e.attempt == s.plan.identity.attempt
    requires e.sequence == s.sequence + 1 && e.schemaVersion == CURRENT_VERSION
    ensures var existing := ReadEvents(env.text, env.rules, LogBytes(env.text, s.events));
            existing == Ok(s.events)
              && AcceptsNext(Identity(s.plan.identity.runId, s.plan.identity.attempt), existing.value, e)
  {
    E.SessionLogConsistent(env, s);
    if s.events != [] {
      assert EventOk(env, s, s.events[0], 0);
      assert EventOk(env, s, s.events[|s.events| - 1], |s.events| - 1);
    }
  }

  lemma EmittedLogOk(env: Env, s: SessionState, d: Draft)
    requires LogOk(env, s) && DraftOwned(d) && ValidEvent(env.rules, EventOf(env, s, d))
    ensures LogOk(env, AfterEmit(env, s, d))
  {
    EmitAllKeepsLog(env, s, [d]);
    assert [d][1..] == [];
  }
}
