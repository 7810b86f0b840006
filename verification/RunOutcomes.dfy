/**
 What a run's status, usage and log say of what happened: each word, each total and each entry against the process
 result, the accounting and the adapter's result themselves.
 */
module RunOutcomes {
  import opened Common
  import opened Json
  import opened Events
  import opened Budget
  import opened BudgetHistory
  import opened Manifest
  import opened Session
  import opened SessionInvariant
  import opened EndToEnd
  import opened SessionRuns
  import opened SealedRuns
  import L = ScientificLog
  import P = RunPlans
  import C = Commands
  import CD = CommandDocuments

  // ------------------------------------------------------------ status words

  /** The process kept inside the plan's wall and output limits. */
  predicate Inside(plan: P.RunPlan, process: ProcessResult) {
    process.wallSeconds <= Json.Whole(plan.budget.maxWallSeconds) && process.outputBytes <= plan.budget.maxOutputBytes
  }

  lemma InsideMeansWithin(plan: P.RunPlan, process: ProcessResult)
    requires P.BudgetOk(plan.budget)
    ensures Within(plan.budget, ProcessUsage(process)) <==> Inside(plan, process)
  {
    WithinMeans(plan.budget, ProcessUsage(process));
  }

  lemma WordsDiffer()
    ensures "completed" != "command-failed" && "completed" != "timed-out" && "completed" != "launch-error"
    ensures "completed" != "output-budget-exceeded" && "completed" != "budget-exceeded"
    ensures "command-failed" != "timed-out" && "command-failed" != "launch-error"
    ensures "command-failed" != "output-budget-exceeded" && "command-failed" != "budget-exceeded"
    ensures "timed-out" != "launch-error" && "timed-out" != "output-budget-exceeded" && "timed-out" != "budget-exceeded"
    ensures "launch-error" != "output-budget-exceeded" && "launch-error" != "budget-exceeded"
    ensures "output-budget-exceeded" != "budget-exceeded"
  {
    assert |"completed"| == 9 && |"command-failed"| == 14 && |"timed-out"| == 9 && |"launch-error"| == 12;
    assert |"output-budget-exceeded"| == 22 && |"budget-exceeded"| == 15;
    assert "completed"[0] == 'c' && "timed-out"[0] == 't';
  }

  /** The status an opened run has says exactly what became of its process. */
  lemma OpenedStatus(
    env: Env, plan: P.RunPlan, command: C.CommandSpec, process: ProcessResult, left: map<string, Bytes>)
    requires P.BudgetOk(plan.budget) && Open(env, plan, command, process, left).Ok?
    ensures var status := Open(env, plan, command, process, left).value.status;
            var ran := Inside(plan, process) && process.launchError.None?;
            var kept := ran && !process.outputBudgetExceeded;
            && (status == "budget-exceeded" <==> !Inside(plan, process))
            && (status == "launch-error" <==> Inside(plan, process) && process.launchError.Some?)
            && (status == "output-budget-exceeded" <==> ran && process.outputBudgetExceeded)
            && (status == "timed-out" <==> kept && process.timedOut)
            && (status == "completed" <==> kept && !process.timedOut && process.returnCode == 0)
            && (status == "command-failed" <==> kept && !process.timedOut && process.returnCode != 0)
  {
    InsideMeansWithin(plan, process);
    WordsDiffer();
    OpenedFields(env, plan, command, process, left);
  }

  lemma OpenedFields(
    env: Env, plan: P.RunPlan, command: C.CommandSpec, process: ProcessResult, left: map<string, Bytes>)
    requires Open(env, plan, command, process, left).Ok?
    ensures var o := Open(env, plan, command, process, left).value;
            && o.status == OpeningStatus(plan, process) && o.usage == ProcessUsage(process)
            && o.plan == plan && o.command == command && o.process == process && o.accounting.None?
            && o.files == left + Contracts(env, plan, command) && !o.isSealed && o.outcome.None?
            && o.events == Added(env, Fresh(env, plan, command, process, left),
                                 OpeningDrafts(env, plan, command, process))
            && |o.events| == |OpeningDrafts(env, plan, command, process)|
  {
    EmitAllGrows(env, Fresh(env, plan, command, process, left), OpeningDrafts(env, plan, command, process));
    PrependNothing(Added(env, Fresh(env, plan, command, process, left), OpeningDrafts(env, plan, command, process)));
  }

  /** A run is opened only behind every gate. */
  lemma OpenedGates(
    env: Env, plan: P.RunPlan, command: C.CommandSpec, process: ProcessResult, left: map<string, Bytes>)
    ensures Open(env, plan, command, process, left) == Err(Disallowed) <==>
              || plan.execution.backend != P.LocalSubprocess
              || plan.execution.authorization.commandSha256
                 != Some(env.digest(env.text.compact(Obj(CD.CommandDocument(command)))))
              || command.timeoutSeconds > plan.budget.maxWallSeconds
              || command.projection.unbounded != [] || command.unownedOutputPatterns != []
              || command.projection.costUsd > plan.budget.maxCostUsd
              || command.projection.gpuHours > plan.budget.maxGpuHours
              || (plan.budget.maxModelTokens.Some?
                  && command.projection.modelTokens > plan.budget.maxModelTokens.value)
              || (plan.budget.maxToolCalls.Some? && command.projection.toolCalls > plan.budget.maxToolCalls.value)
              || plan.budget.maxOutputBytes < 0
  {
    WithinMeans(plan.budget, ProjectedUsage(command));
    WholeOrdered(command.timeoutSeconds, plan.budget.maxWallSeconds);
  }

  lemma WholeOrdered(m: int, n: int)
    ensures Json.Whole(m) <= Json.Whole(n) <==> m <= n
  {
    if m <= n {
      assert (n - m) * ONE >= 0;
      assert n * ONE == m * ONE + (n - m) * ONE;
    } else {
      assert (m - n) * ONE > 0;
      assert m * ONE == n * ONE + (m - n) * ONE;
    }
  }

  // ----------------------------------------------------- settled by accounting

  /** Some unit was observed past its projection. */
  predicate ObservedPasses(p: C.Projection, a: Accounting) {
    || (a.costUsd.Some? && a.costUsd.value > p.costUsd)
    || (a.gpuHours.Some? && a.gpuHours.value > p.gpuHours)
    || (a.modelTokens.Some? && a.modelTokens.value > p.modelTokens)
    || (a.toolCalls.Some? && a.toolCalls.value > p.toolCalls)
  }

  function ObservedOr(value: Option<int>, projected: int): int {
    if value.Some? then value.value else projected
  }

  /** What the run is charged: the process, and for each unit what was observed or else all that was projected. */
  function Settled(process: ProcessResult, p: C.Projection, a: Accounting): Usage {
    Usage(process.wallSeconds, ObservedOr(a.costUsd, p.costUsd), ObservedOr(a.gpuHours, p.gpuHours),
          ObservedOr(a.modelTokens, p.modelTokens), ObservedOr(a.toolCalls, p.toolCalls), process.outputBytes)
  }

  function SettledStatus(o: SessionState, a: Accounting): string {
    if ObservedPasses(o.command.projection, a) then "resource-projection-exceeded"
    else if !Within(o.plan.budget, Settled(o.process, o.command.projection, a)) then "budget-exceeded"
    else o.status
  }

  /** Status and usage are those of the opening until accounting is closed, and then what accounting made of them. */
  predicate Explained(o: SessionState, s: SessionState) {
    && s.plan == o.plan && s.command == o.command && s.process == o.process && o.events <= s.events
    && (forall r | r in s.retained :: r in o.retained || r.kind == "upstream-raw")
    && (s.accounting.None? ==> s.status == o.status && s.usage == o.usage)
    && (s.accounting.Some? ==>
          && s.status == SettledStatus(o, s.accounting.value)
          && s.usage == Settled(o.process, o.command.projection, s.accounting.value))
  }

  /** Nothing of that changed, and the log only grew. */
  predicate Untouched(s: SessionState, t: SessionState) {
    && t.plan == s.plan && t.command == s.command && t.process == s.process && s.events <= t.events
    && t.accounting == s.accounting && t.status == s.status && t.usage == s.usage && t.retained == s.retained
  }

  lemma UntouchedExplained(o: SessionState, s: SessionState, t: SessionState)
    requires Explained(o, s) && Untouched(s, t)
    ensures Explained(o, t)
  {
  }

  lemma UntouchedTwice(s: SessionState, t: SessionState, u: SessionState)
    requires Untouched(s, t) && Untouched(t, u)
    ensures Untouched(s, u)
  {
  }

  lemma EmissionUntouched(env: Env, s: SessionState, ds: seq<Draft>)
    ensures Untouched(s, EmitAll(env, s, ds).state)
  {
    EmitAllGrows(env, s, ds);
  }

  /** Only the log, the files and the ending may differ. */
  predicate SealForm(s: SessionState, t: SessionState) {
    && s.events <= t.events
    && t == s.(events := t.events, sequence := t.sequence, files := t.files, outcome := t.outcome,
               isSealed := t.isSealed)
  }

  lemma GrownForm(s: SessionState, added: seq<HarnessEvent>)
    ensures SealForm(s, Grown(s, added))
  {
  }

  lemma CommitForm(env: Env, s: SessionState, stopped: SessionState, records: seq<ArtifactRecord>)
    requires SealForm(s, stopped)
    ensures SealForm(s, CommitManifest(env, s, stopped, records).state)
  {
  }

  lemma SealOpenForm(env: Env, s: SessionState)
    requires RetainedPresent(env, s)
    ensures SealForm(s, SealOpen(env, s).state)
  {
    SortedPresent(env, s);
    var records := RecordsFor(env, s, SortedRetained(s));
    var emitted := EmitAll(env, s, RecordDrafts(records) + [StopDraft(s)]);
    EmitAllGrows(env, s, RecordDrafts(records) + [StopDraft(s)]);
    GrownForm(s, Added(env, s, RecordDrafts(records) + [StopDraft(s)]));
    CommitForm(env, s, emitted.state, records + [EventLogRecord(env, emitted.state)]);
  }

  lemma SealUntouched(env: Env, s: SessionState)
    ensures Untouched(s, Seal(env, s).state)
  {
    if !s.isSealed && s.outcome.None? {
      SealCases(env, s);
      if Sealable(env, s) { SealOpenForm(env, s); }
    }
  }

  lemma CloseOverrunUntouched(env: Env, s: SessionState, ds: seq<Draft>, failure: Failure)
    ensures Untouched(s, CloseOverrun(env, s, ds, failure).state)
  {
    var e := EmitAll(env, s, ds).state;
    EmissionUntouched(env, s, ds);
    SealUntouched(env, e);
    UntouchedTwice(s, e, Seal(env, e).state);
  }

  lemma ViolatedMeans(p: C.Projection, a: Accounting)
    ensures ProjectionViolated(p, a) <==> ObservedPasses(p, a)
  {
    if ObservedPasses(p, a) {
      assert (a.Of(CostUsd).Some? && a.Of(CostUsd).value > ProjectionOf(p, CostUsd))
          || (a.Of(GpuHours).Some? && a.Of(GpuHours).value > ProjectionOf(p, GpuHours))
          || (a.Of(ModelTokens).Some? && a.Of(ModelTokens).value > ProjectionOf(p, ModelTokens))
          || (a.Of(ToolCalls).Some? && a.Of(ToolCalls).value > ProjectionOf(p, ToolCalls));
    }
  }

  /** The session that accounting seals or emits from already has the settled status and usage. */
  lemma SettledExplained(o: SessionState, s: SessionState, a: Accounting, t: SessionState)
    requires Explained(o, s) && o.usage == ProcessUsage(o.process) && s.accounting.None?
    requires t == s.(accounting := Some(a), usage := t.usage, status := t.status)
    requires var p := s.command.projection;
             || (ProjectionViolated(p, a) && t.status == PROJECTION_EXCEEDED && t.usage == ChargedUsage(s, a))
             || (&& !ProjectionViolated(p, a) && t.usage == s.usage.Plus(UsageOf(p, a, 0, 0))
                 && t.status == if Within(s.plan.budget, t.usage) then s.status else BUDGET_EXCEEDED)
    ensures Explained(o, t)
  {
    ViolatedMeans(s.command.projection, a);
  }

  lemma AttestExplained(env: Env, o: SessionState, s: SessionState, a: Accounting)
    requires Explained(o, s) && o.usage == ProcessUsage(o.process)
    ensures Explained(o, AttestAccounting(env, s, a).state)
  {
    if !s.isSealed && AuthorityOwned(env, s) && s.accounting.None? {
      var p := s.command.projection;
      if ProjectionViolated(p, a) {
        var t := Closed(s, a, PROJECTION_EXCEEDED);
        var ds := [AccountingDraft(p, a, ChargedUsage(s, a)), Control(Error, Observed, ProjectionErrorPayload(a))];
        AttestedOverProjection(env, s, a);
        SettledExplained(o, s, a, t);
        CloseOverrunUntouched(env, t, ds, ProjectionExceeded);
        UntouchedExplained(o, t, CloseOverrun(env, t, ds, ProjectionExceeded).state);
      } else {
        ChargeExplained(env, o, s, a);
      }
    }
  }

  lemma ChargeExplained(env: Env, o: SessionState, s: SessionState, a: Accounting)
    requires Explained(o, s) && o.usage == ProcessUsage(o.process)
    requires !s.isSealed && AuthorityOwned(env, s) && s.accounting.None? && !ProjectionViolated(s.command.projection, a)
    ensures Explained(o, AttestAccounting(env, s, a).state)
  {
    AttestedCharge(env, s, a);
    var s1, p := WithCharge(s, a), s.command.projection;
    if Within(s.plan.budget, s1.usage) {
      var ds := UnavailableDrafts(p, a) + [AccountingDraft(p, a, s1.usage.(
        wallSeconds := Max(s1.usage.wallSeconds, s.process.wallSeconds),
        outputBytes := Max(s1.usage.outputBytes, s.process.outputBytes)))];
      SettledExplained(o, s, a, s1);
      EmissionUntouched(env, s1, ds);
      UntouchedExplained(o, s1, EmitAll(env, s1, ds).state);
    } else {
      var t := s1.(status := BUDGET_EXCEEDED);
      var ds := [AccountingDraft(p, a, s1.usage),
                 Control(Error, Observed, ErrorPayload("BudgetExceeded", "budget exceeded"))];
      SettledExplained(o, s, a, t);
      CloseOverrunUntouched(env, t, ds, BudgetExceededByAccounting);
      UntouchedExplained(o, t, CloseOverrun(env, t, ds, BudgetExceededByAccounting).state);
    }
  }

  lemma DeclaredExplained(o: SessionState, s: SessionState, r: NormalizationResult)
    requires Explained(o, s)
    ensures Explained(o, Declared(s, r))
  {
    forall x | x in Declared(s, r).retained ensures x in o.retained || x.kind == "upstream-raw" {
      if x !in s.retained { assert x in RawRetained(r.artifacts); }
    }
  }

  lemma NormalizationExplained(env: Env, o: SessionState, s: SessionState, r: NormalizationResult)
    requires Explained(o, s) && o.usage == ProcessUsage(o.process)
    ensures Explained(o, ApplyNormalization(env, s, r).state)
  {
    var failure := ArtifactFailure(AttemptFiles(env, s).Keys, RetainedPaths(s.retained), r.artifacts);
    if !s.isSealed && AuthorityOwned(env, s) && !s.normalizationApplied && failure.None? {
      var e := EmitAll(env, Declared(s, r), ResultDrafts(r));
      EmissionUntouched(env, Declared(s, r), ResultDrafts(r));
      DeclaredExplained(o, s, r);
      UntouchedExplained(o, Declared(s, r), e.state);
      UntouchedExplained(o, Declared(s, r), e.state.(normalizationApplied := true));
      AttestExplained(env, o, e.state.(normalizationApplied := true), r.accounting);
    }
  }

  lemma LaunchExplained(env: Env, o: SessionState, s: SessionState)
    requires Explained(o, s) && o.usage == ProcessUsage(o.process)
    ensures Explained(o, CloseLaunchFailure(env, s).state)
  {
    var zeros := Accounting(Some(0), Some(0), Some(0), Some(0));
    var t := if s.command.projection.HasUsage() then AttestAccounting(env, s, zeros).state else s;
    AttestExplained(env, o, s, zeros);
    SealUntouched(env, t);
    UntouchedExplained(o, t, Seal(env, t).state);
  }

  lemma CallExplained(env: Env, o: SessionState, s: SessionState, c: Call)
    requires Explained(o, s) && o.usage == ProcessUsage(o.process)
    ensures Explained(o, AfterCall(env, s, c))
  {
    match c
    case Normalize(r) => NormalizationExplained(env, o, s, r);
    case SealCall =>
      SealUntouched(env, s);
      UntouchedExplained(o, s, Seal(env, s).state);
    case LaunchClose => LaunchExplained(env, o, s);
    case External(path, content) => UntouchedExplained(o, s, AfterExternal(s, path, content));
  }

  lemma {:induction false} CallsExplained(env: Env, o: SessionState, calls: seq<Call>)
    requires o.accounting.None? && o.usage == ProcessUsage(o.process)
    ensures Explained(o, AfterCalls(env, o, calls))
  {
    if calls != [] {
      CallsExplained(env, o, calls[..|calls| - 1]);
      CallExplained(env, o, AfterCalls(env, o, calls[..|calls| - 1]), calls[|calls| - 1]);
    }
  }

  // ------------------------------------------------------- the log only grows

  lemma AttestGrows(env: Env, s: SessionState, a: Accounting)
    ensures s.events <= AttestAccounting(env, s, a).state.events
  {
    var t, ds, failure := AttestForms(env, s, a);
    EmissionUntouched(env, t, ds);
    CloseOverrunUntouched(env, t, ds, failure);
  }

  lemma PrefixOfPrefix<T>(a: seq<T>, b: seq<T>, c: seq<T>)
    requires a <= b <= c
    ensures a <= c
  {
  }

  /** Whatever is called, no entry is taken back or changed. */
  lemma CallGrows(env: Env, s: SessionState, c: Call)
    ensures s.events <= AfterCall(env, s, c).events
  {
    match c
    case External(path, content) =>
    case SealCall => SealUntouched(env, s);
    case LaunchClose =>
      var zeros := Accounting(Some(0), Some(0), Some(0), Some(0));
      var t := if s.command.projection.HasUsage() then AttestAccounting(env, s, zeros).state else s;
      AttestGrows(env, s, zeros);
      SealUntouched(env, t);
      PrefixOfPrefix(s.events, t.events, Seal(env, t).state.events);
    case Normalize(r) => NormalizationGrows(env, s, r);
  }

  lemma NormalizationGrows(env: Env, s: SessionState, r: NormalizationResult)
    ensures s.events <= ApplyNormalization(env, s, r).state.events
    ensures ApplyNormalization(env, s, r).state.normalizationApplied && !s.normalizationApplied ==>
              EmitAll(env, Declared(s, r), ResultDrafts(r)).ok
              && EmitAll(env, Declared(s, r), ResultDrafts(r)).state.events
                 <= ApplyNormalization(env, s, r).state.events
  {
    var e := EmitAll(env, Declared(s, r), ResultDrafts(r));
    EmissionUntouched(env, Declared(s, r), ResultDrafts(r));
    EmitAllGrows(env, Declared(s, r), ResultDrafts(r));
    AttestGrows(env, e.state.(normalizationApplied := true), r.accounting);
    PrefixOfPrefix(s.events, e.state.events,
                   AttestAccounting(env, e.state.(normalizationApplied := true), r.accounting).state.events);
  }

  lemma {:induction false} CallsGrow(env: Env, s: SessionState, calls: seq<Call>)
    ensures s.events <= AfterCalls(env, s, calls).events
  {
    if calls != [] {
      var front := calls[..|calls| - 1];
      CallsGrow(env, s, front);
      CallGrows(env, AfterCalls(env, s, front), calls[|calls| - 1]);
      PrefixOfPrefix(s.events, AfterCalls(env, s, front).events, AfterCalls(env, s, calls).events);
    }
  }

  // ------------------------------------------------------------- whole runs

  /**
   In every run the status is the opening's until accounting is closed, and afterwards tells an overrun of the
   projection, then of the budget, and otherwise still the opening's; the usage is the process and what was observed
   or projected. The opening's events stay in front of the log.
   */
  lemma StatusTellsWhatHappened(env: Env, run: Run)
    requires Lawful(env, run)
    ensures Explained(Opened(env, run), Final(env, run))
  {
    OpenedFields(env, run.plan, run.command, run.process, run.left);
    CallsExplained(env, Opened(env, run), run.calls);
  }

  /** The stream of a sealed run ends with that status and the process's return code, and so does its outcome. */
  lemma SealedStatusInLog(env: Env, run: Run)
    requires Lawful(env, run) && Final(env, run).isSealed
    ensures EndsAs(Opened(env, run), Final(env, run))
  {
    var u := SealedOrigin(env, run);
    StatusTellsWhatHappened(env, run);
    EndsExplained(env, Opened(env, run), u, Final(env, run));
  }

  lemma EndsExplained(env: Env, o: SessionState, u: SessionState, s: SessionState)
    requires Explained(o, s) && Core(env, u) && env.text.Lawful() && SealedBy(env, u, s)
    ensures EndsAs(o, s)
  {
    SealedParts(env, u, s);
    SealedOutcome(env, u, s);
    SealedEnd(o, s);
  }

  /** The end of the stream and the outcome tell the settled status and what the process returned. */
  predicate EndsAs(o: SessionState, s: SessionState) {
    && s.events != [] && s.outcome.Some?
    && TerminalStatus(s.events) == Some(s.outcome.value.status)
    && s.outcome.value.status == (if s.accounting.Some? then SettledStatus(o, s.accounting.value) else o.status)
    && s.outcome.value.usage == (if s.accounting.Some? then Settled(o.process, o.command.projection, s.accounting.value)
                                 else o.usage)
    && s.outcome.value.process == o.process
    && Get(s.events[|s.events| - 1].payload, "return_code") == Int(o.process.returnCode)
  }

  lemma SealedEnd(o: SessionState, s: SessionState)
    requires Explained(o, s) && s.outcome == Some(ExecutionOutcome(s.process, s.usage, s.status)) && s.events != []
    requires TerminalStatus(s.events) == Some(s.status)
    requires Get(s.events[|s.events| - 1].payload, "return_code") == Int(s.process.returnCode)
    ensures EndsAs(o, s)
  {
  }

  lemma SealedOutcome(env: Env, u: SessionState, s: SessionState)
    requires SealedBy(env, u, s) && RetainedOk(u)
    ensures s.outcome == Some(ExecutionOutcome(u.process, u.usage, u.status)) && s.events != []
    ensures s.process == u.process && s.usage == u.usage && s.status == u.status
    ensures Get(s.events[|s.events| - 1].payload, "return_code") == Int(u.process.returnCode)
  {
    SortedPresent(env, u);
    var ds := RecordDrafts(RecordsFor(env, u, SortedRetained(u))) + [StopDraft(u)];
    EmitAllGrows(env, u, ds);
    assert ds[|ds| - 1] == StopDraft(u);
  }
}
