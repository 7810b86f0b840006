/** What the log of a run says, entry by entry: how it opened, what was accounted, what was committed and recorded. */
module RunLogs {
  import opened Common
  import opened Json
  import opened Events
  import opened Budget
  import opened BudgetHistory
  import opened Manifest
  import opened AttemptDirectories
  import opened Session
  import opened SessionInvariant
  import opened EndToEnd
  import opened SessionRuns
  import opened SealedRuns
  import opened RunOutcomes
  import L = ScientificLog
  import Sorting
  import P = RunPlans
  import C = Commands
  import CD = CommandDocuments

  function ToldAll(es: seq<HarnessEvent>): (ds: seq<Draft>)
    ensures |ds| == |es| && forall i | 0 <= i < |es| :: ds[i] == L.Told(es[i])
  {
    seq(|es|, i requires 0 <= i < |es| => L.Told(es[i]))
  }

  lemma ToldCons(e: HarnessEvent, es: seq<HarnessEvent>)
    ensures ToldAll([e] + es) == [L.Told(e)] + ToldAll(es)
  {
  }

  /** The events that are added say what the first drafts said, provenance included. */
  lemma {:induction false} AddedTold(env: Env, s: SessionState, ds: seq<Draft>)
    ensures ToldAll(Added(env, s, ds)) <= ds
    decreases |ds|
  {
    if ds != [] && ValidEvent(env.rules, EventOf(env, s, ds[0])) {
      var s1 := AfterEmit(env, s, ds[0]);
      AddedTold(env, s1, ds[1..]);
      ToldCons(EventOf(env, s, ds[0]), Added(env, s1, ds[1..]));
      assert L.Told(EventOf(env, s, ds[0])) == ds[0] && ds == [ds[0]] + ds[1..];
    }
  }

  /** All drafts were admitted: the log grew by events that say exactly them. */
  lemma EmittedTold(env: Env, s: SessionState, ds: seq<Draft>)
    requires EmitAll(env, s, ds).ok
    ensures EmitAll(env, s, ds).state.events == s.events + Added(env, s, ds) && ToldAll(Added(env, s, ds)) == ds
  {
    EmitAllGrows(env, s, ds);
    AddedTold(env, s, ds);
  }

  // ------------------------------------------------------------- the opening

  predicate TellsPlan(payload: Fields, plan: P.RunPlan) {
    && Get(payload, "experiment_id") == Str(plan.identity.experimentId)
    && Get(payload, "condition") == Str(plan.identity.condition)
    && Get(payload, "profile") == Str(P.ProfileWord(plan.profile))
    && Get(payload, "giclab_commit") == Str(plan.sources.giclabCommit)
    && Get(payload, "upstream_source_id") == Str(plan.sources.upstreamSourceId)
    && Get(payload, "upstream_commit") == Str(plan.sources.upstreamCommit)
    && Get(payload, "protocol_sha256") == Str(plan.sources.protocolSha256)
    && Get(payload, "config_sha256") == Str(plan.sources.configSha256)
    && Get(payload, "environment_sha256") == Str(plan.sources.environmentSha256)
    && Get(payload, "model_revision") == P.OptionalStr(plan.sources.modelRevision)
    && Get(payload, "dataset_revision") == P.OptionalStr(plan.sources.datasetRevision)
  }

  predicate TellsPreflight(env: Env, payload: Fields, plan: P.RunPlan, command: C.CommandSpec) {
    && Get(payload, "command_sha256") == Str(env.digest(env.text.compact(Obj(CD.CommandDocument(command)))))
    && (plan.execution.authorization.reference.Some? ==>
          Get(payload, "authorization_reference_sha256")
          == Str(env.referenceDigest(plan.execution.authorization.reference.value)))
    && Get(payload, "artifact_directory") == Str(env.attemptPath(plan))
    && Get(payload, "max_wall_seconds") == Int(plan.budget.maxWallSeconds)
    && Get(payload, "max_output_bytes") == Int(plan.budget.maxOutputBytes)
    && Get(payload, "projected_cost_usd") == Float(command.projection.costUsd)
    && Get(payload, "projected_gpu_hours") == Float(command.projection.gpuHours)
    && Get(payload, "projected_model_tokens") == Int(command.projection.modelTokens)
    && Get(payload, "projected_tool_calls") == Int(command.projection.toolCalls)
    && Get(payload, "incremental_limit_enforcement") == Str(C.EnforcementWord(command.projection.enforcement))
  }

  predicate TellsCompletion(payload: Fields, process: ProcessResult) {
    && Get(payload, "return_code") == Int(process.returnCode)
    && Get(payload, "timed_out") == Bool(process.timedOut)
    && Get(payload, "wall_seconds") == Float(process.wallSeconds)
    && Get(payload, "output_budget_exceeded") == Bool(process.outputBudgetExceeded)
    && Get(payload, "stdout_redactions") == Int(process.stdoutRedactions)
    && Get(payload, "stderr_redactions") == Int(process.stderrRedactions)
  }

  predicate TellsFirstUse(payload: Fields, plan: P.RunPlan, process: ProcessResult) {
    && Get(payload, "wall_seconds") == Float(process.wallSeconds)
    && Get(payload, "output_bytes") == Int(process.outputBytes)
    && Get(payload, "within_budget") == Bool(Inside(plan, process) && !process.outputBudgetExceeded)
  }

  predicate TellsError(d: Draft, kind: string) {
    d.eventType == Error && d.provenance == Observed && Get(d.payload, "error_type") == Str(kind)
  }

  lemma PlanTold(plan: P.RunPlan)
    ensures TellsPlan(RunStartedPayload(plan), plan)
  {
  }

  lemma PreflightTold(env: Env, plan: P.RunPlan, command: C.CommandSpec)
    ensures TellsPreflight(env, PreflightPayload(env, plan, command), plan, command)
  {
  }

  lemma CompletionTold(process: ProcessResult)
    ensures TellsCompletion(CompletedPayload(process), process)
  {
  }

  predicate TellsStart(env: Env, started: Draft, preflight: Draft, plan: P.RunPlan, command: C.CommandSpec) {
    && started.eventType == RunStarted && started.provenance == Observed && TellsPlan(started.payload, plan)
    && preflight.eventType == PreflightCompleted && preflight.provenance == Derived
    && TellsPreflight(env, preflight.payload, plan, command)
  }

  /** What became of the command: started and completed, or never launched. */
  predicate TellsCommand(ds: seq<Draft>, command: C.CommandSpec, process: ProcessResult) {
    if process.launchError.None? then
      && |ds| == 2
      && ds[0].eventType == CommandStarted && ds[0].provenance == Observed
      && ds[0].payload == CD.CommandDocument(command)
      && ds[1].eventType == CommandCompleted && ds[1].provenance == Observed
      && TellsCompletion(ds[1].payload, process)
    else
      && |ds| == 1 && TellsError(ds[0], process.launchError.value.kind)
      && Get(ds[0].payload, "message") == Str(process.launchError.value.message)
  }

  predicate TellsUse(ds: seq<Draft>, plan: P.RunPlan, process: ProcessResult) {
    var n := if Inside(plan, process) then 0 else 1;
    && |ds| == n + 1 && (n == 1 ==> TellsError(ds[0], "BudgetExceeded"))
    && ds[n].eventType == BudgetUpdate && ds[n].provenance == Observed && TellsFirstUse(ds[n].payload, plan, process)
  }

  /** What the events of an opening say, in order: the plan and the gates, the command, and its use. */
  datatype OpeningParts = OpeningParts(start: seq<Draft>, command: seq<Draft>, use: seq<Draft>) {
    function All(): seq<Draft> {
      start + command + use
    }

    predicate Tells(env: Env, plan: P.RunPlan, spec: C.CommandSpec, process: ProcessResult) {
      && |start| == 2 && TellsStart(env, start[0], start[1], plan, spec)
      && TellsCommand(command, spec, process) && TellsUse(use, plan, process)
      && AllControl(start) && AllControl(command) && AllControl(use)
    }
  }

  predicate AllControl(ds: seq<Draft>) {
    forall d | d in ds :: d.source == CONTROL_SOURCE
  }

  function StartDrafts(env: Env, plan: P.RunPlan, command: C.CommandSpec): seq<Draft> {
    [Control(RunStarted, Observed, RunStartedPayload(plan)),
     Control(PreflightCompleted, Derived, PreflightPayload(env, plan, command))]
  }

  function UseDrafts(plan: P.RunPlan, process: ProcessResult): seq<Draft> {
    var within := Within(plan.budget, ProcessUsage(process));
    (if within then [] else [Control(Error, Observed, ErrorPayload("BudgetExceeded", "budget exceeded"))])
    + [Control(BudgetUpdate, Observed, FirstUpdate(process, within && !process.outputBudgetExceeded))]
  }

  lemma StartTold(env: Env, plan: P.RunPlan, command: C.CommandSpec)
    ensures var a := StartDrafts(env, plan, command);
            |a| == 2 && TellsStart(env, a[0], a[1], plan, command) && AllControl(a)
  {
    PlanTold(plan);
    PreflightTold(env, plan, command);
  }

  lemma CommandTold(command: C.CommandSpec, process: ProcessResult)
    ensures TellsCommand(CommandDrafts(command, process), command, process)
    ensures AllControl(CommandDrafts(command, process))
  {
    if process.launchError.None? {
      CompletionTold(process);
    } else {
      LaunchErrorTold(process.launchError.value.kind, process.launchError.value.message);
    }
  }

  lemma LaunchErrorTold(kind: string, message: string)
    ensures TellsError(Control(Error, Observed, ErrorPayload(kind, message)), kind)
    ensures Get(ErrorPayload(kind, message), "message") == Str(message)
  {
  }

  lemma UseTold(plan: P.RunPlan, process: ProcessResult)
    requires P.BudgetOk(plan.budget)
    ensures TellsUse(UseDrafts(plan, process), plan, process) && AllControl(UseDrafts(plan, process))
  {
    InsideMeansWithin(plan, process);
    FirstUseTold(plan, process);
  }

  lemma DraftsOpen(env: Env, plan: P.RunPlan, command: C.CommandSpec, process: ProcessResult)
    returns (parts: OpeningParts)
    requires P.BudgetOk(plan.budget)
    ensures parts.Tells(env, plan, command, process) && parts.All() == OpeningDrafts(env, plan, command, process)
  {
    var a, b, c := StartDrafts(env, plan, command), CommandDrafts(command, process), UseDrafts(plan, process);
    StartTold(env, plan, command);
    CommandTold(command, process);
    UseTold(plan, process);
    parts := OpeningParts(a, b, c);
    OpeningInParts(env, plan, command, process);
  }

  lemma OpeningInParts(env: Env, plan: P.RunPlan, command: C.CommandSpec, process: ProcessResult)
    ensures OpeningDrafts(env, plan, command, process)
         == StartDrafts(env, plan, command) + CommandDrafts(command, process) + UseDrafts(plan, process)
  {
    var within := Within(plan.budget, ProcessUsage(process));
    Assoc(StartDrafts(env, plan, command) + CommandDrafts(command, process),
          if within then [] else [Control(Error, Observed, ErrorPayload("BudgetExceeded", "budget exceeded"))],
          [Control(BudgetUpdate, Observed, FirstUpdate(process, within && !process.outputBudgetExceeded))]);
  }

  lemma FirstUseTold(plan: P.RunPlan, process: ProcessResult)
    requires P.BudgetOk(plan.budget)
    ensures TellsFirstUse(FirstUpdate(process,
                                      Within(plan.budget, ProcessUsage(process)) && !process.outputBudgetExceeded),
                          plan, process)
  {
    InsideMeansWithin(plan, process);
  }

  lemma ToldPrefix(es: seq<HarnessEvent>, all: seq<HarnessEvent>, ds: seq<Draft>)
    requires es <= all && ToldAll(es) == ds
    ensures |es| <= |all| && ToldAll(all[..|es|]) == ds
  {
    assert all[..|es|] == es;
  }

  /** The log of every run begins by telling plan, gates, command and process result as they were. */
  lemma LogTellsOpening(env: Env, run: Run) returns (parts: OpeningParts)
    requires Lawful(env, run)
    ensures parts.Tells(env, run.plan, run.command, run.process)
    ensures |parts.All()| <= |Final(env, run).events|
    ensures ToldAll(Final(env, run).events[..|parts.All()|]) == parts.All()
  {
    OpenedTold(env, run.plan, run.command, run.process, run.left);
    CallsGrow(env, Opened(env, run), run.calls);
    parts := DraftsOpen(env, run.plan, run.command, run.process);
    ToldPrefix(Opened(env, run).events, Final(env, run).events, parts.All());
  }

  lemma OpenedTold(
    env: Env, plan: P.RunPlan, command: C.CommandSpec, process: ProcessResult, left: map<string, Bytes>)
    requires Open(env, plan, command, process, left).Ok?
    ensures ToldAll(Open(env, plan, command, process, left).value.events)
         == OpeningDrafts(env, plan, command, process)
  {
    OpenedFields(env, plan, command, process, left);
    AddedTold(env, Fresh(env, plan, command, process, left), OpeningDrafts(env, plan, command, process));
  }

  // -------------------------------------------------------------- accounting

  function EvidenceWord(observed: Option<int>, projected: int): string {
    if observed.Some? then "observed" else if projected > 0 then "unavailable-reserved" else "not-applicable"
  }

  predicate TellsAccounting(payload: Fields, process: ProcessResult, p: C.Projection, a: Accounting) {
    var evidence := Get(payload, "nonwall_accounting");
    && Get(payload, "wall_seconds") == Float(process.wallSeconds)
    && Get(payload, "output_bytes") == Int(process.outputBytes)
    && Get(payload, "cost_usd") == Float(ObservedOr(a.costUsd, p.costUsd))
    && Get(payload, "gpu_hours") == Float(ObservedOr(a.gpuHours, p.gpuHours))
    && Get(payload, "model_tokens") == Int(ObservedOr(a.modelTokens, p.modelTokens))
    && Get(payload, "tool_calls") == Int(ObservedOr(a.toolCalls, p.toolCalls))
    && evidence.Obj?
    && Get(evidence.fields, "cost_usd") == Str(EvidenceWord(a.costUsd, p.costUsd))
    && Get(evidence.fields, "gpu_hours") == Str(EvidenceWord(a.gpuHours, p.gpuHours))
    && Get(evidence.fields, "model_tokens") == Str(EvidenceWord(a.modelTokens, p.modelTokens))
    && Get(evidence.fields, "tool_calls") == Str(EvidenceWord(a.toolCalls, p.toolCalls))
  }

  lemma EvidenceTold(p: C.Projection, a: Accounting)
    ensures var e := EvidencePayload(p, a);
            && Get(e, "cost_usd") == Str(EvidenceWord(a.costUsd, p.costUsd))
            && Get(e, "gpu_hours") == Str(EvidenceWord(a.gpuHours, p.gpuHours))
            && Get(e, "model_tokens") == Str(EvidenceWord(a.modelTokens, p.modelTokens))
            && Get(e, "tool_calls") == Str(EvidenceWord(a.toolCalls, p.toolCalls))
  {
  }

  lemma AccountingTold(s: SessionState, a: Accounting)
    ensures TellsAccounting(SecondPayload(s, a), s.process, s.command.projection, a)
  {
    EvidenceTold(s.command.projection, a);
  }

  predicate UpdatesTell(s: SessionState, us: seq<Fields>) {
    && |us| == (if s.accounting.Some? then 2 else 1)
    && TellsFirstUse(us[0], s.plan, s.process)
    && (s.accounting.Some? ==> TellsAccounting(us[1], s.process, s.command.projection, s.accounting.value))
  }

  lemma ShapeTells(s: SessionState)
    requires BudgetShape(s) && P.BudgetOk(s.plan.budget)
    ensures UpdatesTell(s, Updates(s.events))
  {
    FirstUseTold(s.plan, s.process);
    if s.accounting.Some? { AccountingTold(s, s.accounting.value); }
  }

  /** The budget updates of every run are the process's use and, once it is closed, the whole accounting. */
  lemma LogTellsAccounting(env: Env, run: Run)
    requires Lawful(env, run)
    ensures UpdatesTell(Final(env, run), Updates(Final(env, run).events))
  {
    RunKeeps(env, run);
    var o, s := Opened(env, run), Final(env, run);
    if Core(env, s) {
      ShapeTells(s);
    } else {
      var u :| Core(env, u) && From(o, u) && SealedBy(env, u, s);
      SealedParts(env, u, s);
      SealedOutcome(env, u, s);
      SealOpenForm(env, u);
      ShapeTells(u);
    }
  }

  /** Accounting that goes through: what is charged unobserved is announced first, unit by unit. */
  lemma AttestTells(env: Env, s: SessionState, a: Accounting)
    requires AttestAccounting(env, s, a).result.Ok?
    ensures !ObservedPasses(s.command.projection, a)
    ensures var t, p := AttestAccounting(env, s, a).state, s.command.projection;
            var reserved := Reserved(p, a);
            && t.accounting == Some(a)
            && |t.events| == |s.events| + (if reserved == [] then 1 else 2) && s.events <= t.events
            && t.events[|t.events| - 1].eventType == BudgetUpdate
            && (reserved != [] ==>
                  var e := t.events[|s.events|];
                  && e.eventType == Warning && e.provenance == Unavailable
                  && Get(e.payload, "kind") == Str("resource-accounting-unavailable")
                  && Get(e.payload, "units") == Arr(reserved)
                  && Get(e.payload, "charged_at_authorized_projection") == Bool(true))
  {
    ViolatedMeans(s.command.projection, a);
    AttestedCharge(env, s, a);
    ReservedTold(s.command.projection, a);
    ChargeEmitted(env, WithCharge(s, a), UnavailableDrafts(s.command.projection, a), ReportedDraft(s, a));
  }

  /** The update that reports a charge inside the budget. */
  function ReportedDraft(s: SessionState, a: Accounting): Draft {
    var usage := WithCharge(s, a).usage;
    AccountingDraft(s.command.projection, a, usage.(wallSeconds := Max(usage.wallSeconds, s.process.wallSeconds),
                                                    outputBytes := Max(usage.outputBytes, s.process.outputBytes)))
  }

  lemma ChargeEmitted(env: Env, s: SessionState, warning: seq<Draft>, update: Draft)
    requires EmitAll(env, s, warning + [update]).ok && |warning| <= 1
    ensures var t := EmitAll(env, s, warning + [update]).state;
            && t.accounting == s.accounting
            && |t.events| == |s.events| + |warning| + 1 && s.events <= t.events
            && L.Told(t.events[|t.events| - 1]) == update
            && (warning != [] ==> L.Told(t.events[|s.events|]) == warning[0])
  {
    EmittedTold(env, s, warning + [update]);
    EmissionUntouched(env, s, warning + [update]);
    AddedCharge(s.events, Added(env, s, warning + [update]), warning, update);
  }

  lemma AddedCharge(before: seq<HarnessEvent>, added: seq<HarnessEvent>, warning: seq<Draft>, update: Draft)
    requires ToldAll(added) == warning + [update] && |warning| <= 1
    ensures var all := before + added;
            && |all| == |before| + |warning| + 1 && before <= all
            && L.Told(all[|all| - 1]) == update
            && (warning != [] ==> L.Told(all[|before|]) == warning[0])
  {
    var all := before + added;
    assert all[|all| - 1] == added[|added| - 1] && ToldAll(added)[|added| - 1] == update;
    if warning != [] { assert all[|before|] == added[0] && ToldAll(added)[0] == warning[0]; }
  }

  lemma ReservedTold(p: C.Projection, a: Accounting)
    ensures Reserved(p, a) == [] ==> UnavailableDrafts(p, a) == []
    ensures Reserved(p, a) != [] ==>
              && |UnavailableDrafts(p, a)| == 1
              && var d := UnavailableDrafts(p, a)[0];
                 && d.eventType == Warning && d.provenance == Unavailable
                 && Get(d.payload, "kind") == Str("resource-accounting-unavailable")
                 && Get(d.payload, "units") == Arr(Reserved(p, a))
                 && Get(d.payload, "charged_at_authorized_projection") == Bool(true)
  {
    ReservedUnits(p, a);
  }

  /** The units charged at their projection because nothing was observed. */
  function Reserved(p: C.Projection, a: Accounting): seq<Value> {
    (if a.costUsd.None? && p.costUsd > 0 then [Str("cost_usd")] else [])
    + (if a.gpuHours.None? && p.gpuHours > 0 then [Str("gpu_hours")] else [])
    + (if a.modelTokens.None? && p.modelTokens > 0 then [Str("model_tokens")] else [])
    + (if a.toolCalls.None? && p.toolCalls > 0 then [Str("tool_calls")] else [])
  }

  lemma UnitReserved(p: C.Projection, a: Accounting, u: Unit, rest: seq<Unit>)
    ensures UnavailableUnits(p, a, [u] + rest)
         == UnitValue(p, a, u) + UnavailableUnits(p, a, rest)
  {
    assert ([u] + rest)[1..] == rest;
  }

  lemma ReservedUnits(p: C.Projection, a: Accounting)
    ensures UnavailableUnits(p, a, NONWALL) == Reserved(p, a)
    ensures SomeUnavailable(p, a) <==> Reserved(p, a) != []
  {
    ReservedListed(p, a);
    SomeReserved(p, a);
    var c, g, m, t := UnitValue(p, a, CostUsd), UnitValue(p, a, GpuHours), UnitValue(p, a, ModelTokens),
      UnitValue(p, a, ToolCalls);
    FourLists(c, g, m, t);
  }

  lemma ReservedListed(p: C.Projection, a: Accounting)
    ensures UnavailableUnits(p, a, NONWALL)
         == UnitValue(p, a, CostUsd) + (UnitValue(p, a, GpuHours)
            + (UnitValue(p, a, ModelTokens) + (UnitValue(p, a, ToolCalls) + [])))
  {
    var calls: seq<Unit> := [ToolCalls] + [];
    var tokens := [ModelTokens] + calls;
    var hours := [GpuHours] + tokens;
    assert NONWALL == [CostUsd] + hours;
    UnitReserved(p, a, ToolCalls, []);
    UnitReserved(p, a, ModelTokens, calls);
    UnitReserved(p, a, GpuHours, tokens);
    UnitReserved(p, a, CostUsd, hours);
  }

  function UnitValue(p: C.Projection, a: Accounting, u: Unit): seq<Value> {
    if a.Of(u).None? && ProjectionOf(p, u) > 0 then [Str(Key(u))] else []
  }

  lemma FourLists<T>(a: seq<T>, b: seq<T>, c: seq<T>, d: seq<T>)
    ensures a + (b + (c + (d + []))) == a + b + c + d
    ensures a + b + c + d != [] <==> a != [] || b != [] || c != [] || d != []
  {
    if a + b + c + d == [] { assert |a + b + c + d| == |a| + |b| + |c| + |d|; }
  }

  lemma SomeReserved(p: C.Projection, a: Accounting)
    ensures SomeUnavailable(p, a) <==>
              || UnitValue(p, a, CostUsd) != [] || UnitValue(p, a, GpuHours) != []
              || UnitValue(p, a, ModelTokens) != [] || UnitValue(p, a, ToolCalls) != []
  {
  }

  // ------------------------------------------------------ committed results

  predicate TellsField(d: Draft, field: string) {
    && d.eventType == Warning && d.provenance == Unavailable && d.source == CONTROL_SOURCE
    && Get(d.payload, "kind") == Str("unavailable-field") && Get(d.payload, "field") == Str(field)
  }

  predicate TellsNotice(d: Draft, n: Notice) {
    && d.eventType == (if n.isError then Error else Warning) && d.provenance == n.provenance
    && d.source == CONTROL_SOURCE
    && Get(d.payload, "kind") == Str(n.kind) && Get(d.payload, "message") == Str(n.message)
    && Get(d.payload, "adapter_source") == Str(n.source)
    && Get(d.payload, "source_paths") == Arr(Strings(n.sourcePaths))
  }

  /** A result is told as its events, then each field it could not give, then each of its notices. */
  predicate TellsResult(ds: seq<Draft>, r: NormalizationResult) {
    var fields, notices := |r.events|, |r.events| + |r.unavailableFields|;
    && |ds| == notices + |r.notices| && ds[..fields] == r.events
    && (forall i | 0 <= i < |r.unavailableFields| :: TellsField(ds[fields + i], r.unavailableFields[i]))
    && (forall i | 0 <= i < |r.notices| :: TellsNotice(ds[notices + i], r.notices[i]))
  }

  lemma ResultTold(r: NormalizationResult)
    ensures TellsResult(ResultDrafts(r), r)
  {
  }

  lemma ToldBetween(before: seq<HarnessEvent>, added: seq<HarnessEvent>, all: seq<HarnessEvent>)
    requires before + added <= all
    ensures var m := |before| + |added|; m <= |all| && all[|before|..m] == added
  {
  }

  lemma CommittedAdded(env: Env, s: SessionState, r: NormalizationResult) returns (added: seq<HarnessEvent>)
    requires !s.normalizationApplied && ApplyNormalization(env, s, r).state.normalizationApplied
    ensures s.events + added <= ApplyNormalization(env, s, r).state.events && ToldAll(added) == ResultDrafts(r)
  {
    NormalizationGrows(env, s, r);
    EmittedTold(env, Declared(s, r), ResultDrafts(r));
    added := Added(env, Declared(s, r), ResultDrafts(r));
  }

  lemma CommittedTold(env: Env, s: SessionState, r: NormalizationResult, all: seq<HarnessEvent>)
    requires !s.normalizationApplied && ApplyNormalization(env, s, r).state.normalizationApplied
    requires ApplyNormalization(env, s, r).state.events <= all
    ensures exists m :: |s.events| <= m <= |all| && TellsResult(ToldAll(all[|s.events|..m]), r)
  {
    var added := CommittedAdded(env, s, r);
    CommittedBetween(s.events, added, ApplyNormalization(env, s, r).state.events, all, r);
  }

  lemma CommittedBetween(before: seq<HarnessEvent>, added: seq<HarnessEvent>, after: seq<HarnessEvent>,
                         all: seq<HarnessEvent>, r: NormalizationResult)
    requires before + added <= after <= all && ToldAll(added) == ResultDrafts(r)
    ensures exists m :: |before| <= m <= |all| && TellsResult(ToldAll(all[|before|..m]), r)
  {
    ResultTold(r);
    PrefixOfPrefix(before + added, after, all);
    ToldBetween(before, added, all);
    AnEnd(all, |before|, |before| + |added|, r);
  }

  lemma AnEnd(all: seq<HarnessEvent>, n: nat, m: nat, r: NormalizationResult)
    requires n <= m <= |all| && TellsResult(ToldAll(all[n..m]), r)
    ensures exists m' :: n <= m' <= |all| && TellsResult(ToldAll(all[n..m']), r)
  {
  }

  /** The log of a run that commits a result tells it whole, behind what was there before. */
  lemma LogTellsCommitted(env: Env, run: Run, before: seq<Call>, r: NormalizationResult, after: seq<Call>)
    requires Lawful(env, run) && L.CommitsAt(env, run, before, r, after)
    ensures var n, es := |AfterCalls(env, Opened(env, run), before).events|, Final(env, run).events;
            exists m :: n <= m <= |es| && TellsResult(ToldAll(es[n..m]), r)
  {
    var s := AfterCalls(env, Opened(env, run), before);
    CallsConcat(env, Opened(env, run), before + [Normalize(r)], after);
    CallsConcat(env, Opened(env, run), before, [Normalize(r)]);
    OneCall(env, s, Normalize(r));
    CallsGrow(env, ApplyNormalization(env, s, r).state, after);
    CommittedTold(env, s, r, Final(env, run).events);
  }

  // ------------------------------------------------------------- artifacts

  lemma DistinctFront(artifacts: seq<string>)
    requires artifacts != []
    ensures Distinct(artifacts) <==> artifacts[0] !in artifacts[1..] && Distinct(artifacts[1..])
    ensures Elements(artifacts) == {artifacts[0]} + Elements(artifacts[1..])
  {
    var rest := artifacts[1..];
    assert artifacts == [artifacts[0]] + rest;
    if artifacts[0] !in rest && Distinct(rest) {
      forall i, j | 0 <= i < j < |artifacts| ensures artifacts[i] != artifacts[j] {
        assert artifacts[j] == rest[j - 1] && (i > 0 ==> artifacts[i] == rest[i - 1]);
      }
    }
    if Distinct(artifacts) {
      forall i, j | 0 <= i < j < |rest| ensures rest[i] != rest[j] {
        assert rest[i] == artifacts[i + 1] && rest[j] == artifacts[j + 1];
      }
      forall j | 0 <= j < |rest| ensures rest[j] != artifacts[0] { assert rest[j] == artifacts[j + 1]; }
    }
  }

  /** Artifacts are refused exactly when one is missing, owned already or listed twice. */
  lemma {:induction false} ArtifactsRefused(present: set<string>, taken: set<string>, artifacts: seq<string>)
    ensures var f := ArtifactFailure(present, taken, artifacts);
            && (f.None? <==> Elements(artifacts) <= present && Elements(artifacts) !! taken && Distinct(artifacts))
            && (f.Some? ==> f.value == ArtifactInvalid || f.value == ArtifactDuplicate)
            && (f == Some(ArtifactInvalid) ==> !(Elements(artifacts) <= present))
            && (f == Some(ArtifactDuplicate) ==> !(Elements(artifacts) !! taken && Distinct(artifacts)))
    decreases |artifacts|
  {
    if artifacts != [] {
      DistinctFront(artifacts);
      ArtifactsRefused(present, taken + {artifacts[0]}, artifacts[1..]);
      assert artifacts[0] in Elements(artifacts);
      assert artifacts[0] in Elements(artifacts[1..]) <==> artifacts[0] in artifacts[1..];
    }
  }

  // --------------------------------------------------------------- records

  /** An entry or a record says of one file its path, kind, size and digest. */
  predicate TellsRecord(d: Draft, path: string, kind: string, content: Bytes, sha256: string) {
    && d.eventType == ArtifactRecorded && d.provenance == Derived && d.source == CONTROL_SOURCE
    && Get(d.payload, "path") == Str(path) && Get(d.payload, "kind") == Str(kind)
    && Get(d.payload, "size_bytes") == Int(|content|) && Get(d.payload, "sha256") == Str(sha256)
  }

  predicate Records(x: ArtifactRecord, path: string, kind: string, content: Bytes, sha256: string) {
    x.path == path && x.kind == kind && x.sizeBytes == |content| && x.sha256 == sha256
  }

  lemma RecordTold(env: Env, s: SessionState, path: string, kind: string)
    requires path in AttemptFiles(env, s)
    ensures var content := AttemptFiles(env, s)[path]; var x := RecordFor(env, s, path, kind);
            && Records(x, path, kind, content, env.digest(content))
            && TellsRecord(Control(ArtifactRecorded, Derived, RecordDocument(x)), path, kind, content,
                           env.digest(content))
  {
  }

  predicate LogRecords(es: seq<HarnessEvent>, path: string, kind: string, content: Bytes, sha256: string) {
    exists i | 0 <= i < |es| :: TellsRecord(L.Told(es[i]), path, kind, content, sha256)
  }

  predicate ManifestRecords(rs: seq<ArtifactRecord>, path: string, kind: string, content: Bytes, sha256: string) {
    exists x | x in rs :: Records(x, path, kind, content, sha256)
  }

  lemma ToldAt(before: seq<HarnessEvent>, added: seq<HarnessEvent>, ds: seq<Draft>, i: nat)
    requires ToldAll(added) == ds && i < |ds|
    ensures |before| + i < |before + added| && L.Told((before + added)[|before| + i]) == ds[i]
  {
    assert (before + added)[|before| + i] == added[i] && ToldAll(added)[i] == ds[i];
  }

  lemma EntryRecords(es: seq<HarnessEvent>, i: nat, path: string, kind: string, content: Bytes, sha256: string)
    requires i < |es| && TellsRecord(L.Told(es[i]), path, kind, content, sha256)
    ensures LogRecords(es, path, kind, content, sha256)
  {
  }

  lemma EntryAmong(before: seq<HarnessEvent>, added: seq<HarnessEvent>, records: seq<ArtifactRecord>,
                   stop: Draft, i: nat,
                   path: string, kind: string, content: Bytes, sha256: string)
    requires ToldAll(added) == RecordDrafts(records) + [stop] && i < |records|
    requires TellsRecord(Control(ArtifactRecorded, Derived, RecordDocument(records[i])), path, kind, content, sha256)
    ensures LogRecords(before + added, path, kind, content, sha256)
  {
    ToldAt(before, added, RecordDrafts(records) + [stop], i);
    EntryRecords(before + added, |before| + i, path, kind, content, sha256);
  }

  /** A successful seal tells the records of the retained files in path order, and then the stop. */
  lemma SealedLog(env: Env, u: SessionState) returns (added: seq<HarnessEvent>)
    requires env.text.Lawful() && RetainedOk(u) && RetainedReady(env, u) && SealOpen(env, u).result.Ok?
    ensures forall r | r in SortedRetained(u) :: r.path in AttemptFiles(env, u)
    ensures SealOpen(env, u).state.events == u.events + added
    ensures ToldAll(added) == RecordDrafts(RecordsFor(env, u, SortedRetained(u))) + [StopDraft(u)]
  {
    var records, stopped, appended := SealOpenSucceeded(env, u);
    var ds := RecordDrafts(records) + [StopDraft(u)];
    EmittedTold(env, u, ds);
    added := Added(env, u, ds);
  }

  /** The entry of one retained file in the log a successful seal leaves. */
  lemma SealedEntry(env: Env, u: SessionState, r: Retained)
    requires env.text.Lawful() && RetainedOk(u) && RetainedReady(env, u) && SealOpen(env, u).result.Ok?
    requires r in u.retained && r.path in AttemptFiles(env, u)
    ensures var content := AttemptFiles(env, u)[r.path];
            LogRecords(SealOpen(env, u).state.events, r.path, r.kind, content, env.digest(content))
  {
    var added := SealedLog(env, u);
    var content := AttemptFiles(env, u)[r.path];
    Sorting.SortMembers(PATH, u.retained);
    var i :| 0 <= i < |SortedRetained(u)| && SortedRetained(u)[i] == r;
    RecordTold(env, u, r.path, r.kind);
    EntryAmong(u.events, added, RecordsFor(env, u, SortedRetained(u)), StopDraft(u), i, r.path, r.kind, content,
               env.digest(content));
  }

  /** The manifest a successful seal leaves reads as what was there and the records of this seal. */
  lemma SealedManifest(env: Env, u: SessionState) returns (earlier: seq<ArtifactRecord>, last: ArtifactRecord)
    requires env.text.Lawful() && RetainedOk(u) && RetainedReady(env, u) && SealOpen(env, u).result.Ok?
    ensures forall r | r in SortedRetained(u) :: r.path in AttemptFiles(env, u)
    ensures MANIFEST in AttemptFiles(env, SealOpen(env, u).state)
    ensures ReadRecords(env.text, env.records, AttemptFiles(env, SealOpen(env, u).state)[MANIFEST])
         == Ok(earlier + (RecordsFor(env, u, SortedRetained(u)) + [last]))
  {
    var records, stopped, appended := SealOpenSucceeded(env, u);
    HarnessNames();
    earlier := ReadRecords(env.text, env.records, ContentOf(u.files, MANIFEST)).value;
    last := EventLogRecord(env, stopped);
  }

  /** Its record in the manifest that seal leaves. */
  lemma SealedRecord(env: Env, u: SessionState, r: Retained)
    requires env.text.Lawful() && RetainedOk(u) && RetainedReady(env, u) && SealOpen(env, u).result.Ok?
    requires r in u.retained && r.path in AttemptFiles(env, u)
    ensures MANIFEST in AttemptFiles(env, SealOpen(env, u).state)
    ensures var content := AttemptFiles(env, u)[r.path];
            var read := ReadRecords(env.text, env.records, AttemptFiles(env, SealOpen(env, u).state)[MANIFEST]);
            read.Ok? && ManifestRecords(read.value, r.path, r.kind, content, env.digest(content))
  {
    var earlier, last := SealedManifest(env, u);
    var records, content := RecordsFor(env, u, SortedRetained(u)), AttemptFiles(env, u)[r.path];
    Sorting.SortMembers(PATH, u.retained);
    var i :| 0 <= i < |SortedRetained(u)| && SortedRetained(u)[i] == r;
    RecordTold(env, u, r.path, r.kind);
    RecordAmong(earlier, records, last, i, r.path, r.kind, content, env.digest(content));
  }

  lemma RecordAmong(earlier: seq<ArtifactRecord>, records: seq<ArtifactRecord>, last: ArtifactRecord, i: nat,
                    path: string, kind: string, content: Bytes, sha256: string)
    requires i < |records| && Records(records[i], path, kind, content, sha256)
    ensures ManifestRecords(earlier + (records + [last]), path, kind, content, sha256)
  {
    AmongAll(earlier, records, last, i);
  }

  lemma AmongAll(earlier: seq<ArtifactRecord>, records: seq<ArtifactRecord>, last: ArtifactRecord, i: nat)
    requires i < |records|
    ensures records[i] in earlier + (records + [last]) && last in earlier + (records + [last])
  {
    assert (records + [last])[i] == records[i] && (records + [last])[|records|] == last;
    assert forall x :: x in earlier + (records + [last]) <==> x in earlier || x in records + [last];
  }

  /**
   In every sealed run each declared file but the manifest is told in the log and recorded in the manifest: its path,
   its kind, and the size and digest of what the directory holds there.
   */
  lemma EveryFileIsRecorded(env: Env, run: Run, r: Retained)
    requires Lawful(env, run) && Final(env, run).isSealed && r in Final(env, run).retained && r.path != MANIFEST
    ensures FileRecorded(env, Final(env, run), r)
  {
    var u := SealedOrigin(env, run);
    SealedParts(env, u, Final(env, run));
    RecordedBySeal(env, u, r);
  }

  ghost predicate FileRecorded(env: Env, s: SessionState, r: Retained) {
    var files := AttemptFiles(env, s);
    && r.path in files && MANIFEST in files
    && LogRecords(s.events, r.path, r.kind, files[r.path], env.digest(files[r.path]))
    && var read := ReadRecords(env.text, env.records, files[MANIFEST]);
       read.Ok? && ManifestRecords(read.value, r.path, r.kind, files[r.path], env.digest(files[r.path]))
  }

  lemma RecordedBySeal(env: Env, u: SessionState, r: Retained)
    requires env.text.Lawful() && RetainedOk(u) && Sealable(env, u) && SealOpen(env, u).result.Ok?
    requires r in u.retained && r.path != MANIFEST
    ensures FileRecorded(env, SealOpen(env, u).state, r)
  {
    if EVENTS in RetainedPaths(u.retained) { RootLogNeverSeals(env, u); }
    assert r.path in RetainedPaths(u.retained);
    SealedEntry(env, u, r);
    SealedRecord(env, u, r);
    SameContent(env, u, r.path);
  }

  lemma SameContent(env: Env, u: SessionState, path: string)
    requires env.text.Lawful() && RetainedOk(u) && RetainedReady(env, u) && SealOpen(env, u).result.Ok?
    requires path in AttemptFiles(env, u) && path != EVENTS && path != MANIFEST
    ensures path in AttemptFiles(env, SealOpen(env, u).state)
    ensures AttemptFiles(env, SealOpen(env, u).state)[path] == AttemptFiles(env, u)[path]
  {
    var records, stopped, appended := SealOpenSucceeded(env, u);
  }

  /** The harness's own files have their kinds in every run, and whatever else is retained is upstream's. */
  lemma RetainedKinds(env: Env, run: Run)
    requires Lawful(env, run)
    ensures var rs := Final(env, run).retained;
            && Retained("stdout.log", "raw-log") in rs && Retained("stderr.log", "raw-log") in rs
            && Retained("run-plan.json", "run-plan") in rs && Retained("command.json", "command") in rs
            && forall r | r in rs && r.path !in {"stdout.log", "stderr.log", "run-plan.json", "command.json"} ::
                 r.kind == "upstream-raw"
  {
    StatusTellsWhatHappened(env, run);
    RetainedInOrder(env, run);
    OpenedHarness(env, run);
    HarnessKinds();
  }

  lemma HarnessKinds()
    ensures Retained("stdout.log", "raw-log") in HARNESS_RETAINED
    ensures Retained("stderr.log", "raw-log") in HARNESS_RETAINED
    ensures Retained("run-plan.json", "run-plan") in HARNESS_RETAINED
    ensures Retained("command.json", "command") in HARNESS_RETAINED
    ensures forall r | r in HARNESS_RETAINED ::
              r.path in {"stdout.log", "stderr.log", "run-plan.json", "command.json"}
  {
    assert HARNESS_RETAINED[0] in HARNESS_RETAINED && HARNESS_RETAINED[1] in HARNESS_RETAINED;
    assert HARNESS_RETAINED[2] in HARNESS_RETAINED && HARNESS_RETAINED[3] in HARNESS_RETAINED;
  }

  lemma OpenedHarness(env: Env, run: Run)
    requires Lawful(env, run)
    ensures Opened(env, run).retained == HARNESS_RETAINED
  {
    EmitAllGrows(env, Fresh(env, run.plan, run.command, run.process, run.left),
                 OpeningDrafts(env, run.plan, run.command, run.process));
  }

  lemma RetainedInOrder(env: Env, run: Run)
    requires Lawful(env, run)
    ensures RetainedOk(Final(env, run))
  {
    RunKeeps(env, run);
    if !Core(env, Final(env, run)) {
      var u :| Core(env, u) && From(Opened(env, run), u) && SealedBy(env, u, Final(env, run));
      SealedParts(env, u, Final(env, run));
    }
  }
}
