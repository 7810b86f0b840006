/** What every session keeps: its log, its budget history, its stream shape. */
module SessionInvariant {
  import opened Common
  import opened Json
  import opened Events
  import opened Lifecycle
  import opened Budget
  import opened BudgetHistory
  import opened Manifest
  import opened Session
  import Sorting
  import DirectoryJudge
  import P = RunPlans
  import C = Commands
  import CD = CommandDocuments

  // -------------------------------------------------------------- emission

  predicate DraftOwned(d: Draft) {
    IsAdapterType(d.eventType) <==> d.source != CONTROL_SOURCE
  }

  predicate AllOwned(ds: seq<Draft>) {
    forall d | d in ds :: DraftOwned(d)
  }

  predicate NoneLifecycle(ds: seq<Draft>) {
    forall d | d in ds :: !IsLifecycle(d.eventType)
  }

  predicate NoneBudget(ds: seq<Draft>) {
    forall d | d in ds :: !d.eventType.BudgetUpdate?
  }

  /** Event `i` of the log of this session. */
  predicate EventOk(env: Env, s: SessionState, e: HarnessEvent, i: nat) {
    && e.runId == s.plan.identity.runId && e.attempt == s.plan.identity.attempt
    && e.schemaVersion == CURRENT_VERSION && e.sequence == i + 1
    && ValidEvent(env.rules, e) && Owned(e)
  }

  /** Sequence numbers are exactly 1..n, and every event is this session's own. */
  predicate LogOk(env: Env, s: SessionState) {
    |s.events| == s.sequence && forall i | 0 <= i < |s.events| :: EventOk(env, s, s.events[i], i)
  }

  /** The events that emitting the drafts adds. */
  function Added(env: Env, s: SessionState, ds: seq<Draft>): seq<HarnessEvent>
    decreases |ds|
  {
    if ds == [] || !ValidEvent(env.rules, EventOf(env, s, ds[0])) then []
    else [EventOf(env, s, ds[0])] + Added(env, AfterEmit(env, s, ds[0]), ds[1..])
  }

  function Grown(s: SessionState, added: seq<HarnessEvent>): SessionState {
    s.(events := s.events + added, sequence := s.sequence + |added|)
  }

  /** Emission only grows the log: each added event carries its draft, and none is missing if it succeeded. */
  lemma {:induction false} EmitAllGrows(env: Env, s: SessionState, ds: seq<Draft>)
    ensures var added := Added(env, s, ds); var r := EmitAll(env, s, ds);
            && r.state == Grown(s, added)
            && |added| <= |ds| && (r.ok <==> |added| == |ds|)
            && (forall i | 0 <= i < |added| ::
                  && added[i].eventType == ds[i].eventType && added[i].source == ds[i].source
                  && added[i].payload == ds[i].payload && ValidEvent(env.rules, added[i]))
    decreases |ds|
  {
    if ds == [] || !ValidEvent(env.rules, EventOf(env, s, ds[0])) {
      assert s.events + [] == s.events;
    } else {
      var s1, first, rest := AfterEmit(env, s, ds[0]), EventOf(env, s, ds[0]), ds[1..];
      EmitAllGrows(env, s1, rest);
      var more := Added(env, s1, rest);
      Assoc(s.events, [first], more);
      var added := [first] + more;
      forall i | 0 <= i < |added|
        ensures added[i].eventType == ds[i].eventType && added[i].source == ds[i].source
                && added[i].payload == ds[i].payload && ValidEvent(env.rules, added[i])
      {
        if i > 0 { assert added[i] == more[i - 1] && ds[i] == rest[i - 1]; }
      }
    }
  }

  lemma {:induction false} EmitAllKeepsLog(env: Env, s: SessionState, ds: seq<Draft>)
    requires LogOk(env, s) && AllOwned(ds)
    ensures LogOk(env, EmitAll(env, s, ds).state)
    decreases |ds|
  {
    if ds != [] && ValidEvent(env.rules, EventOf(env, s, ds[0])) {
      var s1 := AfterEmit(env, s, ds[0]);
      assert ds[0] in ds;
      forall i | 0 <= i < |s1.events| ensures EventOf(env, s, ds[0]) in s1.events && EventOk(env, s1, s1.events[i], i) {
        if i < |s.events| { assert EventOk(env, s, s.events[i], i); }
      }
      assert forall d | d in ds[1..] :: d in ds;
      EmitAllKeepsLog(env, s1, ds[1..]);
    }
  }

  lemma {:induction false} NoLifecycleExtends(es: seq<HarnessEvent>, added: seq<HarnessEvent>)
    requires Opening(es) && NoLifecycle(added)
    ensures Opening(es + added)
    decreases |added|
  {
    if added == [] {
      assert es + added == es;
    } else {
      OpeningExtends(es, added[0]);
      assert forall i | 0 <= i < |added[1..]| :: added[1..][i] == added[i + 1];
      NoLifecycleExtends(es + [added[0]], added[1..]);
      assert es + [added[0]] + added[1..] == es + added;
    }
  }

  /** Drafts that are no lifecycle events stop nothing. */
  lemma EmitAllKeepsStopped(env: Env, s: SessionState, ds: seq<Draft>)
    requires NoneLifecycle(ds)
    ensures Stopped(EmitAll(env, s, ds).state.events) <==> Stopped(s.events)
  {
    EmitAllGrows(env, s, ds);
    var added := Added(env, s, ds);
    assert forall i | 0 <= i < |added| :: ds[i] in ds;
    StoppedConcat(s.events, added);
  }

  lemma EmitAllKeepsOpening(env: Env, s: SessionState, ds: seq<Draft>)
    requires Opening(s.events) && NoneLifecycle(ds)
    ensures Opening(EmitAll(env, s, ds).state.events)
  {
    EmitAllGrows(env, s, ds);
    var added := Added(env, s, ds);
    assert forall i | 0 <= i < |added| :: ds[i] in ds;
    NoLifecycleExtends(s.events, added);
  }

  lemma {:induction false} UpdatesConcat(a: seq<HarnessEvent>, b: seq<HarnessEvent>)
    ensures Updates(a + b) == Updates(a) + Updates(b)
    decreases |b|
  {
    if b == [] {
      assert a + b == a && Updates(a) + [] == Updates(a);
    } else {
      var front, last := b[..|b| - 1], b[|b| - 1];
      assert (a + b)[..|a + b| - 1] == a + front && (a + b)[|a + b| - 1] == last;
      UpdatesConcat(a, front);
      Assoc(Updates(a), Updates(front), if last.eventType.BudgetUpdate? then [last.payload] else []);
    }
  }

  lemma {:induction false} NoUpdates(es: seq<HarnessEvent>)
    requires forall i | 0 <= i < |es| :: !es[i].eventType.BudgetUpdate?
    ensures Updates(es) == []
  {
    if es != [] { NoUpdates(es[..|es| - 1]); }
  }

  lemma EmitAllKeepsUpdates(env: Env, s: SessionState, ds: seq<Draft>)
    requires NoneBudget(ds)
    ensures Updates(EmitAll(env, s, ds).state.events) == Updates(s.events)
  {
    EmitAllGrows(env, s, ds);
    var added := Added(env, s, ds);
    assert forall i | 0 <= i < |added| :: ds[i] in ds;
    NoUpdates(added);
    UpdatesConcat(s.events, added);
  }

  /** Drafts emitted in two parts. */
  lemma {:induction false} EmitAllConcat(env: Env, s: SessionState, a: seq<Draft>, b: seq<Draft>)
    ensures var first := EmitAll(env, s, a);
            EmitAll(env, s, a + b) == (if first.ok then EmitAll(env, first.state, b) else first)
    decreases |a|
  {
    if a == [] {
      assert a + b == b;
    } else {
      assert (a + b)[1..] == a[1..] + b && (a + b)[0] == a[0];
      if ValidEvent(env.rules, EventOf(env, s, a[0])) {
        EmitAllConcat(env, AfterEmit(env, s, a[0]), a[1..], b);
      }
    }
  }

  // ------------------------------------------------------- accounting events

  /** The payload of an accounting update: numbers and fixed words. */
  ghost predicate IsAccountingPayload(f: Fields) {
    exists p, a, usage :: f == AccountingPayload(p, a, usage)
  }

  /** The payload of the warning about unavailable units: fixed words. */
  ghost predicate IsUnavailablePayload(f: Fields) {
    exists p, a :: f == UnavailablePayload(p, a)
  }

  /** A session's own accounting events. */
  ghost predicate AccountingEvent(e: HarnessEvent) {
    && e.source == CONTROL_SOURCE
    && ((e.eventType.BudgetUpdate? && IsAccountingPayload(e.payload))
        || (e.eventType.Warning? && IsUnavailablePayload(e.payload)))
  }

  /** The constructors never refuse a session's own accounting events. */
  ghost predicate AccountingAdmitted(env: Env, runId: string) {
    forall e: HarnessEvent, n: nat | e.runId == runId && e.timestampUtc == env.clock(n) && AccountingEvent(e) ::
      env.rules.admits(e)
  }

  lemma AccountingDraftValid(env: Env, s: SessionState, d: Draft)
    requires AccountingAdmitted(env, s.plan.identity.runId) && s.plan.identity.attempt >= 1
    requires AccountingEvent(EventOf(env, s, d))
    ensures ValidEvent(env.rules, EventOf(env, s, d))
  {
  }

  // ------------------------------------------------------------- budget part

  predicate ProcessOk(plan: P.RunPlan, process: ProcessResult) {
    process.wallSeconds >= 0 && 0 <= process.outputBytes <= plan.budget.maxOutputBytes
  }

  function FirstPayload(s: SessionState): Fields {
    FirstUpdate(s.process, Within(s.plan.budget, ProcessUsage(s.process)) && !s.process.outputBudgetExceeded)
  }

  function ChargedUsage(s: SessionState, a: Accounting): Usage {
    UsageOf(s.command.projection, a, s.process.wallSeconds, s.process.outputBytes)
  }

  function SecondPayload(s: SessionState, a: Accounting): Fields {
    AccountingPayload(s.command.projection, a, ChargedUsage(s, a))
  }

  /** One opening update, and one accounting update exactly once accounting is closed. */
  predicate BudgetShape(s: SessionState) {
    && s.usage == (if s.accounting.None? then ProcessUsage(s.process) else ChargedUsage(s, s.accounting.value))
    && Updates(s.events)
      == [FirstPayload(s)] + (if s.accounting.None? then [] else [SecondPayload(s, s.accounting.value)])
    && (s.accounting.Some? ==> s.accounting.value.Valid())
  }

  /** Every overrun has its terminal status. */
  predicate StatusOk(s: SessionState) {
    && (exists i | 0 <= i < |s.status| :: !IsSpace(s.status[i]))
    && (s.accounting.None? ==> Within(s.plan.budget, s.usage) || s.status == BUDGET_EXCEEDED)
    && (s.accounting.Some? ==>
          if ProjectionViolated(s.command.projection, s.accounting.value) then s.status == PROJECTION_EXCEEDED
          else Within(s.plan.budget, s.usage) || s.status == BUDGET_EXCEEDED)
  }

  lemma FirstReadings(process: ProcessResult, within: bool)
    requires process.wallSeconds >= 0 && process.outputBytes >= 0
    ensures var f := FirstUpdate(process, within);
            && (forall u: Unit :: Key(u) in f <==> u == WallSeconds || u == OutputBytes)
            && Reading(WallSeconds, f[Key(WallSeconds)]) == Some(process.wallSeconds)
            && Reading(OutputBytes, f[Key(OutputBytes)]) == Some(process.outputBytes)
            && !HasEvidence(f)
  {
  }

  lemma SecondReadings(p: C.Projection, a: Accounting, usage: Usage)
    requires usage.Valid()
    ensures var f := AccountingPayload(p, a, usage);
            && (forall u: Unit :: Key(u) in f && Reading(u, f[Key(u)]) == Some(usage.Of(u)))
            && Get(f, EVIDENCE) == Obj(EvidencePayload(p, a)) && HasEvidence(f)
  {
    var f := AccountingPayload(p, a, usage);
    forall u: Unit ensures Key(u) in f && Reading(u, f[Key(u)]) == Some(usage.Of(u)) {
      assert usage.Of(u) >= 0;
    }
  }

  lemma EvidenceWords(p: C.Projection, a: Accounting)
    ensures var raw := EvidencePayload(p, a);
            && raw.Keys == NONWALL_KEYS
            && forall u: Unit | IsNonWall(u) :: Key(u) in raw && raw[Key(u)] == Str(AccountingWord(p, a, u))
  {
  }

  lemma ChargedValid(p: C.Projection, a: Accounting, wall: Amount, output: int)
    requires C.ProjectionOk(p) && a.Valid() && wall >= 0 && output >= 0
    ensures UsageOf(p, a, wall, output).Valid()
  {
    forall u: Unit ensures UsageOf(p, a, wall, output).Of(u) >= 0 {
      if IsNonWall(u) { assert a.Of(u).Some? ==> a.Of(u).value >= 0; }
    }
  }

  lemma AccountingEvidenceOk(p: C.Projection, a: Accounting, wall: Amount, output: int)
    requires C.ProjectionOk(p) && a.Valid() && wall >= 0 && output >= 0
    ensures EvidenceOk(p, AccountingPayload(p, a, UsageOf(p, a, wall, output)))
  {
    ChargedValid(p, a, wall, output);
    SecondReadings(p, a, UsageOf(p, a, wall, output));
    EvidenceWords(p, a);
    forall u: Unit | IsNonWall(u)
      ensures UnitEvidenceOk(p, AccountingPayload(p, a, UsageOf(p, a, wall, output)), EvidencePayload(p, a), u)
    {
      assert ProjectionOf(p, u) >= 0;
      assert UsageOf(p, a, wall, output).Of(u) == Charged(p, a, u);
    }
  }

  /** A shown projection overrun is a real one. */
  lemma ShownOverrunIsReal(p: C.Projection, a: Accounting, usage: Usage, u: Unit)
    requires usage.Valid() && (forall v: Unit | IsNonWall(v) :: usage.Of(v) == Charged(p, a, v))
    requires ShowsProjectionOverrun(p, AccountingPayload(p, a, usage), u)
    ensures ProjectionViolated(p, a)
  {
    SecondReadings(p, a, usage);
    EvidenceWords(p, a);
    StatusWordsDiffer();
    assert a.Of(u).Some? && a.Of(u).value > ProjectionOf(p, u);
  }

  lemma FirstAlone(s: SessionState)
    requires ProcessOk(s.plan, s.process) && P.BudgetOk(s.plan.budget)
    ensures var us := [FirstPayload(s)];
            && TotalsValid(us) && TotalsNeverDecrease(us) && EvidenceValid(s.command.projection, us)
            && EvidenceCount(us) == 0
            && !ProjectionOverrun(s.command.projection, us)
            && (BudgetOverrun(s.plan.budget, us) ==> !Within(s.plan.budget, ProcessUsage(s.process)))
  {
    var f := FirstPayload(s);
    var us := [f];
    FirstReadings(s.process, Within(s.plan.budget, ProcessUsage(s.process)) && !s.process.outputBudgetExceeded);
    assert us[..0] == [];
    assert forall i | 0 <= i < |us| :: us[i] == f;
    assert Get(f, EVIDENCE).Null?;
    if BudgetOverrun(s.plan.budget, us) {
      var i, u: Unit :| 0 <= i < |us| && ShowsBudgetOverrun(s.plan.budget, us[i], u);
      assert Exceeds(s.plan.budget, u, ProcessUsage(s.process).Of(u));
    }
  }

  /** Readings of the opening update `f` and the accounting update `g` of one session. */
  ghost predicate Readings(f: Fields, g: Fields, process: ProcessResult, usage: Usage) {
    && (forall u: Unit :: Key(u) in f <==> u == WallSeconds || u == OutputBytes)
    && Reading(WallSeconds, f[Key(WallSeconds)]) == Some(process.wallSeconds)
    && Reading(OutputBytes, f[Key(OutputBytes)]) == Some(process.outputBytes)
    && !HasEvidence(f)
    && (forall u: Unit :: Key(u) in g && Reading(u, g[Key(u)]) == Some(usage.Of(u)))
    && HasEvidence(g)
    && usage.wallSeconds == process.wallSeconds && usage.outputBytes == process.outputBytes
  }

  lemma PairTotals(f: Fields, g: Fields, process: ProcessResult, usage: Usage)
    requires Readings(f, g, process, usage)
    ensures TotalsValid([f, g]) && TotalsNeverDecrease([f, g])
  {
    var us := [f, g];
    forall i, u: Unit | 0 <= i < |us| && Key(u) in us[i] ensures Reading(u, us[i][Key(u)]).Some? {}
  }

  lemma PairEvidence(p: C.Projection, f: Fields, g: Fields, process: ProcessResult, usage: Usage)
    requires Readings(f, g, process, usage) && EvidenceOk(p, g)
    ensures EvidenceValid(p, [f, g]) && EvidenceCount([f, g]) == 1
  {
    var us := [f, g];
    assert us[..1] == [f] && [f][..0] == [];
    assert EvidenceCount([f]) == 0;
    forall i | 0 <= i < |us| && HasEvidence(us[i]) ensures EvidenceOk(p, us[i]) {}
  }

  lemma PairBudgetOverrun(b: P.RunBudget, f: Fields, g: Fields, process: ProcessResult, usage: Usage)
    requires Readings(f, g, process, usage)
    ensures BudgetOverrun(b, [f, g]) ==> !Within(b, usage)
  {
    var us := [f, g];
    if BudgetOverrun(b, us) {
      var i, u: Unit :| 0 <= i < |us| && ShowsBudgetOverrun(b, us[i], u);
      assert us[i] == f || us[i] == g;
      assert Exceeds(b, u, usage.Of(u));
    }
  }

  lemma PairProjectionOverrun(p: C.Projection, a: Accounting, f: Fields, usage: Usage)
    requires usage.Valid() && (forall v: Unit | IsNonWall(v) :: usage.Of(v) == Charged(p, a, v)) && !HasEvidence(f)
    ensures ProjectionOverrun(p, [f, AccountingPayload(p, a, usage)]) ==> ProjectionViolated(p, a)
  {
    var us := [f, AccountingPayload(p, a, usage)];
    if ProjectionOverrun(p, us) {
      var i, u: Unit :| 0 <= i < |us| && ShowsProjectionOverrun(p, us[i], u);
      assert us[i] == f || us[i] == us[1];
      ShownOverrunIsReal(p, a, usage, u);
    }
  }

  lemma BothUpdates(s: SessionState, a: Accounting)
    requires ProcessOk(s.plan, s.process) && C.ProjectionOk(s.command.projection) && a.Valid()
             && P.BudgetOk(s.plan.budget)
    ensures var us := [FirstPayload(s), SecondPayload(s, a)];
            && TotalsValid(us) && TotalsNeverDecrease(us) && EvidenceValid(s.command.projection, us)
            && EvidenceCount(us) == 1
            && (ProjectionOverrun(s.command.projection, us) ==> ProjectionViolated(s.command.projection, a))
            && (BudgetOverrun(s.plan.budget, us) ==> !Within(s.plan.budget, ChargedUsage(s, a)))
  {
    var p, usage := s.command.projection, ChargedUsage(s, a);
    var f, g := FirstPayload(s), SecondPayload(s, a);
    PayloadReadings(s, a);
    PairTotals(f, g, s.process, usage);
    AccountingEvidenceOk(p, a, s.process.wallSeconds, s.process.outputBytes);
    PairEvidence(p, f, g, s.process, usage);
    PairBudgetOverrun(s.plan.budget, f, g, s.process, usage);
    ChargedValid(p, a, s.process.wallSeconds, s.process.outputBytes);
    PairProjectionOverrun(p, a, f, usage);
  }

  lemma PayloadReadings(s: SessionState, a: Accounting)
    requires ProcessOk(s.plan, s.process) && C.ProjectionOk(s.command.projection) && a.Valid()
    ensures Readings(FirstPayload(s), SecondPayload(s, a), s.process, ChargedUsage(s, a))
  {
    FirstReadings(s.process, Within(s.plan.budget, ProcessUsage(s.process)) && !s.process.outputBudgetExceeded);
    ChargedValid(s.command.projection, a, s.process.wallSeconds, s.process.outputBytes);
    SecondReadings(s.command.projection, a, ChargedUsage(s, a));
  }

  /** The history a session emits is one the validator accepts. */
  lemma SessionHistoryAccepted(s: SessionState)
    requires ProcessOk(s.plan, s.process) && C.ProjectionOk(s.command.projection) && P.BudgetOk(s.plan.budget)
    requires BudgetShape(s) && StatusOk(s)
    requires s.command.projection.HasUsage() ==> s.accounting.Some?
    ensures HistoryAccepted(Updates(s.events), Some(s.status), s.plan.budget, s.command.projection)
  {
    if s.accounting.None? {
      FirstAlone(s);
      assert Updates(s.events) == [FirstPayload(s)];
    } else {
      BothUpdates(s, s.accounting.value);
      assert Updates(s.events) == [FirstPayload(s), SecondPayload(s, s.accounting.value)];
    }
  }

  // ------------------------------------------------------------ the invariant

  /** A name the directory validator reads as the event stream's, or the manifest's own. */
  predicate NamesOk(rs: seq<Retained>) {
    forall r | r in rs :: DirectoryJudge.BaseName(r.path) != EVENTS && r.path != MANIFEST
  }

  /** Neither the event log nor the manifest of the root is declared. */
  predicate PlainNames(rs: seq<Retained>) {
    EVENTS !in RetainedPaths(rs) && MANIFEST !in RetainedPaths(rs)
  }

  predicate DistinctRetained(rs: seq<Retained>) {
    Sorting.DistinctKeys(PATH, rs)
  }

  /** What never changes after opening. */
  ghost predicate FixedOk(env: Env, s: SessionState) {
    && P.PlanOk(env.plans, s.plan) && C.Construct(env.commands, s.command) == Ok(s.command)
    && ProcessOk(s.plan, s.process)
    && Within(s.plan.budget, ProjectedUsage(s.command))
    && s.plan.execution.authorization.commandSha256 == Some(CD.CommandSha256(env.text, env.digest, s.command))
    && RUN_PLAN in s.files && s.files[RUN_PLAN] == Contracts(env, s.plan, s.command)[RUN_PLAN]
    && COMMAND in s.files && s.files[COMMAND] == Contracts(env, s.plan, s.command)[COMMAND]
    && EVENTS !in s.files
  }

  predicate RetainedOk(s: SessionState) {
    && DistinctRetained(s.retained)
    && forall r | r in HARNESS_RETAINED :: r in s.retained
  }

  /** What changes while a session is open, and every step keeps. */
  ghost predicate Core(env: Env, s: SessionState) {
    && LogOk(env, s) && BudgetShape(s) && StatusOk(s) && RetainedOk(s)
    && !s.isSealed && s.outcome.None? && s.plan.identity.attempt >= 1 && EVENTS !in s.files
    && (!Stopped(s.events) ==> Opening(s.events)) && (PlainNames(s.retained) ==> !Stopped(s.events))
  }

  /** The invariant of an open session. */
  ghost predicate OpenInv(env: Env, s: SessionState) {
    FixedOk(env, s) && Core(env, s)
  }

  /** `s` still holds the contracts of the session `o` it came from. */
  predicate From(o: SessionState, s: SessionState) {
    && s.plan == o.plan && s.command == o.command && s.process == o.process
    && RUN_PLAN in o.files && RUN_PLAN in s.files && s.files[RUN_PLAN] == o.files[RUN_PLAN]
    && COMMAND in o.files && COMMAND in s.files && s.files[COMMAND] == o.files[COMMAND]
  }

  /** `s` is what a successful seal of the open session `u` left. */
  ghost predicate SealedBy(env: Env, u: SessionState, s: SessionState) {
    && Sealable(env, u) && SealOpen(env, u).result.Ok? && s == SealOpen(env, u).state
  }

  /** Every session that came from `o`: open and in order, or sealed from such a one. */
  ghost predicate RunInv(env: Env, o: SessionState, s: SessionState) {
    || (Core(env, s) && From(o, s))
    || (exists u :: Core(env, u) && From(o, u) && SealedBy(env, u, s))
  }

  /** The constructor accepts the harness's own record of its event log: fixed words, a digest, a clock reading. */
  ghost predicate LogRecordAdmitted(env: Env) {
    forall content: Bytes, n: nat ::
      env.records(ArtifactRecord(EVENTS, "event-stream", |content|, env.digest(content), env.clock(n)))
  }

  ghost predicate EnvOk(env: Env, s: SessionState) {
    env.text.Lawful() && AccountingAdmitted(env, s.plan.identity.runId) && LogRecordAdmitted(env)
  }
}
