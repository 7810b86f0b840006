/** What the calls of a run session answer, and what an answer says of the session behind it. */
module RunAnswers {
  import opened Common
  import opened Json
  import opened Events
  import opened Budget
  import opened BudgetHistory
  import opened Manifest
  import opened Session
  import opened SessionInvariant
  import opened EndToEnd
  import opened SessionRuns
  import opened RunOutcomes
  import opened RunLogs
  import L = ScientificLog
  import P = RunPlans
  import C = Commands
  import CD = CommandDocuments
  import Sorting

  // ----------------------------------------------------------------- sealing

  /** Something in the attempt directory belongs to nobody. */
  predicate SomethingUndeclared(env: Env, s: SessionState) {
    exists path | path in AttemptFiles(env, s) ::
      path != "events.jsonl" && forall r | r in s.retained :: r.path != path
  }

  predicate ProjectsUse(p: C.Projection) {
    p.costUsd > 0 || p.gpuHours > 0 || p.modelTokens > 0 || p.toolCalls > 0
  }

  /** Use inside the budget or an overrun owned up to, and the command still the authorised one. */
  predicate InAuthority(env: Env, s: SessionState) {
    && (Within(s.plan.budget, s.usage) || s.status in {"budget-exceeded", "resource-projection-exceeded"})
    && s.plan.execution.authorization.commandSha256
       == Some(env.digest(env.text.compact(Obj(CD.CommandDocument(s.command)))))
  }

  lemma UndeclaredMeans(env: Env, s: SessionState)
    ensures FilesDeclared(env, s) <==> !SomethingUndeclared(env, s)
  {
    forall path ensures path in RetainedPaths(s.retained) <==> exists r :: r in s.retained && r.path == path {}
  }

  lemma AuthorityMeans(env: Env, s: SessionState)
    ensures AuthorityOwned(env, s) <==> InAuthority(env, s)
  {
  }

  /** The refusals that leave a session untouched come in this order. */
  lemma RefusalsInOrder(env: Env, s: SessionState)
    requires !s.isSealed
    ensures var f := SealRefusal(env, s);
            && (f == Some(AuthorityChanged) <==> !InAuthority(env, s))
            && (f == Some(UndeclaredFiles) <==> InAuthority(env, s) && SomethingUndeclared(env, s))
            && (f == Some(AccountingOpen) <==>
                InAuthority(env, s) && !SomethingUndeclared(env, s)
                && ProjectsUse(s.command.projection) && s.accounting == None)
            && (f == Some(RetainedFileMissing) ==>
                exists r :: r in s.retained && r.path !in AttemptFiles(env, s))
            && (f == Some(RecordRefused) ==>
                exists r :: r in s.retained && r.path in AttemptFiles(env, s)
                            && !RecordOk(env.records, RecordFor(env, s, r.path, r.kind)))
  {
    UndeclaredMeans(env, s);
    AuthorityMeans(env, s);
    Sorting.SortMembers(PATH, s.retained);
    DescribedInOrder(env, s, SortedRetained(s));
  }

  lemma {:induction false} DescribedInOrder(env: Env, s: SessionState, rs: seq<Retained>)
    ensures var f := DescribeFailure(env, s, rs);
            && (f == Some(RetainedFileMissing) ==> exists r :: r in rs && r.path !in AttemptFiles(env, s))
            && (f == Some(RecordRefused) ==>
                exists r :: r in rs && r.path in AttemptFiles(env, s)
                            && !RecordOk(env.records, RecordFor(env, s, r.path, r.kind)))
    decreases |rs|
  {
    if rs != [] {
      assert rs[0] in rs && forall r :: r in rs[1..] ==> r in rs;
      DescribedInOrder(env, s, rs[1..]);
    }
  }

  /** Everything a seal that was begun can fail over. */
  lemma BegunFailures(env: Env, s: SessionState)
    requires RetainedPresent(env, s) && SealOpen(env, s).result.Err?
    ensures SealOpen(env, s).result.error in {EventRefused, RecordRefused, ManifestRefused}
  {
    SortedPresent(env, s);
  }

  lemma SealFailures(env: Env, s: SessionState)
    requires !s.isSealed && s.outcome == None && Seal(env, s).result.Err?
    ensures Seal(env, s).result.error in {AuthorityChanged, UndeclaredFiles, AccountingOpen, RetainedFileMissing,
                                          RecordRefused, EventRefused, ManifestRefused}
  {
    SealCases(env, s);
    if Sealable(env, s) && Seal(env, s) == SealOpen(env, s) {
      BegunFailures(env, s);
    } else {
      RefusalWords(env, s);
    }
  }

  lemma RefusalWords(env: Env, s: SessionState)
    requires !s.isSealed && SealRefusal(env, s).Some?
    ensures SealRefusal(env, s).value in {AuthorityChanged, UndeclaredFiles, AccountingOpen, RetainedFileMissing,
                                          RecordRefused}
  {
  }

  // ---------------------------------------------------------------- overruns

  function Observed0(value: Option<int>): int { if value.Some? then value.value else 0 }

  /** The entry that owns up to an overrun, and with an overrun of the projection to what was observed. */
  predicate TellsOverrun(e: HarnessEvent, a: Accounting, projection: bool) {
    && e.eventType == Error && e.provenance == Observed && e.source == "giclab-harness"
    && Get(e.payload, "error_type") == Str(if projection then "ResourceProjectionExceeded" else "BudgetExceeded")
    && (projection ==>
          Get(e.payload, "observed_nonwall_usage")
          == Obj(map["cost_usd" := Float(Observed0(a.costUsd)), "gpu_hours" := Float(Observed0(a.gpuHours)),
                     "model_tokens" := Int(Observed0(a.modelTokens)), "tool_calls" := Int(Observed0(a.toolCalls))]))
  }

  lemma ProjectionErrorTold(e: HarnessEvent, a: Accounting)
    requires L.Told(e) == Control(Error, Observed, ProjectionErrorPayload(a))
    ensures TellsOverrun(e, a, true)
  {
  }

  lemma BudgetErrorTold(e: HarnessEvent, a: Accounting)
    requires L.Told(e) == Control(Error, Observed, ErrorPayload("BudgetExceeded", "budget exceeded"))
    ensures TellsOverrun(e, a, false)
  {
  }

  /** An overrun reported as such was written down, explained and sealed; anything else is a failure to do so. */
  lemma ClosedOverrun(env: Env, s: SessionState, update: Draft, explanation: Draft, failure: Failure)
    requires !s.isSealed && s.outcome == None && failure in {ProjectionExceeded, BudgetExceededByAccounting}
    requires CloseOverrun(env, s, [update, explanation], failure).result == Err(failure)
    ensures var t := CloseOverrun(env, s, [update, explanation], failure).state;
            && t.isSealed && s.events <= t.events && |t.events| >= |s.events| + 2
            && L.Told(t.events[|s.events|]) == update && L.Told(t.events[|s.events| + 1]) == explanation
  {
    var ds := [update, explanation];
    var e := EmitAll(env, s, ds).state;
    EmitAllGrows(env, s, ds);
    EmittedTold(env, s, ds);
    SealUntouched(env, e);
    if Seal(env, e).result.Err? { SealFailures(env, e); }
    SealedWhenOk(env, e);
    TwoTold(s.events, Added(env, s, ds), update, explanation, Seal(env, e).state.events);
  }

  lemma SealedWhenOk(env: Env, s: SessionState)
    requires !s.isSealed && s.outcome == None && Seal(env, s).result.Ok?
    ensures Seal(env, s).state.isSealed
    ensures Seal(env, s).result.value == ExecutionOutcome(s.process, s.usage, s.status)
    ensures Seal(env, s).state.outcome == Some(Seal(env, s).result.value)
  {
    SealCases(env, s);
    SortedPresent(env, s);
  }

  lemma TwoTold(before: seq<HarnessEvent>, added: seq<HarnessEvent>, update: Draft, explanation: Draft,
                all: seq<HarnessEvent>)
    requires ToldAll(added) == [update, explanation] && before + added <= all
    ensures before <= all && |all| >= |before| + 2
    ensures L.Told(all[|before|]) == update && L.Told(all[|before| + 1]) == explanation
  {
    assert ToldAll(added)[0] == L.Told(added[0]) && ToldAll(added)[1] == L.Told(added[1]);
    assert (before + added)[|before|] == added[0] && (before + added)[|before| + 1] == added[1];
  }

  lemma OverrunFailures(env: Env, s: SessionState, ds: seq<Draft>, failure: Failure)
    requires !s.isSealed && s.outcome == None && failure in {ProjectionExceeded, BudgetExceededByAccounting}
    ensures var r := CloseOverrun(env, s, ds, failure).result;
            r == Err(failure) || (r.Err? && r.error !in {ProjectionExceeded, BudgetExceededByAccounting})
  {
    var e := EmitAll(env, s, ds).state;
    EmitAllGrows(env, s, ds);
    if EmitAll(env, s, ds).ok && Seal(env, e).result.Err? { SealFailures(env, e); }
  }

  lemma AttestedOpen(env: Env, s: SessionState, a: Accounting)
    requires AttestAccounting(env, s, a).result
             !in {Err(AlreadySealed), Err(AuthorityChanged), Err(AccountingClosed)}
    ensures !s.isSealed && AuthorityOwned(env, s) && s.accounting == None
  {
  }

  lemma PastProjectionTold(env: Env, s: SessionState, a: Accounting)
    requires s.outcome == None && !s.isSealed && AuthorityOwned(env, s) && s.accounting == None
    requires ProjectionViolated(s.command.projection, a)
    requires AttestAccounting(env, s, a).result in {Err(ProjectionExceeded), Err(BudgetExceededByAccounting)}
    ensures AttestAccounting(env, s, a).result == Err(ProjectionExceeded)
    ensures OverrunClosed(s, a, AttestAccounting(env, s, a).state, true)
  {
    var p := s.command.projection;
    var s1, update, explanation := Closed(s, a, PROJECTION_EXCEEDED), AccountingDraft(p, a, ChargedUsage(s, a)),
                                   Control(Error, Observed, ProjectionErrorPayload(a));
    AttestedOverProjection(env, s, a);
    OverrunFailures(env, s1, [update, explanation], ProjectionExceeded);
    ClosedOverrun(env, s1, update, explanation, ProjectionExceeded);
    ProjectionErrorTold(CloseOverrun(env, s1, [update, explanation],
                                     ProjectionExceeded).state.events[|s.events| + 1], a);
  }

  lemma PastBudgetTold(env: Env, s: SessionState, a: Accounting)
    requires s.outcome == None && !s.isSealed && AuthorityOwned(env, s) && s.accounting == None
    requires !ProjectionViolated(s.command.projection, a)
    requires AttestAccounting(env, s, a).result in {Err(ProjectionExceeded), Err(BudgetExceededByAccounting)}
    ensures AttestAccounting(env, s, a).result == Err(BudgetExceededByAccounting)
    ensures OverrunClosed(s, a, AttestAccounting(env, s, a).state, false)
  {
    var p := s.command.projection;
    var s1 := WithCharge(s, a).(status := BUDGET_EXCEEDED);
    var update, explanation := AccountingDraft(p, a, s1.usage),
                               Control(Error, Observed, ErrorPayload("BudgetExceeded", "budget exceeded"));
    AttestedCharge(env, s, a);
    OverrunFailures(env, s1, [update, explanation], BudgetExceededByAccounting);
    ClosedOverrun(env, s1, update, explanation, BudgetExceededByAccounting);
    BudgetErrorTold(CloseOverrun(env, s1, [update, explanation],
                                 BudgetExceededByAccounting).state.events[|s.events| + 1], a);
  }

  /** The run is sealed behind the update and the entry that owns up to the overrun. */
  predicate OverrunClosed(s: SessionState, a: Accounting, t: SessionState, projection: bool) {
    && t.isSealed && s.events <= t.events && |t.events| >= |s.events| + 2
    && t.events[|s.events|].eventType == BudgetUpdate && TellsOverrun(t.events[|s.events| + 1], a, projection)
  }

  /** Accounting past the projection says what was observed; accounting past the budget says so; both seal the run. */
  lemma OverrunTold(env: Env, s: SessionState, a: Accounting)
    requires s.outcome == None
    requires AttestAccounting(env, s, a).result in {Err(ProjectionExceeded), Err(BudgetExceededByAccounting)}
    ensures AttestAccounting(env, s, a).result == Err(ProjectionExceeded) <==> ObservedPasses(s.command.projection, a)
    ensures OverrunClosed(s, a, AttestAccounting(env, s, a).state, ObservedPasses(s.command.projection, a))
  {
    ViolatedMeans(s.command.projection, a);
    AttestedOpen(env, s, a);
    if ProjectionViolated(s.command.projection, a) {
      PastProjectionTold(env, s, a);
    } else {
      PastBudgetTold(env, s, a);
    }
  }

  // ---------------------------------------------------------- normalisation

  /** A result is refused, and the session left alone, in this order: sealed, without authority, second, artifacts. */
  lemma ResultRefused(env: Env, s: SessionState, r: NormalizationResult)
    ensures var t := ApplyNormalization(env, s, r);
            var present := Elements(r.artifacts) <= AttemptFiles(env, s).Keys;
            var unowned := Elements(r.artifacts) !! RetainedPaths(s.retained) && Distinct(r.artifacts);
            && (s.isSealed ==> t == Step(s, Err(AlreadySealed)))
            && (!s.isSealed && !InAuthority(env, s) ==> t == Step(s, Err(AuthorityChanged)))
            && (!s.isSealed && InAuthority(env, s) && s.normalizationApplied ==> t == Step(s, Err(NormalizationClosed)))
            && (!s.isSealed && InAuthority(env, s) && !s.normalizationApplied && !(present && unowned) ==>
                  && t.state == s && (t.result == Err(ArtifactInvalid) || t.result == Err(ArtifactDuplicate))
                  && (present ==> t.result == Err(ArtifactDuplicate)) && (unowned ==> t.result == Err(ArtifactInvalid)))
  {
    AuthorityMeans(env, s);
    ArtifactsRefused(AttemptFiles(env, s).Keys, RetainedPaths(s.retained), r.artifacts);
  }

  /** Accounting is closed once: sealed, without authority or settled, a session refuses it. */
  lemma AccountingRefused(env: Env, s: SessionState, a: Accounting)
    ensures var t := AttestAccounting(env, s, a);
            && (s.isSealed ==> t == Step(s, Err(AlreadySealed)))
            && (!s.isSealed && !InAuthority(env, s) ==> t == Step(s, Err(AuthorityChanged)))
            && (!s.isSealed && InAuthority(env, s) && s.accounting.Some? ==> t == Step(s, Err(AccountingClosed)))
  {
    AuthorityMeans(env, s);
  }

  // ----------------------------------------------------------- launch failures

  /** A command that never ran is charged nothing it was projected to use. */
  lemma UnlaunchedUsesNothing(env: Env, s: SessionState)
    requires !s.isSealed && s.outcome == None && s.accounting == None && s.usage == ProcessUsage(s.process)
    requires CloseLaunchFailure(env, s).result.Ok?
    ensures var t := CloseLaunchFailure(env, s).state;
            && t.isSealed && t.usage == Usage(s.process.wallSeconds, 0, 0, 0, 0, s.process.outputBytes)
            && t.outcome == Some(ExecutionOutcome(s.process, t.usage, s.status))
            && (ProjectsUse(s.command.projection)
                <==> t.accounting == Some(Accounting(Some(0), Some(0), Some(0), Some(0))))
  {
    var zeros := Accounting(Some(0), Some(0), Some(0), Some(0));
    var u := if s.command.projection.HasUsage() then AttestAccounting(env, s, zeros).state else s;
    if s.command.projection.HasUsage() { ZerosAttested(env, s, zeros); }
    SealedWhenOk(env, u);
    SealUntouched(env, u);
  }

  lemma ZerosAttested(env: Env, s: SessionState, zeros: Accounting)
    requires zeros == Accounting(Some(0), Some(0), Some(0), Some(0)) && s.usage == ProcessUsage(s.process)
    requires AttestAccounting(env, s, zeros).result.Ok?
    ensures var t := AttestAccounting(env, s, zeros).state;
            && !t.isSealed && t.outcome == s.outcome && t.accounting == Some(zeros) && t.usage == s.usage
            && t.status == s.status && t.process == s.process && t.command == s.command
  {
    AttestedOpen(env, s, zeros);
    NothingObserved(s, zeros);
    ChargeGoesThrough(env, s, zeros);
    EmitAllGrows(env, WithCharge(s, zeros), UnavailableDrafts(s.command.projection, zeros) + [ReportedDraft(s, zeros)]);
  }

  lemma NothingObserved(s: SessionState, zeros: Accounting)
    requires zeros == Accounting(Some(0), Some(0), Some(0), Some(0)) && s.usage == ProcessUsage(s.process)
    ensures WithCharge(s, zeros) == s.(accounting := Some(zeros))
  {
  }

  /** Accounting that goes through emits the charge and does nothing else. */
  lemma ChargeGoesThrough(env: Env, s: SessionState, a: Accounting)
    requires !s.isSealed && AuthorityOwned(env, s) && s.accounting == None
    requires AttestAccounting(env, s, a).result.Ok?
    ensures AttestAccounting(env, s, a).state
            == EmitAll(env, WithCharge(s, a), UnavailableDrafts(s.command.projection, a) + [ReportedDraft(s, a)]).state
  {
    if ProjectionViolated(s.command.projection, a) {
      AttestedOverProjection(env, s, a);
    } else {
      AttestedCharge(env, s, a);
    }
  }
}
