/**
 The verdict before the run: the event schema asks nothing of an event that its constructor does not, but for the
 payload of a mode decision, and those come from adapter results alone.
 */
module SchemaVerdicts {
  import opened Common
  import Json
  import opened Events
  import opened Session
  import opened SessionInvariant
  import opened EndToEnd
  import opened SessionRuns
  import opened SealedRuns
  import opened SealedLifecycles
  import opened ManifestRefusals
  import L = ScientificLog
  import J = DirectoryJudge
  import P = RunPlans

  /** What the schema asks of a mode decision's payload. */
  type Decides = Json.Fields -> bool

  predicate DecisionOk(decides: Decides, d: Draft) {
    d.eventType.RegulationDecision? ==> decides(d.payload)
  }

  predicate DecisionsOk(decides: Decides, ds: seq<Draft>) {
    forall d | d in ds :: DecisionOk(decides, d)
  }

  /** Of an event the constructor admits, the schema looks at the payload of a mode decision only. */
  ghost predicate SchemaFollows(env: Env, decides: Decides) {
    forall e: HarnessEvent | ValidEvent(env.rules, e) && e.schemaVersion == CURRENT_VERSION ::
      env.eventSchema(EventDocument(e)) <==> DecisionOk(decides, L.Told(e))
  }

  lemma DecisionsConcat(decides: Decides, a: seq<Draft>, b: seq<Draft>)
    ensures DecisionsOk(decides, a + b) <==> DecisionsOk(decides, a) && DecisionsOk(decides, b)
  {
    assert forall d :: d in a + b <==> d in a || d in b;
  }

  lemma OneDecision(decides: Decides, d: Draft)
    ensures DecisionsOk(decides, L.IfScientific(d)) <==> DecisionOk(decides, d)
  {
    assert IsAdapterType(d.eventType) ==> d in L.IfScientific(d);
  }

  /** The decisions of a log are those of its scientific events. */
  lemma {:induction false} ScienceDecides(decides: Decides, es: seq<HarnessEvent>)
    ensures DecisionsOk(decides, L.Science(es)) <==> forall i | 0 <= i < |es| :: DecisionOk(decides, L.Told(es[i]))
  {
    if es != [] {
      var front, last := es[..|es| - 1], L.Told(es[|es| - 1]);
      ScienceDecides(decides, front);
      DecisionsConcat(decides, L.Science(front), L.IfScientific(last));
      OneDecision(decides, last);
      assert forall i | 0 <= i < |front| :: es[i] == front[i];
    }
  }

  lemma LogDecides(env: Env, decides: Decides, s: SessionState)
    requires SchemaFollows(env, decides) && LogOk(env, s)
    ensures SchemasAccept(env, s)
       <==> env.planSchema(P.PlanDocument(s.plan)) && DecisionsOk(decides, L.Science(s.events))
  {
    ScienceDecides(decides, s.events);
    forall i | 0 <= i < |s.events|
      ensures env.eventSchema(EventDocument(s.events[i])) <==> DecisionOk(decides, L.Told(s.events[i]))
    {
      assert EventOk(env, s, s.events[i], i);
    }
  }

  /**
   The verdict of a sealed run is decided by the declared names, the plan's document, and the mode decisions its
   results got into the log.
   */
  lemma DecisionsDecideVerdict(env: Env, run: Run, decides: Decides)
    requires Lawful(env, run) && Final(env, run).isSealed && SchemaFollows(env, decides)
    ensures J.DirectoryAccepted(env, AttemptFiles(env, Final(env, run))) <==>
              && NamesOk(Final(env, run).retained) && env.planSchema(P.PlanDocument(run.plan))
              && DecisionsOk(decides, L.Contributions(env, Opened(env, run), run.calls))
  {
    SealedDirectoryVerdict(env, run);
    EveryRunIsNumbered(env, run);
    L.LogTellsContributions(env, run);
    LogDecides(env, decides, Final(env, run));
    RunKeeps(env, run);
  }

  // ------------------------------------------- conditions on the calls alone

  /** Every mode decision a result carries is one the schema takes. */
  predicate CallsDecide(decides: Decides, calls: seq<Call>) {
    forall c | c in calls && c.Normalize? :: DecisionsOk(decides, c.result.events)
  }

  lemma {:induction false} ContributionsDecide(env: Env, o: SessionState, calls: seq<Call>, decides: Decides)
    requires CallsDecide(decides, calls)
    ensures DecisionsOk(decides, L.Contributions(env, o, calls))
  {
    if calls != [] {
      var front, c := calls[..|calls| - 1], calls[|calls| - 1];
      assert c in calls && forall d | d in front :: d in calls;
      ContributionsDecide(env, o, front, decides);
      var added := L.Contributed(env, AfterCalls(env, o, front), c);
      assert DecisionsOk(decides, added) by { assert c.Normalize? ==> DecisionsOk(decides, c.result.events); }
      DecisionsConcat(decides, L.Contributions(env, o, front), added);
    }
  }

  predicate OrdinaryName(path: string) {
    J.BaseName(path) != EVENTS && path != MANIFEST
  }

  /** No result declares a name the validator reads specially. */
  predicate OrdinaryCalls(calls: seq<Call>) {
    forall c, path | c in calls && path in Names(c) :: OrdinaryName(path)
  }

  predicate OrdinaryPaths(paths: set<string>) {
    forall path | path in paths :: OrdinaryName(path)
  }

  lemma {:induction false} CallsDeclareOrdinary(env: Env, o: SessionState, calls: seq<Call>)
    requires env.text.Lawful() && LogRecordAdmitted(env) && RetainedOk(o) && Whole(o)
    requires (forall c | c in calls :: CallOk(c)) && OrdinaryCalls(calls) && OrdinaryPaths(RetainedPaths(o.retained))
    ensures OrdinaryPaths(RetainedPaths(AfterCalls(env, o, calls).retained))
  {
    if calls != [] {
      var front, c := calls[..|calls| - 1], calls[|calls| - 1];
      assert c in calls && forall d | d in front :: d in calls;
      CallsDeclareOrdinary(env, o, front);
      CallsWhole(env, o, front);
      CallWhole(env, AfterCalls(env, o, front), c);
    }
  }

  lemma NamesArePaths(rs: seq<Retained>)
    ensures NamesOk(rs) <==> OrdinaryPaths(RetainedPaths(rs))
  {
    if OrdinaryPaths(RetainedPaths(rs)) {
      forall r | r in rs ensures OrdinaryName(r.path) { assert r.path in RetainedPaths(rs); }
    }
  }

  lemma HarnessOrdinary()
    ensures OrdinaryPaths(RetainedPaths(HARNESS_RETAINED))
  {
    HarnessNames();
    HarnessPaths();
    HarnessPlain();
  }

  lemma HarnessPlain()
    ensures '/' !in STDOUT && '/' !in STDERR && '/' !in RUN_PLAN && '/' !in COMMAND
  {
  }

  /**
   What a caller can check beforehand: when results declare ordinary names only and carry mode decisions the
   schema takes, a run that ends sealed is accepted exactly when the schema accepts its plan.
   */
  lemma AcceptedBeforehand(env: Env, run: Run, decides: Decides)
    requires Lawful(env, run) && Final(env, run).isSealed && SchemaFollows(env, decides)
    requires OrdinaryCalls(run.calls) && CallsDecide(decides, run.calls)
    ensures J.DirectoryAccepted(env, AttemptFiles(env, Final(env, run))) <==> env.planSchema(P.PlanDocument(run.plan))
  {
    OpenedWhole(env, run);
    OpenedRetained(env, run);
    HarnessOrdinary();
    CallsDeclareOrdinary(env, Opened(env, run), run.calls);
    NamesArePaths(Final(env, run).retained);
    ContributionsDecide(env, Opened(env, run), run.calls, decides);
    DecisionsDecideVerdict(env, run, decides);
  }
}
