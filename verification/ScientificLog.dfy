/** What adapters put into a run's log: what every result got as far as emitting, and one committed result in full. */
module ScientificLog {
  import opened Common
  import opened Events
  import opened Budget
  import opened Manifest
  import opened Session
  import opened SessionInvariant
  import opened EndToEnd
  import opened SessionRuns
  import opened SealedRuns
  import P = RunPlans
  import C = Commands

  /** What an event says, without its place in the log. */
  function Told(e: HarnessEvent): Draft {
    Draft(e.eventType, e.source, e.provenance, e.payload)
  }

  function IfScientific(d: Draft): seq<Draft> {
    if IsAdapterType(d.eventType) then [d] else []
  }

  /** The scientific events of a log, in order. */
  function Science(es: seq<HarnessEvent>): seq<Draft> {
    if es == [] then [] else Science(es[..|es| - 1]) + IfScientific(Told(es[|es| - 1]))
  }

  function Scientific(ds: seq<Draft>): seq<Draft> {
    if ds == [] then [] else IfScientific(ds[0]) + Scientific(ds[1..])
  }

  predicate NoneScientific(ds: seq<Draft>) {
    forall d | d in ds :: !IsAdapterType(d.eventType)
  }

  lemma EmittedTold(env: Env, s: SessionState, d: Draft)
    ensures Science(AfterEmit(env, s, d).events) == Science(s.events) + IfScientific(d)
  {
    var e := EventOf(env, s, d);
    ConcatFront(s.events, [e]);
    AppendNothing(s.events);
    assert [e][..0] == [];
    assert Told(e) == d;
  }

  /** Emission adds the scientific ones of the drafts it got to. */
  lemma {:induction false} EmitTells(env: Env, s: SessionState, ds: seq<Draft>)
    ensures |Added(env, s, ds)| <= |ds|
    ensures Science(EmitAll(env, s, ds).state.events) == Science(s.events) + Scientific(ds[..|Added(env, s, ds)|])
    ensures EmitAll(env, s, ds).state.normalizationApplied == s.normalizationApplied
    decreases |ds|
  {
    if ds == [] || !ValidEvent(env.rules, EventOf(env, s, ds[0])) {
      AppendNothing(Science(s.events));
    } else {
      EmittedTold(env, s, ds[0]);
      var s1, n := AfterEmit(env, s, ds[0]), |Added(env, AfterEmit(env, s, ds[0]), ds[1..])|;
      EmitTells(env, s1, ds[1..]);
      Assoc(Science(s.events), IfScientific(ds[0]), Scientific(ds[1..][..n]));
      OneMoreDraft(ds, n);
    }
  }

  lemma OneMoreDraft(ds: seq<Draft>, n: nat)
    requires n < |ds|
    ensures Scientific(ds[..n + 1]) == IfScientific(ds[0]) + Scientific(ds[1..][..n])
  {
    assert ds[..n + 1][1..] == ds[1..][..n];
  }

  lemma EmitQuiet(env: Env, s: SessionState, ds: seq<Draft>)
    requires NoneScientific(ds)
    ensures Silent(s, EmitAll(env, s, ds).state)
  {
    EmitTells(env, s, ds);
    var told := ds[..|Added(env, s, ds)|];
    assert forall d | d in told :: d in ds;
    NothingScientific(told);
    AppendNothing(Science(s.events));
  }

  // ------------------------------------------------ calls that say nothing

  /** Nothing scientific was added, and no result was committed. */
  predicate Silent(s: SessionState, t: SessionState) {
    Science(t.events) == Science(s.events) && t.normalizationApplied == s.normalizationApplied
  }

  lemma QuietConcat(a: seq<Draft>, b: seq<Draft>)
    requires NoneScientific(a) && NoneScientific(b)
    ensures NoneScientific(a + b)
  {
  }

  lemma SealingDraftsQuiet(s: SessionState, records: seq<ArtifactRecord>)
    ensures NoneScientific(RecordDrafts(records) + [StopDraft(s)])
  {
    QuietConcat(RecordDrafts(records), [StopDraft(s)]);
  }

  lemma SealOpenSilent(env: Env, s: SessionState)
    requires RetainedPresent(env, s)
    ensures Silent(s, SealOpen(env, s).state)
  {
    SortedPresent(env, s);
    var records := RecordsFor(env, s, SortedRetained(s));
    SealingDraftsQuiet(s, records);
    EmitQuiet(env, s, RecordDrafts(records) + [StopDraft(s)]);
  }

  lemma SealSilent(env: Env, s: SessionState)
    ensures Silent(s, Seal(env, s).state)
  {
    if !s.isSealed && s.outcome.None? {
      SealCases(env, s);
      if Sealable(env, s) { SealOpenSilent(env, s); }
    }
  }

  lemma CloseOverrunSilent(env: Env, s: SessionState, ds: seq<Draft>, failure: Failure)
    requires NoneScientific(ds)
    ensures Silent(s, CloseOverrun(env, s, ds, failure).state)
  {
    EmitQuiet(env, s, ds);
    SealSilent(env, EmitAll(env, s, ds).state);
  }

  lemma AccountingQuiet(ds: seq<Draft>)
    requires AccountingKinds(ds)
    ensures NoneScientific(ds)
  {
  }

  lemma AttestSilent(env: Env, s: SessionState, a: Accounting)
    ensures Silent(s, AttestAccounting(env, s, a).state)
  {
    var t, ds, failure := AttestForms(env, s, a);
    AccountingQuiet(ds);
    EmitQuiet(env, t, ds);
    CloseOverrunSilent(env, t, ds, failure);
  }

  lemma LaunchCloseSilent(env: Env, s: SessionState)
    ensures Silent(s, CloseLaunchFailure(env, s).state)
  {
    var zeros := Accounting(Some(0), Some(0), Some(0), Some(0));
    AttestSilent(env, s, zeros);
    SealSilent(env, s);
    SealSilent(env, AttestAccounting(env, s, zeros).state);
  }

  lemma OtherCallSilent(env: Env, s: SessionState, c: Call)
    requires !c.Normalize?
    ensures Silent(s, AfterCall(env, s, c))
  {
    match c
    case SealCall => SealSilent(env, s);
    case External(path, content) =>
    case LaunchClose => LaunchCloseSilent(env, s);
  }

  // ------------------------------------------------------ the one that speaks

  lemma {:induction false} ScientificConcat(a: seq<Draft>, b: seq<Draft>)
    ensures Scientific(a + b) == Scientific(a) + Scientific(b)
  {
    if a == [] {
      PrependNothing(b);
      PrependNothing(Scientific(b));
    } else {
      assert (a + b)[1..] == a[1..] + b;
      ScientificConcat(a[1..], b);
      Assoc(IfScientific(a[0]), Scientific(a[1..]), Scientific(b));
    }
  }

  lemma {:induction false} AllScientific(ds: seq<Draft>)
    requires forall d | d in ds :: IsAdapterType(d.eventType)
    ensures Scientific(ds) == ds
  {
    if ds != [] {
      AllScientific(ds[1..]);
      assert ds == [ds[0]] + ds[1..];
    }
  }

  lemma {:induction false} NothingScientific(ds: seq<Draft>)
    requires NoneScientific(ds)
    ensures Scientific(ds) == []
  {
    if ds != [] { NothingScientific(ds[1..]); }
  }

  /** The scientific ones of a result's first `n` drafts are its first `n` events. */
  lemma ResultScience(r: NormalizationResult, n: nat)
    requires ResultOk(r) && n <= |ResultDrafts(r)|
    ensures Scientific(ResultDrafts(r)[..n]) == r.events[..Min(n, |r.events|)]
  {
    var notes := UnavailableFieldDrafts(r.unavailableFields) + NoticeDrafts(r.notices);
    Assoc(r.events, UnavailableFieldDrafts(r.unavailableFields), NoticeDrafts(r.notices));
    assert NoneScientific(notes);
    PrefixScience(r.events, notes, n);
  }

  lemma PrefixScience(events: seq<Draft>, notes: seq<Draft>, n: nat)
    requires (forall d | d in events :: IsAdapterType(d.eventType)) && NoneScientific(notes) && n <= |events + notes|
    ensures Scientific((events + notes)[..n]) == events[..Min(n, |events|)]
  {
    if n <= |events| {
      assert (events + notes)[..n] == events[..n];
      AllScientific(events[..n]);
    } else {
      var told := notes[..n - |events|];
      assert (events + notes)[..n] == events + told && events[..|events|] == events;
      ScientificConcat(events, told);
      AllScientific(events);
      NothingScientific(told);
      AppendNothing(events);
    }
  }

  // --------------------------------------------------- what a call contributes

  /** The result gets as far as emitting. */
  predicate Reached(env: Env, s: SessionState, r: NormalizationResult) {
    && !s.isSealed && AuthorityOwned(env, s) && !s.normalizationApplied
    && ArtifactFailure(AttemptFiles(env, s).Keys, RetainedPaths(s.retained), r.artifacts).None?
  }

  /** How many of the result's events were admitted before the first refusal. */
  function AdmittedEvents(env: Env, s: SessionState, r: NormalizationResult): nat {
    Min(|Added(env, Declared(s, r), ResultDrafts(r))|, |r.events|)
  }

  /** What a call adds to the scientific events of the log. */
  function Contributed(env: Env, s: SessionState, c: Call): seq<Draft> {
    if c.Normalize? && Reached(env, s, c.result) then c.result.events[..AdmittedEvents(env, s, c.result)] else []
  }

  lemma AdmittedBounds(env: Env, s: SessionState, r: NormalizationResult)
    ensures EmitAll(env, Declared(s, r), ResultDrafts(r)).ok ==> AdmittedEvents(env, s, r) == |r.events|
    ensures AdmittedEvents(env, s, r) == 0 <==> r.events == [] || !ValidEvent(env.rules, EventOf(env, s, r.events[0]))
  {
    EmitAllGrows(env, Declared(s, r), ResultDrafts(r));
    assert r.events != [] ==> ResultDrafts(r)[0] == r.events[0];
    assert r.events != [] ==> EventOf(env, Declared(s, r), r.events[0]) == EventOf(env, s, r.events[0]);
  }

  lemma NormalizationSilence(env: Env, s: SessionState, r: NormalizationResult)
    requires Reached(env, s, r)
    ensures var emitted := EmitAll(env, Declared(s, r), ResultDrafts(r)).state;
            var t := ApplyNormalization(env, s, r).state;
            Science(t.events) == Science(emitted.events)
            && (t.normalizationApplied <==> EmitAll(env, Declared(s, r), ResultDrafts(r)).ok)
  {
    var emitted := EmitAll(env, Declared(s, r), ResultDrafts(r));
    EmitTells(env, Declared(s, r), ResultDrafts(r));
    AttestSilent(env, emitted.state.(normalizationApplied := true), r.accounting);
  }

  /** A result adds what was admitted of its events; a committed one adds all of them. */
  lemma NormalizationTells(env: Env, s: SessionState, r: NormalizationResult)
    requires ResultOk(r)
    ensures var t := ApplyNormalization(env, s, r).state;
            && Science(t.events) == Science(s.events) + Contributed(env, s, Normalize(r))
            && (s.normalizationApplied ==> t == s)
            && (t.normalizationApplied && !s.normalizationApplied ==> Contributed(env, s, Normalize(r)) == r.events)
  {
    if Reached(env, s, r) {
      NormalizationSilence(env, s, r);
      EmitTells(env, Declared(s, r), ResultDrafts(r));
      ResultScience(r, |Added(env, Declared(s, r), ResultDrafts(r))|);
      AdmittedBounds(env, s, r);
      WholePrefix(r.events);
    } else {
      AppendNothing(Science(s.events));
    }
  }

  lemma CallTells(env: Env, s: SessionState, c: Call)
    requires CallOk(c)
    ensures Science(AfterCall(env, s, c).events) == Science(s.events) + Contributed(env, s, c)
  {
    if c.Normalize? {
      NormalizationTells(env, s, c.result);
    } else {
      OtherCallSilent(env, s, c);
      AppendNothing(Science(s.events));
    }
  }

  // ------------------------------------------------------------- whole runs

  /** What the calls add, call by call. */
  function Contributions(env: Env, s: SessionState, calls: seq<Call>): seq<Draft> {
    if calls == [] then []
    else
      var front, c := calls[..|calls| - 1], calls[|calls| - 1];
      Contributions(env, s, front) + Contributed(env, AfterCalls(env, s, front), c)
  }

  lemma {:induction false} CallsTell(env: Env, s: SessionState, calls: seq<Call>)
    requires forall c | c in calls :: CallOk(c)
    ensures Science(AfterCalls(env, s, calls).events) == Science(s.events) + Contributions(env, s, calls)
  {
    if calls == [] {
      AppendNothing(Science(s.events));
    } else {
      var front, c := calls[..|calls| - 1], calls[|calls| - 1];
      CallsTell(env, s, front);
      CallTells(env, AfterCalls(env, s, front), c);
      Assoc(Science(s.events), Contributions(env, s, front), Contributed(env, AfterCalls(env, s, front), c));
    }
  }

  /** The call brings the first event of a result into the log. */
  predicate Speaks(env: Env, s: SessionState, c: Call) {
    && c.Normalize? && Reached(env, s, c.result)
    && c.result.events != [] && ValidEvent(env.rules, EventOf(env, s, c.result.events[0]))
  }

  predicate NoneSpeaks(env: Env, s: SessionState, calls: seq<Call>) {
    calls != [] ==>
      var front, c := calls[..|calls| - 1], calls[|calls| - 1];
      NoneSpeaks(env, s, front) && !Speaks(env, AfterCalls(env, s, front), c)
  }

  lemma {:induction false} NothingContributed(env: Env, s: SessionState, calls: seq<Call>)
    ensures Contributions(env, s, calls) == [] <==> NoneSpeaks(env, s, calls)
  {
    if calls != [] {
      var front, c := calls[..|calls| - 1], calls[|calls| - 1];
      NothingContributed(env, s, front);
      if c.Normalize? { AdmittedBounds(env, AfterCalls(env, s, front), c.result); }
    }
  }

  lemma SecondResultIdle(env: Env, s: SessionState, r: NormalizationResult)
    requires s.normalizationApplied
    ensures ApplyNormalization(env, s, r).state == s
  {
  }

  lemma {:induction false} CommittedForGood(env: Env, s: SessionState, calls: seq<Call>)
    requires s.normalizationApplied
    ensures Silent(s, AfterCalls(env, s, calls))
  {
    if calls != [] {
      var front, c := calls[..|calls| - 1], calls[|calls| - 1];
      CommittedForGood(env, s, front);
      if c.Normalize? {
        SecondResultIdle(env, AfterCalls(env, s, front), c.result);
      } else {
        OtherCallSilent(env, AfterCalls(env, s, front), c);
      }
    }
  }

  lemma OpeningQuiet(env: Env, plan: P.RunPlan, command: C.CommandSpec, process: ProcessResult)
    ensures NoneScientific(OpeningDrafts(env, plan, command, process))
  {
  }

  lemma FreshSilent(env: Env, start: SessionState, ds: seq<Draft>)
    requires start.events == [] && !start.normalizationApplied && NoneScientific(ds)
    ensures var t := EmitAll(env, start, ds).state; Science(t.events) == [] && !t.normalizationApplied
  {
    EmitQuiet(env, start, ds);
  }

  lemma OpeningSilent(env: Env, run: Run)
    requires Open(env, run.plan, run.command, run.process, run.left).Ok?
    ensures Science(Opened(env, run).events) == [] && !Opened(env, run).normalizationApplied
  {
    OpeningQuiet(env, run.plan, run.command, run.process);
    FreshSilent(env, Fresh(env, run.plan, run.command, run.process, run.left),
                OpeningDrafts(env, run.plan, run.command, run.process));
  }

  /** In every run the scientific events of the log are what its results got as far as emitting, in order. */
  lemma LogTellsContributions(env: Env, run: Run)
    requires Lawful(env, run)
    ensures Science(Final(env, run).events) == Contributions(env, Opened(env, run), run.calls)
  {
    OpeningSilent(env, run);
    CallsTell(env, Opened(env, run), run.calls);
    PrependNothing(Contributions(env, Opened(env, run), run.calls));
  }

  /** The normalisation of `r` is the call behind `before`, and it commits. */
  predicate CommitsAt(env: Env, run: Run, before: seq<Call>, r: NormalizationResult, after: seq<Call>)
    requires Open(env, run.plan, run.command, run.process, run.left).Ok?
  {
    var s := AfterCalls(env, Opened(env, run), before);
    && run.calls == before + [Normalize(r)] + after
    && !s.normalizationApplied && ApplyNormalization(env, s, r).state.normalizationApplied
  }

  /**
   The scientific events of the final log are what earlier results that broke off left there, followed by
   the one committed result in full; nothing called behind it adds any. They are that result alone exactly
   when no earlier result brought an event into the log.
   */
  lemma LogTellsTheResult(env: Env, run: Run, before: seq<Call>, r: NormalizationResult, after: seq<Call>)
    requires Lawful(env, run) && CommitsAt(env, run, before, r, after)
    ensures Science(Final(env, run).events) == Contributions(env, Opened(env, run), before) + r.events
    ensures Contributions(env, Opened(env, run), before) == [] <==> NoneSpeaks(env, Opened(env, run), before)
  {
    var o := Opened(env, run);
    CallsOkInParts(run.calls, before, r, after);
    OpeningSilent(env, run);
    CommittedScience(env, o, before, r, after);
    PrependNothing(Contributions(env, o, before));
    NothingContributed(env, o, before);
  }

  lemma CallsOkInParts(calls: seq<Call>, before: seq<Call>, r: NormalizationResult, after: seq<Call>)
    requires calls == before + [Normalize(r)] + after && forall c | c in calls :: CallOk(c)
    ensures (forall c | c in before :: CallOk(c)) && ResultOk(r) && (forall c | c in after :: CallOk(c))
  {
    assert Normalize(r) in calls;
  }

  lemma CommittedScience(env: Env, o: SessionState, before: seq<Call>, r: NormalizationResult, after: seq<Call>)
    requires (forall c | c in before :: CallOk(c)) && ResultOk(r) && (forall c | c in after :: CallOk(c))
    requires var s := AfterCalls(env, o, before);
             !s.normalizationApplied && ApplyNormalization(env, s, r).state.normalizationApplied
    ensures Science(AfterCalls(env, o, before + [Normalize(r)] + after).events)
         == Science(o.events) + Contributions(env, o, before) + r.events
  {
    var s := AfterCalls(env, o, before);
    CallsTell(env, o, before);
    NormalizationTells(env, s, r);
    CallsConcat(env, o, before + [Normalize(r)], after);
    CallsConcat(env, o, before, [Normalize(r)]);
    OneCall(env, s, Normalize(r));
    CommittedForGood(env, ApplyNormalization(env, s, r).state, after);
  }
}
