/** Normalisation loses nothing of an accepted trace and says of every conditional field whether it is there. */
module TraceTheorems {
  import opened Common
  import opened Json
  import opened TraceSessions
  import opened TraceNormalization
  import T = TaskSources
  import E = Events

  // ------------------------------------------------------- reading payloads

  lemma PayloadReads(contracts: Contracts, t: E.EventType, values: Fields, step: Option<nat>, key: string)
    requires key != CONTRACTS_KEY
    ensures var p := Event(contracts, t, values, step).payload;
            (key in p <==> key in values) && (key in values ==> p[key] == values[key])
              && Get(p, key) == Get(values, key)
  {
  }

  /** One field of every event of one type, in order. */
  function Collect(es: seq<TraceEvent>, t: E.EventType, key: string): seq<Value> {
    if es == [] then []
    else (if es[0].eventType == t then [Get(es[0].payload, key)] else []) + Collect(es[1..], t, key)
  }

  lemma {:induction false} CollectConcat(a: seq<TraceEvent>, b: seq<TraceEvent>, t: E.EventType, key: string)
    ensures Collect(a + b, t, key) == Collect(a, t, key) + Collect(b, t, key)
  {
    if a == [] {
      assert a + b == b;
    } else {
      assert (a + b)[1..] == a[1..] + b;
      CollectConcat(a[1..], b, t, key);
      Assoc(if a[0].eventType == t then [Get(a[0].payload, key)] else [], Collect(a[1..], t, key), Collect(b, t, key));
    }
  }

  lemma CollectOne(e: TraceEvent, t: E.EventType, key: string)
    ensures Collect([e], t, key) == if e.eventType == t then [Get(e.payload, key)] else []
  {
    assert [e][1..] == [];
    assert Collect([], t, key) == [];
  }

  lemma CollectPlans(contracts: Contracts, step: nat, item: Item, t: E.EventType, key: string)
    requires t == E.Observation || t == E.ExecutedAction
    ensures Collect(BeliefEvents(contracts, step, item), t, key) == []
            && Collect(PlanEvents(contracts, step, item), t, key) == []
  {
    if BeliefEvents(contracts, step, item) != [] { CollectOne(BeliefEvents(contracts, step, item)[0], t, key); }
    if PlanEvents(contracts, step, item) != [] { CollectOne(PlanEvents(contracts, step, item)[0], t, key); }
  }

  lemma CollectStep(contracts: Contracts, step: nat, item: Item, t: E.EventType, key: string)
    requires (t == E.Observation && key == "raw_observation") || (t == E.ExecutedAction && key == "requested_action")
    ensures Collect(StepEvents(contracts, step, item), t, key)
         == [if t == E.Observation then Obj(item.observation) else Str(item.action)]
  {
    var a := Event(contracts, E.Observation, ObservationValues(step, item), Some(step));
    var d := Event(contracts, E.ExecutedAction, ActionValues(step, item), Some(step));
    var b, c := BeliefEvents(contracts, step, item), PlanEvents(contracts, step, item);
    CollectPlans(contracts, step, item, t, key);
    CollectConcat([a], b + (c + [d]), t, key);
    CollectConcat(b, c + [d], t, key);
    CollectConcat(c, [d], t, key);
    CollectOne(a, t, key);
    CollectOne(d, t, key);
    PayloadReads(contracts, E.Observation, ObservationValues(step, item), Some(step), "raw_observation");
    PayloadReads(contracts, E.ExecutedAction, ActionValues(step, item), Some(step), "requested_action");
    RawValues(step, item);
  }

  lemma RawValues(step: nat, item: Item)
    ensures Get(ObservationValues(step, item), "raw_observation") == Obj(item.observation)
    ensures Get(ActionValues(step, item), "requested_action") == Str(item.action)
  {
  }

  function ObservationsOf(history: seq<Item>): (vs: seq<Value>)
    ensures |vs| == |history| && forall i | 0 <= i < |vs| :: vs[i] == Obj(history[i].observation)
  {
    seq(|history|, i requires 0 <= i < |history| => Obj(history[i].observation))
  }

  function ActionsOf(history: seq<Item>): (vs: seq<Value>)
    ensures |vs| == |history| && forall i | 0 <= i < |vs| :: vs[i] == Str(history[i].action)
  {
    seq(|history|, i requires 0 <= i < |history| => Str(history[i].action))
  }

  lemma CollectStepThen(contracts: Contracts, step: nat, item: Item, rest: seq<TraceEvent>, t: E.EventType, key: string)
    requires (t == E.Observation && key == "raw_observation") || (t == E.ExecutedAction && key == "requested_action")
    ensures Collect(StepEvents(contracts, step, item) + rest, t, key)
         == [if t == E.Observation then Obj(item.observation) else Str(item.action)] + Collect(rest, t, key)
  {
    CollectStep(contracts, step, item, t, key);
    CollectConcat(StepEvents(contracts, step, item), rest, t, key);
  }

  lemma DropOne<V>(values: seq<V>, k: nat)
    requires k < |values|
    ensures values[k..] == [values[k]] + values[k + 1..]
  {
  }

  lemma CollectNext(contracts: Contracts, history: seq<Item>, k: nat, t: E.EventType, key: string)
    requires k < |history|
    requires (t == E.Observation && key == "raw_observation") || (t == E.ExecutedAction && key == "requested_action")
    ensures Collect(EventsFrom(contracts, history, k), t, key)
         == [if t == E.Observation then Obj(history[k].observation) else Str(history[k].action)]
            + Collect(EventsFrom(contracts, history, k + 1), t, key)
  {
    CollectStepThen(contracts, k, history[k], EventsFrom(contracts, history, k + 1), t, key);
  }

  lemma {:induction false} CollectFrom(contracts: Contracts, history: seq<Item>, k: nat, t: E.EventType, key: string,
                                       values: seq<Value>)
    requires k <= |history| == |values|
    requires (t == E.Observation && key == "raw_observation") || (t == E.ExecutedAction && key == "requested_action")
    requires forall i | 0 <= i < |values| ::
             values[i] == if t == E.Observation then Obj(history[i].observation) else Str(history[i].action)
    ensures Collect(EventsFrom(contracts, history, k), t, key) == values[k..]
    decreases |history| - k
  {
    if k < |history| {
      CollectFrom(contracts, history, k + 1, t, key, values);
      CollectNext(contracts, history, k, t, key);
      DropOne(values, k);
    }
  }

  lemma OutcomeTypes(contracts: Contracts, s: Session, webarena: bool, e: TraceEvent)
    requires e in OutcomeEvents(contracts, s, webarena)
    ensures e.eventType == E.Outcome || e.eventType == E.Metric
  {
  }

  lemma {:induction false} CollectNone(es: seq<TraceEvent>, t: E.EventType, key: string)
    requires forall e | e in es :: e.eventType != t
    ensures Collect(es, t, key) == []
  {
    if es != [] { CollectNone(es[1..], t, key); }
  }

  /** The events reproduce every raw observation and every requested action, in order and no other. */
  lemma NothingIsLost(contracts: Contracts, s: Session, webarena: bool)
    ensures Collect(Normalize(contracts, s, webarena).events, E.Observation, "raw_observation")
            == ObservationsOf(s.history)
    ensures Collect(Normalize(contracts, s, webarena).events, E.ExecutedAction, "requested_action")
            == ActionsOf(s.history)
  {
    var steps, outcome := EventsFrom(contracts, s.history, 0), OutcomeEvents(contracts, s, webarena);
    CollectFrom(contracts, s.history, 0, E.Observation, "raw_observation", ObservationsOf(s.history));
    CollectFrom(contracts, s.history, 0, E.ExecutedAction, "requested_action", ActionsOf(s.history));
    forall e | e in outcome
      ensures e.eventType != E.Observation && e.eventType != E.ExecutedAction
    {
      OutcomeTypes(contracts, s, webarena, e);
    }
    CollectNone(outcome, E.Observation, "raw_observation");
    CollectNone(outcome, E.ExecutedAction, "requested_action");
    CollectConcat(steps, outcome, E.Observation, "raw_observation");
    CollectConcat(steps, outcome, E.ExecutedAction, "requested_action");
    assert ObservationsOf(s.history)[0..] + [] == ObservationsOf(s.history)
           && ActionsOf(s.history)[0..] + [] == ActionsOf(s.history);
  }

  lemma StepTypes(contracts: Contracts, step: nat, item: Item, e: TraceEvent)
    requires e in StepEvents(contracts, step, item)
    ensures !e.eventType.Outcome? && !e.eventType.Metric?
  {
    StepAssembled(contracts, step, item);
  }

  lemma {:induction false} StepsTypes(contracts: Contracts, history: seq<Item>, k: nat, e: TraceEvent)
    requires k <= |history| && e in EventsFrom(contracts, history, k)
    ensures !e.eventType.Outcome? && !e.eventType.Metric?
    decreases |history| - k
  {
    if e in StepEvents(contracts, k, history[k]) {
      StepTypes(contracts, k, history[k], e);
    } else {
      StepsTypes(contracts, history, k + 1, e);
    }
  }

  lemma MetricsAreNoOutcome(contracts: Contracts, s: Session, webarena: bool, key: string)
    requires key != CONTRACTS_KEY
    ensures Collect(OutcomeEvents(contracts, s, webarena), E.Outcome, key) == [Get(OutcomeValues(s, webarena), key)]
  {
    var first := Event(contracts, E.Outcome, OutcomeValues(s, webarena), None);
    var es := OutcomeEvents(contracts, s, webarena);
    assert es[0] == first && forall e | e in es[1..] :: e.eventType == E.Metric;
    CollectNone(es[1..], E.Outcome, key);
    PayloadReads(contracts, E.Outcome, OutcomeValues(s, webarena), None, key);
    AppendNothing([Get(first.payload, key)]);
  }

  lemma OneOutcome(contracts: Contracts, s: Session, webarena: bool, key: string)
    requires key != CONTRACTS_KEY
    ensures Collect(Normalize(contracts, s, webarena).events, E.Outcome, key) == [Get(OutcomeValues(s, webarena), key)]
  {
    var steps, outcome := EventsFrom(contracts, s.history, 0), OutcomeEvents(contracts, s, webarena);
    forall e | e in steps ensures e.eventType != E.Outcome { StepsTypes(contracts, s.history, 0, e); }
    CollectNone(steps, E.Outcome, key);
    CollectConcat(steps, outcome, E.Outcome, key);
    MetricsAreNoOutcome(contracts, s, webarena, key);
    PrependNothing(Collect(outcome, E.Outcome, key));
  }

  lemma OutcomeReads(s: Session, webarena: bool)
    requires webarena ==> s.rewards.Some? && s.testResult.Some?
    ensures Get(OutcomeValues(s, webarena), "source_is_complete") == Bool(s.isComplete)
    ensures Get(OutcomeValues(s, webarena), "source_error") == Str(s.error)
    ensures Get(OutcomeValues(s, webarena), "webarena_rewards") == if webarena then Arr(s.rewards.value) else Null
    ensures Get(OutcomeValues(s, webarena), "webarena_test_result") == if webarena then s.testResult.value else Null
  {
  }

  /** One outcome stands in the events, with the trace's completion, error and, for WebArena, rewards and result. */
  lemma OutcomeIsKept(contracts: Contracts, s: Session, webarena: bool)
    requires webarena ==> s.rewards.Some? && s.testResult.Some?
    ensures var es := Normalize(contracts, s, webarena).events;
            && Collect(es, E.Outcome, "source_is_complete") == [Bool(s.isComplete)]
            && Collect(es, E.Outcome, "source_error") == [Str(s.error)]
            && Collect(es, E.Outcome, "webarena_rewards") == [if webarena then Arr(s.rewards.value) else Null]
            && Collect(es, E.Outcome, "webarena_test_result") == [if webarena then s.testResult.value else Null]
  {
    OneOutcome(contracts, s, webarena, "source_is_complete");
    OneOutcome(contracts, s, webarena, "source_error");
    OneOutcome(contracts, s, webarena, "webarena_rewards");
    OneOutcome(contracts, s, webarena, "webarena_test_result");
    OutcomeReads(s, webarena);
  }

  // --------------------------------------------- the value of a conditional

  predicate Shows(e: TraceEvent, i: nat, f: Conditional) {
    e.eventType == EventOf(f) && Get(e.payload, "step_index") == Int(i) && PayloadKey(f) in e.payload
  }

  /** What the events say of one conditional field of one step. */
  function ValueOf(es: seq<TraceEvent>, i: nat, f: Conditional): Option<Value> {
    if es == [] then None
    else if Shows(es[0], i, f) then Some(es[0].payload[PayloadKey(f)])
    else ValueOf(es[1..], i, f)
  }

  lemma {:induction false} ValueConcat(a: seq<TraceEvent>, b: seq<TraceEvent>, i: nat, f: Conditional)
    ensures ValueOf(a + b, i, f) == if ValueOf(a, i, f).Some? then ValueOf(a, i, f) else ValueOf(b, i, f)
  {
    if a == [] {
      assert a + b == b;
    } else {
      assert (a + b)[1..] == a[1..] + b;
      ValueConcat(a[1..], b, i, f);
    }
  }

  lemma ValueOne(e: TraceEvent, i: nat, f: Conditional)
    ensures ValueOf([e], i, f) == if Shows(e, i, f) then Some(e.payload[PayloadKey(f)]) else None
  {
    assert [e][1..] == [];
    assert ValueOf([], i, f) == None;
  }

  function TraceValue(item: Item, f: Conditional): Option<Value> {
    if Carries(item, f) then Some(Get(item.info, SourceKey(f))) else None
  }

  lemma ObservationShows(contracts: Contracts, step: nat, item: Item, i: nat, f: Conditional)
    ensures ValueOf([Event(contracts, E.Observation, ObservationValues(step, item), Some(step))], i, f)
         == if (f.Processed? || f.Info?) && i == step then TraceValue(item, f) else None
  {
    var values := ObservationValues(step, item);
    ValueOne(Event(contracts, E.Observation, values, Some(step)), i, f);
    PayloadReads(contracts, E.Observation, values, Some(step), "step_index");
    PayloadReads(contracts, E.Observation, values, Some(step), PayloadKey(f));
    assert Get(values, "step_index") == Int(step);
    if f.Processed? { assert PayloadKey(f) in values <==> Carries(item, f); }
    if f.Info? { assert PayloadKey(f) in values <==> Carries(item, f); }
  }

  lemma BeliefShows(contracts: Contracts, step: nat, item: Item, i: nat, f: Conditional)
    ensures ValueOf(BeliefEvents(contracts, step, item), i, f)
            == if f.State? && i == step then TraceValue(item, f) else None
  {
    if Carries(item, State) {
      var values :=
        map["step_index" := Int(step), "upstream_state" := item.info["state"], "semantic_caveat" := Str(CAVEAT)];
      ValueOne(Event(contracts, E.BeliefState, values, Some(step)), i, f);
      PayloadReads(contracts, E.BeliefState, values, Some(step), "step_index");
      PayloadReads(contracts, E.BeliefState, values, Some(step), PayloadKey(f));
    }
  }

  lemma PlanShows(contracts: Contracts, step: nat, item: Item, i: nat, f: Conditional)
    ensures ValueOf(PlanEvents(contracts, step, item), i, f)
         == if (f.PlanText? || f.Alias?) && i == step then TraceValue(item, f) else None
  {
    if Carries(item, PlanText) || Carries(item, Alias) {
      var values := PlanValues(step, item);
      ValueOne(Event(contracts, E.Plan, values, Some(step)), i, f);
      PayloadReads(contracts, E.Plan, values, Some(step), "step_index");
      PayloadReads(contracts, E.Plan, values, Some(step), PayloadKey(f));
      assert Get(values, "step_index") == Int(step);
    }
  }

  lemma ActionShows(contracts: Contracts, step: nat, item: Item, i: nat, f: Conditional)
    ensures ValueOf([Event(contracts, E.ExecutedAction, ActionValues(step, item), Some(step))], i, f) == None
  {
    ValueOne(Event(contracts, E.ExecutedAction, ActionValues(step, item), Some(step)), i, f);
  }

  lemma StepShows(contracts: Contracts, step: nat, item: Item, i: nat, f: Conditional)
    ensures ValueOf(StepEvents(contracts, step, item), i, f) == if i == step then TraceValue(item, f) else None
  {
    var a, d := [Event(contracts, E.Observation, ObservationValues(step, item), Some(step))],
                [Event(contracts, E.ExecutedAction, ActionValues(step, item), Some(step))];
    var b, c := BeliefEvents(contracts, step, item), PlanEvents(contracts, step, item);
    ObservationShows(contracts, step, item, i, f);
    BeliefShows(contracts, step, item, i, f);
    PlanShows(contracts, step, item, i, f);
    ActionShows(contracts, step, item, i, f);
    ValueConcat(a, b + (c + d), i, f);
    ValueConcat(b, c + d, i, f);
    ValueConcat(c, d, i, f);
  }

  lemma StepThenShows(contracts: Contracts, step: nat, item: Item, rest: seq<TraceEvent>, i: nat, f: Conditional)
    requires i != step || ValueOf(rest, i, f) == None
    ensures ValueOf(StepEvents(contracts, step, item) + rest, i, f)
         == if i == step then TraceValue(item, f) else ValueOf(rest, i, f)
  {
    StepShows(contracts, step, item, i, f);
    ValueConcat(StepEvents(contracts, step, item), rest, i, f);
  }

  lemma NextShows(contracts: Contracts, history: seq<Item>, k: nat, i: nat, f: Conditional)
    requires k < |history| && (i != k || ValueOf(EventsFrom(contracts, history, k + 1), i, f) == None)
    ensures ValueOf(EventsFrom(contracts, history, k), i, f)
         == if i == k then TraceValue(history[k], f) else ValueOf(EventsFrom(contracts, history, k + 1), i, f)
  {
    StepThenShows(contracts, k, history[k], EventsFrom(contracts, history, k + 1), i, f);
  }

  lemma {:induction false} StepsShow(contracts: Contracts, history: seq<Item>, k: nat, i: nat, f: Conditional)
    requires k <= |history|
    ensures ValueOf(EventsFrom(contracts, history, k), i, f)
            == if k <= i < |history| then TraceValue(history[i], f) else None
    decreases |history| - k
  {
    if k < |history| {
      StepsShow(contracts, history, k + 1, i, f);
      NextShows(contracts, history, k, i, f);
    }
  }

  lemma {:induction false} ValueNone(es: seq<TraceEvent>, i: nat, f: Conditional)
    requires forall e | e in es :: e.eventType != EventOf(f)
    ensures ValueOf(es, i, f) == None
  {
    if es != [] { ValueNone(es[1..], i, f); }
  }

  /** The events give every conditional field exactly as the trace has it, and nothing where it has none. */
  lemma EventsCarryTheTrace(contracts: Contracts, s: Session, webarena: bool, i: nat, f: Conditional)
    requires i < |s.history|
    ensures ValueOf(Normalize(contracts, s, webarena).events, i, f) == TraceValue(s.history[i], f)
  {
    var outcome := OutcomeEvents(contracts, s, webarena);
    StepsShow(contracts, s.history, 0, i, f);
    forall e | e in outcome ensures e.eventType != EventOf(f) { OutcomeTypes(contracts, s, webarena, e); }
    ValueNone(outcome, i, f);
    ValueConcat(EventsFrom(contracts, s.history, 0), outcome, i, f);
  }

  // --------------------------------------------------- what is listed missing

  lemma FirstBracket(a: string, b: string, x: string, y: string)
    requires '[' !in a && '[' !in b && a + "[" + x == b + "[" + y
    ensures a == b && x == y
  {
    var s := a + "[" + x;
    assert s[|a|] == '[' && s[|b|] == '[';
    assert forall i | 0 <= i < |a| :: s[i] == a[i];
    assert forall i | 0 <= i < |b| :: s[i] == b[i];
    assert |a| == |b|;
    assert a == s[..|a|] && b == s[..|b|];
    assert x == s[|a| + 1..] && y == s[|b| + 1..];
  }

  lemma FirstClose(a: string, b: string, x: string, y: string)
    requires ']' !in a && ']' !in b && a + "]" + x == b + "]" + y
    ensures a == b && x == y
  {
    var s := a + "]" + x;
    assert s[|a|] == ']' && s[|b|] == ']';
    assert forall i | 0 <= i < |a| :: s[i] == a[i];
    assert forall i | 0 <= i < |b| :: s[i] == b[i];
    assert |a| == |b|;
    assert a == s[..|a|] && b == s[..|b|];
    assert x == s[|a| + 1..] && y == s[|b| + 1..];
  }

  lemma WordsPlain(f: Conditional, step: nat)
    ensures '[' !in EventWord(f) && ']' !in T.Decimal(step)
  {
  }

  lemma KeysDiffer(f: Conditional, g: Conditional)
    requires PayloadKey(f) == PayloadKey(g)
    ensures f == g
  {
  }

  /** A missing-field name determines field and step. */
  lemma MissingInjective(f: Conditional, i: nat, g: Conditional, j: nat)
    requires Missing(f, i) == Missing(g, j)
    ensures f == g && i == j
  {
    WordsPlain(f, i);
    WordsPlain(g, j);
    var x, y := T.Decimal(i) + "]" + ("." + PayloadKey(f)), T.Decimal(j) + "]" + ("." + PayloadKey(g));
    FirstBracket(EventWord(f), EventWord(g), x, y);
    FirstClose(T.Decimal(i), T.Decimal(j), "." + PayloadKey(f), "." + PayloadKey(g));
    assert PayloadKey(f) == ("." + PayloadKey(f))[1..] && PayloadKey(g) == ("." + PayloadKey(g))[1..];
    T.DecimalInjective(i, j);
    KeysDiffer(f, g);
  }

  lemma StepLists(step: nat, item: Item, i: nat, f: Conditional)
    ensures Missing(f, i) in StepMissing(step, item) <==> i == step && !Carries(item, f)
  {
    forall g: Conditional
      ensures Missing(f, i) in MissingIf(item, g, step) <==> !Carries(item, g) && g == f && i == step {
      if Missing(f, i) == Missing(g, step) { MissingInjective(f, i, g, step); }
    }
  }

  lemma InEither(n: string, a: seq<string>, b: seq<string>)
    ensures n in a + b <==> n in a || n in b
  {
  }

  lemma MissingStep(history: seq<Item>, k: nat, n: string)
    requires k < |history|
    ensures n in MissingFrom(history, k) <==> n in StepMissing(k, history[k]) || n in MissingFrom(history, k + 1)
  {
    InEither(n, StepMissing(k, history[k]), MissingFrom(history, k + 1));
  }

  /** What holds from `k` on, when it can hold at one position only. */
  lemma {:induction false} OnlyAtOne(from: nat -> bool, k: nat, end: nat, i: nat, here: bool)
    requires k <= end && !from(end)
    requires forall j: nat | j < end :: from(j) <==> (j == i && here) || from(j + 1)
    ensures from(k) <==> k <= i < end && here
    decreases end - k
  {
    if k < end { OnlyAtOne(from, k + 1, end, i, here); }
  }

  lemma StepsList(history: seq<Item>, k: nat, i: nat, f: Conditional)
    requires k <= |history|
    ensures Missing(f, i) in MissingFrom(history, k) <==> k <= i < |history| && !Carries(history[i], f)
  {
    var n, here := Missing(f, i), i < |history| && !Carries(history[i], f);
    var from := (j: nat) => j <= |history| && n in MissingFrom(history, j);
    forall j: nat | j < |history|
      ensures from(j) <==> (j == i && here) || from(j + 1)
    {
      StepLists(j, history[j], i, f);
      MissingStep(history, j, n);
    }
    OnlyAtOne(from, k, |history|, i, here);
  }

  /** No bracket where a step's name has its bracket: behind "plan", "observation" or "belief_state". */
  predicate PlainName(n: string) {
    (|n| > 4 ==> n[4] != '[') && (|n| > 11 ==> n[11] != '[') && (|n| > 12 ==> n[12] != '[')
  }

  predicate Plain(names: seq<string>) {
    forall k | 0 <= k < |names| :: PlainName(names[k])
  }

  lemma PlainObservations()
    ensures Plain(OBSERVATION_MISSING)
  {
    var names := OBSERVATION_MISSING;
    assert PlainName(names[0]) && PlainName(names[1]) && PlainName(names[2]) && PlainName(names[3]);
  }

  lemma FuturesPlain()
    ensures PlainName("predicted_future.structured_action_conditioned_futures")
  {
    assert "predicted_future.structured_action_conditioned_futures"
        == "predicted_future.structured_action" + "_conditioned_futures";
  }

  lemma CriticPlain()
    ensures PlainName("critic_evaluation.structured_per_candidate_scores")
  {
    assert "critic_evaluation.structured_per_candidate_scores"
        == "critic_evaluation" + ".structured_per_candidate_scores";
  }

  lemma PlainPredictions()
    ensures Plain(PREDICTION_MISSING)
  {
    var names := PREDICTION_MISSING;
    FuturesPlain();
    CriticPlain();
    assert PlainName(names[0]) && PlainName(names[1]) && PlainName(names[2]) && PlainName(names[3]);
  }

  lemma PlainActions()
    ensures Plain(ACTION_MISSING)
  {
    var names := ACTION_MISSING;
    assert PlainName(names[0]) && PlainName(names[1]) && PlainName(names[2]) && PlainName(names[3]);
  }

  lemma PlainOutcomes()
    ensures Plain(OUTCOME_MISSING)
  {
    var names := OUTCOME_MISSING;
    assert PlainName(names[0]) && PlainName(names[1]) && PlainName(names[2]) && PlainName(names[3]);
  }

  lemma PlainMetrics()
    ensures Plain(METRIC_MISSING)
  {
    var names := METRIC_MISSING;
    assert PlainName(names[0]) && PlainName(names[1]) && PlainName(names[2]) && PlainName(names[3])
           && PlainName(names[4]) && PlainName(names[5]);
  }

  lemma PlainCalls()
    ensures Plain(CALL_MISSING)
  {
    var names := CALL_MISSING;
    assert PlainName(names[0]) && PlainName(names[1]) && PlainName(names[2]) && PlainName(names[3])
           && PlainName(names[4]) && PlainName(names[5]) && PlainName(names[6]);
  }

  lemma PlainStates()
    ensures Plain(STATE_MISSING)
  {
    var names := STATE_MISSING;
    assert PlainName(names[0]) && PlainName(names[1]) && PlainName(names[2]) && PlainName(names[3])
           && PlainName(names[4]) && PlainName(names[5]);
  }

  lemma PlainWebarena()
    ensures Plain(NO_WEBARENA)
  {
    var names := NO_WEBARENA;
    assert PlainName(names[0]) && PlainName(names[1]) && PlainName(names[2]) && PlainName(names[3]);
  }

  lemma PlainBase()
    ensures Plain(BASE_MISSING) && Plain(NO_WEBARENA)
  {
    PlainObservations();
    PlainPredictions();
    PlainActions();
    PlainOutcomes();
    PlainMetrics();
    PlainCalls();
    PlainStates();
    PlainWebarena();
    PlainConcat(OBSERVATION_MISSING, PREDICTION_MISSING);
    PlainConcat(OBSERVATION_MISSING + PREDICTION_MISSING, ACTION_MISSING);
    PlainConcat(OBSERVATION_MISSING + PREDICTION_MISSING + ACTION_MISSING, OUTCOME_MISSING);
    PlainConcat(OBSERVATION_MISSING + PREDICTION_MISSING + ACTION_MISSING + OUTCOME_MISSING, METRIC_MISSING);
    PlainConcat(OBSERVATION_MISSING + PREDICTION_MISSING + ACTION_MISSING + OUTCOME_MISSING + METRIC_MISSING,
                CALL_MISSING);
    PlainConcat(OBSERVATION_MISSING + PREDICTION_MISSING + ACTION_MISSING + OUTCOME_MISSING + METRIC_MISSING
                + CALL_MISSING, STATE_MISSING);
  }

  lemma PlainConcat(a: seq<string>, b: seq<string>)
    requires Plain(a) && Plain(b)
    ensures Plain(a + b)
  {
  }

  lemma NotPlain(names: seq<string>, f: Conditional, step: nat)
    requires Plain(names)
    ensures Missing(f, step) !in names
  {
    assert Missing(f, step)[|EventWord(f)|] == '[';
    assert |EventWord(f)| == 4 || |EventWord(f)| == 11 || |EventWord(f)| == 12;
    assert !PlainName(Missing(f, step));
  }

  lemma ListedExactly(s: Session, webarena: bool, i: nat, f: Conditional)
    requires i < |s.history|
    ensures Missing(f, i) in Listed(s, webarena) <==> !Carries(s.history[i], f)
  {
    PlainBase();
    NotPlain(BASE_MISSING, f, i);
    NotPlain(if webarena then [] else NO_WEBARENA, f, i);
    StepsList(s.history, 0, i, f);
    InEither(Missing(f, i), BASE_MISSING, MissingFrom(s.history, 0));
    InEither(Missing(f, i), BASE_MISSING + MissingFrom(s.history, 0), if webarena then [] else NO_WEBARENA);
  }

  /** For every step and conditional field: emitted with the trace's value, or listed unavailable, and never both. */
  lemma EmittedOrListed(contracts: Contracts, s: Session, webarena: bool, i: nat, f: Conditional)
    requires i < |s.history|
    ensures var n := Normalize(contracts, s, webarena);
            ValueOf(n.events, i, f).Some? <==> Missing(f, i) !in n.missing
  {
    EventsCarryTheTrace(contracts, s, webarena, i, f);
    ListedExactly(s, webarena, i, f);
  }

  /** No listed name belongs to a step the trace does not have. */
  lemma NothingElseListed(contracts: Contracts, s: Session, webarena: bool, i: nat, f: Conditional)
    requires i >= |s.history|
    ensures Missing(f, i) !in Normalize(contracts, s, webarena).missing
  {
    PlainBase();
    NotPlain(BASE_MISSING, f, i);
    NotPlain(if webarena then [] else NO_WEBARENA, f, i);
    StepsList(s.history, 0, i, f);
    InEither(Missing(f, i), BASE_MISSING, MissingFrom(s.history, 0));
    InEither(Missing(f, i), BASE_MISSING + MissingFrom(s.history, 0), if webarena then [] else NO_WEBARENA);
  }

  // ------------------------------------------------------------ no repeats

  lemma {:induction false} FirstOccurrencesDistinct(names: seq<string>, i: nat, j: nat)
    requires i < j < |FirstOccurrences(names)|
    ensures FirstOccurrences(names)[i] != FirstOccurrences(names)[j]
    decreases |names|
  {
    var front := FirstOccurrences(names[..|names| - 1]);
    if j < |front| { FirstOccurrencesDistinct(names[..|names| - 1], i, j); }
  }

  /** The list of unavailable fields has no duplicates. */
  lemma MissingDistinct(contracts: Contracts, s: Session, webarena: bool)
    ensures Distinct(Normalize(contracts, s, webarena).missing)
  {
    var missing := Normalize(contracts, s, webarena).missing;
    forall i, j | 0 <= i < j < |missing|
      ensures missing[i] != missing[j]
    {
      FirstOccurrencesDistinct(Listed(s, webarena), i, j);
    }
  }

  // ------------------------------------------------------------ plan events

  predicate TwoEqualTexts(e: TraceEvent) {
    && Get(e.payload, PayloadKey(PlanText)).Str?
    && Get(e.payload, PayloadKey(PlanText)) == Get(e.payload, PayloadKey(Alias))
  }

  lemma StepPlans(contracts: Contracts, step: nat, item: Item, e: TraceEvent)
    requires Get(item.info, "plan") == Get(item.info, "intent")
    requires e in StepEvents(contracts, step, item) && e.eventType == E.Plan
    ensures TwoEqualTexts(e)
  {
    assert e in PlanEvents(contracts, step, item);
    var values := PlanValues(step, item);
    PayloadReads(contracts, E.Plan, values, Some(step), PayloadKey(PlanText));
    PayloadReads(contracts, E.Plan, values, Some(step), PayloadKey(Alias));
  }

  lemma {:induction false} PlansFrom(contracts: Contracts, history: seq<Item>, k: nat, e: TraceEvent)
    requires k <= |history| && forall i | 0 <= i < |history| ::
             Get(history[i].info, "plan") == Get(history[i].info, "intent")
    requires e in EventsFrom(contracts, history, k) && e.eventType == E.Plan
    ensures TwoEqualTexts(e)
    decreases |history| - k
  {
    if e in StepEvents(contracts, k, history[k]) {
      StepPlans(contracts, k, history[k], e);
    } else {
      PlansFrom(contracts, history, k + 1, e);
    }
  }

  /** Every plan event of a reconciled trace carries two equal texts. */
  lemma PlanTextsAgree(contracts: Contracts, expected: Expected, s: Session, webarena: bool, e: TraceEvent)
    requires Reconciled(expected, s)
    requires e in Normalize(contracts, s, webarena).events && e.eventType == E.Plan
    ensures TwoEqualTexts(e)
  {
    forall i | 0 <= i < |s.history| ensures Get(s.history[i].info, "plan") == Get(s.history[i].info, "intent") {
      assert ReconciledAt(expected.goal, s.history, i);
    }
    if e in OutcomeEvents(contracts, s, webarena) { OutcomeTypes(contracts, s, webarena, e); }
    PlansFrom(contracts, s.history, 0, e);
  }

  /** Every accepted trace meets what normalisation needs: nothing can stop it. */
  lemma AcceptedTracesNormalize(blank: string -> bool, d: Fields, expected: Expected, s: Session)
    requires Validated(blank, d, s) && Reconciled(expected, s)
    ensures expected.webarenaInstance.Some? ==> s.rewards.Some? && s.testResult.Some?
    ensures forall item | item in s.history :: InfoOk(item.info)
  {
    forall item | item in s.history ensures InfoOk(item.info) {
      var i :| 0 <= i < |s.history| && s.history[i] == item;
      ItemRoundTrip(d["history"].items[i]);
    }
  }
}
