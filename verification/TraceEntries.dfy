/** What normalisation emits and lists, entry by entry, under the names the adapter writes. */
module TraceEntries {
  import opened Common
  import opened Json
  import opened TraceSessions
  import opened TraceNormalization
  import opened TraceTheorems
  import T = TaskSources
  import E = Events

  // ---------------------------------------------------------- the step events

  function TextOf(v: Value): Value {
    if v.Str? then v else Null
  }

  function MappingOf(v: Value): Value {
    if v.Obj? then v else Null
  }

  /** What the observation of a step says under a key. */
  function ObservationSays(item: Item, i: nat, key: string): Value {
    if key == "step_index" then Int(i)
    else if key == "raw_observation" then Obj(item.observation)
    else if key == "processed_observation" then TextOf(Get(item.info, "obs"))
    else if key == "observation_info" then MappingOf(Get(item.info, "obs_info"))
    else Null
  }

  function BeliefSays(item: Item, i: nat, key: string): Value {
    if key == "step_index" then Int(i)
    else if key == "upstream_state" then Get(item.info, "state")
    else if key == "semantic_caveat" then
      Str("upstream natural-language encoder state; not calibrated belief, uncertainty, world-model accuracy, or GIC state")
    else Null
  }

  function PlanSays(item: Item, i: nat, key: string): Value {
    if key == "step_index" then Int(i)
    else if key == "selected_plan_text" then TextOf(Get(item.info, "plan"))
    else if key == "upstream_policy_output_alias" then TextOf(Get(item.info, "intent"))
    else Null
  }

  function ActionSays(item: Item, i: nat, key: string): Value {
    if key == "step_index" then Int(i)
    else if key == "requested_action" then Str(item.action)
    else if key == "duplicate_step_action" then Get(item.info, "action")
    else Null
  }

  /**
   What the events of one type say of one step: the belief only when there is a state, the plan when there is
   text.
   */
  function StepSays(item: Item, i: nat, t: E.EventType, key: string): seq<Value> {
    match t
    case Observation => [ObservationSays(item, i, key)]
    case BeliefState => if Get(item.info, "state").Str? then [BeliefSays(item, i, key)] else []
    case Plan =>
      if Get(item.info, "plan").Str? || Get(item.info, "intent").Str? then [PlanSays(item, i, key)] else []
    case ExecutedAction => [ActionSays(item, i, key)]
    case _ => []
  }

  function StepsSay(history: seq<Item>, k: nat, t: E.EventType, key: string): seq<Value>
    requires k <= |history|
    decreases |history| - k
  {
    if k == |history| then [] else StepSays(history[k], k, t, key) + StepsSay(history, k + 1, t, key)
  }

  lemma ObservationReads(item: Item, i: nat, key: string)
    ensures Get(ObservationValues(i, item), key) == ObservationSays(item, i, key)
  {
  }

  lemma BeliefReads(item: Item, i: nat, key: string)
    requires Carries(item, State)
    ensures Get(map["step_index" := Int(i), "upstream_state" := item.info["state"], "semantic_caveat" := Str(CAVEAT)],
                key)
         == BeliefSays(item, i, key)
  {
  }

  lemma PlanReads(item: Item, i: nat, key: string)
    ensures Get(PlanValues(i, item), key) == PlanSays(item, i, key)
  {
  }

  lemma ActionReads(item: Item, i: nat, key: string)
    ensures Get(ActionValues(i, item), key) == ActionSays(item, i, key)
  {
  }

  lemma BeliefCollected(contracts: Contracts, i: nat, item: Item, t: E.EventType, key: string)
    requires key != CONTRACTS_KEY
    ensures Collect(BeliefEvents(contracts, i, item), t, key)
         == if t == E.BeliefState && Get(item.info, "state").Str? then [BeliefSays(item, i, key)] else []
  {
    if Carries(item, State) {
      var values :=
        map["step_index" := Int(i), "upstream_state" := item.info["state"], "semantic_caveat" := Str(CAVEAT)];
      CollectOne(Event(contracts, E.BeliefState, values, Some(i)), t, key);
      PayloadReads(contracts, E.BeliefState, values, Some(i), key);
      BeliefReads(item, i, key);
    }
  }

  lemma PlanCollected(contracts: Contracts, i: nat, item: Item, t: E.EventType, key: string)
    requires key != CONTRACTS_KEY
    ensures Collect(PlanEvents(contracts, i, item), t, key)
         == if t == E.Plan && (Get(item.info, "plan").Str? || Get(item.info, "intent").Str?)
            then [PlanSays(item, i, key)] else []
  {
    if Carries(item, PlanText) || Carries(item, Alias) {
      CollectOne(Event(contracts, E.Plan, PlanValues(i, item), Some(i)), t, key);
      PayloadReads(contracts, E.Plan, PlanValues(i, item), Some(i), key);
      PlanReads(item, i, key);
    }
  }

  lemma OneCollected(contracts: Contracts, of: E.EventType, values: Fields, step: Option<nat>, t: E.EventType,
                     key: string)
    requires key != CONTRACTS_KEY
    ensures Collect([Event(contracts, of, values, step)], t, key) == if t == of then [Get(values, key)] else []
  {
    CollectOne(Event(contracts, of, values, step), t, key);
    PayloadReads(contracts, of, values, step, key);
  }

  lemma FourCollected(a: seq<TraceEvent>, b: seq<TraceEvent>, c: seq<TraceEvent>, d: seq<TraceEvent>,
                      t: E.EventType, key: string)
    ensures Collect(a + (b + (c + d)), t, key)
         == Collect(a, t, key) + (Collect(b, t, key) + (Collect(c, t, key) + Collect(d, t, key)))
  {
    CollectConcat(a, b + (c + d), t, key);
    CollectConcat(b, c + d, t, key);
    CollectConcat(c, d, t, key);
  }

  /** One of the four says something about an event type; the others are silent. */
  function FourSay(item: Item, i: nat, t: E.EventType, key: string): seq<Value> {
    (if t == E.Observation then [ObservationSays(item, i, key)] else [])
    + ((if t == E.BeliefState && Get(item.info, "state").Str? then [BeliefSays(item, i, key)] else [])
       + ((if t == E.Plan && (Get(item.info, "plan").Str? || Get(item.info, "intent").Str?)
           then [PlanSays(item, i, key)] else [])
          + (if t == E.ExecutedAction then [ActionSays(item, i, key)] else [])))
  }

  lemma FourSayOne(item: Item, i: nat, t: E.EventType, key: string)
    ensures FourSay(item, i, t, key) == StepSays(item, i, t, key)
  {
  }

  lemma StepCollected(contracts: Contracts, i: nat, item: Item, t: E.EventType, key: string)
    requires key != CONTRACTS_KEY
    ensures Collect(StepEvents(contracts, i, item), t, key) == StepSays(item, i, t, key)
  {
    OneCollected(contracts, E.Observation, ObservationValues(i, item), Some(i), t, key);
    BeliefCollected(contracts, i, item, t, key);
    PlanCollected(contracts, i, item, t, key);
    OneCollected(contracts, E.ExecutedAction, ActionValues(i, item), Some(i), t, key);
    ObservationReads(item, i, key);
    ActionReads(item, i, key);
    FourCollected([Event(contracts, E.Observation, ObservationValues(i, item), Some(i))],
                  BeliefEvents(contracts, i, item), PlanEvents(contracts, i, item),
                  [Event(contracts, E.ExecutedAction, ActionValues(i, item), Some(i))], t, key);
    FourSayOne(item, i, t, key);
  }

  lemma {:induction false} StepsCollected(contracts: Contracts, history: seq<Item>, k: nat, t: E.EventType, key: string)
    requires k <= |history| && key != CONTRACTS_KEY
    ensures Collect(EventsFrom(contracts, history, k), t, key) == StepsSay(history, k, t, key)
    decreases |history| - k
  {
    if k < |history| {
      StepsCollected(contracts, history, k + 1, t, key);
      StepCollected(contracts, k, history[k], t, key);
      CollectConcat(StepEvents(contracts, k, history[k]), EventsFrom(contracts, history, k + 1), t, key);
    }
  }

  // -------------------------------------------------------------- the outcome

  /** What the one outcome says under a key. */
  function OutcomeSays(s: Session, webarena: bool, key: string): Value
    requires webarena ==> s.rewards.Some? && s.testResult.Some?
  {
    if key == "source_is_complete" then Bool(s.isComplete)
    else if key == "source_error" then Str(s.error)
    else if key == "webarena_rewards" && webarena then Arr(s.rewards.value)
    else if key == "webarena_test_result" && webarena then s.testResult.value
    else Null
  }

  /** What the metrics say, the rewards first and the test result behind them. */
  function MetricsSay(s: Session, webarena: bool, key: string): seq<Value>
    requires webarena ==> s.rewards.Some? && s.testResult.Some?
  {
    if !webarena then []
    else [if key == "webarena_rewards" then Arr(s.rewards.value) else Null,
          if key == "webarena_test_result" then s.testResult.value else Null]
  }

  lemma OutcomeKeyReads(s: Session, webarena: bool, key: string)
    requires webarena ==> s.rewards.Some? && s.testResult.Some?
    ensures Get(OutcomeValues(s, webarena), key) == OutcomeSays(s, webarena, key)
  {
  }

  lemma OutcomeCollected(contracts: Contracts, s: Session, webarena: bool, t: E.EventType, key: string)
    requires key != CONTRACTS_KEY && (webarena ==> s.rewards.Some? && s.testResult.Some?)
    ensures Collect(OutcomeEvents(contracts, s, webarena), t, key)
         == if t == E.Outcome then [OutcomeSays(s, webarena, key)]
            else if t == E.Metric then MetricsSay(s, webarena, key) else []
  {
    var first := [Event(contracts, E.Outcome, OutcomeValues(s, webarena), None)];
    OneCollected(contracts, E.Outcome, OutcomeValues(s, webarena), None, t, key);
    OutcomeKeyReads(s, webarena, key);
    if webarena {
      var rewards, result := map["webarena_rewards" := Arr(s.rewards.value)],
                             map["webarena_test_result" := s.testResult.value];
      var a, b := [Event(contracts, E.Metric, rewards, None)], [Event(contracts, E.Metric, result, None)];
      OneCollected(contracts, E.Metric, rewards, None, t, key);
      OneCollected(contracts, E.Metric, result, None, t, key);
      CollectConcat(a, b, t, key);
      CollectConcat(first, a + b, t, key);
    } else {
      AppendNothing(first);
    }
  }

  /**
   Every entry of a normalised trace, by type and key: the steps in order, each saying what the trace has there, and
   behind them the outcome and for WebArena its two metrics.
   */
  lemma EntriesByName(contracts: Contracts, s: Session, webarena: bool, t: E.EventType, key: string)
    requires key != "field_contracts" && (webarena ==> s.rewards.Some? && s.testResult.Some?)
    ensures Collect(Normalize(contracts, s, webarena).events, t, key)
         == if t == E.Outcome then [OutcomeSays(s, webarena, key)]
            else if t == E.Metric then MetricsSay(s, webarena, key)
            else StepsSay(s.history, 0, t, key)
  {
    StepsCollected(contracts, s.history, 0, t, key);
    OutcomeCollected(contracts, s, webarena, t, key);
    CollectConcat(EventsFrom(contracts, s.history, 0), OutcomeEvents(contracts, s, webarena), t, key);
    if t == E.Outcome || t == E.Metric {
      StepsSilent(s.history, 0, t, key);
      PrependNothing(Collect(OutcomeEvents(contracts, s, webarena), t, key));
    } else {
      AppendNothing(StepsSay(s.history, 0, t, key));
    }
  }

  lemma {:induction false} StepsSilent(history: seq<Item>, k: nat, t: E.EventType, key: string)
    requires k <= |history| && (t == E.Outcome || t == E.Metric)
    ensures StepsSay(history, k, t, key) == []
    decreases |history| - k
  {
    if k < |history| { StepsSilent(history, k + 1, t, key); }
  }

  // ----------------------------------------------------- the field contracts

  /** Every value of a payload stands beside the locked contract of its field, at its step. */
  predicate ContractsBeside(contracts: Contracts, e: TraceEvent, step: Option<nat>) {
    && Get(e.payload, "field_contracts").Obj?
    && Get(e.payload, "field_contracts").fields.Keys == e.payload.Keys - {"field_contracts"}
    && forall field | field in e.payload && field != "field_contracts" ::
         Get(Get(e.payload, "field_contracts").fields, field) == contracts(e.eventType, field, step)
  }

  lemma EventContracts(contracts: Contracts, t: E.EventType, values: Fields, step: Option<nat>)
    requires "field_contracts" !in values
    ensures ContractsBeside(contracts, Event(contracts, t, values, step), step)
  {
    var e := Event(contracts, t, values, step);
    assert e.payload.Keys == values.Keys + {"field_contracts"};
  }

  lemma AmongFour<V>(e: V, a: V, b: seq<V>, c: seq<V>, d: V)
    requires e in [a] + b + c + [d]
    ensures e == a || e in b || e in c || e == d
  {
  }

  lemma BeliefContracts(contracts: Contracts, i: nat, item: Item, e: TraceEvent)
    requires e in BeliefEvents(contracts, i, item)
    ensures ContractsBeside(contracts, e, Some(i)) && Get(e.payload, "step_index") == Int(i)
  {
    var values := map["step_index" := Int(i), "upstream_state" := item.info["state"], "semantic_caveat" := Str(CAVEAT)];
    EventContracts(contracts, E.BeliefState, values, Some(i));
    PayloadReads(contracts, E.BeliefState, values, Some(i), "step_index");
  }

  lemma StepContracts(contracts: Contracts, i: nat, item: Item, e: TraceEvent)
    requires e in StepEvents(contracts, i, item)
    ensures ContractsBeside(contracts, e, Some(i)) && Get(e.payload, "step_index") == Int(i)
  {
    var a := Event(contracts, E.Observation, ObservationValues(i, item), Some(i));
    var d := Event(contracts, E.ExecutedAction, ActionValues(i, item), Some(i));
    StepAssembled(contracts, i, item);
    AmongFour(e, a, BeliefEvents(contracts, i, item), PlanEvents(contracts, i, item), d);
    StepIndexes(contracts, i, item);
    if e in BeliefEvents(contracts, i, item) {
      BeliefContracts(contracts, i, item, e);
    } else {
      EventContracts(contracts, E.Observation, ObservationValues(i, item), Some(i));
      EventContracts(contracts, E.Plan, PlanValues(i, item), Some(i));
      EventContracts(contracts, E.ExecutedAction, ActionValues(i, item), Some(i));
    }
  }

  lemma StepIndexes(contracts: Contracts, i: nat, item: Item)
    ensures Get(Event(contracts, E.Observation, ObservationValues(i, item), Some(i)).payload, "step_index") == Int(i)
    ensures Get(Event(contracts, E.Plan, PlanValues(i, item), Some(i)).payload, "step_index") == Int(i)
    ensures Get(Event(contracts, E.ExecutedAction, ActionValues(i, item), Some(i)).payload, "step_index") == Int(i)
  {
    ObservationReads(item, i, "step_index");
    PlanReads(item, i, "step_index");
    ActionReads(item, i, "step_index");
    PayloadReads(contracts, E.Observation, ObservationValues(i, item), Some(i), "step_index");
    PayloadReads(contracts, E.Plan, PlanValues(i, item), Some(i), "step_index");
    PayloadReads(contracts, E.ExecutedAction, ActionValues(i, item), Some(i), "step_index");
  }

  lemma {:induction false} StepsContracts(contracts: Contracts, history: seq<Item>, k: nat, e: TraceEvent)
    requires k <= |history| && e in EventsFrom(contracts, history, k)
    ensures exists i: nat :: i < |history| && ContractsBeside(contracts, e, Some(i))
                             && Get(e.payload, "step_index") == Int(i)
    decreases |history| - k
  {
    if e in StepEvents(contracts, k, history[k]) {
      StepContracts(contracts, k, history[k], e);
    } else {
      StepsContracts(contracts, history, k + 1, e);
    }
  }

  lemma OutcomeContracts(contracts: Contracts, s: Session, webarena: bool, e: TraceEvent)
    requires e in OutcomeEvents(contracts, s, webarena)
    ensures ContractsBeside(contracts, e, None)
  {
    EventContracts(contracts, E.Outcome, OutcomeValues(s, webarena), None);
    if webarena && s.rewards.Some? && s.testResult.Some? {
      EventContracts(contracts, E.Metric, map["webarena_rewards" := Arr(s.rewards.value)], None);
      EventContracts(contracts, E.Metric, map["webarena_test_result" := s.testResult.value], None);
    }
  }

  /** Every emitted value has its contract beside it: a step's at that step, the outcome's at none. */
  lemma EveryFieldHasItsContract(contracts: Contracts, s: Session, webarena: bool, e: TraceEvent)
    requires e in Normalize(contracts, s, webarena).events
    ensures if e.eventType == E.Outcome || e.eventType == E.Metric then ContractsBeside(contracts, e, None)
            else exists i: nat :: i < |s.history| && ContractsBeside(contracts, e, Some(i))
                                  && Get(e.payload, "step_index") == Int(i)
  {
    if e in EventsFrom(contracts, s.history, 0) {
      StepsContracts(contracts, s.history, 0, e);
      StepsTypes(contracts, s.history, 0, e);
    } else {
      OutcomeTypes(contracts, s, webarena, e);
      OutcomeContracts(contracts, s, webarena, e);
    }
  }

  // ---------------------------------------------------- what is listed missing

  function StepName(event: string, i: nat, field: string): string {
    event + "[" + T.Decimal(i) + "]." + field
  }

  /** A step does not say this: the name its missing field is listed under. */
  predicate StepLacks(item: Item, i: nat, n: string) {
    || (n == StepName("observation", i, "processed_observation") && !Get(item.info, "obs").Str?)
    || (n == StepName("observation", i, "observation_info") && !Get(item.info, "obs_info").Obj?)
    || (n == StepName("belief_state", i, "upstream_state") && !Get(item.info, "state").Str?)
    || (n == StepName("plan", i, "selected_plan_text") && !Get(item.info, "plan").Str?)
    || (n == StepName("plan", i, "upstream_policy_output_alias") && !Get(item.info, "intent").Str?)
  }

  predicate WebArenaName(n: string) {
    || n == "outcome.webarena_rewards" || n == "outcome.webarena_test_result"
    || n == "metric.webarena_rewards" || n == "metric.webarena_test_result"
  }

  lemma MissingIsStepName(f: Conditional, i: nat)
    ensures Missing(f, i) == StepName(EventWord(f), i, PayloadKey(f))
  {
    var d, key := T.Decimal(i), PayloadKey(f);
    SameName(EventWord(f), d, key);
  }

  lemma SameName(event: string, d: string, key: string)
    ensures event + "[" + (d + "]" + ("." + key)) == event + "[" + d + "]." + key
  {
    assert "]." == "]" + ".";
  }

  lemma StepMissingMeans(item: Item, i: nat, n: string)
    ensures n in StepMissing(i, item) <==> StepLacks(item, i, n)
  {
    MissingIsStepName(Processed, i);
    MissingIsStepName(Info, i);
    MissingIsStepName(State, i);
    MissingIsStepName(PlanText, i);
    MissingIsStepName(Alias, i);
    FiveLists(n, MissingIf(item, Processed, i), MissingIf(item, Info, i), MissingIf(item, State, i),
              MissingIf(item, PlanText, i), MissingIf(item, Alias, i));
  }

  lemma FiveLists(n: string, a: seq<string>, b: seq<string>, c: seq<string>, d: seq<string>, e: seq<string>)
    ensures n in a + b + c + d + e <==> n in a || n in b || n in c || n in d || n in e
  {
  }

  /** What holds from `k` on, when it holds where it holds at some position behind. */
  lemma {:induction false} SomeFrom(from: nat -> bool, at: nat -> bool, k: nat, end: nat)
    requires k <= end && !from(end)
    requires forall j: nat | j < end :: from(j) <==> at(j) || from(j + 1)
    ensures from(k) <==> exists i: nat :: k <= i < end && at(i)
    decreases end - k
  {
    if k < end { SomeFrom(from, at, k + 1, end); }
  }

  function ListedFrom(history: seq<Item>, n: string): nat -> bool {
    (j: nat) => j <= |history| && n in MissingFrom(history, j)
  }

  lemma ListedFromNext(history: seq<Item>, n: string, at: nat -> bool, j: nat)
    requires j < |history| && (at(j) <==> n in StepMissing(j, history[j]))
    ensures ListedFrom(history, n)(j) <==> at(j) || ListedFrom(history, n)(j + 1)
  {
    MissingStep(history, j, n);
  }

  lemma ListedFromEnds(history: seq<Item>, n: string)
    ensures !ListedFrom(history, n)(|history|) && (ListedFrom(history, n)(0) <==> n in MissingFrom(history, 0))
  {
  }

  lemma {:induction false} MissingFromSome(history: seq<Item>, n: string, at: nat -> bool)
    requires forall j: nat | j < |history| :: at(j) <==> n in StepMissing(j, history[j])
    ensures n in MissingFrom(history, 0) <==> exists i: nat :: i < |history| && at(i)
  {
    var from := ListedFrom(history, n);
    forall j: nat | j < |history|
      ensures from(j) <==> at(j) || from(j + 1)
    {
      ListedFromNext(history, n, at, j);
    }
    ListedFromEnds(history, n);
    SomeFrom(from, at, 0, |history|);
  }

  function Lacks(history: seq<Item>, n: string): nat -> bool {
    (i: nat) => i < |history| && StepLacks(history[i], i, n)
  }

  lemma MissingFromMeans(history: seq<Item>, n: string)
    ensures n in MissingFrom(history, 0) <==> exists i: nat :: i < |history| && StepLacks(history[i], i, n)
  {
    forall j: nat | j < |history|
      ensures Lacks(history, n)(j) <==> n in StepMissing(j, history[j])
    {
      StepMissingMeans(history[j], j, n);
    }
    MissingFromSome(history, n, Lacks(history, n));
    LacksMeans(history, n);
  }

  lemma LacksMeans(history: seq<Item>, n: string)
    ensures (exists i: nat :: i < |history| && Lacks(history, n)(i))
       <==> exists i: nat :: i < |history| && StepLacks(history[i], i, n)
  {
    if i: nat :| i < |history| && StepLacks(history[i], i, n) { assert Lacks(history, n)(i); }
  }

  lemma WebArenaNames(n: string)
    ensures n in NO_WEBARENA <==> WebArenaName(n)
  {
    assert NO_WEBARENA[0] in NO_WEBARENA && NO_WEBARENA[1] in NO_WEBARENA && NO_WEBARENA[2] in NO_WEBARENA
        && NO_WEBARENA[3] in NO_WEBARENA;
  }

  /**
   What is listed as unavailable, name by name: what no trace of this source says, what some step does not say, and
   the four WebArena names exactly when the trace is not one.
   */
  lemma MissingByName(contracts: Contracts, s: Session, webarena: bool, n: string)
    ensures n in Normalize(contracts, s, webarena).missing <==>
              || n in BASE_MISSING
              || (exists i: nat :: i < |s.history| && StepLacks(s.history[i], i, n))
              || (WebArenaName(n) && !webarena)
  {
    MissingFromMeans(s.history, n);
    WebArenaNames(n);
    InEither(n, BASE_MISSING, MissingFrom(s.history, 0));
    InEither(n, BASE_MISSING + MissingFrom(s.history, 0), if webarena then [] else NO_WEBARENA);
  }

  /** Told from the base names by length, and from those of the same length by the first letter. */
  predicate NotWebArena(n: string) {
    (|n| != 23 && |n| != 24 && |n| != 27 && |n| != 28) || (n[0] != 'm' && n[0] != 'o')
  }

  predicate NoneWebArena(names: seq<string>) {
    forall k | 0 <= k < |names| :: NotWebArena(names[k])
  }

  lemma WebArenaTold(n: string)
    requires WebArenaName(n)
    ensures !NotWebArena(n)
  {
    assert |"outcome.webarena_rewards"| == 24 && |"outcome.webarena_test_result"| == 28;
    assert |"metric.webarena_rewards"| == 23 && |"metric.webarena_test_result"| == 27;
    assert "outcome.webarena_rewards"[0] == 'o' && "outcome.webarena_test_result"[0] == 'o';
    assert "metric.webarena_rewards"[0] == 'm' && "metric.webarena_test_result"[0] == 'm';
  }

  lemma NoneConcat(a: seq<string>, b: seq<string>)
    requires NoneWebArena(a) && NoneWebArena(b)
    ensures NoneWebArena(a + b)
  {
  }

  lemma NoneInFour(names: seq<string>)
    requires |names| == 4 && NotWebArena(names[0]) && NotWebArena(names[1]) && NotWebArena(names[2])
    requires NotWebArena(names[3])
    ensures NoneWebArena(names)
  {
  }

  lemma NoneInObservations()
    ensures NoneWebArena(OBSERVATION_MISSING)
  {
    NoneInFour(OBSERVATION_MISSING);
  }

  lemma NoneInPredictions()
    ensures NoneWebArena(PREDICTION_MISSING)
  {
    NoneInFour(PREDICTION_MISSING);
  }

  lemma NoneInActions()
    ensures NoneWebArena(ACTION_MISSING)
  {
    NoneInFour(ACTION_MISSING);
  }

  lemma NoneInOutcomes()
    ensures NoneWebArena(OUTCOME_MISSING)
  {
    NoneInFour(OUTCOME_MISSING);
  }

  lemma NoneInMetrics()
    ensures NoneWebArena(METRIC_MISSING)
  {
    var names := METRIC_MISSING;
    assert NotWebArena(names[0]) && NotWebArena(names[1]) && NotWebArena(names[2]) && NotWebArena(names[3])
        && NotWebArena(names[4]) && NotWebArena(names[5]);
  }

  lemma NoneInCalls()
    ensures NoneWebArena(CALL_MISSING)
  {
    var names := CALL_MISSING;
    assert NotWebArena(names[0]) && NotWebArena(names[1]) && NotWebArena(names[2]) && NotWebArena(names[3])
        && NotWebArena(names[4]) && NotWebArena(names[5]) && NotWebArena(names[6]);
  }

  lemma NoneInStates()
    ensures NoneWebArena(STATE_MISSING)
  {
    var names := STATE_MISSING;
    assert NotWebArena(names[0]) && NotWebArena(names[1]) && NotWebArena(names[2]) && NotWebArena(names[3])
        && NotWebArena(names[4]) && NotWebArena(names[5]);
  }

  lemma NoneInBase()
    ensures NoneWebArena(BASE_MISSING)
  {
    var a, b, c, d := OBSERVATION_MISSING, PREDICTION_MISSING, ACTION_MISSING, OUTCOME_MISSING;
    NoneInObservations();
    NoneInPredictions();
    NoneInActions();
    NoneInOutcomes();
    NoneInMetrics();
    NoneInCalls();
    NoneInStates();
    NoneConcat(a, b);
    NoneConcat(a + b, c);
    NoneConcat(a + b + c, d);
    NoneConcat(a + b + c + d, METRIC_MISSING);
    NoneConcat(a + b + c + d + METRIC_MISSING, CALL_MISSING);
    NoneConcat(a + b + c + d + METRIC_MISSING + CALL_MISSING, STATE_MISSING);
  }

  lemma StepLacksNoWebArena(item: Item, i: nat, n: string)
    requires WebArenaName(n)
    ensures !StepLacks(item, i, n)
  {
    WebArenaNames(n);
    PlainWebarena();
    NotPlain(NO_WEBARENA, Processed, i);
    NotPlain(NO_WEBARENA, Info, i);
    NotPlain(NO_WEBARENA, State, i);
    NotPlain(NO_WEBARENA, PlanText, i);
    NotPlain(NO_WEBARENA, Alias, i);
    MissingIsStepName(Processed, i);
    MissingIsStepName(Info, i);
    MissingIsStepName(State, i);
    MissingIsStepName(PlanText, i);
    MissingIsStepName(Alias, i);
  }

  /** The four WebArena names are listed exactly for traces that are not WebArena's; the others always are. */
  lemma WebArenaListedExactly(contracts: Contracts, s: Session, webarena: bool, n: string)
    ensures WebArenaName(n) ==> (n in Normalize(contracts, s, webarena).missing <==> !webarena)
    ensures n in BASE_MISSING ==> n in Normalize(contracts, s, webarena).missing
  {
    MissingByName(contracts, s, webarena, n);
    if WebArenaName(n) {
      WebArenaTold(n);
      NoneInBase();
      forall i: nat | i < |s.history| ensures !StepLacks(s.history[i], i, n) {
        StepLacksNoWebArena(s.history[i], i, n);
      }
    }
  }

  /** How many names no trace of this source says. */
  lemma BaseNames()
    ensures |BASE_MISSING| == 35
  {
  }
}
