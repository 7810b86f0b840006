/** Normalisation of a reconciled trace into scientific events and a list of what the trace does not say. */
module TraceNormalization {
  import opened Common
  import opened Json
  import opened TraceSessions
  import T = TaskSources
  import E = Events

  datatype TraceEvent = TraceEvent(eventType: E.EventType, payload: Fields)

  /** The locked contract of one payload field, by event name, field and step. */
  type Contracts = (E.EventType, string, Option<nat>) -> Value

  const CONTRACTS_KEY := "field_contracts"

  function WithContracts(contracts: Contracts, t: E.EventType, values: Fields, step: Option<nat>): Fields {
    values[CONTRACTS_KEY := Obj(map field | field in values :: contracts(t, field, step))]
  }

  function Event(contracts: Contracts, t: E.EventType, values: Fields, step: Option<nat>): TraceEvent {
    TraceEvent(t, WithContracts(contracts, t, values, step))
  }

  // ---------------------------------------------------- conditional fields

  /** The fields a step emits only when the trace carries them. */
  datatype Conditional = Processed | Info | State | PlanText | Alias

  function SourceKey(f: Conditional): string {
    match f
    case Processed => "obs" case Info => "obs_info" case State => "state" case PlanText => "plan" case Alias => "intent"
  }

  function PayloadKey(f: Conditional): string {
    match f
    case Processed => "processed_observation" case Info => "observation_info" case State => "upstream_state"
    case PlanText => "selected_plan_text" case Alias => "upstream_policy_output_alias"
  }

  function EventOf(f: Conditional): E.EventType {
    match f
    case Processed => E.Observation case Info => E.Observation case State => E.BeliefState
    case PlanText => E.Plan case Alias => E.Plan
  }

  function EventWord(f: Conditional): string {
    match f
    case Processed => "observation" case Info => "observation" case State => "belief_state"
    case PlanText => "plan" case Alias => "plan"
  }

  /** The trace carries the field: text, or for the observation info a mapping. */
  predicate Carries(item: Item, f: Conditional) {
    var v := Get(item.info, SourceKey(f));
    if f.Info? then v.Obj? else v.Str?
  }

  /** `observation[3].processed_observation` and the like. */
  function Missing(f: Conditional, step: nat): string {
    EventWord(f) + "[" + (T.Decimal(step) + "]" + ("." + PayloadKey(f)))
  }

  // ------------------------------------------------------- one step's events

  function ObservationValues(step: nat, item: Item): Fields {
    var base := map["step_index" := Int(step), "raw_observation" := Obj(item.observation)];
    var one := if Carries(item, Processed) then base[PayloadKey(Processed) := item.info["obs"]] else base;
    if Carries(item, Info) then one[PayloadKey(Info) := item.info["obs_info"]] else one
  }

  const CAVEAT :=
    "upstream natural-language encoder state; not calibrated belief, uncertainty, world-model accuracy, or GIC state"

  function BeliefEvents(contracts: Contracts, step: nat, item: Item): seq<TraceEvent> {
    if Carries(item, State) then
      [Event(contracts, E.BeliefState,
             map["step_index" := Int(step), "upstream_state" := item.info["state"], "semantic_caveat" := Str(CAVEAT)],
             Some(step))]
    else []
  }

  function PlanValues(step: nat, item: Item): Fields {
    var base := map["step_index" := Int(step)];
    var one := if Carries(item, PlanText) then base[PayloadKey(PlanText) := item.info["plan"]] else base;
    if Carries(item, Alias) then one[PayloadKey(Alias) := item.info["intent"]] else one
  }

  function PlanEvents(contracts: Contracts, step: nat, item: Item): seq<TraceEvent> {
    if Carries(item, PlanText) || Carries(item, Alias) then
      [Event(contracts, E.Plan, PlanValues(step, item), Some(step))] else []
  }

  function ActionValues(step: nat, item: Item): Fields {
    map["step_index" := Int(step), "requested_action" := Str(item.action),
        "duplicate_step_action" := Get(item.info, "action")]
  }

  function StepEvents(contracts: Contracts, step: nat, item: Item): seq<TraceEvent> {
    [Event(contracts, E.Observation, ObservationValues(step, item), Some(step))]
    + (BeliefEvents(contracts, step, item) + (PlanEvents(contracts, step, item)
    + [Event(contracts, E.ExecutedAction, ActionValues(step, item), Some(step))]))
  }

  function MissingIf(item: Item, f: Conditional, step: nat): seq<string> {
    if Carries(item, f) then [] else [Missing(f, step)]
  }

  function StepMissing(step: nat, item: Item): seq<string> {
    MissingIf(item, Processed, step) + MissingIf(item, Info, step) + MissingIf(item, State, step)
    + MissingIf(item, PlanText, step) + MissingIf(item, Alias, step)
  }

  /** The events of the steps from `k` on. */
  function EventsFrom(contracts: Contracts, history: seq<Item>, k: nat): seq<TraceEvent>
    requires k <= |history|
    decreases |history| - k
  {
    if k == |history| then [] else StepEvents(contracts, k, history[k]) + EventsFrom(contracts, history, k + 1)
  }

  function MissingFrom(history: seq<Item>, k: nat): seq<string>
    requires k <= |history|
    decreases |history| - k
  {
    if k == |history| then [] else StepMissing(k, history[k]) + MissingFrom(history, k + 1)
  }

  // ------------------------------------------------------------- the outcome

  function OutcomeValues(s: Session, webarena: bool): Fields {
    var base := map["source_is_complete" := Bool(s.isComplete), "source_error" := Str(s.error)];
    if webarena && s.rewards.Some? && s.testResult.Some?
    then base["webarena_rewards" := Arr(s.rewards.value)]["webarena_test_result" := s.testResult.value] else base
  }

  function OutcomeEvents(contracts: Contracts, s: Session, webarena: bool): seq<TraceEvent> {
    [Event(contracts, E.Outcome, OutcomeValues(s, webarena), None)]
    + if webarena && s.rewards.Some? && s.testResult.Some? then
        [Event(contracts, E.Metric, map["webarena_rewards" := Arr(s.rewards.value)], None),
         Event(contracts, E.Metric, map["webarena_test_result" := s.testResult.value], None)]
      else []
  }

  const NO_WEBARENA := ["outcome.webarena_rewards", "outcome.webarena_test_result", "metric.webarena_rewards",
                        "metric.webarena_test_result"]

  const OBSERVATION_MISSING := [
    "observation.timestamp_utc", "observation.observation_after_action", "candidate_action.stable_candidate_action_ids",
    "candidate_action.structured_candidate_action_set"]
  const PREDICTION_MISSING := [
    "predicted_future.stable_prediction_ids", "predicted_future.structured_action_conditioned_futures",
    "predicted_future.confidence", "critic_evaluation.structured_per_candidate_scores"]
  const ACTION_MISSING := [
    "plan.plan_id", "plan.candidate_action_ids", "executed_action.action_result", "executed_action.candidate_action_id"]
  const OUTCOME_MISSING := [
    "outcome.generic_environment_result", "outcome.scientific_outcome", "outcome.fanout_evaluator_outcome",
    "outcome.flight_evaluator_outcome"]
  const METRIC_MISSING := [
    "metric.fanout_record_accuracy", "metric.flight_grounded", "metric.flight_relevant",
    "metric.fanout_aggregate_scores", "metric.flight_aggregate_scores", "metric.webarena_helper_aggregates"]
  const CALL_MISSING := [
    "immutable_provider_model_revision", "per_step_timestamp_utc", "model_seed", "model_call_count",
    "model_input_tokens", "model_output_tokens", "model_latency"]
  const STATE_MISSING := [
    "generic_tool_call_count", "generic_action_execution_result", "gic_configurator_decision", "gic_state",
    "belief_uncertainty", "world_model_calibration"]

  /** What no trace of this source says. */
  const BASE_MISSING :=
    OBSERVATION_MISSING + PREDICTION_MISSING + ACTION_MISSING + OUTCOME_MISSING + METRIC_MISSING + CALL_MISSING
      + STATE_MISSING

  /** Everything listed, in order, before repetitions are dropped. */
  function Listed(s: Session, webarena: bool): seq<string> {
    BASE_MISSING + MissingFrom(s.history, 0) + if webarena then [] else NO_WEBARENA
  }

  /** `tuple(dict.fromkeys(names))`: first occurrences, in order. */
  function FirstOccurrences(names: seq<string>): (r: seq<string>)
    ensures forall n :: n in r <==> n in names
  {
    if names == [] then []
    else
      var front := FirstOccurrences(names[..|names| - 1]);
      assert names == names[..|names| - 1] + [names[|names| - 1]];
      if names[|names| - 1] in front then front else front + [names[|names| - 1]]
  }

  datatype Normalized = Normalized(events: seq<TraceEvent>, missing: seq<string>)

  function Normalize(contracts: Contracts, s: Session, webarena: bool): Normalized {
    Normalized(EventsFrom(contracts, s.history, 0) + OutcomeEvents(contracts, s, webarena),
               FirstOccurrences(Listed(s, webarena)))
  }

  // ---------------------------------------------------- the loop of the adapter

  /** One pass over the history, emitting or listing every conditional field on the way. */
  method NormalizeHistory(contracts: Contracts, history: seq<Item>, listed: seq<string>)
    returns (events: seq<TraceEvent>, unavailable: seq<string>)
    requires forall item | item in history :: InfoOk(item.info)
    ensures events == EventsFrom(contracts, history, 0) && unavailable == listed + MissingFrom(history, 0)
  {
    events, unavailable := [], listed;
    for k := 0 to |history|
      invariant events + EventsFrom(contracts, history, k) == EventsFrom(contracts, history, 0)
      invariant unavailable + MissingFrom(history, k) == listed + MissingFrom(history, 0)
    {
      var stepEvents, stepMissing := NormalizeStep(contracts, k, history[k]);
      Assoc(events, stepEvents, EventsFrom(contracts, history, k + 1));
      Assoc(unavailable, stepMissing, MissingFrom(history, k + 1));
      events, unavailable := events + stepEvents, unavailable + stepMissing;
    }
    assert events + [] == events && unavailable + [] == unavailable;
  }

  method NormalizeSession(contracts: Contracts, s: Session, webarena: bool) returns (r: Normalized)
    requires webarena ==> s.rewards.Some? && s.testResult.Some?
    requires forall item | item in s.history :: InfoOk(item.info)
    ensures r == Normalize(contracts, s, webarena)
  {
    var events, unavailable := NormalizeHistory(contracts, s.history, BASE_MISSING);
    if !webarena {
      unavailable := unavailable + NO_WEBARENA;
    } else {
      assert unavailable + [] == unavailable;
    }
    r := Normalized(events + OutcomeEvents(contracts, s, webarena), FirstOccurrences(unavailable));
  }

  method NormalizeStep(contracts: Contracts, step: nat, item: Item)
    returns (events: seq<TraceEvent>, missing: seq<string>)
    requires InfoOk(item.info)
    ensures events == StepEvents(contracts, step, item) && missing == StepMissing(step, item)
  {
    missing := [];
    var values := map["step_index" := Int(step), "raw_observation" := Obj(item.observation)];
    if Get(item.info, "obs").Str? {
      values := values["processed_observation" := item.info["obs"]];
    } else {
      missing := missing + [Missing(Processed, step)];
    }
    if Get(item.info, "obs_info").Obj? {
      values := values["observation_info" := item.info["obs_info"]];
    } else {
      missing := missing + [Missing(Info, step)];
    }
    assert missing == MissingIf(item, Processed, step) + MissingIf(item, Info, step);
    events := [Event(contracts, E.Observation, values, Some(step))];
    if Get(item.info, "state").Str? {
      events := events + BeliefEvents(contracts, step, item);
    } else {
      missing := missing + [Missing(State, step)];
    }
    assert missing == MissingIf(item, Processed, step) + MissingIf(item, Info, step) + MissingIf(item, State, step);
    assert events == [Event(contracts, E.Observation, ObservationValues(step, item), Some(step))]
           + BeliefEvents(contracts, step, item);
    var planEvents, planMissing := NormalizePlan(contracts, step, item);
    var action := Event(contracts, E.ExecutedAction, ActionValues(step, item), Some(step));
    StepAssembled(contracts, step, item);
    events := events + planEvents + [action];
    Assoc(missing, MissingIf(item, PlanText, step), MissingIf(item, Alias, step));
    missing := missing + planMissing;
  }

  lemma StepAssembled(contracts: Contracts, step: nat, item: Item)
    ensures StepEvents(contracts, step, item)
         == [Event(contracts, E.Observation, ObservationValues(step, item), Some(step))]
           + BeliefEvents(contracts, step, item)
            + PlanEvents(contracts, step, item)
              + [Event(contracts, E.ExecutedAction, ActionValues(step, item), Some(step))]
  {
    var a, b, c := [Event(contracts, E.Observation, ObservationValues(step, item), Some(step))],
                   BeliefEvents(contracts, step, item), PlanEvents(contracts, step, item);
    var d := [Event(contracts, E.ExecutedAction, ActionValues(step, item), Some(step))];
    Assoc(a, b, c + d);
    Assoc(a + b, c, d);
  }

  /** The plan text and its alias: emitted together in one event, or listed. */
  method NormalizePlan(contracts: Contracts, step: nat, item: Item)
    returns (events: seq<TraceEvent>, missing: seq<string>)
    ensures events == PlanEvents(contracts, step, item)
    ensures missing == MissingIf(item, PlanText, step) + MissingIf(item, Alias, step)
  {
    var plan, intent := Get(item.info, "plan"), Get(item.info, "intent");
    events, missing := [], [];
    if plan.Str? || intent.Str? {
      var values := map["step_index" := Int(step)];
      if plan.Str? {
        values := values["selected_plan_text" := plan];
      } else {
        missing := missing + [Missing(PlanText, step)];
      }
      if intent.Str? {
        values := values["upstream_policy_output_alias" := intent];
      } else {
        missing := missing + [Missing(Alias, step)];
      }
      events := [Event(contracts, E.Plan, values, Some(step))];
    } else {
      missing := [Missing(PlanText, step), Missing(Alias, step)];
    }
  }
}
