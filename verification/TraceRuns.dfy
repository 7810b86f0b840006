/** From trace to retained log: a reader of the log file recovers what the upstream trace said. */
module TraceRuns {
  import opened Common
  import opened Json
  import opened TraceSessions
  import opened TraceNormalization
  import opened TraceTheorems
  import opened TraceNotices
  import L = ScientificLog
  import B = Budget
  import E = Events
  import R = SealedRuns
  import S = Session
  import Sira = SiraCommands
  import C = Commands
  import P = RunPlans

  const REGULATION_SOURCE := "sira-adapter-resolved-configuration"
  const DECISION_ID := "REG-SIRA-MODE-ASSIGNMENT"
  const POLICY_ID := "SIRA-REACTIVE-SIMULATIVE-EXPERIMENT-ASSIGNMENT"

  function Drafted(es: seq<TraceEvent>): (ds: seq<S.Draft>)
    ensures |ds| == |es|
    ensures forall i | 0 <= i < |es| :: ds[i] == S.Draft(es[i].eventType, EVENT_SOURCE, E.Observed, es[i].payload)
  {
    seq(|es|, i requires 0 <= i < |es| => S.Draft(es[i].eventType, EVENT_SOURCE, E.Observed, es[i].payload))
  }

  /** What the adapter derives a result from: the decoded trace, its file, and the mode the command was bound to. */
  datatype Source = Source(
    trace: Session, webarena: bool, artifacts: seq<string>, rawReference: string, mode: Sira.Mode,
    protocolSha256: string,
    contracts: Contracts, blank: string -> bool)

  function PolicyRevision(source: Source): Value {
    if source.protocolSha256 == "unknown" then Null else Str(source.protocolSha256)
  }

  function Word(p: E.Provenance): Value {
    Str(E.ProvenanceWord(p))
  }

  /** Where every field of the mode assignment comes from. */
  function AssignmentProvenance(source: Source): Fields {
    map["decision_id" := Word(E.Derived), "source_kind" := Word(E.Derived), "policy_id" := Word(E.Derived),
        "policy_revision" := Word(if PolicyRevision(source).Null? then E.Unavailable else E.Derived),
        "available_modes" := Word(E.Derived), "selected_mode" := Word(E.Derived), "confidence" := Word(E.Unavailable),
        "override" := Word(E.Unavailable), "fallback" := Word(E.Unavailable),
        "input_event_sequences" := Word(E.Unavailable), "raw_artifact_refs" := Word(E.Observed),
        "resolved_configuration_refs" := Word(E.Derived)]
  }

  /** The mode assignment of the command, without any claim about what the model made of it. */
  function AssignmentPayload(source: Source): Fields {
    map["decision_id" := Str(DECISION_ID), "source_kind" := Str("experiment_assignment"), "policy_id" := Str(POLICY_ID),
        "policy_revision" := PolicyRevision(source),
        "available_modes" := Arr(Strings([Sira.ModeWord(Sira.Reactive), Sira.ModeWord(Sira.Simulative)])),
        "selected_mode" := Str(Sira.ModeWord(source.mode)), "confidence" := Null,
        "override" := Obj(map["applied" := Null, "source" := Null, "reason" := Null]),
        "fallback" := Obj(map["triggered" := Null, "target" := Null, "reason" := Null]),
        "input_event_sequences" := Arr([]), "raw_artifact_refs" := Arr(Strings([source.rawReference])),
        "resolved_configuration_refs" := Arr(Strings([S.RUN_PLAN, S.COMMAND])),
        "field_provenance" := Obj(AssignmentProvenance(source))]
  }

  function Assignment(source: Source): S.Draft {
    S.Draft(E.RegulationDecision, REGULATION_SOURCE, E.Derived, AssignmentPayload(source))
  }

  /** `normalize`: the mode assignment, the trace's events and notices, and accounting for GPU hours only. */
  function AdapterResult(source: Source): S.NormalizationResult {
    var normal := Normalize(source.contracts, source.trace, source.webarena);
    S.NormalizationResult(
      [Assignment(source)] + Drafted(normal.events),
      source.artifacts, normal.missing, Notices(source.blank, source.trace), B.Accounting(None, Some(0), None, None))
  }

  /** Drafts without source and provenance. */
  function AsTrace(ds: seq<S.Draft>): (es: seq<TraceEvent>)
    ensures |es| == |ds|
    ensures forall i | 0 <= i < |ds| :: es[i] == TraceEvent(ds[i].eventType, ds[i].payload)
  {
    seq(|ds|, i requires 0 <= i < |ds| => TraceEvent(ds[i].eventType, ds[i].payload))
  }

  lemma DraftedAndBack(before: seq<S.Draft>, first: S.Draft, es: seq<TraceEvent>)
    ensures AsTrace(before + ([first] + Drafted(es)))
            == AsTrace(before) + ([TraceEvent(first.eventType, first.payload)] + es)
  {
  }

  /** The scientific events somebody who reads the log file finds. */
  function ReadScience(env: S.Env, content: Bytes): seq<TraceEvent> {
    match E.ReadEvents(env.text, env.rules, content)
    case Err(_) => []
    case Ok(es) => AsTrace(L.Science(es))
  }

  /** What the log of a run holds in front of this trace: events of earlier results that broke off. */
  function Earlier(env: S.Env, run: R.Run, before: seq<S.Call>): seq<TraceEvent>
    requires S.Open(env, run.plan, run.command, run.process, run.left).Ok?
  {
    AsTrace(L.Contributions(env, R.Opened(env, run), before))
  }

  /** The trace behind the mode assignment. */
  function TraceTold(source: Source): seq<TraceEvent> {
    [TraceEvent(E.RegulationDecision, AssignmentPayload(source))]
      + Normalize(source.contracts, source.trace, source.webarena).events
  }

  /**
   Whatever else happens in a run that commits this trace, the log file reads as what earlier results left,
   the mode assignment, and the trace's events; and as nothing else in front exactly when no earlier result
   brought an event into the log.
   */
  lemma LogReadsAsTrace(env: S.Env, run: R.Run, before: seq<S.Call>, source: Source, after: seq<S.Call>)
    requires R.Lawful(env, run) && L.CommitsAt(env, run, before, AdapterResult(source), after)
    ensures ReadScience(env, LogFile(env, run)) == Earlier(env, run, before) + TraceTold(source)
    ensures Earlier(env, run, before) == [] <==> L.NoneSpeaks(env, R.Opened(env, run), before)
  {
    L.LogTellsTheResult(env, run, before, AdapterResult(source), after);
    R.EveryRunIsNumbered(env, run);
    ToldAsTrace(L.Contributions(env, R.Opened(env, run), before), source);
  }

  lemma ToldAsTrace(before: seq<S.Draft>, source: Source)
    ensures AsTrace(before + AdapterResult(source).events) == AsTrace(before) + TraceTold(source)
  {
    DraftedAndBack(before, Assignment(source), Normalize(source.contracts, source.trace, source.webarena).events);
  }

  /** The bytes of the run's event log in its attempt directory. */
  function LogFile(env: S.Env, run: R.Run): Bytes
    requires S.Open(env, run.plan, run.command, run.process, run.left).Ok?
  {
    S.AttemptFiles(env, R.Final(env, run))[S.EVENTS]
  }

  lemma CollectBehind(before: seq<TraceEvent>, payload: Fields, es: seq<TraceEvent>, t: E.EventType, key: string)
    requires t != E.RegulationDecision
    ensures Collect(before + ([TraceEvent(E.RegulationDecision, payload)] + es), t, key)
         == Collect(before, t, key) + Collect(es, t, key)
  {
    var first := TraceEvent(E.RegulationDecision, payload);
    CollectConcat(before, [first] + es, t, key);
    CollectConcat([first], es, t, key);
    CollectOne(first, t, key);
    PrependNothing(Collect(es, t, key));
  }

  lemma ValueBehind(before: seq<TraceEvent>, payload: Fields, es: seq<TraceEvent>, i: nat, f: Conditional)
    ensures ValueOf(before + ([TraceEvent(E.RegulationDecision, payload)] + es), i, f)
         == if ValueOf(before, i, f).Some? then ValueOf(before, i, f) else ValueOf(es, i, f)
  {
    var first := TraceEvent(E.RegulationDecision, payload);
    ValueConcat(before, [first] + es, i, f);
    ValueConcat([first], es, i, f);
    ValueOne(first, i, f);
  }

  /** Reading a trace's events behind others: all raw observations and requested actions in order, and the outcome. */
  lemma TraceReads(before: seq<TraceEvent>, source: Source)
    requires source.webarena ==> source.trace.rewards.Some? && source.trace.testResult.Some?
    ensures var es := before + TraceTold(source); var trace := source.trace;
            && Collect(es, E.Observation, "raw_observation")
               == Collect(before, E.Observation, "raw_observation") + ObservationsOf(trace.history)
            && Collect(es, E.ExecutedAction, "requested_action")
               == Collect(before, E.ExecutedAction, "requested_action") + ActionsOf(trace.history)
            && Collect(es, E.Outcome, "source_is_complete")
               == Collect(before, E.Outcome, "source_is_complete") + [Bool(trace.isComplete)]
            && Collect(es, E.Outcome, "source_error") == Collect(before, E.Outcome, "source_error") + [Str(trace.error)]
  {
    var normal := Normalize(source.contracts, source.trace, source.webarena).events;
    NothingIsLost(source.contracts, source.trace, source.webarena);
    OutcomeIsKept(source.contracts, source.trace, source.webarena);
    var payload := AssignmentPayload(source);
    CollectBehind(before, payload, normal, E.Observation, "raw_observation");
    CollectBehind(before, payload, normal, E.ExecutedAction, "requested_action");
    CollectBehind(before, payload, normal, E.Outcome, "source_is_complete");
    CollectBehind(before, payload, normal, E.Outcome, "source_error");
  }

  /** All raw observations and requested actions of the trace, in order, and its outcome are in the retained log. */
  lemma LogKeepsTheTrace(env: S.Env, run: R.Run, before: seq<S.Call>, source: Source, after: seq<S.Call>)
    requires R.Lawful(env, run) && L.CommitsAt(env, run, before, AdapterResult(source), after)
    requires source.webarena ==> source.trace.rewards.Some? && source.trace.testResult.Some?
    ensures var es, earlier := ReadScience(env, LogFile(env, run)), Earlier(env, run, before);
            var trace := source.trace;
            && Collect(es, E.Observation, "raw_observation")
               == Collect(earlier, E.Observation, "raw_observation") + ObservationsOf(trace.history)
            && Collect(es, E.ExecutedAction, "requested_action")
               == Collect(earlier, E.ExecutedAction, "requested_action") + ActionsOf(trace.history)
            && Collect(es, E.Outcome, "source_is_complete")
               == Collect(earlier, E.Outcome, "source_is_complete") + [Bool(trace.isComplete)]
            && Collect(es, E.Outcome, "source_error")
              == Collect(earlier, E.Outcome, "source_error") + [Str(trace.error)]
  {
    LogReadsAsTrace(env, run, before, source, after);
    TraceReads(Earlier(env, run, before), source);
  }

  lemma ConditionalReads(before: seq<TraceEvent>, source: Source, i: nat, f: Conditional)
    requires i < |source.trace.history|
    ensures ValueOf(before + TraceTold(source), i, f)
         == if ValueOf(before, i, f).Some? then ValueOf(before, i, f) else TraceValue(source.trace.history[i], f)
  {
    var normal := Normalize(source.contracts, source.trace, source.webarena).events;
    EventsCarryTheTrace(source.contracts, source.trace, source.webarena, i, f);
    ValueBehind(before, AssignmentPayload(source), normal, i, f);
  }

  /**
   A conditional field no earlier result spoke of is in the retained log exactly as the trace has it, or in
   neither.
   */
  lemma LogKeepsConditionals(
      env: S.Env, run: R.Run, before: seq<S.Call>, source: Source, after: seq<S.Call>, i: nat, f: Conditional)
    requires R.Lawful(env, run) && L.CommitsAt(env, run, before, AdapterResult(source), after)
    requires i < |source.trace.history|
    ensures var earlier := ValueOf(Earlier(env, run, before), i, f);
            ValueOf(ReadScience(env, LogFile(env, run)), i, f)
            == if earlier.Some? then earlier else TraceValue(source.trace.history[i], f)
  {
    LogReadsAsTrace(env, run, before, source, after);
    ConditionalReads(Earlier(env, run, before), source, i, f);
  }

  // ------------------------------------------------- the commands behind a trace

  /** The normal form drops no pattern: a command that lists one still lists one. */
  lemma PatternsKept(raw: C.CommandSpec)
    requires raw.unownedOutputPatterns != []
    ensures C.Normal(raw).unownedOutputPatterns != []
  {
  }

  /**
   No command this adapter builds is allowed to run, under any plan, since it lists output outside the attempt:
   a trace can only be committed in the run of some other command.
   */
  lemma BuiltCommandsDisallowed(
      w: Sira.World, c: Sira.Config, uv: string, plan: P.RunPlan, sourceRoot: string, outputRoot: string,
      env: S.Env, authorized: P.RunPlan, process: S.ProcessResult, left: map<string, Bytes>)
    requires Sira.BuildCommand(w, c, uv, plan, sourceRoot, outputRoot).Ok?
    ensures var command := Sira.BuildCommand(w, c, uv, plan, sourceRoot, outputRoot).value;
            && !S.ExecutionAllowed(env, authorized, command)
            && S.Open(env, authorized, command, process, left) == Err(S.Disallowed)
  {
    PatternsKept(Sira.RawCommand(w, c, uv, plan, sourceRoot, outputRoot));
  }
}
