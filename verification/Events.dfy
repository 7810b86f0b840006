/** Harness events, their JSON documents, and the checks a decoded stream must pass. */
module Events {
  import opened Common
  import opened Json

  datatype EventType =
    | RunStarted | PreflightCompleted | CommandStarted | CommandCompleted
    | RegulationDecision | Observation | BeliefState | CandidateAction | PredictedFuture
    | CriticEvaluation | Plan | ExecutedAction | Outcome | Metric
    | BudgetUpdate | ArtifactRecorded | Warning | Error | RunStopped
    | CloudInstanceLaunched | CloudInstanceTerminated

  datatype Provenance = Observed | Derived | Inferred | Unavailable

  datatype HarnessEvent = HarnessEvent(
    runId: string, attempt: int, sequence: int, timestampUtc: string, eventType: EventType,
    source: string, provenance: Provenance, payload: Fields, schemaVersion: string)

  const CONTROL_SOURCE := "giclab-harness"
  const LEGACY_VERSION := "0.1.0"
  const CURRENT_VERSION := "0.2.0"

  /** The scientific event types an adapter may emit. */
  predicate IsAdapterType(t: EventType) {
    match t
    case RegulationDecision => true case Observation => true case BeliefState => true
    case CandidateAction => true case PredictedFuture => true case CriticEvaluation => true
    case Plan => true case ExecutedAction => true case Outcome => true case Metric => true
    case _ => false
  }

  /**
   What a constructor decides by patterns: run identifier, UTC timestamp, recognizable secrets in
   the text, and the regulation-decision payload rules.
   */
  datatype Rules = Rules(admits: HarnessEvent -> bool)

  predicate ValidEvent(rules: Rules, e: HarnessEvent) {
    && e.attempt >= 1 && e.sequence >= 1 && e.source != ""
    && (e.schemaVersion == LEGACY_VERSION || e.schemaVersion == CURRENT_VERSION)
    && (e.schemaVersion == LEGACY_VERSION ==> !e.eventType.RegulationDecision?)
    && rules.admits(e)
  }

  function TypeWord(t: EventType): string {
    match t
    case RunStarted => "run_started" case PreflightCompleted => "preflight_completed"
    case CommandStarted => "command_started" case CommandCompleted => "command_completed"
    case RegulationDecision => "regulation_decision" case Observation => "observation"
    case BeliefState => "belief_state" case CandidateAction => "candidate_action"
    case PredictedFuture => "predicted_future" case CriticEvaluation => "critic_evaluation"
    case Plan => "plan" case ExecutedAction => "executed_action" case Outcome => "outcome"
    case Metric => "metric" case BudgetUpdate => "budget_update"
    case ArtifactRecorded => "artifact_recorded" case Warning => "warning" case Error => "error"
    case RunStopped => "run_stopped" case CloudInstanceLaunched => "cloud_instance_launched"
    case CloudInstanceTerminated => "cloud_instance_terminated"
  }

  const EVENT_TYPES: seq<EventType> := [
    RunStarted, PreflightCompleted, CommandStarted, CommandCompleted, RegulationDecision, Observation,
    BeliefState, CandidateAction, PredictedFuture, CriticEvaluation, Plan, ExecutedAction, Outcome, Metric,
    BudgetUpdate, ArtifactRecorded, Warning, Error, RunStopped, CloudInstanceLaunched, CloudInstanceTerminated]

  /** Looks a word up among the canonical types. */
  function TypeAmong(types: seq<EventType>, word: string): Option<EventType> {
    if types == [] then None
    else if TypeWord(types[0]) == word then Some(types[0])
    else TypeAmong(types[1..], word)
  }

  function ProvenanceWord(p: Provenance): string {
    match p
    case Observed => "observed" case Derived => "derived"
    case Inferred => "inferred" case Unavailable => "unavailable"
  }

  function ProvenanceFrom(word: string): Option<Provenance> {
    if word == "observed" then Some(Observed) else if word == "derived" then Some(Derived)
    else if word == "inferred" then Some(Inferred) else if word == "unavailable" then Some(Unavailable)
    else None
  }

  function EventDocument(e: HarnessEvent): Fields {
    map["schema_version" := Str(e.schemaVersion), "run_id" := Str(e.runId), "attempt" := Int(e.attempt),
        "sequence" := Int(e.sequence), "timestamp_utc" := Str(e.timestampUtc),
        "event_type" := Str(TypeWord(e.eventType)), "source" := Str(e.source),
        "provenance" := Str(ProvenanceWord(e.provenance)), "payload" := Obj(e.payload)]
  }

  const EVENT_KEYS := {"schema_version", "run_id", "attempt", "sequence", "timestamp_utc", "event_type",
                       "source", "provenance", "payload"}

  datatype EventError =
    | BlankLine | InvalidJson | NotAnObject | WrongFields | WrongTypes | InvalidEvent
    | MixedAttempts | MixedVersions | SequenceNotIncreasing | WriterIdentity

  predicate WellTyped(d: Fields)
    requires d.Keys == EVENT_KEYS
  {
    && d["schema_version"].Str? && d["run_id"].Str? && d["timestamp_utc"].Str? && d["event_type"].Str?
    && d["source"].Str? && d["provenance"].Str? && d["attempt"].Int? && d["sequence"].Int? && d["payload"].Obj?
  }

  function EventFrom(rules: Rules, d: Fields): Result<HarnessEvent, EventError> {
    if d.Keys != EVENT_KEYS then Err(WrongFields)
    else if !WellTyped(d) then Err(WrongTypes)
    else
      var eventType, provenance := TypeAmong(EVENT_TYPES, d["event_type"].s), ProvenanceFrom(d["provenance"].s);
      if eventType.None? || provenance.None? then Err(InvalidEvent)
      else
        var e := HarnessEvent(d["run_id"].s, d["attempt"].i, d["sequence"].i, d["timestamp_utc"].s,
                              eventType.value, d["source"].s, provenance.value, d["payload"].fields,
                              d["schema_version"].s);
        if ValidEvent(rules, e) then Ok(e) else Err(InvalidEvent)
  }

  lemma {:induction false} TypeFound(types: seq<EventType>, t: EventType)
    requires t in types
    requires forall u | u in types && TypeWord(u) == TypeWord(t) :: u == t
    ensures TypeAmong(types, TypeWord(t)) == Some(t)
  {
    if TypeWord(types[0]) != TypeWord(t) {
      TypeFound(types[1..], t);
    }
  }

  lemma TypeListed(t: EventType)
    ensures t in EVENT_TYPES
  {
    var at := match t
      case RunStarted => 0 case PreflightCompleted => 1 case CommandStarted => 2 case CommandCompleted => 3
      case RegulationDecision => 4 case Observation => 5 case BeliefState => 6 case CandidateAction => 7
      case PredictedFuture => 8 case CriticEvaluation => 9 case Plan => 10 case ExecutedAction => 11
      case Outcome => 12 case Metric => 13 case BudgetUpdate => 14 case ArtifactRecorded => 15
      case Warning => 16 case Error => 17 case RunStopped => 18 case CloudInstanceLaunched => 19
      case CloudInstanceTerminated => 20;
    assert EVENT_TYPES[at] == t;
  }

  lemma TypeWordsDiffer(t: EventType, u: EventType)
    requires TypeWord(t) == TypeWord(u)
    ensures t == u
  {
  }

  lemma TypeRoundTrip(t: EventType)
    ensures TypeAmong(EVENT_TYPES, TypeWord(t)) == Some(t)
  {
    TypeListed(t);
    forall u | u in EVENT_TYPES && TypeWord(u) == TypeWord(t) ensures u == t { TypeWordsDiffer(t, u); }
    TypeFound(EVENT_TYPES, t);
  }

  /** The document holds the event's fields, each under its key. */
  predicate HoldsEvent(d: Fields, e: HarnessEvent) {
    && d.Keys == EVENT_KEYS
    && d["schema_version"] == Str(e.schemaVersion) && d["run_id"] == Str(e.runId)
    && d["attempt"] == Int(e.attempt) && d["sequence"] == Int(e.sequence)
    && d["timestamp_utc"] == Str(e.timestampUtc) && d["event_type"] == Str(TypeWord(e.eventType))
    && d["source"] == Str(e.source) && d["provenance"] == Str(ProvenanceWord(e.provenance))
    && d["payload"] == Obj(e.payload)
  }

  lemma EventLookups(e: HarnessEvent)
    ensures HoldsEvent(EventDocument(e), e)
  {
  }

  lemma HeldEventReads(rules: Rules, d: Fields, e: HarnessEvent)
    requires HoldsEvent(d, e) && ValidEvent(rules, e)
    ensures EventFrom(rules, d) == Ok(e)
  {
    TypeRoundTrip(e.eventType);
    assert ProvenanceFrom(ProvenanceWord(e.provenance)) == Some(e.provenance);
  }

  /** A valid event reads back from its document unchanged. */
  lemma EventRoundTrip(rules: Rules, e: HarnessEvent)
    requires ValidEvent(rules, e)
    ensures EventFrom(rules, EventDocument(e)) == Ok(e)
  {
    EventLookups(e);
    HeldEventReads(rules, EventDocument(e), e);
  }

  lemma {:induction false} TypeAmongReads(types: seq<EventType>, word: string)
    requires TypeAmong(types, word).Some?
    ensures TypeWord(TypeAmong(types, word).value) == word
  {
    if TypeWord(types[0]) != word { TypeAmongReads(types[1..], word); }
  }

  /** What a readable document holds under every key. */
  lemma EventFields(rules: Rules, d: Fields)
    requires EventFrom(rules, d).Ok?
    ensures HoldsEvent(d, EventFrom(rules, d).value) && ValidEvent(rules, EventFrom(rules, d).value)
  {
    TypeAmongReads(EVENT_TYPES, d["event_type"].s);
  }

  /** A document that reads is the document of what it reads as: nothing in it is ignored or defaulted. */
  lemma EventReadBack(rules: Rules, d: Fields)
    requires EventFrom(rules, d).Ok?
    ensures EventDocument(EventFrom(rules, d).value) == d && ValidEvent(rules, EventFrom(rules, d).value)
  {
    EventFields(rules, d);
    SameEntries(EventFrom(rules, d).value, d);
  }

  lemma SameEntries(e: HarnessEvent, d: Fields)
    requires HoldsEvent(d, e)
    ensures EventDocument(e) == d
  {
    EventLookups(e);
    forall key | key in EVENT_KEYS ensures EventDocument(e)[key] == d[key] {}
  }

  // -------------------------------------------------------------- streams

  /** One attempt, one version, strictly increasing positive sequence numbers. */
  predicate Consistent(es: seq<HarnessEvent>) {
    && (forall i | 0 <= i < |es| ::
          es[i].runId == es[0].runId && es[i].attempt == es[0].attempt && es[i].schemaVersion == es[0].schemaVersion)
    && (forall i | 0 < i < |es| :: es[i - 1].sequence < es[i].sequence)
    && (es != [] ==> es[0].sequence > 0)
  }

  /** The loop over a decoded stream: every event against the first one and the previous one. */
  method CheckStream(es: seq<HarnessEvent>) returns (error: Option<EventError>)
    ensures error.None? <==> Consistent(es)
  {
    if es == [] {
      return None;
    }
    var previous := 0;
    for k := 0 to |es|
      invariant Consistent(es[..k])
      invariant previous == if k == 0 then 0 else es[k - 1].sequence
    {
      assert es[..k + 1][..k] == es[..k];
      var e := es[k];
      if e.runId != es[0].runId || e.attempt != es[0].attempt {
        return Some(MixedAttempts);
      }
      if e.schemaVersion != es[0].schemaVersion {
        return Some(MixedVersions);
      }
      if e.sequence <= previous {
        return Some(SequenceNotIncreasing);
      }
      previous := e.sequence;
    }
    assert es[..|es|] == es;
    error := None;
  }

  function EventsFrom(rules: Rules, ds: seq<Fields>): Result<seq<HarnessEvent>, EventError> {
    if ds == [] then Ok([])
    else
      var first :- EventFrom(rules, ds[0]);
      var rest :- EventsFrom(rules, ds[1..]);
      Ok([first] + rest)
  }

  function DocumentsOf(es: seq<HarnessEvent>): (vs: seq<Value>)
    ensures |vs| == |es|
  {
    if es == [] then [] else [Obj(EventDocument(es[0]))] + DocumentsOf(es[1..])
  }

  /** Decodes line by line; blank lines, bad JSON and non-objects are refused. */
  function DecodeLines(text: Text, lines: seq<Bytes>): Result<seq<Fields>, EventError> {
    if lines == [] then Ok([])
    else if IsBlank(lines[0]) then Err(BlankLine)
    else
      match text.parse(lines[0])
      case None => Err(InvalidJson)
      case Some(v) =>
        if !v.Obj? then Err(NotAnObject)
        else
          var rest :- DecodeLines(text, lines[1..]);
          Ok([v.fields] + rest)
  }

  /** `read_events`: decode, type, and check the stream. */
  function ReadEvents(text: Text, rules: Rules, content: Bytes): Result<seq<HarnessEvent>, EventError> {
    var documents :- DecodeLines(text, SplitLines(content));
    var events :- EventsFrom(rules, documents);
    if Consistent(events) then Ok(events) else Err(SequenceNotIncreasing)
  }

  // ------------------------------------------------------------- log bytes

  /** The bytes of a log holding these events. */
  function LogBytes(text: Text, es: seq<HarnessEvent>): Bytes {
    Frame(text, DocumentsOf(es))
  }

  ghost predicate AllValid(rules: Rules, es: seq<HarnessEvent>) {
    forall e | e in es :: ValidEvent(rules, e)
  }

  lemma DecodeOneLine(text: Text, v: Value, lines: seq<Bytes>)
    requires text.Lawful() && v.Obj? && DecodeLines(text, lines).Ok?
    ensures DecodeLines(text, [text.compact(v)] + lines) == Ok([v.fields] + DecodeLines(text, lines).value)
  {
    var all := [text.compact(v)] + lines;
    assert all[0] == text.compact(v) && all[1..] == lines;
    assert text.parse(text.compact(v)) == Some(v) && !IsBlank(text.compact(v));
  }

  lemma EventsOfOneMore(rules: Rules, e: HarnessEvent, ds: seq<Fields>)
    requires ValidEvent(rules, e) && EventsFrom(rules, ds).Ok?
    ensures EventsFrom(rules, [EventDocument(e)] + ds) == Ok([e] + EventsFrom(rules, ds).value)
  {
    var all := [EventDocument(e)] + ds;
    assert all[0] == EventDocument(e) && all[1..] == ds;
    EventRoundTrip(rules, e);
  }

  lemma {:induction false} DecodeLogLines(text: Text, rules: Rules, es: seq<HarnessEvent>)
    requires text.Lawful() && AllValid(rules, es)
    ensures var ds := DecodeLines(text, SplitLines(LogBytes(text, es)));
            ds.Ok? && EventsFrom(rules, ds.value) == Ok(es)
  {
    if es != [] {
      var first := Obj(EventDocument(es[0]));
      DecodeLogLines(text, rules, es[1..]);
      LogFirstLine(text, es);
      DecodeOneLine(text, first, SplitLines(LogBytes(text, es[1..])));
      EventsOfOneMore(rules, es[0], DecodeLines(text, SplitLines(LogBytes(text, es[1..]))).value);
      assert [es[0]] + es[1..] == es;
    }
  }

  /** The documents of the events, one by one. */
  function FieldsOf(es: seq<HarnessEvent>): (ds: seq<Fields>)
    ensures |ds| == |es| && forall i | 0 <= i < |es| :: ds[i] == EventDocument(es[i])
  {
    if es == [] then [] else [EventDocument(es[0])] + FieldsOf(es[1..])
  }

  /** The lines of a log decode to its events' documents. */
  lemma {:induction false} DecodedLog(text: Text, es: seq<HarnessEvent>)
    requires text.Lawful()
    ensures DecodeLines(text, SplitLines(LogBytes(text, es))) == Ok(FieldsOf(es))
  {
    if es != [] {
      DecodedLog(text, es[1..]);
      LogFirstLine(text, es);
      DecodeOneLine(text, Obj(EventDocument(es[0])), SplitLines(LogBytes(text, es[1..])));
    }
  }

  lemma LogFirstLine(text: Text, es: seq<HarnessEvent>)
    requires text.Lawful() && es != []
    ensures SplitLines(LogBytes(text, es))
         == [text.compact(Obj(EventDocument(es[0])))] + SplitLines(LogBytes(text, es[1..]))
  {
    var first, rest := Obj(EventDocument(es[0])), DocumentsOf(es[1..]);
    assert DocumentsOf(es)[0] == first && DocumentsOf(es)[1..] == rest;
    assert forall i | 0 <= i < |text.compact(first)| :: !IsBreak(text.compact(first)[i]);
    SplitLine(text.compact(first), Frame(text, rest));
  }

  /** Framing: decoding a log's bytes yields exactly its events, in order. */
  lemma ReadLog(text: Text, rules: Rules, es: seq<HarnessEvent>)
    requires text.Lawful() && AllValid(rules, es)
    ensures ReadEvents(text, rules, LogBytes(text, es)) == if Consistent(es) then Ok(es) else Err(SequenceNotIncreasing)
  {
    DecodeLogLines(text, rules, es);
  }

  lemma {:induction false} DocumentsSnoc(es: seq<HarnessEvent>, e: HarnessEvent)
    ensures DocumentsOf(es + [e]) == DocumentsOf(es) + [Obj(EventDocument(e))]
  {
    if es == [] {
      assert [e][1..] == [] && [] + [e] == [e];
    } else {
      assert (es + [e])[1..] == es[1..] + [e];
      DocumentsSnoc(es[1..], e);
      Assoc([Obj(EventDocument(es[0]))], DocumentsOf(es[1..]), [Obj(EventDocument(e))]);
    }
  }

  lemma LogSnoc(text: Text, es: seq<HarnessEvent>, e: HarnessEvent)
    ensures LogBytes(text, es + [e]) == LogBytes(text, es) + (text.compact(Obj(EventDocument(e))) + [LF])
  {
    DocumentsSnoc(es, e);
    FrameSnoc(text, DocumentsOf(es), Obj(EventDocument(e)));
  }

  // --------------------------------------------------------- what is accepted

  lemma {:induction false} SequencesAscend(es: seq<HarnessEvent>, i: nat, j: nat)
    requires Consistent(es) && i < j < |es|
    ensures 0 < es[i].sequence < es[j].sequence
  {
    if i + 1 < j { SequencesAscend(es, i, j - 1); }
    if i > 0 { SequencesAscend(es, 0, i); }
    assert es[j - 1].sequence < es[j].sequence;
  }

  /** A consistent stream is one attempt of one run in one version, numbered upwards from above zero. */
  lemma ConsistentMeans(es: seq<HarnessEvent>)
    ensures Consistent(es) <==>
              && (forall e, f | e in es && f in es ::
                    e.runId == f.runId && e.attempt == f.attempt && e.schemaVersion == f.schemaVersion)
              && (forall e | e in es :: e.sequence > 0)
              && forall i, j | 0 <= i < j < |es| :: es[i].sequence < es[j].sequence
  {
    if Consistent(es) {
      forall i, j | 0 <= i < j < |es| ensures 0 < es[i].sequence < es[j].sequence { SequencesAscend(es, i, j); }
      forall i | 0 <= i < |es| ensures es[i].sequence > 0 { if i > 0 { SequencesAscend(es, 0, i); } }
    }
  }

  /** What the constructor accepts: positive numbers, a named source, a known version that has the type. */
  lemma ValidEventMeans(rules: Rules, e: HarnessEvent)
    ensures ValidEvent(rules, e) <==>
              && e.attempt > 0 && e.sequence > 0 && |e.source| > 0 && rules.admits(e)
              && (e.schemaVersion == "0.2.0" || (e.schemaVersion == "0.1.0" && e.eventType != RegulationDecision))
  {
    assert "0.1.0"[2] != "0.2.0"[2];
  }

  /** Lines decode exactly when each of them is a JSON object and none is blank, and then to those objects. */
  lemma {:induction false} DecodedMeans(text: Text, lines: seq<Bytes>)
    ensures DecodeLines(text, lines).Ok? <==>
              forall line | line in lines ::
                !IsBlank(line) && text.parse(line).Some? && text.parse(line).value.Obj?
    ensures DecodeLines(text, lines).Ok? ==>
              var ds := DecodeLines(text, lines).value;
              |ds| == |lines| && forall i | 0 <= i < |lines| :: text.parse(lines[i]) == Some(Obj(ds[i]))
  {
    if lines != [] {
      DecodedMeans(text, lines[1..]);
      assert forall line :: line in lines <==> line == lines[0] || line in lines[1..];
    }
  }

  /** Each document reads as its event. */
  predicate ReadAs(rules: Rules, ds: seq<Fields>, es: seq<HarnessEvent>) {
    |ds| == |es| && forall i | 0 <= i < |es| :: EventFrom(rules, ds[i]) == Ok(es[i])
  }

  lemma ReadAsRest(rules: Rules, ds: seq<Fields>, es: seq<HarnessEvent>)
    requires ds != [] && es != []
    ensures ReadAs(rules, ds, es) <==> EventFrom(rules, ds[0]) == Ok(es[0]) && ReadAs(rules, ds[1..], es[1..])
  {
    if EventFrom(rules, ds[0]) == Ok(es[0]) && ReadAs(rules, ds[1..], es[1..]) {
      forall i | 0 <= i < |es| ensures EventFrom(rules, ds[i]) == Ok(es[i]) {
        assert i > 0 ==> ds[i] == ds[1..][i - 1] && es[i] == es[1..][i - 1];
      }
    }
  }

  lemma {:induction false} EventsRead(rules: Rules, ds: seq<Fields>, es: seq<HarnessEvent>)
    ensures EventsFrom(rules, ds) == Ok(es) <==> ReadAs(rules, ds, es)
  {
    if ds != [] && es != [] {
      EventsRead(rules, ds[1..], es[1..]);
      ReadAsRest(rules, ds, es);
      assert es == [es[0]] + es[1..];
    }
  }

  /** What reads as a log: one nonblank line of JSON per event, each its event's own document, consistently numbered. */
  lemma ReadEventsMeans(text: Text, rules: Rules, content: Bytes, es: seq<HarnessEvent>)
    ensures ReadEvents(text, rules, content) == Ok(es) <==>
              var lines := SplitLines(content);
              && |lines| == |es| && Consistent(es)
              && forall i | 0 <= i < |es| ::
                   && !IsBlank(lines[i]) && text.parse(lines[i]) == Some(Obj(EventDocument(es[i])))
                   && ValidEvent(rules, es[i])
  {
    var lines := SplitLines(content);
    DecodedMeans(text, lines);
    if ReadEvents(text, rules, content) == Ok(es) {
      var ds := DecodeLines(text, lines).value;
      EventsRead(rules, ds, es);
      forall i | 0 <= i < |es|
        ensures !IsBlank(lines[i]) && text.parse(lines[i]) == Some(Obj(EventDocument(es[i])))
                && ValidEvent(rules, es[i])
      {
        assert lines[i] in lines;
        EventReadBack(rules, ds[i]);
      }
    }
    if LinesHold(text, rules, lines, es) && Consistent(es) { LinesRead(text, rules, lines, es); }
  }

  predicate LinesHold(text: Text, rules: Rules, lines: seq<Bytes>, es: seq<HarnessEvent>) {
    && |lines| == |es|
    && forall i | 0 <= i < |es| ::
         && !IsBlank(lines[i]) && text.parse(lines[i]) == Some(Obj(EventDocument(es[i]))) && ValidEvent(rules, es[i])
  }

  lemma LinesRead(text: Text, rules: Rules, lines: seq<Bytes>, es: seq<HarnessEvent>)
    requires LinesHold(text, rules, lines, es)
    ensures DecodeLines(text, lines).Ok? && EventsFrom(rules, DecodeLines(text, lines).value) == Ok(es)
  {
    forall line | line in lines ensures !IsBlank(line) && text.parse(line).Some? && text.parse(line).value.Obj? {
      var i :| 0 <= i < |lines| && lines[i] == line;
    }
    DecodedMeans(text, lines);
    var ds := DecodeLines(text, lines).value;
    forall i | 0 <= i < |ds| ensures EventFrom(rules, ds[i]) == Ok(es[i]) {
      assert Some(Obj(ds[i])) == text.parse(lines[i]) == Some(Obj(EventDocument(es[i])));
      EventRoundTrip(rules, es[i]);
    }
    EventsRead(rules, ds, es);
  }
}
