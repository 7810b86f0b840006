/** The validator's judgement of a budget history, and its declarative meaning. */
module BudgetHistory {
  import opened Common
  import opened Json
  import opened Events
  import opened Budget
  import P = RunPlans
  import C = Commands

  function Key(u: Unit): string {
    match u
    case WallSeconds => "wall_seconds" case CostUsd => "cost_usd" case GpuHours => "gpu_hours"
    case ModelTokens => "model_tokens" case ToolCalls => "tool_calls" case OutputBytes => "output_bytes"
  }

  /** A valid total: a non-negative integer, or for money and time also a non-negative float. */
  function Reading(u: Unit, v: Value): Option<int> {
    if v.Int? && v.i >= 0 then Some(if IsInteger(u) then v.i else Whole(v.i))
    else if v.Float? && v.a >= 0 && !IsInteger(u) then Some(v.a)
    else None
  }

  const EVIDENCE := "nonwall_accounting"
  const NONWALL_KEYS := {"cost_usd", "gpu_hours", "model_tokens", "tool_calls"}
  const OBSERVED := "observed"
  const RESERVED := "unavailable-reserved"
  const INAPPLICABLE := "not-applicable"

  predicate HasEvidence(payload: Fields) { !Get(payload, EVIDENCE).Null? }

  /** One unit of an accounting record is consistent with the command's projection. */
  predicate UnitEvidenceOk(p: C.Projection, payload: Fields, raw: Fields, u: Unit)
    requires Key(u) in raw
  {
    && Key(u) in payload && Reading(u, payload[Key(u)]).Some?
    && var total := Reading(u, payload[Key(u)]).value;
       || raw[Key(u)] == Str(OBSERVED)
       || (raw[Key(u)] == Str(RESERVED) && ProjectionOf(p, u) > 0 && total == ProjectionOf(p, u))
       || (raw[Key(u)] == Str(INAPPLICABLE) && ProjectionOf(p, u) == 0 && total == 0)
  }

  predicate EvidenceOk(p: C.Projection, payload: Fields) {
    var raw := Get(payload, EVIDENCE);
    && raw.Obj? && raw.fields.Keys == NONWALL_KEYS
    && UnitEvidenceOk(p, payload, raw.fields, CostUsd) && UnitEvidenceOk(p, payload, raw.fields, GpuHours)
    && UnitEvidenceOk(p, payload, raw.fields, ModelTokens) && UnitEvidenceOk(p, payload, raw.fields, ToolCalls)
  }

  /** An observed total passes the projection. */
  predicate ShowsProjectionOverrun(p: C.Projection, payload: Fields, u: Unit) {
    var raw := Get(payload, EVIDENCE);
    && IsNonWall(u) && raw.Obj? && Get(raw.fields, Key(u)) == Str(OBSERVED)
    && Key(u) in payload && Reading(u, payload[Key(u)]).Some?
    && Reading(u, payload[Key(u)]).value > ProjectionOf(p, u)
  }

  predicate ShowsBudgetOverrun(b: P.RunBudget, payload: Fields, u: Unit) {
    && Key(u) in payload && Reading(u, payload[Key(u)]).Some?
    && Exceeds(b, u, Reading(u, payload[Key(u)]).value)
  }

  /** The payloads of the budget updates, in order. */
  function Updates(es: seq<HarnessEvent>): seq<Fields> {
    if es == [] then []
    else
      Updates(es[..|es| - 1])
      + if es[|es| - 1].eventType.BudgetUpdate? then [es[|es| - 1].payload] else []
  }

  function TerminalStatus(es: seq<HarnessEvent>): Option<string> {
    if es != [] && es[|es| - 1].eventType.RunStopped? && Get(es[|es| - 1].payload, "status").Str?
    then Some(Get(es[|es| - 1].payload, "status").s) else None
  }

  function EvidenceCount(us: seq<Fields>): nat {
    if us == [] then 0
    else EvidenceCount(us[..|us| - 1]) + if HasEvidence(us[|us| - 1]) then 1 else 0
  }

  predicate TotalsValid(us: seq<Fields>) {
    forall i, u: Unit | 0 <= i < |us| && Key(u) in us[i] :: Reading(u, us[i][Key(u)]).Some?
  }

  predicate TotalsNeverDecrease(us: seq<Fields>)
    requires TotalsValid(us)
  {
    forall i, j, u: Unit | 0 <= i < j < |us| && Key(u) in us[i] && Key(u) in us[j] ::
      Reading(u, us[i][Key(u)]).value <= Reading(u, us[j][Key(u)]).value
  }

  predicate EvidenceValid(p: C.Projection, us: seq<Fields>) {
    forall i | 0 <= i < |us| && HasEvidence(us[i]) :: EvidenceOk(p, us[i])
  }

  predicate ProjectionOverrun(p: C.Projection, us: seq<Fields>) {
    exists i, u: Unit | 0 <= i < |us| :: ShowsProjectionOverrun(p, us[i], u)
  }

  predicate BudgetOverrun(b: P.RunBudget, us: seq<Fields>) {
    exists i, u: Unit | 0 <= i < |us| :: ShowsBudgetOverrun(b, us[i], u)
  }

  const BUDGET_EXCEEDED := "budget-exceeded"
  const PROJECTION_EXCEEDED := "resource-projection-exceeded"

  /** What an acceptable budget history is. */
  predicate HistoryAccepted(us: seq<Fields>, terminal: Option<string>, b: P.RunBudget, p: C.Projection) {
    && TotalsValid(us) && TotalsNeverDecrease(us) && EvidenceValid(p, us)
    && EvidenceCount(us) <= 1
    && (p.HasUsage() ==> EvidenceCount(us) == 1)
    && (ProjectionOverrun(p, us) ==> terminal == Some(PROJECTION_EXCEEDED))
    && (BudgetOverrun(b, us) ==> terminal == Some(BUDGET_EXCEEDED) || terminal == Some(PROJECTION_EXCEEDED))
  }

  // ------------------------------------------------------------ the validator

  datatype HistoryError =
    | InvalidTotal(unit: Unit) | TotalDecreased(unit: Unit)
    | BadEvidenceFields | MissingTotal(unit: Unit) | BadStatus(unit: Unit)
    | ImpossibleInapplicable(unit: Unit) | NotChargedAtProjection(unit: Unit)
    | RepeatedEvidence | MissingEvidence | ProjectionOverrunUnstopped | BudgetOverrunUnstopped

  /** The validator's running totals describe the updates read so far. */
  ghost predicate Describes(us: seq<Fields>, totals: map<Unit, int>)
    requires TotalsValid(us)
  {
    && (forall u: Unit :: u in totals)
    && (forall u: Unit :: totals[u] == 0 || exists i | 0 <= i < |us| && Key(u) in us[i] ::
        Reading(u, us[i][Key(u)]).value == totals[u])
    && (forall i, u: Unit | 0 <= i < |us| && Key(u) in us[i] :: Reading(u, us[i][Key(u)]).value <= totals[u])
  }

  /** One update's totals against the running ones. */
  predicate TotalsStepOk(totals: map<Unit, int>, payload: Fields, u: Unit)
    requires u in totals
  {
    Key(u) in payload ==> Reading(u, payload[Key(u)]).Some? && totals[u] <= Reading(u, payload[Key(u)]).value
  }

  function NextTotal(totals: map<Unit, int>, payload: Fields, u: Unit): int
    requires u in totals
  {
    if Key(u) in payload && Reading(u, payload[Key(u)]).Some? then Reading(u, payload[Key(u)]).value else totals[u]
  }

  method RecordTotals(b: P.RunBudget, payload: Fields, totals: map<Unit, int>, exceeded: set<Unit>)
    returns (totals': map<Unit, int>, exceeded': set<Unit>, errors: seq<HistoryError>)
    requires forall u: Unit :: u in totals
    ensures forall u: Unit :: u in totals' && totals'[u] == NextTotal(totals, payload, u)
    ensures forall u: Unit :: u in exceeded' <==> u in exceeded || ShowsBudgetOverrun(b, payload, u)
    ensures errors == [] <==> forall u: Unit :: TotalsStepOk(totals, payload, u)
  {
    totals', exceeded', errors := totals, exceeded, [];
    for k := 0 to |UNITS|
      invariant forall u: Unit :: u in totals'
      invariant forall u: Unit :: totals'[u] == if u in UNITS[..k] then NextTotal(totals, payload, u) else totals[u]
      invariant forall u: Unit ::
                u in exceeded' <==> u in exceeded || (u in UNITS[..k] && ShowsBudgetOverrun(b, payload, u))
      invariant errors == [] <==> forall u: Unit | u in UNITS[..k] :: TotalsStepOk(totals, payload, u)
    {
      var u := UNITS[k];
      assert UNITS[..k + 1] == UNITS[..k] + [u];
      UnitsDistinct(k);
      if Key(u) in payload {
        var reading := Reading(u, payload[Key(u)]);
        if reading.None? {
          errors := errors + [InvalidTotal(u)];
        } else {
          if reading.value < totals'[u] {
            errors := errors + [TotalDecreased(u)];
          }
          totals' := totals'[u := reading.value];
          if Exceeds(b, u, reading.value) {
            exceeded' := exceeded' + {u};
          }
        }
      }
    }
    assert UNITS[..|UNITS|] == UNITS;
    forall u: Unit ensures u in UNITS { EveryUnitListed(u); }
  }

  lemma UnitsDistinct(k: nat)
    requires k < |UNITS|
    ensures UNITS[k] !in UNITS[..k]
  {
  }

  /** The status words of one accounting record, unit by unit. */
  method RecordUnitEvidence(p: C.Projection, payload: Fields, raw: Fields, u: Unit)
    returns (overrun: bool, errors: seq<HistoryError>)
    requires Key(u) in raw
    ensures errors == [] <==> UnitEvidenceOk(p, payload, raw, u)
    ensures overrun <==> raw[Key(u)] == Str(OBSERVED) && Key(u) in payload && Reading(u, payload[Key(u)]).Some?
                         && Reading(u, payload[Key(u)]).value > ProjectionOf(p, u)
  {
    overrun, errors := false, [];
    var reading: Option<int> := None;
    if Key(u) !in payload {
      errors := errors + [MissingTotal(u)];
    } else {
      reading := Reading(u, payload[Key(u)]);
      if reading.None? { errors := errors + [InvalidTotal(u)]; }
    }
    var status := raw[Key(u)];
    StatusWordsDiffer();
    if status != Str(OBSERVED) && status != Str(RESERVED) && status != Str(INAPPLICABLE) {
      errors := errors + [BadStatus(u)];
    } else if reading.Some? {
      var projected := ProjectionOf(p, u);
      if status == Str(INAPPLICABLE) && (projected != 0 || reading.value != 0) {
        errors := errors + [ImpossibleInapplicable(u)];
      }
      if status == Str(RESERVED) && (projected <= 0 || reading.value != projected) {
        errors := errors + [NotChargedAtProjection(u)];
      }
      overrun := status == Str(OBSERVED) && reading.value > projected;
    }
  }

  lemma StatusWordsDiffer()
    ensures OBSERVED != RESERVED && RESERVED != INAPPLICABLE && OBSERVED != INAPPLICABLE
  {
  }

  method RecordEvidence(p: C.Projection, payload: Fields, exceeded: set<Unit>)
    returns (exceeded': set<Unit>, errors: seq<HistoryError>)
    requires HasEvidence(payload)
    ensures errors == [] <==> EvidenceOk(p, payload)
    ensures errors == [] ==> forall u: Unit ::
            u in exceeded' <==> u in exceeded || ShowsProjectionOverrun(p, payload, u)
  {
    exceeded', errors := exceeded, [];
    var raw := Get(payload, EVIDENCE);
    if !raw.Obj? || raw.fields.Keys != NONWALL_KEYS {
      return exceeded', [BadEvidenceFields];
    }
    for k := 0 to |NONWALL|
      invariant forall u: Unit ::
                u in exceeded' <==> u in exceeded || (u in NONWALL[..k] && ShowsProjectionOverrun(p, payload, u))
      invariant errors == [] <==> forall u: Unit | u in NONWALL[..k] ::
                Key(u) in raw.fields && UnitEvidenceOk(p, payload, raw.fields, u)
    {
      var u := NONWALL[k];
      assert NONWALL[..k + 1] == NONWALL[..k] + [u];
      assert Key(u) in NONWALL_KEYS;
      var overrun, unitErrors := RecordUnitEvidence(p, payload, raw.fields, u);
      assert overrun <==> ShowsProjectionOverrun(p, payload, u);
      errors := errors + unitErrors;
      if overrun { exceeded' := exceeded' + {u}; }
    }
    assert NONWALL[..|NONWALL|] == NONWALL;
    NonWallListed();
  }

  lemma NonWallListed()
    ensures forall u: Unit :: u in NONWALL <==> IsNonWall(u)
  {
    assert NONWALL[0] == CostUsd && NONWALL[1] == GpuHours && NONWALL[2] == ModelTokens && NONWALL[3] == ToolCalls;
  }

  ghost predicate EntriesOk(us: seq<Fields>, p: C.Projection) {
    TotalsValid(us) && TotalsNeverDecrease(us) && EvidenceValid(p, us)
  }

  ghost predicate StepOk(totals: map<Unit, int>, payload: Fields)
    requires forall u: Unit :: u in totals
  {
    forall u: Unit :: TotalsStepOk(totals, payload, u)
  }

  lemma StepOkExtends(us: seq<Fields>, payload: Fields, totals: map<Unit, int>)
    requires TotalsValid(us) && TotalsNeverDecrease(us) && Describes(us, totals) && StepOk(totals, payload)
    ensures TotalsValid(us + [payload]) && TotalsNeverDecrease(us + [payload])
  {
    var all := us + [payload];
    forall i, u: Unit | 0 <= i < |all| && Key(u) in all[i]
      ensures Reading(u, all[i][Key(u)]).Some?
    {
      assert TotalsStepOk(totals, payload, u);
    }
    forall i, j, u: Unit | 0 <= i < j < |all| && Key(u) in all[i] && Key(u) in all[j]
      ensures Reading(u, all[i][Key(u)]).value <= Reading(u, all[j][Key(u)]).value
    {
      assert TotalsStepOk(totals, payload, u);
      assert all[i] == us[i];
    }
  }

  lemma StepOkDescribes(us: seq<Fields>, payload: Fields, totals: map<Unit, int>, totals': map<Unit, int>)
    requires TotalsValid(us) && Describes(us, totals) && StepOk(totals, payload) && TotalsValid(us + [payload])
    requires forall u: Unit :: u in totals' && totals'[u] == NextTotal(totals, payload, u)
    ensures Describes(us + [payload], totals')
  {
    var all := us + [payload];
    forall u: Unit
      ensures totals'[u] == 0 || exists i | 0 <= i < |all| && Key(u) in all[i] ::
              Reading(u, all[i][Key(u)]).value == totals'[u]
    {
      if Key(u) in payload {
        assert Key(u) in all[|us|];
      } else if totals[u] != 0 {
        var i :| 0 <= i < |us| && Key(u) in us[i] && Reading(u, us[i][Key(u)]).value == totals[u];
        assert Key(u) in all[i];
      }
    }
    forall i, u: Unit | 0 <= i < |all| && Key(u) in all[i]
      ensures Reading(u, all[i][Key(u)]).value <= totals'[u]
    {
      assert TotalsStepOk(totals, payload, u);
      assert i < |us| ==> all[i] == us[i];
    }
  }

  lemma StepBadStops(us: seq<Fields>, payload: Fields, totals: map<Unit, int>)
    requires TotalsValid(us) && Describes(us, totals)
    requires TotalsValid(us + [payload]) && TotalsNeverDecrease(us + [payload])
    ensures StepOk(totals, payload)
  {
    var all := us + [payload];
    assert all[|us|] == payload;
    forall u: Unit
      ensures TotalsStepOk(totals, payload, u)
    {
      if Key(u) in payload {
        assert Key(u) in all[|us|];
        if totals[u] != 0 {
          var i :| 0 <= i < |us| && Key(u) in us[i] && Reading(u, us[i][Key(u)]).value == totals[u];
          assert all[i] == us[i];
        }
      }
    }
  }

  /** A further update is judged correctly from the running totals alone. */
  lemma TotalsSnoc(us: seq<Fields>, payload: Fields, totals: map<Unit, int>, totals': map<Unit, int>)
    requires TotalsValid(us) && TotalsNeverDecrease(us) && Describes(us, totals)
    requires forall u: Unit :: u in totals' && totals'[u] == NextTotal(totals, payload, u)
    ensures StepOk(totals, payload) <==> (TotalsValid(us + [payload]) && TotalsNeverDecrease(us + [payload]))
    ensures StepOk(totals, payload) ==> Describes(us + [payload], totals')
  {
    if StepOk(totals, payload) {
      StepOkExtends(us, payload, totals);
      StepOkDescribes(us, payload, totals, totals');
    }
    if TotalsValid(us + [payload]) && TotalsNeverDecrease(us + [payload]) {
      StepBadStops(us, payload, totals);
    }
  }

  lemma EntriesPrefix(us: seq<Fields>, payload: Fields, p: C.Projection)
    requires EntriesOk(us + [payload], p)
    ensures EntriesOk(us, p)
  {
    var all := us + [payload];
    assert forall i | 0 <= i < |us| :: all[i] == us[i];
  }

  lemma EvidenceSnoc(us: seq<Fields>, payload: Fields, p: C.Projection)
    ensures EvidenceValid(p, us + [payload])
            <==> EvidenceValid(p, us) && (HasEvidence(payload) ==> EvidenceOk(p, payload))
  {
    var all := us + [payload];
    assert all[|us|] == payload && forall i | 0 <= i < |us| :: all[i] == us[i];
  }

  ghost predicate MarksOverruns(b: P.RunBudget, p: C.Projection, us: seq<Fields>, exceeded: set<Unit>,
                                projection: set<Unit>) {
    && (forall u: Unit :: u in exceeded <==> exists i | 0 <= i < |us| :: ShowsBudgetOverrun(b, us[i], u))
    && (forall u: Unit :: u in projection <==> exists i | 0 <= i < |us| :: ShowsProjectionOverrun(p, us[i], u))
  }

  lemma OverrunsSnoc(b: P.RunBudget, p: C.Projection, us: seq<Fields>, payload: Fields,
                     exceeded: set<Unit>, projection: set<Unit>, exceeded': set<Unit>, projection': set<Unit>)
    requires MarksOverruns(b, p, us, exceeded, projection)
    requires forall u: Unit :: u in exceeded' <==> u in exceeded || ShowsBudgetOverrun(b, payload, u)
    requires forall u: Unit :: u in projection' <==> u in projection || ShowsProjectionOverrun(p, payload, u)
    ensures MarksOverruns(b, p, us + [payload], exceeded', projection')
  {
    var all := us + [payload];
    assert all[|us|] == payload && forall i | 0 <= i < |us| :: all[i] == us[i];
    forall u: Unit
      ensures u in exceeded' <==> exists i | 0 <= i < |all| :: ShowsBudgetOverrun(b, all[i], u)
      ensures u in projection' <==> exists i | 0 <= i < |all| :: ShowsProjectionOverrun(p, all[i], u)
    {
      if u in exceeded {
        var i :| 0 <= i < |us| && ShowsBudgetOverrun(b, us[i], u);
        assert ShowsBudgetOverrun(b, all[i], u);
      }
      if u in projection {
        var i :| 0 <= i < |us| && ShowsProjectionOverrun(p, us[i], u);
        assert ShowsProjectionOverrun(p, all[i], u);
      }
    }
  }

  lemma UpdatesNext(es: seq<HarnessEvent>, k: nat)
    requires k < |es|
    ensures Updates(es[..k + 1]) == Updates(es[..k]) + if es[k].eventType.BudgetUpdate? then [es[k].payload] else []
  {
    assert es[..k + 1][..k] == es[..k];
  }

  lemma EvidenceNext(us: seq<Fields>, payload: Fields)
    ensures EvidenceCount(us + [payload]) == EvidenceCount(us) + if HasEvidence(payload) then 1 else 0
  {
    assert (us + [payload])[..|us|] == us;
  }

  /** One budget update: its totals and, if it closes accounting, its evidence. */
  method ReadUpdate(b: P.RunBudget, p: C.Projection, ghost us: seq<Fields>, payload: Fields, totals: map<Unit, int>,
                    exceeded: set<Unit>, projection: set<Unit>, ghost clean: bool)
    returns (totals': map<Unit, int>, exceeded': set<Unit>, projection': set<Unit>, errors: seq<HistoryError>)
    requires forall u: Unit :: u in totals
    requires ReadSoFar(b, p, us, clean, totals, exceeded, projection)
    ensures forall u: Unit :: u in totals'
    ensures ReadSoFar(b, p, us + [payload], clean && errors == [], totals', exceeded', projection')
  {
    totals', exceeded', errors := RecordTotals(b, payload, totals, exceeded);
    projection' := projection;
    if HasEvidence(payload) {
      var more;
      projection', more := RecordEvidence(p, payload, projection);
      errors := errors + more;
    }
    EntryStep(b, p, us, payload, totals, totals', exceeded, exceeded', projection, projection', clean, errors == []);
  }

  /** What the pass has established of the updates read so far. */
  ghost predicate ReadSoFar(b: P.RunBudget, p: C.Projection, us: seq<Fields>, clean: bool, totals: map<Unit, int>,
                            exceeded: set<Unit>, projection: set<Unit>)
    requires forall u: Unit :: u in totals
  {
    && (clean <==> EntriesOk(us, p))
    && (clean ==> Describes(us, totals) && MarksOverruns(b, p, us, exceeded, projection))
  }

  lemma NothingRead(b: P.RunBudget, p: C.Projection, totals: map<Unit, int>)
    requires forall u: Unit :: u in totals && totals[u] == 0
    ensures ReadSoFar(b, p, [], true, totals, {}, {})
  {
  }

  /** The single pass over the events. */
  method ReadUpdates(es: seq<HarnessEvent>, b: P.RunBudget, p: C.Projection)
    returns (errors: seq<HistoryError>, exceeded: set<Unit>, projection: set<Unit>, evidence: nat)
    ensures errors == [] <==> EntriesOk(Updates(es), p)
    ensures errors == [] ==> MarksOverruns(b, p, Updates(es), exceeded, projection)
    ensures evidence == EvidenceCount(Updates(es))
  {
    errors, exceeded, projection, evidence := [], {}, {}, 0;
    var totals: map<Unit, int> := map u | u in UNITS :: 0;
    forall u: Unit ensures u in UNITS { EveryUnitListed(u); }
    NothingRead(b, p, totals);
    for k := 0 to |es|
      invariant forall u: Unit :: u in totals
      invariant ReadSoFar(b, p, Updates(es[..k]), errors == [], totals, exceeded, projection)
      invariant evidence == EvidenceCount(Updates(es[..k]))
    {
      UpdatesNext(es, k);
      ghost var us := Updates(es[..k]);
      if es[k].eventType.BudgetUpdate? {
        var payload := es[k].payload;
        EvidenceNext(us, payload);
        if HasEvidence(payload) { evidence := evidence + 1; }
        var stepErrors;
        totals, exceeded, projection, stepErrors :=
          ReadUpdate(b, p, us, payload, totals, exceeded, projection, errors == []);
        errors := errors + stepErrors;
      } else {
        AppendNothing(us);
      }
    }
    WholePrefix(es);
  }

  /** The validator decides exactly the declarative condition. */
  method ValidateBudgetHistory(es: seq<HarnessEvent>, b: P.RunBudget, p: C.Projection)
    returns (errors: seq<HistoryError>)
    ensures errors == [] <==> HistoryAccepted(Updates(es), TerminalStatus(es), b, p)
  {
    var exceeded, projectionExceeded, evidence;
    errors, exceeded, projectionExceeded, evidence := ReadUpdates(es, b, p);
    var terminal := TerminalStatus(es);
    ghost var entries := errors == [];
    if evidence > 1 { errors := errors + [RepeatedEvidence]; }
    if p.HasUsage() && evidence != 1 { errors := errors + [MissingEvidence]; }
    if projectionExceeded != {} && terminal != Some(PROJECTION_EXCEEDED) {
      errors := errors + [ProjectionOverrunUnstopped];
    }
    if exceeded != {} && terminal != Some(BUDGET_EXCEEDED) && terminal != Some(PROJECTION_EXCEEDED) {
      errors := errors + [BudgetOverrunUnstopped];
    }
    if entries {
      OverrunSets(b, p, Updates(es), exceeded, projectionExceeded);
    }
  }

  lemma OverrunSets(b: P.RunBudget, p: C.Projection, us: seq<Fields>, exceeded: set<Unit>, projection: set<Unit>)
    requires MarksOverruns(b, p, us, exceeded, projection)
    ensures exceeded != {} <==> BudgetOverrun(b, us)
    ensures projection != {} <==> ProjectionOverrun(p, us)
  {
    if exceeded != {} {
      var u :| u in exceeded;
      var i :| 0 <= i < |us| && ShowsBudgetOverrun(b, us[i], u);
    }
    if projection != {} {
      var u :| u in projection;
      var i :| 0 <= i < |us| && ShowsProjectionOverrun(p, us[i], u);
    }
    if BudgetOverrun(b, us) {
      var i, u: Unit :| 0 <= i < |us| && ShowsBudgetOverrun(b, us[i], u);
      assert u in exceeded;
    }
    if ProjectionOverrun(p, us) {
      var i, u: Unit :| 0 <= i < |us| && ShowsProjectionOverrun(p, us[i], u);
      assert u in projection;
    }
  }

  lemma EntryStep(b: P.RunBudget, p: C.Projection, us: seq<Fields>, payload: Fields,
                  totals: map<Unit, int>, totals': map<Unit, int>, exceeded: set<Unit>, exceeded': set<Unit>,
                  projection: set<Unit>, projection': set<Unit>, clean: bool, stepClean: bool)
    requires forall u: Unit :: u in totals && u in totals' && totals'[u] == NextTotal(totals, payload, u)
    requires clean <==> EntriesOk(us, p)
    requires clean ==> Describes(us, totals) && MarksOverruns(b, p, us, exceeded, projection)
    requires stepClean <==>
               && (forall u: Unit :: TotalsStepOk(totals, payload, u))
               && (HasEvidence(payload) ==> EvidenceOk(p, payload))
    requires forall u: Unit :: u in exceeded' <==> u in exceeded || ShowsBudgetOverrun(b, payload, u)
    requires stepClean ==> forall u: Unit ::
             u in projection' <==> u in projection || ShowsProjectionOverrun(p, payload, u)
    ensures clean && stepClean <==> EntriesOk(us + [payload], p)
    ensures clean && stepClean
            ==> Describes(us + [payload], totals') && MarksOverruns(b, p, us + [payload], exceeded', projection')
  {
    EvidenceSnoc(us, payload, p);
    if clean {
      TotalsSnoc(us, payload, totals, totals');
      if stepClean {
        OverrunsSnoc(b, p, us, payload, exceeded, projection, exceeded', projection');
      }
    } else if EntriesOk(us + [payload], p) {
      EntriesPrefix(us, payload, p);
    }
  }
}
