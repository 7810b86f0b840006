/** What an accepted budget history says, update by update, in the words and numbers of the log. */
module AcceptedHistories {
  import opened Common
  import opened Json
  import opened Budget
  import opened BudgetHistory
  import P = RunPlans
  import C = Commands

  /** The six totals under their own keys. */
  lemma KeysSpelled()
    ensures Key(WallSeconds) == "wall_seconds" && Key(CostUsd) == "cost_usd" && Key(GpuHours) == "gpu_hours"
    ensures Key(ModelTokens) == "model_tokens" && Key(ToolCalls) == "tool_calls" && Key(OutputBytes) == "output_bytes"
  {
  }

  /** A total is a nonnegative number, and tokens, calls and bytes are integers. */
  lemma ReadingMeans(u: Unit, v: Value, n: int)
    ensures Reading(u, v) == Some(n) <==>
              n >= 0 && if u in {ModelTokens, ToolCalls, OutputBytes} then v == Int(n)
                        else v == Float(n) || (v.Int? && v.i >= 0 && n == v.i * ONE)
  {
    if v.Int? && v.i >= 0 { assert v.i * ONE >= 0; }
  }

  /** Whatever stands under a total's key reads as that total, and never as less than it was before. */
  lemma TotalsOnlyGrow(us: seq<Fields>, terminal: Option<string>, b: P.RunBudget, p: C.Projection,
                       i: nat, j: nat, u: Unit)
    requires HistoryAccepted(us, terminal, b, p) && i <= j < |us| && Key(u) in us[i] && Key(u) in us[j]
    ensures exists m, n :: Reading(u, us[i][Key(u)]) == Some(m) && Reading(u, us[j][Key(u)]) == Some(n) && m <= n
  {
    var m, n := Reading(u, us[i][Key(u)]).value, Reading(u, us[j][Key(u)]).value;
    assert Reading(u, us[i][Key(u)]) == Some(m) && Reading(u, us[j][Key(u)]) == Some(n) && m <= n;
  }

  lemma {:induction false} EvidenceCounted(us: seq<Fields>)
    ensures EvidenceCount(us) == 0 <==> forall i | 0 <= i < |us| :: !HasEvidence(us[i])
    ensures EvidenceCount(us) <= 1 <==>
              forall i, j | 0 <= i < |us| && 0 <= j < |us| && HasEvidence(us[i]) && HasEvidence(us[j]) :: i == j
  {
    if us != [] {
      var front := us[..|us| - 1];
      EvidenceCounted(front);
      assert forall i | 0 <= i < |front| :: front[i] == us[i];
    }
  }

  /** Nonwall use is accounted for at most once, and exactly once where the command projects any. */
  lemma EvidenceOnce(us: seq<Fields>, terminal: Option<string>, b: P.RunBudget, p: C.Projection)
    requires HistoryAccepted(us, terminal, b, p)
    ensures forall i, j | 0 <= i < j < |us| ::
              Get(us[i], "nonwall_accounting") == Null || Get(us[j], "nonwall_accounting") == Null
    ensures p.costUsd > 0 || p.gpuHours > 0 || p.modelTokens > 0 || p.toolCalls > 0 ==>
              exists i :: 0 <= i < |us| && Get(us[i], "nonwall_accounting") != Null
  {
    EvidenceCounted(us);
    forall i, j | 0 <= i < j < |us|
      ensures Get(us[i], "nonwall_accounting") == Null || Get(us[j], "nonwall_accounting") == Null
    {
      assert HasEvidence(us[i]) <==> Get(us[i], "nonwall_accounting") != Null;
      assert HasEvidence(us[j]) <==> Get(us[j], "nonwall_accounting") != Null;
    }
    if p.HasUsage() {
      var i :| 0 <= i < |us| && HasEvidence(us[i]);
      assert Get(us[i], "nonwall_accounting") != Null;
    }
  }

  /** What one update says of one unit: its total, and whether that was observed, reserved or does not apply. */
  predicate SaysUnit(payload: Fields, u: Unit, projected: int) {
    && Get(payload, "nonwall_accounting").Obj? && Key(u) in payload && Reading(u, payload[Key(u)]).Some?
    && var total := Reading(u, payload[Key(u)]).value;
       var word := Get(Get(payload, "nonwall_accounting").fields, Key(u));
       && word in {Str("observed"), Str("unavailable-reserved"), Str("not-applicable")}
       && (word == Str("unavailable-reserved") ==> total == projected > 0)
       && (word == Str("not-applicable") ==> total == projected == 0)
  }

  lemma WordsApart()
    ensures "observed" != "unavailable-reserved" && "observed" != "not-applicable"
    ensures "unavailable-reserved" != "not-applicable"
  {
    assert |"observed"| == 8 && |"unavailable-reserved"| == 20 && |"not-applicable"| == 14;
  }

  /** What is not observed is charged as projected: all of it where any was projected, and nothing otherwise. */
  lemma EvidenceSays(us: seq<Fields>, terminal: Option<string>, b: P.RunBudget, p: C.Projection, i: nat)
    requires HistoryAccepted(us, terminal, b, p) && i < |us| && Get(us[i], "nonwall_accounting") != Null
    ensures SaysUnit(us[i], CostUsd, p.costUsd) && SaysUnit(us[i], GpuHours, p.gpuHours)
    ensures SaysUnit(us[i], ModelTokens, p.modelTokens) && SaysUnit(us[i], ToolCalls, p.toolCalls)
    ensures Get(us[i], "nonwall_accounting").fields.Keys == {"cost_usd", "gpu_hours", "model_tokens", "tool_calls"}
  {
    assert HasEvidence(us[i]) && EvidenceOk(p, us[i]);
    UnitsSay(p, us[i]);
  }

  lemma UnitsSay(p: C.Projection, payload: Fields)
    requires EvidenceOk(p, payload)
    ensures SaysUnit(payload, CostUsd, p.costUsd) && SaysUnit(payload, GpuHours, p.gpuHours)
    ensures SaysUnit(payload, ModelTokens, p.modelTokens) && SaysUnit(payload, ToolCalls, p.toolCalls)
  {
    WordsApart();
  }

  /** A total past its limit, or observed past its projection, is owned up to in the run's last word. */
  lemma OverrunsAreNamed(us: seq<Fields>, terminal: Option<string>, b: P.RunBudget, p: C.Projection, i: nat, u: Unit,
                         total: int)
    requires HistoryAccepted(us, terminal, b, p) && i < |us| && Key(u) in us[i]
    requires Reading(u, us[i][Key(u)]) == Some(total)
    ensures PastLimit(b, u, total) ==> terminal in {Some("budget-exceeded"), Some("resource-projection-exceeded")}
    ensures Get(us[i], "nonwall_accounting").Obj? && PastProjection(p, u, total)
            && Get(Get(us[i], "nonwall_accounting").fields, Key(u)) == Str("observed") ==>
              terminal == Some("resource-projection-exceeded")
  {
    if PastLimit(b, u, total) { assert ShowsBudgetOverrun(b, us[i], u); }
    if Get(us[i], "nonwall_accounting").Obj? && PastProjection(p, u, total)
       && Get(Get(us[i], "nonwall_accounting").fields, Key(u)) == Str("observed") {
      assert ShowsProjectionOverrun(p, us[i], u);
    }
  }

  /** Past the limit of that unit, if the plan has one. */
  predicate PastLimit(b: P.RunBudget, u: Unit, total: int) {
    || (u == WallSeconds && total > b.maxWallSeconds * ONE) || (u == CostUsd && total > b.maxCostUsd)
    || (u == GpuHours && total > b.maxGpuHours) || (u == OutputBytes && total > b.maxOutputBytes)
    || (u == ModelTokens && b.maxModelTokens.Some? && total > b.maxModelTokens.value)
    || (u == ToolCalls && b.maxToolCalls.Some? && total > b.maxToolCalls.value)
  }

  predicate PastProjection(p: C.Projection, u: Unit, total: int) {
    || (u == CostUsd && total > p.costUsd) || (u == GpuHours && total > p.gpuHours)
    || (u == ModelTokens && total > p.modelTokens) || (u == ToolCalls && total > p.toolCalls)
  }
}
