/** Hard run budgets: the ledger that never exceeds its limits, and accounting against projections. */
module Budget {
  import opened Common
  import opened Json
  import P = RunPlans
  import C = Commands

  datatype Unit = WallSeconds | CostUsd | GpuHours | ModelTokens | ToolCalls | OutputBytes

  const UNITS: seq<Unit> := [WallSeconds, CostUsd, GpuHours, ModelTokens, ToolCalls, OutputBytes]

  predicate IsInteger(u: Unit) { u.ModelTokens? || u.ToolCalls? || u.OutputBytes? }

  datatype Usage = Usage(wallSeconds: Amount, costUsd: Amount, gpuHours: Amount, modelTokens: int, toolCalls: int,
                         outputBytes: int) {
    function Of(u: Unit): int {
      match u
      case WallSeconds => wallSeconds case CostUsd => costUsd case GpuHours => gpuHours
      case ModelTokens => modelTokens case ToolCalls => toolCalls case OutputBytes => outputBytes
    }

    predicate Valid() { forall u: Unit :: Of(u) >= 0 }

    function Plus(other: Usage): Usage {
      Usage(wallSeconds + other.wallSeconds, costUsd + other.costUsd, gpuHours + other.gpuHours,
            modelTokens + other.modelTokens, toolCalls + other.toolCalls, outputBytes + other.outputBytes)
    }
  }

  const NOTHING := Usage(0, 0, 0, 0, 0, 0)

  function Limit(b: P.RunBudget, u: Unit): Option<int> {
    match u
    case WallSeconds => Some(Whole(b.maxWallSeconds))
    case CostUsd => Some(b.maxCostUsd)
    case GpuHours => Some(b.maxGpuHours)
    case ModelTokens => b.maxModelTokens
    case ToolCalls => b.maxToolCalls
    case OutputBytes => Some(b.maxOutputBytes)
  }

  predicate Exceeds(b: P.RunBudget, u: Unit, total: int) {
    Limit(b, u).Some? && total > Limit(b, u).value
  }

  predicate Within(b: P.RunBudget, usage: Usage) {
    forall u: Unit :: !Exceeds(b, u, usage.Of(u))
  }

  /** The six limits, field by field; a plan may leave tokens and calls unlimited. */
  lemma WithinMeans(b: P.RunBudget, usage: Usage)
    ensures Within(b, usage) <==>
              && usage.wallSeconds <= Whole(b.maxWallSeconds)
              && usage.costUsd <= b.maxCostUsd && usage.gpuHours <= b.maxGpuHours
              && (b.maxModelTokens.Some? ==> usage.modelTokens <= b.maxModelTokens.value)
              && (b.maxToolCalls.Some? ==> usage.toolCalls <= b.maxToolCalls.value)
              && usage.outputBytes <= b.maxOutputBytes
  {
    if Within(b, usage) {
      assert !Exceeds(b, WallSeconds, usage.Of(WallSeconds)) && !Exceeds(b, CostUsd, usage.Of(CostUsd));
      assert !Exceeds(b, GpuHours, usage.Of(GpuHours)) && !Exceeds(b, ModelTokens, usage.Of(ModelTokens));
      assert !Exceeds(b, ToolCalls, usage.Of(ToolCalls)) && !Exceeds(b, OutputBytes, usage.Of(OutputBytes));
    }
  }

  datatype BudgetError = InvalidIncrement | BudgetExceeded(violations: seq<Unit>)

  /** A usage ledger bound to immutable limits. */
  class BudgetGuard {
    const limits: P.RunBudget
    var usage: Usage

    ghost predicate Valid()
      reads this
    {
      P.BudgetOk(limits) && usage.Valid() && Within(limits, usage)
    }

    constructor (limits: P.RunBudget)
      requires P.BudgetOk(limits)
      ensures Valid() && this.limits == limits && usage == NOTHING
    {
      this.limits := limits;
      usage := NOTHING;
      new;
      forall u: Unit ensures !Exceeds(limits, u, NOTHING.Of(u)) {
        if u.WallSeconds? { WholeNonNegative(limits.maxWallSeconds); }
      }
    }

    method AssertWithin(current: Usage) returns (violations: seq<Unit>)
      ensures violations == [] <==> Within(limits, current)
      ensures forall u :: u in violations <==> Exceeds(limits, u, current.Of(u))
      ensures WallSeconds in violations <==> current.wallSeconds > Whole(limits.maxWallSeconds)
      ensures CostUsd in violations <==> current.costUsd > limits.maxCostUsd
      ensures GpuHours in violations <==> current.gpuHours > limits.maxGpuHours
      ensures ModelTokens in violations <==>
                limits.maxModelTokens.Some? && current.modelTokens > limits.maxModelTokens.value
      ensures ToolCalls in violations <==>
                limits.maxToolCalls.Some? && current.toolCalls > limits.maxToolCalls.value
      ensures OutputBytes in violations <==> current.outputBytes > limits.maxOutputBytes
    {
      violations := [];
      for k := 0 to |UNITS|
        invariant forall u :: u in violations <==> u in UNITS[..k] && Exceeds(limits, u, current.Of(u))
      {
        assert UNITS[..k + 1] == UNITS[..k] + [UNITS[k]];
        if Exceeds(limits, UNITS[k], current.Of(UNITS[k])) {
          violations := violations + [UNITS[k]];
        }
      }
      forall u: Unit ensures u in UNITS { EveryUnitListed(u); }
      assert UNITS[..|UNITS|] == UNITS;
      if violations != [] { assert violations[0] in violations; }
    }

    /** The ledger as it would be; refused when an increment is negative or a limit would be passed. */
    method AssertProjected(increment: Usage) returns (r: Result<Usage, BudgetError>)
      ensures r.Ok? <==> increment.Valid() && Within(limits, usage.Plus(increment))
      ensures r.Ok? ==> r.value == usage.Plus(increment)
      ensures r.Err? ==> (r.error.InvalidIncrement? <==> !increment.Valid())
    {
      if increment.wallSeconds < 0 || increment.costUsd < 0 || increment.gpuHours < 0
         || increment.modelTokens < 0 || increment.toolCalls < 0 || increment.outputBytes < 0 {
        assert !increment.Valid() by {
          assert increment.Of(WallSeconds) < 0 || increment.Of(CostUsd) < 0 || increment.Of(GpuHours) < 0
              || increment.Of(ModelTokens) < 0 || increment.Of(ToolCalls) < 0 || increment.Of(OutputBytes) < 0;
        }
        return Err(InvalidIncrement);
      }
      var candidate := usage.Plus(increment);
      var violations := AssertWithin(candidate);
      if violations != [] {
        return Err(BudgetExceeded(violations));
      }
      r := Ok(candidate);
    }

    /** Records an increment, or leaves the ledger untouched. */
    method Record(increment: Usage) returns (r: Result<Usage, BudgetError>)
      requires Valid()
      modifies this
      ensures Valid()
      ensures usage == AfterRecord(limits, old(usage), increment)
      ensures r.Ok? <==> increment.Valid() && Within(limits, old(usage).Plus(increment))
      ensures r.Ok? ==> r.value == usage
    {
      r := AssertProjected(increment);
      if r.Ok? {
        assert r.value.Valid() by {
          forall u: Unit ensures r.value.Of(u) >= 0 { assert usage.Of(u) >= 0 && increment.Of(u) >= 0; }
        }
        usage := r.value;
      }
    }
  }

  lemma EveryUnitListed(u: Unit)
    ensures u in UNITS
  {
    var at := match u case WallSeconds => 0 case CostUsd => 1 case GpuHours => 2
                      case ModelTokens => 3 case ToolCalls => 4 case OutputBytes => 5;
    assert UNITS[at] == u;
  }

  lemma WholeNonNegative(n: int)
    requires n >= 0
    ensures Whole(n) >= 0
  {
  }

  function AfterRecord(b: P.RunBudget, usage: Usage, increment: Usage): Usage {
    if increment.Valid() && Within(b, usage.Plus(increment)) then usage.Plus(increment) else usage
  }

  function Ledger(b: P.RunBudget, increments: seq<Usage>): Usage {
    if increments == [] then NOTHING
    else AfterRecord(b, Ledger(b, increments[..|increments| - 1]), increments[|increments| - 1])
  }

  /** The increments that were recorded, in order. */
  function Recorded(b: P.RunBudget, increments: seq<Usage>): seq<Usage> {
    if increments == [] then []
    else
      var front, last := increments[..|increments| - 1], increments[|increments| - 1];
      Recorded(b, front) + if last.Valid() && Within(b, Ledger(b, front).Plus(last)) then [last] else []
  }

  function Total(usages: seq<Usage>): Usage {
    if usages == [] then NOTHING else Total(usages[..|usages| - 1]).Plus(usages[|usages| - 1])
  }

  /** Conservation: whatever is offered, the ledger stays within its limits and is the sum of what it recorded. */
  lemma {:induction false} LedgerConserves(b: P.RunBudget, increments: seq<Usage>)
    requires P.BudgetOk(b)
    ensures Within(b, Ledger(b, increments)) && Ledger(b, increments).Valid()
    ensures Ledger(b, increments) == Total(Recorded(b, increments))
  {
    if increments == [] {
      forall u: Unit ensures !Exceeds(b, u, NOTHING.Of(u)) {
        if u.WallSeconds? { WholeNonNegative(b.maxWallSeconds); }
      }
    } else {
      var front, last := increments[..|increments| - 1], increments[|increments| - 1];
      LedgerConserves(b, front);
      var before := Ledger(b, front);
      if last.Valid() && Within(b, before.Plus(last)) {
        forall u: Unit ensures before.Plus(last).Of(u) >= 0 { assert before.Of(u) >= 0 && last.Of(u) >= 0; }
        var all := Recorded(b, front) + [last];
        assert all[..|all| - 1] == Recorded(b, front) && Recorded(b, increments) == all;
      } else {
        assert Recorded(b, increments) == Recorded(b, front);
      }
    }
  }

  /** One unit of the increments, added up. */
  function UnitSum(unit: Usage -> int, usages: seq<Usage>): int {
    if usages == [] then 0 else UnitSum(unit, usages[..|usages| - 1]) + unit(usages[|usages| - 1])
  }

  /** The six units are kept apart, and each is the sum of its own amounts. */
  predicate AddsUp(total: Usage, usages: seq<Usage>) {
    && total.wallSeconds == UnitSum((u: Usage) => u.wallSeconds, usages)
    && total.costUsd == UnitSum((u: Usage) => u.costUsd, usages)
    && total.gpuHours == UnitSum((u: Usage) => u.gpuHours, usages)
    && total.modelTokens == UnitSum((u: Usage) => u.modelTokens, usages)
    && total.toolCalls == UnitSum((u: Usage) => u.toolCalls, usages)
    && total.outputBytes == UnitSum((u: Usage) => u.outputBytes, usages)
  }

  lemma {:induction false} TotalAddsUp(usages: seq<Usage>)
    ensures AddsUp(Total(usages), usages)
  {
    if usages != [] { TotalAddsUp(usages[..|usages| - 1]); }
  }

  /** Unit by unit the ledger is the sum of the accepted increments. */
  lemma LedgerAddsUp(b: P.RunBudget, increments: seq<Usage>)
    requires P.BudgetOk(b)
    ensures AddsUp(Ledger(b, increments), Recorded(b, increments))
  {
    LedgerConserves(b, increments);
    TotalAddsUp(Recorded(b, increments));
  }

  // -------------------------------------------------- non-wall accounting

  /** Observed values, or an attestation that a unit was unavailable. */
  datatype Accounting = Accounting(costUsd: Option<Amount>, gpuHours: Option<Amount>, modelTokens: Option<int>,
                                   toolCalls: Option<int>) {
    function Of(u: Unit): Option<int> {
      match u
      case CostUsd => costUsd case GpuHours => gpuHours
      case ModelTokens => modelTokens case ToolCalls => toolCalls
      case WallSeconds => None case OutputBytes => None
    }

    predicate Valid() { forall u: Unit | Of(u).Some? :: Of(u).value >= 0 }
  }

  const NONWALL: seq<Unit> := [CostUsd, GpuHours, ModelTokens, ToolCalls]

  predicate IsNonWall(u: Unit) { !u.WallSeconds? && !u.OutputBytes? }

  function ProjectionOf(p: C.Projection, u: Unit): int {
    match u
    case CostUsd => p.costUsd case GpuHours => p.gpuHours
    case ModelTokens => p.modelTokens case ToolCalls => p.toolCalls
    case WallSeconds => 0 case OutputBytes => 0
  }

  /** What is charged for a unit: its observed value, or its whole projection when unavailable. */
  function Charged(p: C.Projection, a: Accounting, u: Unit): int {
    if a.Of(u).Some? then a.Of(u).value else ProjectionOf(p, u)
  }

  /** Observed use of some unit passes the preflight projection. */
  predicate ProjectionViolated(p: C.Projection, a: Accounting) {
    exists u: Unit | IsNonWall(u) && a.Of(u).Some? :: a.Of(u).value > ProjectionOf(p, u)
  }

  function UsageOf(p: C.Projection, a: Accounting, wall: Amount, output: int): Usage {
    Usage(wall, Charged(p, a, CostUsd), Charged(p, a, GpuHours), Charged(p, a, ModelTokens),
          Charged(p, a, ToolCalls), output)
  }

  /** The whole projected use of one command, wall time at its timeout. */
  function ProjectedUsage(c: C.CommandSpec): Usage {
    var p := c.projection;
    Usage(Whole(c.timeoutSeconds), p.costUsd, p.gpuHours, p.modelTokens, p.toolCalls, 0)
  }

  /**
   Budget soundness across the phases: with the projection inside the budget, the output quota respected
   and observed use inside its projection, accounting can pass the budget on wall time only.
   */
  lemma OnlyWallTimeCanExceed(b: P.RunBudget, c: C.CommandSpec, a: Accounting, wall: Amount, output: int, u: Unit)
    requires Within(b, ProjectedUsage(c)) && output <= b.maxOutputBytes
    requires !ProjectionViolated(c.projection, a)
    requires Exceeds(b, u, UsageOf(c.projection, a, wall, output).Of(u))
    ensures u == WallSeconds && wall > Whole(b.maxWallSeconds)
  {
    assert !Exceeds(b, u, ProjectedUsage(c).Of(u));
    ChargedWithinProjection(c.projection, a, u);
  }

  lemma ChargedWithinProjection(p: C.Projection, a: Accounting, u: Unit)
    requires !ProjectionViolated(p, a)
    ensures IsNonWall(u) ==> Charged(p, a, u) <= ProjectionOf(p, u)
  {
  }
}
