/** A parent profile against its child plans: the loader's coherence check and what it establishes. */
module ProfileCoherence {
  import opened Common
  import opened Json
  import T = TaskSources
  import P = RunPlans

  datatype Binding = Binding(path: string, condition: string)

  datatype Row = Row(pairId: string, taskId: string, taskSource: string, first: string, second: string,
                     bindings: seq<Binding>)

  /** The parent's sampling, model and budget sections. */
  datatype Parent = Parent(
    pairCount: int, conditions: seq<string>, datasetIds: seq<string>, rows: seq<Row>,
    modelRevision: string, maxCostUsd: Amount, maxModelTokens: int, maxWallSeconds: int)

  /** One entry of the loaded child plans, in the order they were declared. */
  datatype Child = Child(path: string, plan: P.RunPlan)

  predicate NoRepeats(s: seq<string>) {
    s != [] ==> s[|s| - 1] !in s[..|s| - 1] && NoRepeats(s[..|s| - 1])
  }

  function ChildPaths(children: seq<Child>): (paths: seq<string>)
    ensures |paths| == |children|
  {
    if children == [] then [] else ChildPaths(children[..|children| - 1]) + [children[|children| - 1].path]
  }

  /** `condition_records.get(path)`. */
  function FindChild(children: seq<Child>, path: string): Option<P.RunPlan> {
    if children == [] then None
    else if children[|children| - 1].path == path then Some(children[|children| - 1].plan)
    else FindChild(children[..|children| - 1], path)
  }

  function CountOf(children: seq<Child>, condition: string): nat {
    if children == [] then 0
    else
      var last := children[|children| - 1].plan.identity.condition;
      CountOf(children[..|children| - 1], condition) + if last == condition then 1 else 0
  }

  function PairIds(rows: seq<Row>): seq<string> {
    if rows == [] then [] else PairIds(rows[..|rows| - 1]) + [rows[|rows| - 1].pairId]
  }

  function TaskIds(rows: seq<Row>): seq<string> {
    if rows == [] then [] else TaskIds(rows[..|rows| - 1]) + [rows[|rows| - 1].taskId]
  }

  function Paths(bindings: seq<Binding>): (paths: seq<string>)
    ensures |paths| == |bindings|
    ensures forall j | 0 <= j < |bindings| :: paths[j] == bindings[j].path
  {
    seq(|bindings|, j requires 0 <= j < |bindings| => bindings[j].path)
  }

  /** Every bound path, row by row. */
  function BoundPaths(rows: seq<Row>): seq<string> {
    if rows == [] then [] else BoundPaths(rows[..|rows| - 1]) + Paths(rows[|rows| - 1].bindings)
  }

  // ------------------------------------------------------------ the checks

  datatype CoherenceError =
    | ChildCount | ConditionCounts | RepeatedIds | RowConditions
    | UndeclaredChild | ConditionMismatch | TaskMismatch | ModelRevision | DatasetRevision
    | DatasetUnlisted | SliceSource | QuerySource | MalformedTask | PairIdentity
    | PairDrift | PathsNotBijective | BudgetNotAggregate

  /** The child's task agrees with the row's source locator; typed tasks are never malformed. */
  function SourceError(parent: Parent, row: Row, task: P.RunTask): Option<CoherenceError> {
    if task.sourceKind.DatasetSlice? then
      if task.datasetId.None? || task.datasetId.value !in parent.datasetIds then Some(DatasetUnlisted)
      else if task.startIdx.None? || task.endIdx.None? || task.startIdx.value < 0 || task.endIdx.value < 0 then
        Some(MalformedTask)
      else if row.taskSource != T.DatasetSlice(task.datasetId.value, task.startIdx.value, task.endIdx.value) then
        Some(SliceSource)
      else None
    else if task.query.None? then Some(MalformedTask)
    else if !T.OpenQueryMatches(row.taskSource, task.query.value) then Some(QuerySource)
    else None
  }

  function OrderIn(row: Row, condition: string): int {
    if condition == row.first then 1 else 2
  }

  function BindingError(parent: Parent, children: seq<Child>, row: Row, b: Binding): Option<CoherenceError> {
    match FindChild(children, b.path)
    case None => Some(UndeclaredChild)
    case Some(child) =>
      if child.identity.condition != b.condition then Some(ConditionMismatch)
      else if child.task.None? || child.task.value.taskId != row.taskId then Some(TaskMismatch)
      else if child.sources.modelRevision != Some(parent.modelRevision) then Some(ModelRevision)
      else if child.sources.datasetRevision != child.task.value.datasetRevision then Some(DatasetRevision)
      else
        var source := SourceError(parent, row, child.task.value);
        if source.Some? then source
        else if child.pairing != Some(P.Pairing(row.pairId, OrderIn(row, b.condition))) then Some(PairIdentity)
        else None
  }

  predicate SourcesAgree(a: P.SourceVersions, b: P.SourceVersions) {
    && a.giclabCommit == b.giclabCommit && a.upstreamSourceId == b.upstreamSourceId
    && a.upstreamCommit == b.upstreamCommit
    && a.protocolSha256 == b.protocolSha256 && a.modelRevision == b.modelRevision
    && a.datasetRevision == b.datasetRevision && a.environmentSha256 == b.environmentSha256
  }

  /** Two children of one row differ in their condition and configuration only. */
  predicate PairMatches(left: P.RunPlan, right: P.RunPlan) {
    && left.task == right.task && left.budget == right.budget
    && left.identity.seed == right.identity.seed && left.identity.attempt == right.identity.attempt
    && left.execution.backend == right.execution.backend && left.execution.workload == right.execution.workload
    && SourcesAgree(left.sources, right.sources)
  }

  predicate BothMatch(left: Option<P.RunPlan>, right: Option<P.RunPlan>) {
    left.Some? && right.Some? && PairMatches(left.value, right.value)
  }

  predicate BindingsOk(parent: Parent, children: seq<Child>, row: Row) {
    forall b | b in row.bindings :: BindingError(parent, children, row, b).None?
  }

  predicate RowOk(parent: Parent, children: seq<Child>, row: Row) {
    && {row.first, row.second} == Elements(parent.conditions)
    && BindingsOk(parent, children, row)
    && (|row.bindings| == 2 ==>
          BothMatch(FindChild(children, row.bindings[0].path), FindChild(children, row.bindings[1].path)))
  }

  predicate CountsOk(parent: Parent, children: seq<Child>) {
    forall c | c in parent.conditions :: CountOf(children, c) == parent.pairCount && CountOf(children, c) > 0
  }

  datatype Cap = Cost | Tokens | Wall

  /** A hard cap of one child; money as the decimal number its text denotes. */
  function CapOf(decimal: Amount -> real, plan: P.RunPlan, cap: Cap): real {
    match cap
    case Cost => decimal(plan.budget.maxCostUsd)
    case Tokens => (if plan.budget.maxModelTokens.Some? then plan.budget.maxModelTokens.value else 0) as real
    case Wall => plan.budget.maxWallSeconds as real
  }

  function ParentCap(decimal: Amount -> real, parent: Parent, cap: Cap): real {
    match cap
    case Cost => decimal(parent.maxCostUsd)
    case Tokens => parent.maxModelTokens as real
    case Wall => parent.maxWallSeconds as real
  }

  function Total(decimal: Amount -> real, children: seq<Child>, cap: Cap): real {
    if children == [] then 0.0
    else Total(decimal, children[..|children| - 1], cap) + CapOf(decimal, children[|children| - 1].plan, cap)
  }

  /** What the check demands. */
  predicate Coherent(decimal: Amount -> real, parent: Parent, children: seq<Child>) {
    && |children| == parent.pairCount * |parent.conditions|
    && CountsOk(parent, children)
    && NoRepeats(PairIds(parent.rows)) && NoRepeats(TaskIds(parent.rows))
    && (forall row | row in parent.rows :: RowOk(parent, children, row))
    && NoRepeats(BoundPaths(parent.rows)) && Elements(BoundPaths(parent.rows)) == Elements(ChildPaths(children))
    && (forall cap: Cap :: Total(decimal, children, cap) == ParentCap(decimal, parent, cap))
  }

  // ------------------------------------------------------- the check, looping

  lemma {:induction false} NoRepeatsBySize(s: seq<string>)
    ensures |Elements(s)| <= |s|
    ensures NoRepeats(s) <==> |Elements(s)| == |s|
  {
    if s != [] {
      var front, last := s[..|s| - 1], s[|s| - 1];
      NoRepeatsBySize(front);
      assert s == front + [last];
      assert Elements(s) == Elements(front) + {last};
    }
  }

  /** The inner loop: the bindings of one row, collecting their paths and plans. */
  method CheckBindings(parent: Parent, children: seq<Child>, row: Row)
    returns (error: Option<CoherenceError>, paths: seq<string>, plans: seq<P.RunPlan>)
    ensures error.None? <==> BindingsOk(parent, children, row)
    ensures error.None? ==> paths == Paths(row.bindings) && |plans| == |row.bindings|
    ensures error.None? ==> forall j | 0 <= j < |plans| :: FindChild(children, row.bindings[j].path) == Some(plans[j])
  {
    paths, plans := [], [];
    for j := 0 to |row.bindings|
      invariant |plans| == |paths| == j
      invariant forall i | 0 <= i < j :: BindingError(parent, children, row, row.bindings[i]).None?
      invariant forall i | 0 <= i < j ::
                paths[i] == row.bindings[i].path && FindChild(children, row.bindings[i].path) == Some(plans[i])
    {
      var b := row.bindings[j];
      assert b in row.bindings;
      error := BindingError(parent, children, row, b);
      if error.Some? {
        return;
      }
      paths := paths + [b.path];
      plans := plans + [FindChild(children, b.path).value];
    }
    error := None;
  }

  method CheckCounts(parent: Parent, children: seq<Child>) returns (ok: bool)
    ensures ok <==> CountsOk(parent, children)
  {
    for k := 0 to |parent.conditions|
      invariant forall i | 0 <= i < k ::
                  var count := CountOf(children, parent.conditions[i]); count == parent.pairCount && count > 0
    {
      var count := CountOf(children, parent.conditions[k]);
      if count == 0 || count != parent.pairCount {
        assert parent.conditions[k] in parent.conditions;
        return false;
      }
    }
    ok := true;
  }

  predicate RowsOk(parent: Parent, children: seq<Child>, rows: seq<Row>) {
    && NoRepeats(PairIds(rows)) && NoRepeats(TaskIds(rows))
    && forall row | row in rows :: RowOk(parent, children, row)
  }

  /** One more row: its identifiers and its paths stand behind the others. */
  lemma ListsSnoc(rows: seq<Row>, row: Row)
    ensures PairIds(rows + [row]) == PairIds(rows) + [row.pairId]
            && TaskIds(rows + [row]) == TaskIds(rows) + [row.taskId]
    ensures BoundPaths(rows + [row]) == BoundPaths(rows) + Paths(row.bindings)
  {
    var all := rows + [row];
    assert all[..|all| - 1] == rows && all[|all| - 1] == row;
  }

  lemma RowsSnoc(parent: Parent, children: seq<Child>, rows: seq<Row>, row: Row)
    ensures RowsOk(parent, children, rows + [row]) <==>
              && RowsOk(parent, children, rows)
              && row.pairId !in PairIds(rows) && row.taskId !in TaskIds(rows)
              && RowOk(parent, children, row)
  {
    var all := rows + [row];
    assert all[..|all| - 1] == rows && all[|all| - 1] == row;
    ListsSnoc(rows, row);
    assert PairIds(all)[..|PairIds(rows)|] == PairIds(rows) && TaskIds(all)[..|TaskIds(rows)|] == TaskIds(rows);
  }

  lemma {:induction false} RowsPrefix(parent: Parent, children: seq<Child>, rows: seq<Row>, k: nat)
    requires k <= |rows| && RowsOk(parent, children, rows)
    ensures RowsOk(parent, children, rows[..k])
    decreases |rows|
  {
    if k < |rows| {
      var front := rows[..|rows| - 1];
      assert rows == front + [rows[|rows| - 1]];
      RowsSnoc(parent, children, front, rows[|rows| - 1]);
      RowsPrefix(parent, children, front, k);
      assert front[..k] == rows[..k];
    } else {
      assert rows[..k] == rows;
    }
  }

  lemma RowsStep(parent: Parent, children: seq<Child>, rows: seq<Row>, k: nat)
    requires k < |rows|
    ensures RowsOk(parent, children, rows) ==> RowsOk(parent, children, rows[..k + 1])
    ensures RowsOk(parent, children, rows[..k + 1]) <==>
              RowsOk(parent, children, rows[..k]) && rows[k].pairId !in Elements(PairIds(rows[..k]))
              && rows[k].taskId !in Elements(TaskIds(rows[..k])) && RowOk(parent, children, rows[k])
    ensures Elements(PairIds(rows[..k + 1])) == Elements(PairIds(rows[..k])) + {rows[k].pairId}
    ensures Elements(TaskIds(rows[..k + 1])) == Elements(TaskIds(rows[..k])) + {rows[k].taskId}
    ensures BoundPaths(rows[..k + 1]) == BoundPaths(rows[..k]) + Paths(rows[k].bindings)
  {
    assert rows[..k + 1] == rows[..k] + [rows[k]];
    RowsSnoc(parent, children, rows[..k], rows[k]);
    if RowsOk(parent, children, rows) {
      RowsPrefix(parent, children, rows, k + 1);
    }
  }

  /** The outer loop over the rows, remembering identifiers and bound paths. */
  method CheckRows(parent: Parent, children: seq<Child>) returns (error: Option<CoherenceError>, bound: seq<string>)
    ensures error.None? <==> RowsOk(parent, children, parent.rows)
    ensures error.None? ==> bound == BoundPaths(parent.rows)
  {
    var pairIds, taskIds := {}, {};
    bound := [];
    for k := 0 to |parent.rows|
      invariant RowsOk(parent, children, parent.rows[..k])
      invariant pairIds == Elements(PairIds(parent.rows[..k])) && taskIds == Elements(TaskIds(parent.rows[..k]))
      invariant bound == BoundPaths(parent.rows[..k])
    {
      var row := parent.rows[k];
      RowsStep(parent, children, parent.rows, k);
      error := CheckRow(parent, children, row, pairIds, taskIds);
      if error.Some? {
        return;
      }
      pairIds, taskIds := pairIds + {row.pairId}, taskIds + {row.taskId};
      bound := bound + Paths(row.bindings);
    }
    assert parent.rows[..|parent.rows|] == parent.rows;
    error := None;
  }

  method CheckRow(parent: Parent, children: seq<Child>, row: Row, pairIds: set<string>, taskIds: set<string>)
    returns (error: Option<CoherenceError>)
    ensures error.None? <==> row.pairId !in pairIds && row.taskId !in taskIds && RowOk(parent, children, row)
  {
    if row.pairId in pairIds || row.taskId in taskIds {
      return Some(RepeatedIds);
    }
    if {row.first, row.second} != Elements(parent.conditions) {
      return Some(RowConditions);
    }
    var paths, plans;
    error, paths, plans := CheckBindings(parent, children, row);
    if error.None? && |plans| == 2 {
      assert FindChild(children, row.bindings[0].path) == Some(plans[0])
             && FindChild(children, row.bindings[1].path) == Some(plans[1]);
      if !PairMatches(plans[0], plans[1]) {
        error := Some(PairDrift);
      }
    }
  }

  /** The whole check: no error exactly when parent and children are coherent. */
  method AssertChildrenCoherent(decimal: Amount -> real, parent: Parent, children: seq<Child>)
    returns (error: Option<CoherenceError>)
    ensures error.None? <==> Coherent(decimal, parent, children)
  {
    if |children| != parent.pairCount * |parent.conditions| {
      return Some(ChildCount);
    }
    var counts := CheckCounts(parent, children);
    if !counts {
      return Some(ConditionCounts);
    }
    var bound;
    error, bound := CheckRows(parent, children);
    if error.Some? {
      return;
    }
    NoRepeatsBySize(bound);
    if |bound| != |Elements(bound)| || Elements(bound) != Elements(ChildPaths(children)) {
      return Some(PathsNotBijective);
    }
    if Total(decimal, children, Cost) != ParentCap(decimal, parent, Cost)
       || Total(decimal, children, Tokens) != ParentCap(decimal, parent, Tokens)
       || Total(decimal, children, Wall) != ParentCap(decimal, parent, Wall) {
      return Some(BudgetNotAggregate);
    }
    error := None;
  }
}
