/** What a coherent profile establishes about its children. */
module ProfileTheorems {
  import opened Common
  import opened Json
  import opened ProfileCoherence
  import T = TaskSources
  import P = RunPlans
  import A = Authorization

  // --------------------------------------------------------- distinct lists

  lemma {:induction false} NoRepeatsMeans(s: seq<string>, i: nat, j: nat)
    requires NoRepeats(s) && i < j < |s|
    ensures s[i] != s[j]
    decreases |s|
  {
    var front := s[..|s| - 1];
    if j < |s| - 1 {
      NoRepeatsMeans(front, i, j);
      assert front[i] == s[i] && front[j] == s[j];
    } else {
      assert front[i] == s[i];
    }
  }

  lemma {:induction false} NoRepeatsMultiset(s: seq<string>, x: string)
    requires NoRepeats(s)
    ensures multiset(s)[x] == if x in s then 1 else 0
  {
    if s != [] {
      var front, last := s[..|s| - 1], s[|s| - 1];
      assert s == front + [last];
      NoRepeatsMultiset(front, x);
    }
  }

  lemma SameElementsPermute(s: seq<string>, t: seq<string>)
    requires NoRepeats(s) && NoRepeats(t) && Elements(s) == Elements(t)
    ensures multiset(s) == multiset(t)
  {
    forall x ensures multiset(s)[x] == multiset(t)[x] {
      NoRepeatsMultiset(s, x);
      NoRepeatsMultiset(t, x);
      assert x in s <==> x in Elements(s);
      assert x in t <==> x in Elements(t);
    }
  }

  /** A sum of real weights over a list of paths. */
  function Sum(weight: string -> real, paths: seq<string>): real {
    if paths == [] then 0.0 else Sum(weight, paths[..|paths| - 1]) + weight(paths[|paths| - 1])
  }

  lemma {:induction false} SumConcat(weight: string -> real, a: seq<string>, b: seq<string>)
    ensures Sum(weight, a + b) == Sum(weight, a) + Sum(weight, b)
    decreases |b|
  {
    if b == [] {
      assert a + b == a;
    } else {
      var all := a + b;
      assert all[..|all| - 1] == a + b[..|b| - 1] && all[|all| - 1] == b[|b| - 1];
      SumConcat(weight, a, b[..|b| - 1]);
    }
  }

  lemma SumOne(weight: string -> real, x: string)
    ensures Sum(weight, [x]) == weight(x)
  {
    assert [x][..0] == [];
    assert Sum(weight, []) == 0.0;
  }

  lemma WithoutOne(front: seq<string>, a: seq<string>, x: string, b: seq<string>)
    requires multiset(front + [x]) == multiset(a + [x] + b)
    ensures multiset(front) == multiset(a + b)
  {
    assert multiset(front + [x]) == multiset(front) + multiset{x};
    assert multiset(a + [x] + b) == multiset(a + b) + multiset{x};
    forall y ensures multiset(front)[y] == multiset(a + b)[y] {
      assert multiset(front + [x])[y] == multiset(front)[y] + multiset{x}[y];
      assert multiset(a + [x] + b)[y] == multiset(a + b)[y] + multiset{x}[y];
    }
  }

  /** The order of the paths does not matter. */
  lemma {:induction false} SumPermuted(weight: string -> real, s: seq<string>, t: seq<string>)
    requires multiset(s) == multiset(t)
    ensures Sum(weight, s) == Sum(weight, t)
    decreases |s|
  {
    assert |s| == |multiset(s)| == |multiset(t)| == |t|;
    if s != [] {
      var front, x := s[..|s| - 1], s[|s| - 1];
      assert s == front + [x];
      assert x in multiset(t);
      var k :| 0 <= k < |t| && t[k] == x;
      var a, b := t[..k], t[k + 1..];
      assert t == a + [x] + b;
      WithoutOne(front, a, x, b);
      SumPermuted(weight, front, a + b);
      SumConcat(weight, a, b);
      SumConcat(weight, a + [x], b);
      SumConcat(weight, a, [x]);
      SumConcat(weight, front, [x]);
      SumOne(weight, x);
    }
  }

  // -------------------------------------------------- every child bound once

  /** The position of a row's binding among all bound paths. */
  function Position(rows: seq<Row>, i: nat, j: nat): nat
    requires i < |rows|
  {
    |BoundPaths(rows[..i])| + j
  }

  lemma {:induction false} PositionHolds(rows: seq<Row>, i: nat, j: nat)
    requires i < |rows| && j < |rows[i].bindings|
    ensures Position(rows, i, j) < |BoundPaths(rows)|
            && BoundPaths(rows)[Position(rows, i, j)] == rows[i].bindings[j].path
    ensures Position(rows, i, j) < |BoundPaths(rows[..i + 1])|
    ensures |BoundPaths(rows[..i + 1])| <= |BoundPaths(rows)|
    decreases |rows|
  {
    var front, last := rows[..|rows| - 1], rows[|rows| - 1];
    if i == |rows| - 1 {
      assert rows[..i] == front && rows[..i + 1] == rows;
    } else {
      PositionHolds(front, i, j);
      assert front[..i] == rows[..i] && front[..i + 1] == rows[..i + 1];
    }
  }

  lemma {:induction false} LaterRowsLater(rows: seq<Row>, i: nat, k: nat)
    requires i <= k <= |rows|
    ensures |BoundPaths(rows[..i])| <= |BoundPaths(rows[..k])|
    decreases k
  {
    if i < k {
      LaterRowsLater(rows, i, k - 1);
      assert rows[..k][..k - 1] == rows[..k - 1];
    } else {
      assert rows[..i] == rows[..k];
    }
  }

  lemma {:induction false} PathIsBound(rows: seq<Row>, path: string) returns (i: nat, j: nat)
    requires path in BoundPaths(rows)
    ensures i < |rows| && j < |rows[i].bindings| && rows[i].bindings[j].path == path
    decreases |rows|
  {
    var front, last := rows[..|rows| - 1], rows[|rows| - 1];
    if path in BoundPaths(front) {
      i, j := PathIsBound(front, path);
    } else {
      i := |rows| - 1;
      assert path in Paths(last.bindings);
      j :| 0 <= j < |last.bindings| && Paths(last.bindings)[j] == path;
    }
  }

  lemma BoundInOnePlace(rows: seq<Row>, i: nat, j: nat, k: nat, l: nat)
    requires NoRepeats(BoundPaths(rows))
    requires i < |rows| && j < |rows[i].bindings| && k < |rows| && l < |rows[k].bindings|
    requires rows[i].bindings[j].path == rows[k].bindings[l].path
    ensures i == k && j == l
  {
    var p, q := Position(rows, i, j), Position(rows, k, l);
    PositionHolds(rows, i, j);
    PositionHolds(rows, k, l);
    if i < k { LaterRowsLater(rows, i + 1, k); }
    if k < i { LaterRowsLater(rows, k + 1, i); }
    if p < q { NoRepeatsMeans(BoundPaths(rows), p, q); }
    if q < p { NoRepeatsMeans(BoundPaths(rows), q, p); }
  }

  lemma {:induction false} ChildListed(children: seq<Child>, path: string)
    ensures path in ChildPaths(children) <==> FindChild(children, path).Some?
    ensures path in ChildPaths(children) <==> exists c | c in children :: c.path == path
  {
    if children != [] {
      var front, last := children[..|children| - 1], children[|children| - 1];
      assert children == front + [last];
      ChildListed(front, path);
    }
  }

  /** Each child is bound by exactly one binding of one row, and every binding names a child. */
  lemma EveryChildBoundOnce(decimal: Amount -> real, parent: Parent, children: seq<Child>, c: Child)
    returns (i: nat, j: nat)
    requires Coherent(decimal, parent, children) && c in children
    ensures i < |parent.rows| && j < |parent.rows[i].bindings| && parent.rows[i].bindings[j].path == c.path
    ensures forall k: nat, l: nat | k < |parent.rows| && l < |parent.rows[k].bindings|
            && parent.rows[k].bindings[l].path == c.path ::
              k == i && l == j
  {
    ChildListed(children, c.path);
    assert c.path in Elements(BoundPaths(parent.rows));
    i, j := PathIsBound(parent.rows, c.path);
    forall k: nat, l: nat | k < |parent.rows| && l < |parent.rows[k].bindings|
      && parent.rows[k].bindings[l].path == c.path
      ensures k == i && l == j
    {
      BoundInOnePlace(parent.rows, k, l, i, j);
    }
  }

  // ------------------------------------------------- no unexpected condition

  /** How many children run one of the listed conditions. */
  function CountAny(children: seq<Child>, conditions: seq<string>): nat {
    if children == [] then 0
    else
      var last := children[|children| - 1].plan.identity.condition;
      CountAny(children[..|children| - 1], conditions) + if last in conditions then 1 else 0
  }

  lemma {:induction false} CountAnyAdds(children: seq<Child>, front: seq<string>, c: string)
    requires c !in front
    ensures CountAny(children, front + [c]) == CountAny(children, front) + CountOf(children, c)
  {
    if children != [] {
      CountAnyAdds(children[..|children| - 1], front, c);
    }
  }

  lemma {:induction false} CountNone(children: seq<Child>)
    ensures CountAny(children, []) == 0
  {
    if children != [] { CountNone(children[..|children| - 1]); }
  }

  lemma {:induction false} CountAnyTotal(children: seq<Child>, conditions: seq<string>, n: int)
    requires NoRepeats(conditions) && forall c | c in conditions :: CountOf(children, c) == n
    ensures CountAny(children, conditions) == n * |conditions|
    decreases |conditions|
  {
    if conditions == [] {
      CountNone(children);
    } else {
      var front, c := conditions[..|conditions| - 1], conditions[|conditions| - 1];
      assert conditions == front + [c];
      CountAnyTotal(children, front, n);
      CountAnyAdds(children, front, c);
      OneMore(n, |front|);
    }
  }

  lemma OneMore(n: int, k: nat)
    ensures n * (k + 1) == n * k + n
  {
  }

  lemma {:induction false} CountAll(children: seq<Child>, conditions: seq<string>)
    ensures CountAny(children, conditions) <= |children|
    ensures CountAny(children, conditions) == |children| ==> forall c | c in children ::
            c.plan.identity.condition in conditions
  {
    if children != [] {
      CountAll(children[..|children| - 1], conditions);
      assert children == children[..|children| - 1] + [children[|children| - 1]];
    }
  }

  /** With distinct expected conditions no child runs an unexpected one: the counts leave no room. */
  lemma NoUnexpectedCondition(decimal: Amount -> real, parent: Parent, children: seq<Child>)
    requires Coherent(decimal, parent, children) && NoRepeats(parent.conditions)
    ensures forall c | c in children :: c.plan.identity.condition in parent.conditions
  {
    CountAnyTotal(children, parent.conditions, parent.pairCount);
    CountAll(children, parent.conditions);
  }

  // -------------------------------------------------------------- pair IDs

  lemma {:induction false} PairIdAt(rows: seq<Row>, i: nat)
    requires i < |rows|
    ensures |PairIds(rows)| == |rows| && PairIds(rows)[i] == rows[i].pairId
    decreases |rows|
  {
    var front := rows[..|rows| - 1];
    if i < |front| {
      PairIdAt(front, i);
    } else if front != [] {
      PairIdAt(front, 0);
    }
  }

  lemma BoundChild(parent: Parent, children: seq<Child>, i: nat, j: nat)
    requires i < |parent.rows| && j < |parent.rows[i].bindings| && RowOk(parent, children, parent.rows[i])
    ensures var row := parent.rows[i];
            FindChild(children, row.bindings[j].path).Some?
              && BindingError(parent, children, row, row.bindings[j]).None?
  {
    assert parent.rows[i].bindings[j] in parent.rows[i].bindings;
  }

  /** Two bound children share a pair identifier exactly when they stand in the same row. */
  lemma SharedPairIsSharedRow(decimal: Amount -> real, parent: Parent, children: seq<Child>, i: nat, j: nat,
                              k: nat, l: nat)
    requires Coherent(decimal, parent, children)
    requires i < |parent.rows| && j < |parent.rows[i].bindings| && k < |parent.rows| && l < |parent.rows[k].bindings|
    ensures var a, b :=
            FindChild(children, parent.rows[i].bindings[j].path), FindChild(children, parent.rows[k].bindings[l].path);
            && a.Some? && b.Some? && a.value.pairing.Some? && b.value.pairing.Some?
            && (a.value.pairing.value.pairId == b.value.pairing.value.pairId <==> i == k)
  {
    assert parent.rows[i] in parent.rows && parent.rows[k] in parent.rows;
    BoundChild(parent, children, i, j);
    BoundChild(parent, children, k, l);
    PairIdAt(parent.rows, i);
    PairIdAt(parent.rows, k);
    if i < k { NoRepeatsMeans(PairIds(parent.rows), i, k); }
    if k < i { NoRepeatsMeans(PairIds(parent.rows), k, i); }
  }

  /**
   The parent row fixes the slice: whatever the children, two dataset-slice plans bound by the same row
   have the same dataset, start and end, because the locator is injective.
   */
  lemma RowFixesSlice(parent: Parent, a: seq<Child>, b: seq<Child>, i: nat, j: nat, l: nat, p: P.RunPlan, q: P.RunPlan)
    requires i < |parent.rows| && j < |parent.rows[i].bindings| && l < |parent.rows[i].bindings|
    requires RowOk(parent, a, parent.rows[i]) && RowOk(parent, b, parent.rows[i])
    requires FindChild(a, parent.rows[i].bindings[j].path) == Some(p)
             && FindChild(b, parent.rows[i].bindings[l].path) == Some(q)
    ensures p.task.Some? && q.task.Some?
    ensures var s, t := p.task.value, q.task.value;
            s.sourceKind.DatasetSlice? && t.sourceKind.DatasetSlice? ==>
              s.datasetId == t.datasetId && s.startIdx == t.startIdx && s.endIdx == t.endIdx
  {
    BoundChild(parent, a, i, j);
    BoundChild(parent, b, i, l);
    var s, t := p.task.value, q.task.value;
    if s.sourceKind.DatasetSlice? && t.sourceKind.DatasetSlice? {
      T.DatasetSliceInjective(s.datasetId.value, s.startIdx.value, s.endIdx.value, t.datasetId.value, t.startIdx.value,
                              t.endIdx.value);
    }
  }

  // ---------------------------------------------------------- budget totals

  /** The cap of the child bound to a path. */
  function Weight(decimal: Amount -> real, children: seq<Child>, cap: Cap): string -> real {
    path => match FindChild(children, path) case None => 0.0 case Some(plan) => CapOf(decimal, plan, cap)
  }

  /** The caps of one row's children. */
  function RowTotal(weight: string -> real, row: Row): real {
    Sum(weight, Paths(row.bindings))
  }

  function RowTotals(weight: string -> real, rows: seq<Row>): real {
    if rows == [] then 0.0 else RowTotals(weight, rows[..|rows| - 1]) + RowTotal(weight, rows[|rows| - 1])
  }

  lemma {:induction false} RowTotalsAreBoundTotal(weight: string -> real, rows: seq<Row>)
    ensures RowTotals(weight, rows) == Sum(weight, BoundPaths(rows))
  {
    if rows != [] {
      RowTotalsAreBoundTotal(weight, rows[..|rows| - 1]);
      SumConcat(weight, BoundPaths(rows[..|rows| - 1]), Paths(rows[|rows| - 1].bindings));
    }
  }

  lemma {:induction false} ChildWeight(children: seq<Child>, k: nat)
    requires NoRepeats(ChildPaths(children)) && k < |children|
    ensures FindChild(children, children[k].path) == Some(children[k].plan)
    decreases |children|
  {
    var front, last := children[..|children| - 1], children[|children| - 1];
    if k < |front| {
      assert ChildPaths(children)[..|children| - 1] == ChildPaths(front);
      ChildWeight(front, k);
      ChildListed(front, front[k].path);
      assert front[k] in front && front[k] == children[k];
      assert last.path == ChildPaths(children)[|children| - 1];
    }
  }

  lemma {:induction false} TotalIsSum(decimal: Amount -> real, children: seq<Child>, upTo: seq<Child>, cap: Cap)
    requires upTo <= children && NoRepeats(ChildPaths(children))
    ensures Total(decimal, upTo, cap) == Sum(Weight(decimal, children, cap), ChildPaths(upTo))
    decreases |upTo|
  {
    if upTo != [] {
      var front, k := upTo[..|upTo| - 1], |upTo| - 1;
      TotalIsSum(decimal, children, front, cap);
      ChildWeight(children, k);
      assert upTo[k] == children[k];
      var paths := ChildPaths(upTo);
      assert paths[..|paths| - 1] == ChildPaths(front) && paths[|paths| - 1] == upTo[k].path;
    }
  }

  /** The parent's cost, token and wall caps are the row-by-row sums of the bound children's caps. */
  lemma ParentCapsAreRowSums(decimal: Amount -> real, parent: Parent, children: seq<Child>, cap: Cap)
    requires Coherent(decimal, parent, children) && NoRepeats(ChildPaths(children))
    ensures ParentCap(decimal, parent, cap) == RowTotals(Weight(decimal, children, cap), parent.rows)
  {
    var weight := Weight(decimal, children, cap);
    TotalIsSum(decimal, children, children, cap);
    SameElementsPermute(BoundPaths(parent.rows), ChildPaths(children));
    SumPermuted(weight, BoundPaths(parent.rows), ChildPaths(children));
    RowTotalsAreBoundTotal(weight, parent.rows);
  }

  function PlanSum(amount: P.RunPlan -> real, children: seq<Child>): real {
    if children == [] then 0.0
    else PlanSum(amount, children[..|children| - 1]) + amount(children[|children| - 1].plan)
  }

  lemma {:induction false} TotalIsPlanSum(decimal: Amount -> real, amount: P.RunPlan -> real, children: seq<Child>,
                                          cap: Cap)
    requires forall plan :: amount(plan) == CapOf(decimal, plan, cap)
    ensures Total(decimal, children, cap) == PlanSum(amount, children)
  {
    if children != [] { TotalIsPlanSum(decimal, amount, children[..|children| - 1], cap); }
  }

  /** Each cap of the parent is the sum of that very cap of its children, tokens without a limit counting as none. */
  lemma CapsAdd(decimal: Amount -> real, parent: Parent, children: seq<Child>)
    requires Coherent(decimal, parent, children)
    ensures decimal(parent.maxCostUsd) == PlanSum((p: P.RunPlan) => decimal(p.budget.maxCostUsd), children)
    ensures parent.maxWallSeconds as real == PlanSum((p: P.RunPlan) => p.budget.maxWallSeconds as real, children)
    ensures parent.maxModelTokens as real
         == PlanSum((p: P.RunPlan) => match p.budget.maxModelTokens case Some(n) => n as real case None => 0.0, children)
  {
    TotalIsPlanSum(decimal, (p: P.RunPlan) => decimal(p.budget.maxCostUsd), children, Cost);
    TotalIsPlanSum(decimal, (p: P.RunPlan) => p.budget.maxWallSeconds as real, children, Wall);
    TotalIsPlanSum(decimal,
                   (p: P.RunPlan) => match p.budget.maxModelTokens case Some(n) => n as real case None => 0.0,
                   children, Tokens);
    assert Total(decimal, children, Cost) == ParentCap(decimal, parent, Cost);
    assert Total(decimal, children, Wall) == ParentCap(decimal, parent, Wall);
    assert Total(decimal, children, Tokens) == ParentCap(decimal, parent, Tokens);
  }

  // ------------------------------------------------------------ mixed rows

  function BoundConditions(row: Row): set<string> {
    set b | b in row.bindings :: b.condition
  }

  /** The order index the child at a binding carries. */
  function OrderOf(children: seq<Child>, b: Binding): int {
    match FindChild(children, b.path)
    case None => 0
    case Some(plan) => if plan.pairing.Some? then plan.pairing.value.orderIndex else 0
  }

  lemma RowBindings(decimal: Amount -> real, parent: Parent, children: seq<Child>, row: Row, b: Binding)
    requires Coherent(decimal, parent, children) && NoRepeats(parent.conditions)
    requires row in parent.rows && b in row.bindings
    ensures b.condition == row.first || b.condition == row.second
    ensures OrderOf(children, b) == OrderIn(row, b.condition)
  {
    assert RowOk(parent, children, row);
    assert BindingError(parent, children, row, b).None?;
    NoUnexpectedCondition(decimal, parent, children);
    FoundIsChild(children, b.path);
    assert b.condition in Elements(parent.conditions);
  }

  lemma {:induction false} FoundIsChild(children: seq<Child>, path: string)
    requires FindChild(children, path).Some?
    ensures Child(path, FindChild(children, path).value) in children
  {
    if children[|children| - 1].path != path {
      FoundIsChild(children[..|children| - 1], path);
    }
  }

  /**
   The check does not force a two-plan row to run both expected conditions. It does so exactly when the
   row's children carry both order indexes.
   */
  lemma RowIsMixedExactly(decimal: Amount -> real, parent: Parent, children: seq<Child>, row: Row)
    requires Coherent(decimal, parent, children) && NoRepeats(parent.conditions) && |parent.conditions| == 2
    requires row in parent.rows && |row.bindings| == 2
    ensures BoundConditions(row) == Elements(parent.conditions)
       <==> {OrderOf(children, row.bindings[0]), OrderOf(children, row.bindings[1])} == {1, 2}
  {
    var b, c := row.bindings[0], row.bindings[1];
    assert b in row.bindings && c in row.bindings;
    RowBindings(decimal, parent, children, row, b);
    RowBindings(decimal, parent, children, row, c);
    assert RowOk(parent, children, row);
    TwoConditions(parent, row);
    TwoBindings(row);
    BothOrders(row, b.condition, c.condition);
  }

  lemma TwoBindings(row: Row)
    requires |row.bindings| == 2
    ensures BoundConditions(row) == {row.bindings[0].condition, row.bindings[1].condition}
  {
    assert row.bindings == [row.bindings[0], row.bindings[1]];
    assert row.bindings[0] in row.bindings && row.bindings[1] in row.bindings;
  }

  lemma BothOrders(row: Row, x: string, y: string)
    requires row.first != row.second && (x == row.first || x == row.second) && (y == row.first || y == row.second)
    ensures {x, y} == {row.first, row.second} <==> {OrderIn(row, x), OrderIn(row, y)} == {1, 2}
  {
    if x == y {
      assert row.first !in {x, y} || row.second !in {x, y};
      assert OrderIn(row, x) == OrderIn(row, y);
      assert 1 !in {OrderIn(row, x), OrderIn(row, y)} || 2 !in {OrderIn(row, x), OrderIn(row, y)};
    }
  }

  lemma TwoConditions(parent: Parent, row: Row)
    requires {row.first, row.second} == Elements(parent.conditions) && NoRepeats(parent.conditions)
             && |parent.conditions| == 2
    ensures row.first != row.second
  {
    NoRepeatsMeans(parent.conditions, 0, 1);
    assert parent.conditions[0] in Elements(parent.conditions) && parent.conditions[1] in Elements(parent.conditions);
  }

  // ---------------------------------------- a coherent profile without pairs

  const BASE := P.RunPlan(
    P.RunIdentity("EXP", "run", "A", 1, None), P.Pilot, false,
    P.ExecutionContract(P.LocalSubprocess, P.Benchmark, P.Authorization(true, Some("approval"), Some("command-hash"))),
    P.SourceVersions("unknown", "source", "unknown", "unknown", "unknown", Some("model"), None, "unknown"),
    P.RunBudget(1, 0, 0, None, None, 1), P.ArtifactPolicy("out", true),
    Some(P.RunTask("t", P.OpenEndedQuery, Some("q"), None, None, None, None)), Some(P.Pairing("p", 1)),
    Some("profile"), Some("profile-hash"))

  /** One more child of a sample profile: its condition, its row, its order. */
  function Sample(run: string, condition: string, task: string, pair: string, order: int): P.RunPlan {
    BASE.(identity := BASE.identity.(runId := run, condition := condition),
          task := Some(P.RunTask(task, P.OpenEndedQuery, Some("q"), None, None, None, None)),
          pairing := Some(P.Pairing(pair, order)))
  }

  const SAMPLE_CHILDREN := [
    Child("a1", Sample("run-1", "A", "t1", "p1", 1)), Child("a2", Sample("run-2", "A", "t1", "p1", 1)),
    Child("b1", Sample("run-3", "B", "t2", "p2", 2)), Child("b2", Sample("run-4", "B", "t2", "p2", 2))]

  const SAMPLE_ROWS := [
    Row("p1", "t1", "query=q", "A", "B", [Binding("a1", "A"), Binding("a2", "A")]),
    Row("p2", "t2", "query=q", "A", "B", [Binding("b1", "B"), Binding("b2", "B")])]

  const SAMPLE_PARENT := Parent(2, ["A", "B"], [], SAMPLE_ROWS, "model", 0, 0, 4)

  /** Money that is always nothing, enough for the sample's zero caps. */
  function Nothing(a: Amount): real { 0.0 }

  lemma AddChild(children: seq<Child>, c: Child)
    ensures ChildPaths(children + [c]) == ChildPaths(children) + [c.path]
    ensures forall path ::
            FindChild(children + [c], path) == if c.path == path then Some(c.plan) else FindChild(children, path)
  {
    var all := children + [c];
    assert all[..|all| - 1] == children && all[|all| - 1] == c;
  }

  lemma CountChild(children: seq<Child>, c: Child, name: string)
    ensures CountOf(children + [c], name)
            == CountOf(children, name) + if c.plan.identity.condition == name then 1 else 0
  {
    var all := children + [c];
    assert all[..|all| - 1] == children && all[|all| - 1] == c;
  }

  lemma ChargeChild(children: seq<Child>, c: Child, cap: Cap)
    ensures Total(Nothing, children + [c], cap) == Total(Nothing, children, cap) + CapOf(Nothing, c.plan, cap)
  {
    var all := children + [c];
    assert all[..|all| - 1] == children && all[|all| - 1] == c;
  }

  lemma SampleAppended()
    ensures var c := SAMPLE_CHILDREN; c == (([] + [c[0]]) + [c[1]] + [c[2]]) + [c[3]]
  {
  }

  lemma SampleChildren()
    ensures forall c | c in SAMPLE_CHILDREN :: FindChild(SAMPLE_CHILDREN, c.path) == Some(c.plan)
    ensures ChildPaths(SAMPLE_CHILDREN) == ["a1", "a2", "b1", "b2"]
  {
    var c := SAMPLE_CHILDREN;
    SampleAppended();
    AddChild([], c[0]);
    AddChild([] + [c[0]], c[1]);
    AddChild([] + [c[0]] + [c[1]], c[2]);
    AddChild([] + [c[0]] + [c[1]] + [c[2]], c[3]);
  }

  lemma SampleCounts(name: string)
    ensures CountOf(SAMPLE_CHILDREN, name) == if name == "A" || name == "B" then 2 else 0
  {
    var c := SAMPLE_CHILDREN;
    SampleAppended();
    CountChild([], c[0], name);
    CountChild([] + [c[0]], c[1], name);
    CountChild([] + [c[0]] + [c[1]], c[2], name);
    CountChild([] + [c[0]] + [c[1]] + [c[2]], c[3], name);
  }

  lemma SampleTotals(cap: Cap)
    ensures Total(Nothing, SAMPLE_CHILDREN, cap) == if cap == Wall then 4.0 else 0.0
  {
    var c := SAMPLE_CHILDREN;
    SampleAppended();
    ChargeChild([], c[0], cap);
    ChargeChild([] + [c[0]], c[1], cap);
    ChargeChild([] + [c[0]] + [c[1]], c[2], cap);
    ChargeChild([] + [c[0]] + [c[1]] + [c[2]], c[3], cap);
  }

  lemma SampleRow(row: Row)
    requires row in SAMPLE_ROWS
    ensures RowOk(SAMPLE_PARENT, SAMPLE_CHILDREN, row)
  {
    SampleChildren();
    var c := SAMPLE_CHILDREN;
    assert c[0] in c && c[1] in c && c[2] in c && c[3] in c;
    assert T.OpenQueryMatches("query=q", "q") by { assert T.QUERY + "q" == "query=q"; }
    assert Elements(SAMPLE_PARENT.conditions) == {"A", "B"};
  }

  lemma NoRepeatsSnoc(s: seq<string>, x: string)
    requires NoRepeats(s) && x !in s
    ensures NoRepeats(s + [x])
  {
    assert (s + [x])[..|s|] == s;
  }

  lemma TwoApart(x: string, y: string)
    requires x != y
    ensures NoRepeats([x, y])
  {
    NoRepeatsSnoc([], x);
    NoRepeatsSnoc([x], y);
    assert [] + [x] == [x] && [x] + [y] == [x, y];
  }

  lemma FourApart(w: string, x: string, y: string, z: string)
    requires w != x && w != y && w != z && x != y && x != z && y != z
    ensures NoRepeats([w, x, y, z])
  {
    TwoApart(w, x);
    NoRepeatsSnoc([w, x], y);
    NoRepeatsSnoc([w, x, y], z);
    assert [w, x] + [y] == [w, x, y] && [w, x, y] + [z] == [w, x, y, z];
  }

  lemma OneRow(r: Row)
    ensures PairIds([r]) == [r.pairId] && TaskIds([r]) == [r.taskId] && BoundPaths([r]) == Paths(r.bindings)
  {
    ListsSnoc([], r);
    assert [] + [r] == [r] && [] + Paths(r.bindings) == Paths(r.bindings);
  }

  lemma TwoRows(r: Row, s: Row)
    ensures PairIds([r, s]) == [r.pairId, s.pairId] && TaskIds([r, s]) == [r.taskId, s.taskId]
    ensures BoundPaths([r, s]) == Paths(r.bindings) + Paths(s.bindings)
  {
    OneRow(r);
    ListsSnoc([r], s);
    assert [r] + [s] == [r, s];
  }

  lemma SampleLists()
    ensures NoRepeats(PairIds(SAMPLE_ROWS)) && NoRepeats(TaskIds(SAMPLE_ROWS))
    ensures BoundPaths(SAMPLE_ROWS) == ["a1", "a2", "b1", "b2"] && NoRepeats(BoundPaths(SAMPLE_ROWS))
  {
    TwoRows(SAMPLE_ROWS[0], SAMPLE_ROWS[1]);
    assert SAMPLE_ROWS == [SAMPLE_ROWS[0], SAMPLE_ROWS[1]];
    assert Paths(SAMPLE_ROWS[0].bindings) == ["a1", "a2"] && Paths(SAMPLE_ROWS[1].bindings) == ["b1", "b2"];
    TwoApart("p1", "p2");
    TwoApart("t1", "t2");
    FourApart("a1", "a2", "b1", "b2");
  }

  const ANY_TEXT :=
    P.Patterns(t => true, t => true, t => true, t => true, t => true, t => true, t => true, t => true, t => true)

  /** The sample's parent file: recorded, valid, ready and authorized. */
  const SAMPLE_FILE := A.ParentFile(
    "profile-hash", true, "profile", A.ELIGIBLE, [], true, Some("approval"), "EXP", P.Pilot, SAMPLE_PARENT)

  function SampleRecorded(text: Text, digest: A.Digest): A.Recorded {
    A.Recorded("profile", "profile-hash", A.Prints(A.Fingerprinter(text, digest), SAMPLE_CHILDREN))
  }

  lemma SamplePlans(c: Child)
    requires c in SAMPLE_CHILDREN
    ensures P.PlanOk(ANY_TEXT, c.plan)
    ensures A.ChildError(A.Parent("profile", "profile-hash", "approval", "EXP", P.Pilot), c.plan).None?
  {
  }

  lemma SampleRunsDiffer(i: nat, j: nat)
    requires i < j < |SAMPLE_CHILDREN|
    ensures SAMPLE_CHILDREN[i].plan != SAMPLE_CHILDREN[j].plan
  {
    assert "run-1"[4] != "run-2"[4] && "run-1"[4] != "run-3"[4] && "run-1"[4] != "run-4"[4];
    assert "run-2"[4] != "run-3"[4] && "run-2"[4] != "run-4"[4] && "run-3"[4] != "run-4"[4];
    assert SAMPLE_CHILDREN[i].plan.identity.runId[4] != SAMPLE_CHILDREN[j].plan.identity.runId[4];
  }

  lemma SampleSealed(text: Text, digest: A.Digest)
    requires text.Lawful() && A.Injective(digest)
    ensures Distinct(A.Prints(A.Fingerprinter(text, digest), SAMPLE_CHILDREN))
  {
    SampleFit();
    A.DistinctPrints(ANY_TEXT, text, digest, "profile-hash", SAMPLE_CHILDREN);
  }

  lemma SampleFit()
    ensures forall c | c in SAMPLE_CHILDREN ::
            P.PlanOk(ANY_TEXT, c.plan) && c.plan.profileSha256 == Some("profile-hash")
    ensures Distinct(A.Plans(SAMPLE_CHILDREN))
  {
    forall c | c in SAMPLE_CHILDREN ensures P.PlanOk(ANY_TEXT, c.plan) && c.plan.profileSha256 == Some("profile-hash") {
      SamplePlans(c);
    }
    forall i, j | 0 <= i < j < |SAMPLE_CHILDREN| ensures A.Plans(SAMPLE_CHILDREN)[i] != A.Plans(SAMPLE_CHILDREN)[j] {
      SampleRunsDiffer(i, j);
    }
  }

  lemma SampleCoherent()
    ensures Coherent(Nothing, SAMPLE_PARENT, SAMPLE_CHILDREN)
  {
    SampleChildren();
    SampleLists();
    forall name | name in SAMPLE_PARENT.conditions ensures CountOf(SAMPLE_CHILDREN, name) == 2 { SampleCounts(name); }
    forall cap: Cap
      ensures Total(Nothing, SAMPLE_CHILDREN, cap) == ParentCap(Nothing, SAMPLE_PARENT, cap)
    {
      SampleTotals(cap);
    }
    forall row | row in SAMPLE_ROWS ensures RowOk(SAMPLE_PARENT, SAMPLE_CHILDREN, row) { SampleRow(row); }
  }

  lemma SampleUnmixed(row: Row)
    requires row in SAMPLE_PARENT.rows
    ensures BoundConditions(row) != Elements(SAMPLE_PARENT.conditions)
  {
    assert Elements(["A", "B"]) == {"A", "B"};
    assert "A" in BoundConditions(row) ==> row == SAMPLE_ROWS[0];
  }

  /**
   A concrete profile, with valid children authorized under it, that the whole loader accepts although
   neither of its rows pairs the two conditions.
   */
  lemma CoherentWithoutPairs(text: Text, digest: A.Digest)
    requires text.Lawful() && A.Injective(digest)
    ensures A.Binds(ANY_TEXT, text, digest, Nothing, SampleRecorded(text, digest), SAMPLE_FILE, SAMPLE_CHILDREN)
    ensures forall c | c in SAMPLE_CHILDREN :: P.PlanOk(ANY_TEXT, c.plan)
    ensures NoRepeats(SAMPLE_PARENT.conditions)
    ensures forall row | row in SAMPLE_PARENT.rows :: BoundConditions(row) != Elements(SAMPLE_PARENT.conditions)
  {
    SampleFit();
    SampleLoads(text, digest);
    TwoApart("A", "B");
    forall row | row in SAMPLE_PARENT.rows
      ensures BoundConditions(row) != Elements(SAMPLE_PARENT.conditions)
    {
      SampleUnmixed(row);
    }
  }

  lemma SampleBound()
    ensures A.ChildrenBound(A.Parent("profile", "profile-hash", "approval", "EXP", P.Pilot), SAMPLE_CHILDREN)
  {
    forall c | c in SAMPLE_CHILDREN
      ensures A.ChildError(A.Parent("profile", "profile-hash", "approval", "EXP", P.Pilot), c.plan).None?
    {
      SamplePlans(c);
    }
  }

  lemma SampleLoads(text: Text, digest: A.Digest)
    requires text.Lawful() && A.Injective(digest)
    ensures A.Binds(ANY_TEXT, text, digest, Nothing, SampleRecorded(text, digest), SAMPLE_FILE, SAMPLE_CHILDREN)
  {
    SampleCoherent();
    SampleSealed(text, digest);
    SampleBound();
  }

  // ------------------------------------------------- what coherence comes to

  /** The child a binding names, and all that row, parent and child must agree on. */
  predicate BindingAgrees(parent: Parent, row: Row, b: Binding, plan: P.RunPlan) {
    && plan.identity.condition == b.condition
    && plan.sources.modelRevision == Some(parent.modelRevision)
    && plan.pairing == Some(P.Pairing(row.pairId, if b.condition == row.first then 1 else 2))
    && plan.task.Some? && plan.task.value.taskId == row.taskId
    && plan.sources.datasetRevision == plan.task.value.datasetRevision
    && (plan.task.value.sourceKind == P.DatasetSlice ==>
          && plan.task.value.datasetId.Some? && plan.task.value.datasetId.value in parent.datasetIds
          && plan.task.value.startIdx.Some? && plan.task.value.endIdx.Some?
          && plan.task.value.startIdx.value >= 0 && plan.task.value.endIdx.value >= 0
          && row.taskSource == T.DatasetSlice(plan.task.value.datasetId.value, plan.task.value.startIdx.value,
                                              plan.task.value.endIdx.value))
    && (plan.task.value.sourceKind == P.OpenEndedQuery ==>
          plan.task.value.query.Some? && T.OpenQueryMatches(row.taskSource, plan.task.value.query.value))
  }

  lemma BindingFacts(parent: Parent, children: seq<Child>, row: Row, b: Binding)
    ensures BindingError(parent, children, row, b).None? <==>
              FindChild(children, b.path).Some? && BindingAgrees(parent, row, b, FindChild(children, b.path).value)
  {
  }

  /** The two plans of a row may differ in condition, run and configuration, and in nothing else that counts. */
  predicate PairAgrees(a: P.RunPlan, b: P.RunPlan) {
    && a.task == b.task && a.budget == b.budget && a.identity.seed == b.identity.seed
    && a.identity.attempt == b.identity.attempt
    && a.execution.backend == b.execution.backend && a.execution.workload == b.execution.workload
    && a.sources == b.sources.(configSha256 := a.sources.configSha256)
  }

  lemma PairFacts(a: P.RunPlan, b: P.RunPlan)
    ensures PairMatches(a, b) <==> PairAgrees(a, b)
  {
  }

  /** Every row of a coherent profile: its conditions, each of its children, and the pair they make. */
  lemma CoherentRowFacts(decimal: Amount -> real, parent: Parent, children: seq<Child>, row: Row)
    requires Coherent(decimal, parent, children) && row in parent.rows
    ensures {row.first, row.second} == Elements(parent.conditions)
    ensures forall b | b in row.bindings ::
              FindChild(children, b.path).Some? && BindingAgrees(parent, row, b, FindChild(children, b.path).value)
    ensures |row.bindings| == 2 ==>
              PairAgrees(FindChild(children, row.bindings[0].path).value,
                         FindChild(children, row.bindings[1].path).value)
  {
    assert RowOk(parent, children, row);
    forall b | b in row.bindings
      ensures FindChild(children, b.path).Some? && BindingAgrees(parent, row, b, FindChild(children, b.path).value)
    {
      assert BindingError(parent, children, row, b).None?;
      BindingFacts(parent, children, row, b);
    }
    if |row.bindings| == 2 {
      PairFacts(FindChild(children, row.bindings[0].path).value, FindChild(children, row.bindings[1].path).value);
    }
  }

  /** How many children there are, in all and under each condition. */
  lemma CoherentCounts(decimal: Amount -> real, parent: Parent, children: seq<Child>)
    requires Coherent(decimal, parent, children)
    ensures |children| == parent.pairCount * |parent.conditions|
    ensures forall name | name in parent.conditions ::
              CountAny(children, [name]) == parent.pairCount && parent.pairCount > 0
  {
    forall name | name in parent.conditions ensures CountAny(children, [name]) == parent.pairCount {
      CountOfIsCountAny(children, name);
    }
  }

  lemma {:induction false} CountOfIsCountAny(children: seq<Child>, name: string)
    ensures CountAny(children, [name]) == CountOf(children, name)
  {
    if children != [] { CountOfIsCountAny(children[..|children| - 1], name); }
  }
}
