/** Source locators of tasks: what a locator determines, and what it does not. */
module TaskSources {

  function Digit(d: nat): (c: char)
    requires d < 10
    ensures '0' <= c <= '9'
  {
    ('0' as int + d) as char
  }

  /** The decimal text of a natural number. */
  function Decimal(n: nat): (s: string)
    ensures s != [] && forall i | 0 <= i < |s| :: '0' <= s[i] <= '9'
  {
    if n < 10 then [Digit(n)] else Decimal(n / 10) + [Digit(n % 10)]
  }

  /** The number a digit string denotes. */
  function NumberOf(s: string): int {
    if s == [] then 0 else 10 * NumberOf(s[..|s| - 1]) + (s[|s| - 1] as int - '0' as int)
  }

  lemma {:induction false} DecimalRoundTrip(n: nat)
    ensures NumberOf(Decimal(n)) == n
  {
    var s := Decimal(n);
    if n < 10 {
      assert s[..0] == [];
    } else {
      DecimalRoundTrip(n / 10);
      assert s[..|s| - 1] == Decimal(n / 10);
    }
  }

  /** The half-open dataset-slice locator. */
  function DatasetSlice(dataset: string, start: nat, end: nat): string {
    dataset + "[" + Decimal(start) + ":" + Decimal(end) + "]"
  }

  /** The locator names the dataset, and in brackets the two numbers in decimal, the start before the end. */
  lemma DatasetSliceReads(dataset: string, start: nat, end: nat) returns (from: string, to: string)
    ensures DatasetSlice(dataset, start, end) == dataset + "[" + from + ":" + to + "]"
    ensures NumberOf(from) == start && NumberOf(to) == end
    ensures forall c | c in from + to :: '0' <= c <= '9'
  {
    from, to := Decimal(start), Decimal(end);
    DecimalRoundTrip(start);
    DecimalRoundTrip(end);
  }

  /** A text cut at the last occurrence of a separator can be cut in one way only. */
  lemma LastCutUnique(a: string, b: string, c: char, x: string, y: string)
    requires a + [c] + x == b + [c] + y && c !in x && c !in y
    ensures a == b && x == y
  {
    var s := a + [c] + x;
    assert s[|a|] == c && s[|b|] == c;
    assert forall i | |a| < i < |s| :: s[i] == x[i - |a| - 1];
    assert forall i | |b| < i < |s| :: s[i] == y[i - |b| - 1];
    assert |a| == |b|;
    assert a == s[..|a|] && b == s[..|b|];
    assert x == s[|a| + 1..] && y == s[|b| + 1..];
  }

  lemma NoSeparators(n: nat, tail: string)
    requires tail == "" || tail == "]"
    ensures ':' !in Decimal(n) + tail && '[' !in Decimal(n) + tail
  {
  }

  lemma CutAtColon(dataset: string, start: nat, end: nat)
    ensures DatasetSlice(dataset, start, end) == (dataset + "[" + Decimal(start)) + [':'] + (Decimal(end) + "]")
  {
  }

  lemma DecimalInjective(a: nat, b: nat)
    requires Decimal(a) == Decimal(b)
    ensures a == b
  {
    DecimalRoundTrip(a);
    DecimalRoundTrip(b);
  }

  /** Equal locators mean the same dataset, start and end, brackets and colons in dataset names included. */
  lemma DatasetSliceInjective(d1: string, s1: nat, e1: nat, d2: string, s2: nat, e2: nat)
    requires DatasetSlice(d1, s1, e1) == DatasetSlice(d2, s2, e2)
    ensures d1 == d2 && s1 == s2 && e1 == e2
  {
    CutAtColon(d1, s1, e1);
    CutAtColon(d2, s2, e2);
    NoSeparators(e1, "]");
    NoSeparators(e2, "]");
    LastCutUnique(d1 + "[" + Decimal(s1), d2 + "[" + Decimal(s2), ':', Decimal(e1) + "]", Decimal(e2) + "]");
    assert d1 + "[" == d1 + ['['] && d2 + "[" == d2 + ['['];
    NoSeparators(s1, "");
    NoSeparators(s2, "");
    assert Decimal(s1) + "" == Decimal(s1) && Decimal(s2) + "" == Decimal(s2);
    LastCutUnique(d1, d2, '[', Decimal(s1), Decimal(s2));
    assert Decimal(e1) == (Decimal(e1) + "]")[..|Decimal(e1)|] && Decimal(e2) == (Decimal(e2) + "]")[..|Decimal(e2)|];
    DecimalInjective(s1, s2);
    DecimalInjective(e1, e2);
  }

  predicate EndsWith(s: string, suffix: string) {
    |suffix| <= |s| && s[|s| - |suffix|..] == suffix
  }

  const QUERY := "query="
  const CITED_QUERY := " query="

  /** A bare query locator, or a citation followed by the exact query. */
  predicate OpenQueryMatches(source: string, query: string) {
    source == QUERY + query || EndsWith(source, " " + (QUERY + query))
  }

  lemma BothSuffixes(s: string, long: string, short: string)
    requires EndsWith(s, long) && EndsWith(s, short) && |short| <= |long|
    ensures EndsWith(long, short)
  {
    assert s[|s| - |long|..][|long| - |short|..] == s[|s| - |short|..];
  }

  lemma CitedSuffix(source: string, query: string)
    requires OpenQueryMatches(source, query)
    ensures EndsWith(source, QUERY + query)
  {
    var cited := " " + (QUERY + query);
    if EndsWith(source, cited) {
      assert cited[1..] == QUERY + query;
      assert source[|source| - |cited|..][1..] == source[|source| - |cited| + 1..];
    } else {
      assert source[0..] == source;
    }
  }

  lemma SuffixOfQuery(q1: string, q2: string)
    requires EndsWith(QUERY + q1, " " + (QUERY + q2))
    ensures EndsWith(q1, CITED_QUERY + q2)
  {
    var cited, whole := CITED_QUERY + q2, QUERY + q1;
    assert " " + (QUERY + q2) == cited;
    var k := |whole| - |cited|;
    assert whole[k] == cited[0] == ' ';
    assert forall i | 0 <= i < |QUERY| :: whole[i] == QUERY[i] != ' ';
    assert whole[k..] == q1[k - |QUERY|..];
  }

  /**
   A query locator does not determine its query. One source matches two different queries exactly when
   one of them ends in a citation of the other.
   */
  lemma QueryLocatorAmbiguity(q1: string, q2: string)
    requires |q2| <= |q1| && q1 != q2
    ensures (exists source :: OpenQueryMatches(source, q1) && OpenQueryMatches(source, q2))
            <==> EndsWith(q1, CITED_QUERY + q2)
  {
    if source :| OpenQueryMatches(source, q1) && OpenQueryMatches(source, q2) {
      QueryOfLonger(source, q1, q2);
    }
    if EndsWith(q1, CITED_QUERY + q2) {
      var source, cited := QUERY + q1, CITED_QUERY + q2;
      assert " " + (QUERY + q2) == cited;
      assert source[|source| - |cited|..] == q1[|q1| - |cited|..];
      assert OpenQueryMatches(source, q1) && OpenQueryMatches(source, q2);
    }
  }

  lemma QueryOfLonger(source: string, q1: string, q2: string)
    requires |q2| <= |q1| && q1 != q2
    requires OpenQueryMatches(source, q1) && OpenQueryMatches(source, q2)
    ensures EndsWith(q1, CITED_QUERY + q2)
  {
    var b1, c2 := QUERY + q1, " " + (QUERY + q2);
    CitedSuffix(source, q1);
    CitedSuffix(source, q2);
    assert b1[|QUERY|..] == q1 && (QUERY + q2)[|QUERY|..] == q2;
    assert |q2| < |q1|;
    assert source != QUERY + q2;
    BothSuffixes(source, b1, c2);
    SuffixOfQuery(q1, q2);
  }
}
