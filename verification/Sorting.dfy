/** `sorted(items, key=...)` over text keys, and the uniqueness of the order it produces. */
module Sorting {

  /** Lexicographic order of text by code point. */
  predicate Leq(a: string, b: string) {
    a == [] || (b != [] && (a[0] < b[0] || (a[0] == b[0] && Leq(a[1..], b[1..]))))
  }

  lemma {:induction false} LeqTotal(a: string, b: string)
    ensures Leq(a, b) || Leq(b, a)
  {
    if a != [] && b != [] && a[0] == b[0] { LeqTotal(a[1..], b[1..]); }
  }

  lemma {:induction false} LeqAntisymmetric(a: string, b: string)
    requires Leq(a, b) && Leq(b, a)
    ensures a == b
  {
    if a != [] { LeqAntisymmetric(a[1..], b[1..]); }
  }

  lemma {:induction false} LeqTransitive(a: string, b: string, c: string)
    requires Leq(a, b) && Leq(b, c)
    ensures Leq(a, c)
  {
    if a != [] && a[0] == b[0] && b[0] == c[0] { LeqTransitive(a[1..], b[1..], c[1..]); }
  }

  function Insert<T>(key: T -> string, x: T, s: seq<T>): (r: seq<T>)
    ensures |r| == |s| + 1
    ensures multiset(r) == multiset(s) + multiset{x}
  {
    if s == [] || Leq(key(x), key(s[0])) then [x] + s
    else
      var r := [s[0]] + Insert(key, x, s[1..]);
      assert s == [s[0]] + s[1..];
      r
  }

  /** The stable sort. */
  function SortBy<T>(key: T -> string, s: seq<T>): (r: seq<T>)
    ensures |r| == |s|
    ensures multiset(r) == multiset(s)
  {
    if s == [] then []
    else
      assert s == [s[0]] + s[1..];
      Insert(key, s[0], SortBy(key, s[1..]))
  }

  predicate Below<T>(key: T -> string, x: T, s: seq<T>) {
    forall i | 0 <= i < |s| :: Leq(key(x), key(s[i]))
  }

  predicate Sorted<T>(key: T -> string, s: seq<T>) {
    s != [] ==> Below(key, s[0], s[1..]) && Sorted(key, s[1..])
  }

  lemma BelowMember<T>(key: T -> string, x: T, s: seq<T>, y: T)
    requires Below(key, x, s) && y in s
    ensures Leq(key(x), key(y))
  {
  }

  lemma BelowFromMembers<T>(key: T -> string, x: T, s: seq<T>)
    requires forall y | y in s :: Leq(key(x), key(y))
    ensures Below(key, x, s)
  {
  }

  lemma {:induction false} InsertSorted<T>(key: T -> string, x: T, s: seq<T>)
    requires Sorted(key, s)
    ensures Sorted(key, Insert(key, x, s))
  {
    if s == [] {
    } else if Leq(key(x), key(s[0])) {
      assert ([x] + s)[1..] == s;
      forall y | y in s ensures Leq(key(x), key(y)) {
        if y != s[0] {
          assert y in s[1..];
          BelowMember(key, s[0], s[1..], y);
          LeqTransitive(key(x), key(s[0]), key(y));
        }
      }
      BelowFromMembers(key, x, s);
    } else {
      LeqTotal(key(x), key(s[0]));
      var r := Insert(key, x, s[1..]);
      InsertSorted(key, x, s[1..]);
      assert ([s[0]] + r)[1..] == r;
      forall y | y in r ensures Leq(key(s[0]), key(y)) {
        assert y in multiset(r);
        if y != x {
          assert y in multiset(s[1..]);
          BelowMember(key, s[0], s[1..], y);
        }
      }
      BelowFromMembers(key, s[0], r);
    }
  }

  lemma {:induction false} SortBySorted<T>(key: T -> string, s: seq<T>)
    ensures Sorted(key, SortBy(key, s))
  {
    if s != [] {
      SortBySorted(key, s[1..]);
      InsertSorted(key, s[0], SortBy(key, s[1..]));
    }
  }

  /** Sorting what is already sorted changes nothing. */
  lemma {:induction false} SortOfSorted<T>(key: T -> string, s: seq<T>)
    requires Sorted(key, s)
    ensures SortBy(key, s) == s
  {
    if s != [] {
      SortOfSorted(key, s[1..]);
      if |s| > 1 {
        assert s[1..][0] == s[1];
      }
      assert s == [s[0]] + s[1..];
    }
  }

  function Map<T, U>(f: T -> U, s: seq<T>): (r: seq<U>)
    ensures |r| == |s|
  {
    if s == [] then [] else [f(s[0])] + Map(f, s[1..])
  }

  function Keys<T>(key: T -> string, s: seq<T>): (r: seq<string>)
    ensures |r| == |s|
  {
    Map(key, s)
  }

  /** No two items have the same key. */
  predicate DistinctKeys<T>(key: T -> string, s: seq<T>) {
    s != [] ==> key(s[0]) !in Keys(key, s[1..]) && DistinctKeys(key, s[1..])
  }

  lemma {:induction false} PairwiseMap<T, U>(f: T -> U, a: seq<T>, b: seq<T>)
    requires |a| == |b| && forall i | 0 <= i < |a| :: f(a[i]) == f(b[i])
    ensures Map(f, a) == Map(f, b)
  {
    if a != [] {
      forall i | 0 <= i < |a[1..]| ensures f(a[1..][i]) == f(b[1..][i]) { assert f(a[i + 1]) == f(b[i + 1]); }
      PairwiseMap(f, a[1..], b[1..]);
    }
  }

  lemma {:induction false} SameKeysDistinct<T>(key: T -> string, a: seq<T>, b: seq<T>)
    requires Keys(key, a) == Keys(key, b)
    ensures DistinctKeys(key, a) <==> DistinctKeys(key, b)
  {
    if a != [] {
      assert Keys(key, a)[0] == Keys(key, b)[0] && Keys(key, a)[1..] == Keys(key, b)[1..];
      SameKeysDistinct(key, a[1..], b[1..]);
    }
  }

  lemma {:induction false} KeysMember<T>(key: T -> string, s: seq<T>, k: string)
    ensures k in Keys(key, s) <==> exists x | x in s :: key(x) == k
  {
    if s != [] {
      KeysMember(key, s[1..], k);
      assert s == [s[0]] + s[1..];
    }
  }

  /** Removing the first occurrence of a member. */
  function Remove<T(==)>(s: seq<T>, x: T): (r: seq<T>)
    requires x in s
    ensures multiset(r) == multiset(s) - multiset{x}
    ensures |r| == |s| - 1
  {
    assert s == [s[0]] + s[1..];
    if s[0] == x then s[1..] else [s[0]] + Remove(s[1..], x)
  }

  lemma SameMembers<T>(a: seq<T>, b: seq<T>)
    requires multiset(a) == multiset(b)
    ensures |a| == |b| && forall x :: x in a <==> x in b
  {
    assert |multiset(a)| == |a| && |multiset(b)| == |b|;
    forall x ensures x in a <==> x in b {
      assert x in a <==> x in multiset(a);
      assert x in b <==> x in multiset(b);
    }
  }

  lemma {:induction false} DistinctRemove<T>(key: T -> string, s: seq<T>, x: T)
    requires DistinctKeys(key, s) && x in s
    ensures DistinctKeys(key, Remove(s, x)) && key(x) !in Keys(key, Remove(s, x))
  {
    assert s == [s[0]] + s[1..];
    if s[0] != x {
      var r := Remove(s[1..], x);
      DistinctRemove(key, s[1..], x);
      assert ([s[0]] + r)[1..] == r;
      KeysMember(key, s[1..], key(s[0]));
      KeysMember(key, r, key(s[0]));
      assert forall y :: y in r ==> y in s[1..] by {
        forall y | y in r ensures y in s[1..] { assert y in multiset(r); }
      }
      assert key(x) != key(s[0]);
      assert Keys(key, [s[0]] + r) == [key(s[0])] + Keys(key, r);
    }
  }

  /** Having distinct keys does not depend on the order. */
  lemma {:induction false} DistinctPermuted<T>(key: T -> string, a: seq<T>, b: seq<T>)
    requires multiset(a) == multiset(b) && DistinctKeys(key, a)
    ensures DistinctKeys(key, b)
    decreases |b|
  {
    if b != [] {
      SameMembers(a, b);
      assert b == [b[0]] + b[1..];
      var a' := Remove(a, b[0]);
      DistinctRemove(key, a, b[0]);
      assert multiset(a') == multiset(b[1..]);
      DistinctPermuted(key, a', b[1..]);
      KeysMember(key, a', key(b[0]));
      KeysMember(key, b[1..], key(b[0]));
      SameMembers(a', b[1..]);
    }
  }

  /** The members of a list by key: with distinct keys an equal key is the same item. */
  lemma {:induction false} KeyDetermines<T>(key: T -> string, s: seq<T>, x: T, y: T)
    requires DistinctKeys(key, s) && x in s && y in s && key(x) == key(y)
    ensures x == y
  {
    assert s == [s[0]] + s[1..];
    KeysMember(key, s[1..], key(s[0]));
    if x in s[1..] && y in s[1..] {
      KeyDetermines(key, s[1..], x, y);
    }
  }

  lemma WithoutFirst<T>(s: seq<T>)
    requires s != []
    ensures multiset(s[1..]) == multiset(s) - multiset{s[0]} && s == [s[0]] + s[1..]
  {
    assert s == [s[0]] + s[1..];
  }

  /** Two sorted arrangements of the same items with distinct keys start with the same item. */
  lemma SameFirst<T>(key: T -> string, a: seq<T>, b: seq<T>)
    requires Sorted(key, a) && Sorted(key, b) && multiset(a) == multiset(b) && DistinctKeys(key, a) && a != []
    ensures b != [] && a[0] == b[0]
  {
    SameMembers(a, b);
    FirstIsLeast(key, a, b[0]);
    FirstIsLeast(key, b, a[0]);
    LeqAntisymmetric(key(a[0]), key(b[0]));
    KeyDetermines(key, a, a[0], b[0]);
  }

  /** Two sorted arrangements of the same items with distinct keys are equal. */
  lemma {:induction false} SortedUnique<T>(key: T -> string, a: seq<T>, b: seq<T>)
    requires Sorted(key, a) && Sorted(key, b) && multiset(a) == multiset(b) && DistinctKeys(key, a)
    ensures a == b
  {
    if a == [] {
      SameMembers(a, b);
    } else {
      SameFirst(key, a, b);
      WithoutFirst(a);
      WithoutFirst(b);
      SortedUnique(key, a[1..], b[1..]);
    }
  }

  lemma FirstIsLeast<T>(key: T -> string, s: seq<T>, x: T)
    requires Sorted(key, s) && x in s
    ensures Leq(key(s[0]), key(x))
  {
    assert s == [s[0]] + s[1..];
    if x in s[1..] {
      BelowMember(key, s[0], s[1..], x);
    } else {
      LeqTotal(key(x), key(x));
    }
  }

  /** Items with distinct keys sort to the same list in whatever order they are given. */
  lemma SortPermuted<T>(key: T -> string, a: seq<T>, b: seq<T>)
    requires multiset(a) == multiset(b) && DistinctKeys(key, a)
    ensures SortBy(key, a) == SortBy(key, b) && DistinctKeys(key, b)
  {
    SortBySorted(key, a);
    SortBySorted(key, b);
    DistinctPermuted(key, a, SortBy(key, a));
    DistinctPermuted(key, a, b);
    SortedUnique(key, SortBy(key, a), SortBy(key, b));
  }

  lemma {:induction false} MapRemove<T, U>(f: T -> U, s: seq<T>, x: T)
    requires x in s
    ensures multiset(Map(f, s)) == multiset(Map(f, Remove(s, x))) + multiset{f(x)}
  {
    assert s == [s[0]] + s[1..];
    if s[0] != x {
      var r := Remove(s[1..], x);
      MapRemove(f, s[1..], x);
      assert ([s[0]] + r)[1..] == r;
    }
  }

  /** Mapping the same items in another order gives the same results in another order. */
  lemma {:induction false} MapPermuted<T, U>(f: T -> U, a: seq<T>, b: seq<T>)
    requires multiset(a) == multiset(b)
    ensures multiset(Map(f, a)) == multiset(Map(f, b))
    decreases |b|
  {
    SameMembers(a, b);
    if b != [] {
      assert b == [b[0]] + b[1..];
      MapRemove(f, a, b[0]);
      assert multiset(Remove(a, b[0])) == multiset(b[1..]);
      MapPermuted(f, Remove(a, b[0]), b[1..]);
    }
  }

  /** Items keep their key under `f`, so mapping keeps the list of keys. */
  lemma {:induction false} MapKeepsDistinct<T>(key: T -> string, f: T -> T, s: seq<T>)
    requires forall x | x in s :: key(f(x)) == key(x)
    ensures Keys(key, Map(f, s)) == Keys(key, s)
    ensures DistinctKeys(key, s) <==> DistinctKeys(key, Map(f, s))
  {
    if s != [] {
      MapKeepsDistinct(key, f, s[1..]);
      assert Map(f, s)[1..] == Map(f, s[1..]);
    }
  }

  lemma {:induction false} MapMembers<T, U>(f: T -> U, s: seq<T>, y: U)
    requires y in Map(f, s)
    ensures exists x :: x in s && f(x) == y
  {
    if f(s[0]) != y {
      assert y in Map(f, s[1..]);
      MapMembers(f, s[1..], y);
    }
  }

  /** Sorting keeps the members. */
  lemma SortMembers<T>(key: T -> string, s: seq<T>)
    ensures forall x :: x in SortBy(key, s) <==> x in s
  {
    SameMembers(SortBy(key, s), s);
  }
}
