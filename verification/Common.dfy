/** Failure-compatible results and byte strings shared by every component. */
module Common {

  datatype Option<+T> = None | Some(value: T)

  datatype Result<+T, +E> = Ok(value: T) | Err(error: E) {
    predicate IsFailure() { Err? }

    function PropagateFailure<U>(): Result<U, E>
      requires Err?
    {
      Err(error)
    }

    function Extract(): T
      requires Ok?
    {
      value
    }
  }

  newtype byte = i: int | 0 <= i < 256
  type Bytes = seq<byte>

  /** What a refused value is replaced by: `[REDACTED]`. */
  const REDACTION_MARKER: Bytes := [91, 82, 69, 68, 65, 67, 84, 69, 68, 93]

  function Max(a: int, b: int): int { if a >= b then a else b }

  function Min(a: int, b: int): int { if a <= b then a else b }

  lemma Assoc<T>(a: seq<T>, b: seq<T>, c: seq<T>)
    ensures (a + b) + c == a + (b + c)
  {
  }

  lemma AppendNothing<T>(s: seq<T>)
    ensures s + [] == s
  {
  }

  lemma PrependNothing<T>(s: seq<T>)
    ensures [] + s == s
  {
  }

  lemma WholePrefix<T>(s: seq<T>)
    ensures s[..|s|] == s
  {
  }

  /** The members of a sequence. */
  function Elements<T>(s: seq<T>): set<T> {
    set x | x in s
  }

  /** The parts one behind the other. */
  function Flatten<T>(parts: seq<seq<T>>): seq<T> {
    if parts == [] then [] else Flatten(parts[..|parts| - 1]) + parts[|parts| - 1]
  }

  /** The concatenation without its last element. */
  lemma ConcatFront<T>(a: seq<T>, b: seq<T>)
    requires b != []
    ensures var all := a + b; all[..|all| - 1] == a + b[..|b| - 1] && all[|all| - 1] == b[|b| - 1]
  {
  }

  /** An entry put under a fresh key and taken out again. */
  lemma PutAndRemove<K, V>(m: map<K, V>, key: K, value: V)
    requires key !in m
    ensures m[key := value] - {key} == m
  {
  }

  lemma WholeSuffix<T>(s: seq<T>)
    ensures s[0..] == s
  {
  }

  /** A sequence cut at `i` and put together again. */
  lemma CutAt<T>(s: seq<T>, i: nat)
    requires i <= |s|
    ensures s[..i] + s[i..] == s
  {
  }

  /** A sequence cut at `i` and `i + n` and put together again. */
  lemma CutTwice<T>(s: seq<T>, i: nat, n: nat)
    requires i + n <= |s|
    ensures s[..i] + s[i..i + n] + s[i + n..] == s
  {
  }

  /** `p` stands in `s` at position `i`. */
  predicate OccursAt(s: Bytes, p: Bytes, i: nat) {
    i + |p| <= |s| && s[i..i + |p|] == p
  }

  /** The byte-string test `p in s`. */
  predicate Contains(s: Bytes, p: Bytes) {
    exists i: nat | i <= |s| :: OccursAt(s, p, i)
  }

  /** No member of `ps` stands anywhere in `s`. */
  predicate FreeOf(ps: seq<Bytes>, s: Bytes) {
    forall p | p in ps :: !Contains(s, p)
  }

  /** Concatenation of the pieces read from one stream. */
  function Concat(chunks: seq<Bytes>): (s: Bytes) {
    if chunks == [] then [] else chunks[0] + Concat(chunks[1..])
  }

  lemma ConcatSnoc(chunks: seq<Bytes>, last: Bytes)
    ensures Concat(chunks + [last]) == Concat(chunks) + last
  {
    if chunks == [] {
      assert chunks + [last] == [last];
      assert Concat([last]) == last + Concat([]);
    } else {
      assert (chunks + [last])[1..] == chunks[1..] + [last];
      ConcatSnoc(chunks[1..], last);
    }
  }

  lemma SliceOfSlice<T>(s: seq<T>, lo: nat, hi: nat, a: nat, b: nat)
    requires lo <= hi <= |s| && a <= b <= hi - lo
    ensures s[lo..hi][a..b] == s[lo + a..lo + b]
  {
    forall k | 0 <= k < b - a
      ensures s[lo..hi][a..b][k] == s[lo + a..lo + b][k]
    {
      assert s[lo..hi][a..b][k] == s[lo..hi][a + k];
    }
  }

  /** An occurrence inside a slice is an occurrence in the whole, and back. */
  lemma OccursInSlice(s: Bytes, p: Bytes, lo: nat, hi: nat, i: nat)
    requires lo <= hi <= |s|
    requires lo <= i && i + |p| <= hi
    ensures OccursAt(s[lo..hi], p, i - lo) <==> OccursAt(s, p, i)
  {
    SliceOfSlice(s, lo, hi, i - lo, i - lo + |p|);
  }

  /** A slice lying inside a longer slice that ends later stands before that slice's last element. */
  lemma InnerOccurrence(s: Bytes, i: nat, n: nat, j: nat, m: nat)
    requires j <= i && i + n < j + m <= |s|
    ensures Contains(s[j..j + m][..m - 1], s[i..i + n])
  {
    SliceOfSlice(s, j, j + m, 0, m - 1);
    SliceOfSlice(s, j, j + m - 1, i - j, i - j + n);
    assert OccursAt(s[j..j + m - 1], s[i..i + n], i - j);
  }

  lemma ConcatOne(a: Bytes)
    ensures Concat([a]) == a
  {
    assert [a][1..] == [] && a + [] == a;
  }

  lemma ConcatTwo(a: Bytes, b: Bytes)
    ensures Concat([a, b]) == a + b
  {
    ConcatOne(b);
    assert [a, b][1..] == [b];
  }

  /** Length of the longest configured value; one when nothing is configured. */
  function LongestLength(ps: seq<Bytes>): (n: nat)
    ensures n >= 1
    ensures forall p | p in ps :: |p| <= n
    ensures n == 1 || exists p | p in ps :: |p| == n
  {
    if ps == [] then 1 else Max(|ps[0]|, LongestLength(ps[1..]))
  }

  /** Distinct values, longest first: `tuple(sorted(set(values), key=len, reverse=True))`. */
  predicate LongestFirst(ps: seq<Bytes>) {
    Descending(ps) && Distinct(ps)
  }

  predicate Descending(ps: seq<Bytes>) {
    forall i, j | 0 <= i < j < |ps| :: |ps[i]| >= |ps[j]|
  }

  predicate Distinct<T(==)>(s: seq<T>) {
    forall i, j | 0 <= i < j < |s| :: s[i] != s[j]
  }

  method InsertLongestFirst(ordered: seq<Bytes>, value: Bytes) returns (r: seq<Bytes>)
    requires LongestFirst(ordered) && value !in ordered
    ensures LongestFirst(r)
    ensures forall p :: p in r <==> p == value || p in ordered
  {
    var k := 0;
    while k < |ordered| && |ordered[k]| >= |value|
      invariant 0 <= k <= |ordered|
      invariant forall i | 0 <= i < k :: |ordered[i]| >= |value|
    {
      k := k + 1;
    }
    r := ordered[..k] + [value] + ordered[k..];
    InsertedDescends(ordered, value, k);
    InsertedMembers(ordered, value, k);
    InsertedDistinct(ordered, value, k);
  }

  lemma InsertedDescends(ordered: seq<Bytes>, value: Bytes, k: nat)
    requires k <= |ordered| && Descending(ordered)
    requires forall i | 0 <= i < k :: |ordered[i]| >= |value|
    requires k < |ordered| ==> |ordered[k]| < |value|
    ensures Descending(ordered[..k] + [value] + ordered[k..])
  {
  }

  lemma InsertedMembers<T>(s: seq<T>, x: T, k: nat)
    requires k <= |s|
    ensures forall y :: y in s[..k] + [x] + s[k..] <==> y == x || y in s
  {
    assert s == s[..k] + s[k..];
  }

  lemma InsertedDistinct<T>(s: seq<T>, x: T, k: nat)
    requires k <= |s| && x !in s && Distinct(s)
    ensures Distinct(s[..k] + [x] + s[k..])
  {
    var r := s[..k] + [x] + s[k..];
    forall i, j | 0 <= i < j < |r| ensures r[i] != r[j] {
      assert i < k ==> r[i] == s[i];
      assert i > k ==> r[i] == s[i - 1];
      assert j < k ==> r[j] == s[j];
      assert j > k ==> r[j] == s[j - 1];
    }
  }

  /** The leftmost position of `p` in `s`, or -1: `s.find(p)`. */
  function Find(s: Bytes, p: Bytes): (k: int)
    ensures -1 <= k <= |s|
    ensures k >= 0 ==> OccursAt(s, p, k)
    decreases |s|
  {
    if p <= s then 0
    else if s == [] then -1
    else
      var k := Find(s[1..], p);
      if k < 0 then -1
      else
        OccursLater(s, p, k);
        k + 1
  }

  /** An occurrence in the tail is one position further on in the whole. */
  lemma OccursLater(s: Bytes, p: Bytes, k: nat)
    requires s != []
    ensures OccursAt(s, p, k + 1) <==> OccursAt(s[1..], p, k)
  {
    if k + 1 + |p| <= |s| {
      assert s[1..][k..k + |p|] == s[k + 1..k + 1 + |p|];
    }
  }

  lemma {:induction false} FindIsLeftmost(s: Bytes, p: Bytes, j: nat)
    requires OccursAt(s, p, j)
    ensures 0 <= Find(s, p) <= j
    decreases |s|
  {
    if !(p <= s) {
      assert j > 0 by { assert s[0..|p|] == s[..|p|]; }
      OccursLater(s, p, j - 1);
      FindIsLeftmost(s[1..], p, j - 1);
    }
  }
}
