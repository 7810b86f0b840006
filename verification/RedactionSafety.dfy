/**
 When the complete redacted output is free of secrets. Replacing a secret can itself complete another
 one out of the replacement and the neighbouring bytes; `SafeReplacement` is the exact configuration
 test for that never happening, for any input and any chunking.
 */
module RedactionSafety {
  import opened Common
  import opened Redactor

  /** The whole output of one stream. */
  function Output(secrets: seq<Bytes>, replacement: Bytes, chunks: seq<Bytes>): Bytes {
    Render(Stream(secrets, chunks), replacement)
  }

  /** A secret that contains no other secret. */
  predicate Minimal(secrets: seq<Bytes>, q: Bytes) {
    forall p | p in secrets && Contains(q, p) :: p == q
  }

  /** `q` continues a nonempty tail of the replacement. */
  predicate StartsInside(q: Bytes, replacement: Bytes) {
    exists x | 0 <= x < |replacement| :: replacement[x..] <= q
  }

  /** After its first `m` bytes `q` runs into the replacement. */
  predicate RunsInto(q: Bytes, m: nat, replacement: Bytes)
    requires m <= |q|
  {
    q[m..] <= replacement || replacement <= q[m..]
  }

  /** `a` can be let through directly before the match of `s`. */
  predicate LetThroughBefore(secrets: seq<Bytes>, a: Bytes, s: Bytes) {
    forall j | 0 <= j < |a| :: NoneStarts(secrets, (a + s)[j..])
  }

  /** Some secret `s` can follow the first `m` bytes of `q`, where `q` runs into the replacement of `s`. */
  predicate CompletedBefore(secrets: seq<Bytes>, q: Bytes, r: Bytes) {
    exists m, s | 0 < m < |q| && s in secrets && RunsInto(q, m, r) :: LetThroughBefore(secrets, q[..m], s)
  }

  /** The configuration test: no minimal secret can be completed across a replacement. */
  predicate SafeReplacement(secrets: seq<Bytes>, replacement: Bytes) {
    forall q | q in secrets && Minimal(secrets, q) ::
      !StartsInside(q, replacement) && !CompletedBefore(secrets, q, replacement)
  }

  /** No input and no chunking ever lets a secret appear in the output. */
  ghost predicate AlwaysClean(secrets: seq<Bytes>, replacement: Bytes) {
    forall chunks: seq<Bytes> :: FreeOf(secrets, Output(secrets, replacement, chunks))
  }

  // ------------------------------------------------ safe means clean

  lemma ContainsTransitive(a: Bytes, b: Bytes, c: Bytes)
    requires Contains(a, b) && Contains(b, c)
    ensures Contains(a, c)
  {
    var i: nat :| i <= |a| && OccursAt(a, b, i);
    var j: nat :| j <= |b| && OccursAt(b, c, j);
    SliceOfSlice(a, i, i + |b|, j, j + |c|);
    assert OccursAt(a, c, i + j);
  }

  /** Every secret contains a minimal one. */
  lemma {:induction false} MinimalInside(secrets: seq<Bytes>, q: Bytes) returns (p: Bytes)
    requires q in secrets
    ensures p in secrets && Minimal(secrets, p) && Contains(q, p)
    decreases |q|
  {
    if Minimal(secrets, q) {
      p := q;
      assert OccursAt(q, q, 0);
    } else {
      var inner :| inner in secrets && Contains(q, inner) && inner != q;
      ContainedIsShorter(q, inner);
      p := MinimalInside(secrets, inner);
      ContainsTransitive(q, inner, p);
    }
  }

  lemma ContainedIsShorter(q: Bytes, p: Bytes)
    requires Contains(q, p) && p != q
    ensures |p| < |q|
  {
    var i: nat :| i <= |q| && OccursAt(q, p, i);
    assert q[0..|q|] == q;
  }

  /** Where an occurrence in the output starts: token `i`, `x` bytes into what it renders as. */
  lemma {:induction false} LocateOccurrence(ts: seq<Token>, r: Bytes, q: Bytes, k: nat) returns (i: nat, x: nat)
    requires q != [] && OccursAt(Render(ts, r), q, k)
    ensures i < |ts|
    ensures ts[i].Literal? ==> q <= Render(ts[i..], r)
    ensures ts[i].Match? ==> x < |r| && q <= r[x..] + Render(ts[i + 1..], r)
  {
    var piece := if ts[0].Literal? then [ts[0].b] else r;
    var rest := Render(ts[1..], r);
    OccurrenceIsPrefix(Render(ts, r), q, k);
    if k < |piece| {
      i, x := 0, k;
      assert (piece + rest)[k..] == piece[k..] + rest;
      assert ts[0..] == ts && piece[0..] == piece;
    } else {
      assert (piece + rest)[k..] == rest[k - |piece|..];
      OccurrenceIsPrefix(rest, q, k - |piece|);
      i, x := LocateOccurrence(ts[1..], r, q, k - |piece|);
      assert ts[1..][i..] == ts[i + 1..] && ts[1..][i + 1..] == ts[i + 2..];
      i := i + 1;
    }
  }

  lemma OneMoreAhead(b: byte, q: Bytes, m: nat, s: Bytes)
    requires m <= |q|
    ensures ([b] + q)[m + 1..] == q[m..] && ([b] + q)[..m + 1] == [b] + q[..m]
    ensures ([b] + q)[..m + 1] + s == [b] + (q[..m] + s)
  {
  }

  /** One more literal ahead of a run that is let through, when no secret starts at it. */
  lemma LetThroughOneMore(secrets: seq<Bytes>, b: byte, a: Bytes, s: Bytes)
    requires LetThroughBefore(secrets, a, s) && NoneStarts(secrets, [b] + (a + s))
    ensures LetThroughBefore(secrets, [b] + a, s)
  {
    forall j | 0 <= j < |[b] + a| ensures NoneStarts(secrets, ([b] + a + s)[j..]) {
      if j > 0 {
        assert ([b] + a + s)[j..] == (a + s)[j - 1..];
      } else {
        assert ([b] + a + s)[0..] == [b] + (a + s);
      }
    }
  }

  /** A secret that starts in a literal run and outlasts it runs into a replacement behind it. */
  lemma {:induction false} FollowRun(secrets: seq<Bytes>, v: seq<Token>, r: Bytes, q: Bytes) returns (m: nat, s: Bytes)
    requires q <= Render(v, r) && !(q <= Ahead(v, [])) && Leftmost(secrets, v, []) && MatchesAreSecrets(secrets, v)
    ensures m < |q| && s in secrets && RunsInto(q, m, r) && LetThroughBefore(secrets, q[..m], s)
    ensures Ahead(v, []) == q[..m] + s
    ensures v[0].Literal? ==> m > 0
  {
    if v[0].Match? {
      m, s := 0, v[0].secret;
      assert q[0..] == q && q[..0] + s == s;
    } else {
      var q' := q[1..];
      assert [v[0].b] + Ahead(v[1..], []) == Ahead(v, []);
      assert q == [v[0].b] + q';
      m, s := FollowRun(secrets, v[1..], r, q');
      OneMoreAhead(v[0].b, q', m, s);
      LetThroughOneMore(secrets, v[0].b, q'[..m], s);
      m := m + 1;
    }
  }

  /** Every way a secret can stand in the output of a leftmost parse. */
  lemma HowASecretOccurs(secrets: seq<Bytes>, r: Bytes, ts: seq<Token>, q: Bytes, k: nat)
    requires q != [] && q in secrets && OccursAt(Render(ts, r), q, k)
    requires Leftmost(secrets, ts, []) && MatchesAreSecrets(secrets, ts)
    ensures Contains(r, q) || StartsInside(q, r) || CompletedBefore(secrets, q, r)
  {
    var i, x := LocateOccurrence(ts, r, q, k);
    if ts[i].Match? {
      StartsInReplacement(q, r, x, Render(ts[i + 1..], r));
    } else {
      var v := ts[i..];
      LeftmostFrom(secrets, ts, i);
      NoSecretPrefix(secrets, Ahead(v, []), q);
      var m, s := FollowRun(secrets, v, r, q);
    }
  }

  lemma StartsInReplacement(q: Bytes, r: Bytes, x: nat, rest: Bytes)
    requires x < |r| && q <= r[x..] + rest
    ensures Contains(r, q) || StartsInside(q, r)
  {
    if |q| <= |r| - x {
      OccurrenceIsPrefix(r, q, x);
      assert r[x..][..|q|] == q;
    } else {
      assert r[x..] <= q;
    }
  }

  lemma NoSecretPrefix(secrets: seq<Bytes>, s: Bytes, q: Bytes)
    requires NoneStarts(secrets, s) && q in secrets && q != []
    ensures !(q <= s)
  {
    assert |q| <= |s| ==> s[..|q|] in secrets || s[..|q|] != q;
  }

  lemma {:induction false} LeftmostFrom(secrets: seq<Bytes>, ts: seq<Token>, i: nat)
    requires i <= |ts| && Leftmost(secrets, ts, [])
    ensures Leftmost(secrets, ts[i..], [])
  {
    CutAt(ts, i);
    LeftmostConcat(secrets, ts[..i], ts[i..], []);
  }

  /** The configuration test is sufficient: the complete output of every run is free of every secret. */
  lemma SafeIsClean(secrets: seq<Bytes>, r: Bytes, chunks: seq<Bytes>)
    requires Configured(secrets) && FreeOf(secrets, r) && SafeReplacement(secrets, r)
    ensures FreeOf(secrets, Output(secrets, r, chunks))
  {
    var out := Output(secrets, r, chunks);
    StreamParsesInput(secrets, chunks);
    forall q | q in secrets
      ensures !Contains(out, q)
    {
      if Contains(out, q) {
        var p := MinimalInside(secrets, q);
        ContainsTransitive(out, q, p);
        var k: nat :| k <= |out| && OccursAt(out, p, k);
        HowASecretOccurs(secrets, r, Stream(secrets, chunks), p, k);
        assert false;
      }
    }
  }

  // ------------------------------------------------ clean means safe

  lemma TailContains(q: Bytes, from: nat, p: Bytes)
    requires from <= |q| && Contains(q[from..], p)
    ensures Contains(q, p) && |p| <= |q| - from
  {
    var i: nat :| i <= |q[from..]| && OccursAt(q[from..], p, i);
    SliceOfSlice(q, from, |q|, i, i + |p|);
    assert OccursAt(q, p, from + i);
  }

  /** A minimal secret's proper tail contains no secret. */
  lemma TailOfMinimalIsFree(secrets: seq<Bytes>, q: Bytes, from: nat)
    requires Minimal(secrets, q) && 0 < from <= |q|
    ensures FreeOf(secrets, q[from..])
  {
    forall p | p in secrets
      ensures !Contains(q[from..], p)
    {
      if Contains(q[from..], p) {
        TailContains(q, from, p);
      }
    }
  }

  lemma FreeMeansNoMatch(secrets: seq<Bytes>, z: Bytes)
    requires Configured(secrets) && FreeOf(secrets, z)
    ensures NextMatch(secrets, z).None?
  {
    NextMatchIsLeftmostLongest(secrets, z);
  }

  lemma CleanChunk(secrets: seq<Bytes>, z: Bytes)
    requires Configured(secrets) && FreeOf(secrets, z)
    ensures var step := Feed(secrets, [], z); var cut := CutOff(secrets, Drained([], z));
            step == Drained(Literals(z[..cut]), z[cut..])
  {
    FreeMeansNoMatch(secrets, z);
    PrependNothing(z);
    FeedCuts(secrets, [], z);
    PrependNothing(Literals(z[..CutOff(secrets, Drained([], z))]));
  }

  /** A stream of two chunks, the first of which leaves nothing behind. */
  lemma TwoChunks(secrets: seq<Bytes>, x: Bytes, tokens: seq<Token>, z: Bytes, step: Drained)
    requires Feed(secrets, [], x) == Drained(tokens, []) && step == Feed(secrets, [], z)
    ensures Stream(secrets, [x, z]) == tokens + step.tokens + Finish(secrets, step.rest)
  {
    assert [x, z][..1] == [x];
    FeedAllOfOne(secrets, x);
    assert FeedAll(secrets, [x, z]) == Drained(tokens + step.tokens, step.rest);
  }

  /** A let-through prefix, a secret, and a clean tail fed separately: exactly one replacement. */
  lemma PrefixSecretTail(secrets: seq<Bytes>, a: Bytes, s: Bytes, z: Bytes)
    requires Configured(secrets) && s in secrets && LetThroughBefore(secrets, a, s) && FreeOf(secrets, z)
    ensures Stream(secrets, [a + s, z]) == MatchTokens(a, s) + Literals(z)
  {
    var step, cut := Feed(secrets, [], z), CutOff(secrets, Drained([], z));
    FirstChunk(secrets, a, s);
    CleanChunk(secrets, z);
    TwoChunks(secrets, a + s, MatchTokens(a, s), z, step);
    RestHasNoMatch(secrets, z, cut);
    CutAt(z, cut);
    LiteralsConcat(z[..cut], z[cut..]);
    Assoc(MatchTokens(a, s), Literals(z[..cut]), Literals(z[cut..]));
  }

  lemma RestHasNoMatch(secrets: seq<Bytes>, z: Bytes, cut: nat)
    requires Configured(secrets) && FreeOf(secrets, z) && cut <= |z|
    ensures Finish(secrets, z[cut..]) == Literals(z[cut..])
  {
    forall p | p in secrets
      ensures !Contains(z[cut..], p)
    {
      if Contains(z[cut..], p) {
        TailContains(z, cut, p);
      }
    }
    FreeMeansNoMatch(secrets, z[cut..]);
    assert [] + Literals(z[cut..]) == Literals(z[cut..]);
  }

  lemma FirstChunk(secrets: seq<Bytes>, a: Bytes, s: Bytes)
    requires Configured(secrets) && s in secrets && LetThroughBefore(secrets, a, s)
    ensures Feed(secrets, [], a + s) == Drained(MatchTokens(a, s), [])
  {
    PrependNothing(a + s);
    NextMatchIs(secrets, a, s);
    JoinedPieces(a, s);
    NothingToDrain(secrets);
    assert MatchTokens(a, s) + [] == MatchTokens(a, s);
    assert DrainMatches(secrets, a + s) == Drained(MatchTokens(a, s), []);
  }

  lemma JoinedPieces(a: Bytes, s: Bytes)
    ensures var buffer := a + s;
            buffer[..|a|] == a && buffer[|a|..|a| + |s|] == s && buffer[|a| + |s|..] == []
  {
  }

  lemma NothingToDrain(secrets: seq<Bytes>)
    ensures DrainMatches(secrets, []) == Drained([], [])
  {
  }

  lemma {:induction false} NextMatchIs(secrets: seq<Bytes>, a: Bytes, s: Bytes)
    requires s in secrets && s != [] && LetThroughBefore(secrets, a, s)
    ensures NextMatch(secrets, a + s) == Some((|a|, |s|))
    decreases |a|
  {
    var buffer := a + s;
    assert buffer[0..] == buffer;
    if a == [] {
      assert buffer == s && s[..|s|] == s;
    } else {
      NoPrefixMeansZero(secrets, buffer);
      assert buffer[1..] == a[1..] + s;
      forall j | 0 <= j < |a[1..]|
        ensures NoneStarts(secrets, (a[1..] + s)[j..])
      {
        assert (a[1..] + s)[j..] == buffer[j + 1..];
      }
      NextMatchIs(secrets, a[1..], s);
    }
  }

  lemma OutputOfPrefixSecretTail(secrets: seq<Bytes>, r: Bytes, a: Bytes, s: Bytes, z: Bytes)
    requires Configured(secrets) && s in secrets && LetThroughBefore(secrets, a, s) && FreeOf(secrets, z)
    ensures Output(secrets, r, [a + s, z]) == a + r + z
  {
    PrefixSecretTail(secrets, a, s, z);
    ParseConcat(MatchTokens(a, s), Literals(z), r);
    ParseConcat(Literals(a), [Match(s)], r);
    LiteralParse(a, r);
    LiteralParse(z, r);
    SingleMatch(s, r);
  }

  lemma LeakWitness(secrets: seq<Bytes>, r: Bytes, q: Bytes, chunks: seq<Bytes>, k: nat)
    requires q in secrets && OccursAt(Output(secrets, r, chunks), q, k)
    ensures !FreeOf(secrets, Output(secrets, r, chunks))
    ensures !AlwaysClean(secrets, r)
  {
    assert Contains(Output(secrets, r, chunks), q);
  }

  lemma TailThenRest(r: Bytes, x: nat, q: Bytes)
    requires x <= |r| && r[x..] <= q
    ensures OccursAt(r + q[|r| - x..], q, x)
  {
    var z := q[|r| - x..];
    assert (r + z)[x..x + |q|] == r[x..] + z == q;
  }

  lemma HeadThenReplacement(q: Bytes, m: nat, r: Bytes)
    requires m <= |q| && RunsInto(q, m, r)
    ensures OccursAt(q[..m] + r + (if r <= q[m..] then q[m + |r|..] else []), q, 0)
  {
    CutAt(q, m);
    if r <= q[m..] {
      CutAt(q[m..], |r|);
      assert q[m..][|r|..] == q[m + |r|..];
      Assoc(q[..m], r, q[m + |r|..]);
      assert q[0..|q|] == q;
    } else {
      var out := q[..m] + r + [];
      assert out[..m] == q[..m] && out[m..|q|] == q[m..];
      assert out[0..|q|] == out[..m] + out[m..|q|];
    }
  }

  /** A minimal secret continuing a tail of the replacement is completed behind a match. */
  lemma StartsInsideLeaks(secrets: seq<Bytes>, r: Bytes, q: Bytes)
    requires Configured(secrets) && q in secrets && Minimal(secrets, q) && StartsInside(q, r)
    ensures !AlwaysClean(secrets, r)
  {
    var x :| 0 <= x < |r| && r[x..] <= q;
    var z := q[|r| - x..];
    TailOfMinimalIsFree(secrets, q, |r| - x);
    OutputOfPrefixSecretTail(secrets, r, [], q, z);
    assert [] + r == r;
    TailThenRest(r, x, q);
    LeakWitness(secrets, r, q, [[] + q, z], x);
  }

  /** A minimal secret running into the replacement is completed in front of a match. */
  lemma RunsIntoLeaks(secrets: seq<Bytes>, r: Bytes, q: Bytes, m: nat, s: Bytes)
    requires Configured(secrets) && q in secrets && Minimal(secrets, q) && s in secrets
    requires 0 < m < |q| && RunsInto(q, m, r) && LetThroughBefore(secrets, q[..m], s)
    ensures !AlwaysClean(secrets, r)
  {
    var z := if r <= q[m..] then q[m + |r|..] else [];
    TailOfMinimalIsFree(secrets, q, if r <= q[m..] then m + |r| else |q|);
    assert q[|q|..] == [];
    OutputOfPrefixSecretTail(secrets, r, q[..m], s, z);
    HeadThenReplacement(q, m, r);
    LeakWitness(secrets, r, q, [q[..m] + s, z], 0);
  }

  /**
   Exact: the complete output is free of secrets for every input and every chunking if and only if
   the configuration passes the test. (The constructor already refuses secrets inside the replacement.)
   */
  lemma AlwaysCleanExact(secrets: seq<Bytes>, replacement: Bytes)
    requires Configured(secrets) && FreeOf(secrets, replacement)
    ensures AlwaysClean(secrets, replacement) <==> SafeReplacement(secrets, replacement)
  {
    if SafeReplacement(secrets, replacement) {
      forall chunks: seq<Bytes>
        ensures FreeOf(secrets, Output(secrets, replacement, chunks))
      {
        SafeIsClean(secrets, replacement, chunks);
      }
    } else {
      var q :| q in secrets && Minimal(secrets, q)
               && (StartsInside(q, replacement) || CompletedBefore(secrets, q, replacement));
      if StartsInside(q, replacement) {
        StartsInsideLeaks(secrets, replacement, q);
      } else {
        var m, s :| 0 < m < |q| && s in secrets && RunsInto(q, m, replacement)
                    && LetThroughBefore(secrets, q[..m], s);
        RunsIntoLeaks(secrets, replacement, q, m, s);
      }
    }
  }

  /** No secret contains the replacement, continues one of its tails, or runs into one of its heads. */
  predicate OverlapFree(secrets: seq<Bytes>, replacement: Bytes) {
    forall q | q in secrets ::
      && !Contains(q, replacement)
      && !StartsInside(q, replacement)
      && forall m | 0 <= m < |q| :: !(q[m..] <= replacement)
  }

  lemma PrefixOfTailIsContained(q: Bytes, p: Bytes, m: nat)
    requires m <= |q| && p <= q[m..]
    ensures Contains(q, p)
  {
    assert q[m..][..|p|] == p;
    OccurrenceIsPrefix(q, p, m);
  }

  /** The simple sufficient test: overlap-free configurations are safe. */
  lemma OverlapFreeIsSafe(secrets: seq<Bytes>, replacement: Bytes)
    requires OverlapFree(secrets, replacement)
    ensures SafeReplacement(secrets, replacement)
  {
    forall q, m | q in secrets && 0 < m < |q|
      ensures !RunsInto(q, m, replacement)
    {
      if replacement <= q[m..] {
        PrefixOfTailIsContained(q, replacement, m);
      }
    }
  }

  /** The marker is not safe for every credential: behind a match, `]` can complete the secret `]x`. */
  lemma MarkerCanCompleteASecret()
    ensures var secret: Bytes := [93, 120];
            FreeOf([secret], REDACTION_MARKER) && !FreeOf([secret], Output([secret], REDACTION_MARKER, [secret, [120]]))
  {
    var secret: Bytes := [93, 120];
    forall i: nat | i <= |REDACTION_MARKER|
      ensures !OccursAt(REDACTION_MARKER, secret, i)
    {
      assert i + 2 <= |REDACTION_MARKER| ==> REDACTION_MARKER[i..i + 2][1] == REDACTION_MARKER[i + 1] != secret[1];
    }
    assert FreeOf([secret], [120]);
    OutputOfPrefixSecretTail([secret], REDACTION_MARKER, [], secret, [120]);
    assert [] + REDACTION_MARKER == REDACTION_MARKER && [] + secret == secret;
    assert REDACTION_MARKER[9..] == [93];
    TailThenRest(REDACTION_MARKER, 9, secret);
    assert secret[1..] == [120];
    LeakWitness([secret], REDACTION_MARKER, secret, [secret, [120]], 9);
  }
}
