/**
 The streaming redactor: exact secrets are replaced in a stream that arrives in arbitrary chunks,
 while at most the longest secret's length minus one bytes are held back.

 The specification is a parse of the input into literal bytes and matched secrets. `Stream` is the
 parse the chunked algorithm makes; `Redact` is the one-shot leftmost-longest parse it should agree with.
 */
module Redactor {
  import opened Common

  // ---------------------------------------------------------------- parses

  datatype Token = Literal(b: byte) | Match(secret: Bytes)

  /** The input a parse stands for: matched secrets put back. */
  function Restore(ts: seq<Token>): Bytes {
    if ts == [] then []
    else (if ts[0].Literal? then [ts[0].b] else ts[0].secret) + Restore(ts[1..])
  }

  /** The output a parse produces: matched secrets replaced. */
  function Render(ts: seq<Token>, replacement: Bytes): Bytes {
    if ts == [] then []
    else (if ts[0].Literal? then [ts[0].b] else replacement) + Render(ts[1..], replacement)
  }

  /** The number of replacements. */
  function Matches(ts: seq<Token>): nat {
    if ts == [] then 0 else (if ts[0].Match? then 1 else 0) + Matches(ts[1..])
  }

  function Literals(s: Bytes): (ts: seq<Token>)
    ensures |ts| == |s|
    ensures forall i | 0 <= i < |s| :: ts[i] == Literal(s[i])
  {
    seq(|s|, i requires 0 <= i < |s| => Literal(s[i]))
  }

  predicate AllLiteral(ts: seq<Token>) {
    forall i | 0 <= i < |ts| :: ts[i].Literal?
  }

  /** The input from here up to and including the next match, or on into `tail` if none follows. */
  function Ahead(ts: seq<Token>, tail: Bytes): Bytes {
    if ts == [] then tail
    else if ts[0].Match? then ts[0].secret
    else [ts[0].b] + Ahead(ts[1..], tail)
  }

  /** No secret longer than `n` stands at the very start of `s`. */
  predicate NoneLonger(secrets: seq<Bytes>, s: Bytes, n: nat) {
    forall m | n < m <= |s| :: s[..m] !in secrets
  }

  /** No secret stands at the very start of `s`. */
  predicate NoneStarts(secrets: seq<Bytes>, s: Bytes) {
    NoneLonger(secrets, s, 0)
  }

  /**
   Leftmost discipline: no secret starts at a literal byte and ends by the end of the next match
   (or within `tail`, the bytes behind the last token).
   In particular no literal run contains a secret (see LeftmostRunsAreClean).
   */
  predicate Leftmost(secrets: seq<Bytes>, ts: seq<Token>, tail: Bytes) {
    ts != [] ==>
      && (ts[0].Literal? ==> NoneStarts(secrets, Ahead(ts, tail)))
      && Leftmost(secrets, ts[1..], tail)
  }

  predicate MatchesAreSecrets(secrets: seq<Bytes>, ts: seq<Token>) {
    forall i | 0 <= i < |ts| && ts[i].Match? :: ts[i].secret in secrets
  }

  lemma {:induction false} ParseConcat(a: seq<Token>, b: seq<Token>, r: Bytes)
    ensures Restore(a + b) == Restore(a) + Restore(b)
    ensures Render(a + b, r) == Render(a, r) + Render(b, r)
    ensures Matches(a + b) == Matches(a) + Matches(b)
  {
    if a == [] {
      assert a + b == b;
    } else {
      assert (a + b)[1..] == a[1..] + b;
      ParseConcat(a[1..], b, r);
      var x := if a[0].Literal? then [a[0].b] else a[0].secret;
      var y := if a[0].Literal? then [a[0].b] else r;
      assert x + (Restore(a[1..]) + Restore(b)) == (x + Restore(a[1..])) + Restore(b);
      assert y + (Render(a[1..], r) + Render(b, r)) == (y + Render(a[1..], r)) + Render(b, r);
    }
  }

  lemma {:induction false} LiteralParse(s: Bytes, r: Bytes)
    ensures Restore(Literals(s)) == s && Render(Literals(s), r) == s && Matches(Literals(s)) == 0
  {
    if s != [] {
      assert Literals(s)[1..] == Literals(s[1..]);
      LiteralParse(s[1..], r);
    }
  }

  lemma LiteralsConcat(a: Bytes, b: Bytes)
    ensures Literals(a + b) == Literals(a) + Literals(b)
  {
  }

  lemma SingleMatch(p: Bytes, r: Bytes)
    ensures Restore([Match(p)]) == p && Render([Match(p)], r) == r && Matches([Match(p)]) == 1
  {
    assert [Match(p)][1..] == [];
    assert p + [] == p && r + [] == r;
  }

  lemma {:induction false} AheadConcat(a: seq<Token>, b: seq<Token>, tail: Bytes)
    ensures Ahead(a + b, tail) == Ahead(a, Ahead(b, tail))
  {
    if a == [] {
      assert a + b == b;
    } else {
      assert (a + b)[1..] == a[1..] + b;
      AheadConcat(a[1..], b, tail);
    }
  }

  lemma {:induction false} AheadLiterals(s: Bytes, tail: Bytes)
    ensures Ahead(Literals(s), tail) == s + tail
  {
    if s == [] {
      assert s + tail == tail;
    } else {
      assert Literals(s)[1..] == Literals(s[1..]);
      AheadLiterals(s[1..], tail);
      assert [s[0]] + (s[1..] + tail) == s + tail;
    }
  }

  lemma {:induction false} LeftmostConcat(secrets: seq<Bytes>, a: seq<Token>, b: seq<Token>, tail: Bytes)
    ensures Leftmost(secrets, a + b, tail) <==> Leftmost(secrets, a, Ahead(b, tail)) && Leftmost(secrets, b, tail)
  {
    if a == [] {
      assert a + b == b;
    } else {
      assert (a + b)[1..] == a[1..] + b;
      AheadConcat(a, b, tail);
      LeftmostConcat(secrets, a[1..], b, tail);
    }
  }

  lemma {:induction false} LiteralCount(ts: seq<Token>, r: Bytes)
    ensures AllLiteral(ts) ==> |Restore(ts)| == |ts| && Matches(ts) == 0
    ensures Matches(ts) == 1 && Render(ts, r) == r ==> |ts| == 1 && ts[0].Match?
    ensures |Render(ts, r)| >= Matches(ts) * |r| + |ts| - Matches(ts)
  {
    if ts != [] {
      LiteralCount(ts[1..], r);
      OneMoreTimes(Matches(ts[1..]), |r|);
    }
  }

  lemma OneMoreTimes(n: nat, size: nat)
    ensures (n + 1) * size == n * size + size
  {
  }

  // ------------------------------------------------------- matching

  /** Length of the longest secret, not longer than `n`, that is a prefix of `s`; zero if none is. */
  function LongestAt(secrets: seq<Bytes>, s: Bytes, n: nat): (len: nat)
    requires n <= |s|
    ensures len <= n
    ensures len > 0 ==> s[..len] in secrets
    ensures NoneLonger(secrets, s[..n], len)
  {
    if n == 0 then 0
    else if s[..n] in secrets then n
    else
      var len := LongestAt(secrets, s, n - 1);
      assert forall m | len < m <= n :: s[..n][..m] == s[..m] && (m < n ==> s[..n - 1][..m] == s[..m]);
      len
  }

  lemma LongestAtAll(secrets: seq<Bytes>, s: Bytes)
    ensures NoneLonger(secrets, s, LongestAt(secrets, s, |s|))
  {
    assert s[..|s|] == s;
  }

  /** Position and length of the leftmost-longest secret in `s`. */
  function NextMatch(secrets: seq<Bytes>, s: Bytes): (m: Option<(nat, nat)>)
    ensures m.Some? ==> m.value.1 > 0 && m.value.0 + m.value.1 <= |s|
  {
    if s == [] then None
    else
      var len := LongestAt(secrets, s, |s|);
      if len > 0 then Some((0, len))
      else
        var rest := NextMatch(secrets, s[1..]);
        if rest.None? then None else Some((rest.value.0 + 1, rest.value.1))
  }

  /** `p` at `i` is the leftmost occurrence of a secret, and the longest one there. */
  predicate IsNextMatch(secrets: seq<Bytes>, s: Bytes, i: nat, p: Bytes) {
    && p in secrets && OccursAt(s, p, i)
    && forall q, j: nat | q in secrets && j <= |s| && OccursAt(s, q, j) :: i < j || (i == j && |q| <= |p|)
  }

  ghost predicate Configured(secrets: seq<Bytes>) {
    forall p | p in secrets :: p != []
  }

  /** NextMatch by positions: nothing starts earlier, nothing longer starts there. */
  lemma {:induction false} NextMatchByPosition(secrets: seq<Bytes>, s: Bytes)
    ensures NextMatch(secrets, s).None? ==> forall j | 0 <= j < |s| :: NoneStarts(secrets, s[j..])
    ensures NextMatch(secrets, s).Some? ==>
              var (i, n) := NextMatch(secrets, s).value;
              && s[i..i + n] in secrets
              && NoneLonger(secrets, s[i..], n)
              && (forall j | 0 <= j < i :: NoneStarts(secrets, s[j..]))
    decreases |s|
  {
    if s != [] {
      var len := LongestAt(secrets, s, |s|);
      LongestAtAll(secrets, s);
      assert s[0..] == s;
      if len > 0 {
        assert s[0..len] == s[..len];
      } else {
        var tail := s[1..];
        NextMatchByPosition(secrets, tail);
        forall j | 0 < j < |s|
          ensures s[j..] == tail[j - 1..]
        {
        }
        if NextMatch(secrets, tail).Some? {
          var (i, n) := NextMatch(secrets, tail).value;
          assert NextMatch(secrets, s) == Some((i + 1, n));
          SliceOfSlice(s, 1, |s|, i, i + n);
          assert s[1..|s|] == tail;
        }
      }
    }
  }

  lemma NoneStartsMeansNoOccurrence(secrets: seq<Bytes>, s: Bytes, j: nat, q: Bytes)
    requires Configured(secrets) && j < |s| && NoneStarts(secrets, s[j..]) && q in secrets
    ensures !OccursAt(s, q, j)
  {
    OccurrenceIsPrefix(s, q, j);
  }

  lemma OccurrenceIsPrefix(s: Bytes, q: Bytes, j: nat)
    requires j <= |s|
    ensures OccursAt(s, q, j) <==> |q| <= |s[j..]| && s[j..][..|q|] == q
  {
    if j + |q| <= |s| {
      assert s[j..][..|q|] == s[j..j + |q|];
    }
  }

  lemma NextMatchIsLeftmostLongest(secrets: seq<Bytes>, s: Bytes)
    requires Configured(secrets)
    ensures NextMatch(secrets, s).None? ==> FreeOf(secrets, s)
    ensures NextMatch(secrets, s).Some? ==>
              var (i, n) := NextMatch(secrets, s).value;
              IsNextMatch(secrets, s, i, s[i..i + n])
  {
    NextMatchByPosition(secrets, s);
    var found := NextMatch(secrets, s);
    var bound := if found.None? then |s| else found.value.0;
    forall q, j: nat | q in secrets && j <= |s| && OccursAt(s, q, j)
      ensures bound <= j < |s|
      ensures found.Some? && j == bound ==> |q| <= found.value.1
    {
      OccurrenceIsPrefix(s, q, j);
      if j < bound {
        NoneStartsMeansNoOccurrence(secrets, s, j, q);
        assert false;
      }
      assert s[j..][..|q|] == q;
    }
  }

  /** Two candidates that both qualify are the same, so the order of the configured secrets is irrelevant. */
  lemma NextMatchUnique(secrets: seq<Bytes>, s: Bytes, i: nat, p: Bytes, j: nat, q: Bytes)
    requires IsNextMatch(secrets, s, i, p) && IsNextMatch(secrets, s, j, q)
    ensures i == j && p == q
  {
    assert i <= |s| && j <= |s|;
  }

  // ------------------------------------------- the chunked algorithm

  datatype Drained = Drained(tokens: seq<Token>, rest: Bytes)

  /** The tokens one match contributes. */
  function MatchTokens(before: Bytes, p: Bytes): seq<Token> {
    Literals(before) + [Match(p)]
  }

  function DrainMatches(secrets: seq<Bytes>, buffer: Bytes): (d: Drained)
    ensures |d.rest| <= |buffer|
    decreases |buffer|
  {
    match NextMatch(secrets, buffer)
    case None => Drained([], buffer)
    case Some((i, n)) =>
      var d := DrainMatches(secrets, buffer[i + n..]);
      Drained(MatchTokens(buffer[..i], buffer[i..i + n]) + d.tokens, d.rest)
  }

  /** Bytes held back after a feed. */
  function Retained(secrets: seq<Bytes>): nat {
    LongestLength(secrets) - 1
  }

  /** Draining a buffer that more may follow: all matches, then the bytes ahead of the held-back tail. */
  function DrainHeld(secrets: seq<Bytes>, buffer: Bytes): Drained {
    var d := DrainMatches(secrets, buffer);
    var safe := Max(0, |d.rest| - Retained(secrets));
    Drained(d.tokens + Literals(d.rest[..safe]), d.rest[safe..])
  }

  function Feed(secrets: seq<Bytes>, held: Bytes, chunk: Bytes): Drained {
    DrainHeld(secrets, held + chunk)
  }

  function Finish(secrets: seq<Bytes>, held: Bytes): seq<Token> {
    var d := DrainMatches(secrets, held);
    d.tokens + Literals(d.rest)
  }

  function FeedAll(secrets: seq<Bytes>, chunks: seq<Bytes>): Drained {
    if chunks == [] then Drained([], [])
    else
      var before := FeedAll(secrets, chunks[..|chunks| - 1]);
      var step := Feed(secrets, before.rest, chunks[|chunks| - 1]);
      Drained(before.tokens + step.tokens, step.rest)
  }

  /** The parse of a whole stream: every chunk fed, then finished. */
  function Stream(secrets: seq<Bytes>, chunks: seq<Bytes>): seq<Token> {
    var d := FeedAll(secrets, chunks);
    d.tokens + Finish(secrets, d.rest)
  }

  /** The one-shot leftmost-longest parse, one position at a time. */
  function Redact(secrets: seq<Bytes>, s: Bytes): seq<Token>
    decreases |s|
  {
    if s == [] then []
    else
      var len := LongestAt(secrets, s, |s|);
      if len > 0 then [Match(s[..len])] + Redact(secrets, s[len..])
      else [Literal(s[0])] + Redact(secrets, s[1..])
  }

  // -------------------------------------------- what every stream keeps

  /** A trailing literal is only emitted once a full window of bytes is held behind it. */
  predicate WindowFull(secrets: seq<Bytes>, done: seq<Token>, held: Bytes) {
    done != [] && done[|done| - 1].Literal? ==> |held| >= Retained(secrets)
  }

  lemma NoneStartsPrefix(secrets: seq<Bytes>, s: Bytes, whole: Bytes)
    requires s <= whole && NoneStarts(secrets, whole)
    ensures NoneStarts(secrets, s)
  {
    forall m | 0 < m <= |s| ensures s[..m] !in secrets {
      assert s[..m] == whole[..m];
    }
  }

  lemma {:induction false} AheadGrows(done: seq<Token>, held: Bytes, longer: Bytes)
    requires held <= longer
    ensures Ahead(done, held) <= Ahead(done, longer)
    ensures done == [] || Ahead(done, held) == Ahead(done, longer)
            || (done[|done| - 1].Literal? && |Ahead(done, held)| > |held|)
  {
    if done != [] && done[0].Literal? {
      AheadGrows(done[1..], held, longer);
    }
  }

  /** Leftmost emitted tokens stay so when fewer bytes are looked at. */
  lemma {:induction false} LeftmostShorter(secrets: seq<Bytes>, done: seq<Token>, held: Bytes, longer: Bytes)
    requires held <= longer && Leftmost(secrets, done, longer)
    ensures Leftmost(secrets, done, held)
  {
    if done != [] {
      AheadGrows(done, held, longer);
      if done[0].Literal? {
        NoneStartsPrefix(secrets, Ahead(done, held), Ahead(done, longer));
      }
      LeftmostShorter(secrets, done[1..], held, longer);
    }
  }

  /** Growing the buffer keeps emitted tokens leftmost, because the window behind them was full. */
  lemma {:induction false} LeftmostLonger(secrets: seq<Bytes>, done: seq<Token>, held: Bytes, longer: Bytes)
    requires held <= longer && Leftmost(secrets, done, held) && WindowFull(secrets, done, held)
    ensures Leftmost(secrets, done, longer)
  {
    if done != [] {
      LeftmostLonger(secrets, done[1..], held, longer);
      AheadGrows(done, held, longer);
      if done[0].Literal? {
        LongWindowDecides(secrets, Ahead(done, held), Ahead(done, longer));
      }
    }
  }

  lemma LongWindowDecides(secrets: seq<Bytes>, s: Bytes, longer: Bytes)
    requires s <= longer && NoneStarts(secrets, s)
    requires s == longer || |s| >= LongestLength(secrets)
    ensures NoneStarts(secrets, longer)
  {
    forall m | 0 < m <= |longer| ensures longer[..m] !in secrets {
      if m <= |s| { assert longer[..m] == s[..m]; }
    }
  }

  /** Bytes at which nothing starts are leftmost literals. */
  lemma {:induction false} LeftmostLiterals(secrets: seq<Bytes>, s: Bytes, tail: Bytes)
    requires forall j | 0 <= j < |s| :: NoneStarts(secrets, s[j..] + tail)
    ensures Leftmost(secrets, Literals(s), tail)
  {
    if s != [] {
      AheadLiterals(s, tail);
      assert s[0..] == s;
      assert Literals(s)[1..] == Literals(s[1..]);
      forall j | 0 <= j < |s[1..]|
        ensures NoneStarts(secrets, s[1..][j..] + tail)
      {
        assert s[1..][j..] == s[j + 1..];
      }
      LeftmostLiterals(secrets, s[1..], tail);
    }
  }

  lemma MatchTokensLeftmost(secrets: seq<Bytes>, done: seq<Token>, before: Bytes, p: Bytes, rest: Bytes)
    requires Leftmost(secrets, done, before + p + rest)
    requires forall j | 0 <= j < |before| :: NoneStarts(secrets, (before + p + rest)[j..])
    ensures Leftmost(secrets, done + MatchTokens(before, p), rest)
  {
    var buffer := before + p + rest;
    forall j | 0 <= j < |before|
      ensures NoneStarts(secrets, before[j..] + p)
    {
      assert before[j..] + p <= buffer[j..];
      NoneStartsPrefix(secrets, before[j..] + p, buffer[j..]);
    }
    LeftmostLiterals(secrets, before, p);
    LeftmostConcat(secrets, Literals(before), [Match(p)], rest);
    AheadConcat(Literals(before), [Match(p)], rest);
    AheadLiterals(before, p);
    assert before + p <= buffer;
    LeftmostShorter(secrets, done, before + p, buffer);
    LeftmostConcat(secrets, done, MatchTokens(before, p), rest);
  }

  lemma {:induction false} DrainKeepsLeftmost(secrets: seq<Bytes>, done: seq<Token>, buffer: Bytes)
    requires Leftmost(secrets, done, buffer)
    ensures var d := DrainMatches(secrets, buffer);
            Leftmost(secrets, done + d.tokens, d.rest) && NextMatch(secrets, d.rest).None?
    decreases |buffer|
  {
    if NextMatch(secrets, buffer).None? {
      AppendNothing(done);
    } else {
      var (i, n) := NextMatch(secrets, buffer).value;
      var now, rest := MatchTokens(buffer[..i], buffer[i..i + n]), buffer[i + n..];
      MatchLeftmost(secrets, done, buffer, i, n);
      DrainKeepsLeftmost(secrets, done + now, rest);
      Assoc(done, now, DrainMatches(secrets, rest).tokens);
    }
  }

  lemma MatchLeftmost(secrets: seq<Bytes>, done: seq<Token>, buffer: Bytes, i: nat, n: nat)
    requires Leftmost(secrets, done, buffer) && NextMatch(secrets, buffer) == Some((i, n))
    ensures Leftmost(secrets, done + MatchTokens(buffer[..i], buffer[i..i + n]), buffer[i + n..])
  {
    NextMatchByPosition(secrets, buffer);
    CutTwice(buffer, i, n);
    MatchTokensLeftmost(secrets, done, buffer[..i], buffer[i..i + n], buffer[i + n..]);
  }

  lemma SecretsConcat(secrets: seq<Bytes>, a: seq<Token>, b: seq<Token>)
    requires MatchesAreSecrets(secrets, a) && MatchesAreSecrets(secrets, b)
    ensures MatchesAreSecrets(secrets, a + b)
  {
  }

  lemma NextMatchIsSecret(secrets: seq<Bytes>, s: Bytes)
    ensures NextMatch(secrets, s).Some? ==> var (i, n) := NextMatch(secrets, s).value; s[i..i + n] in secrets
  {
    NextMatchByPosition(secrets, s);
  }

  lemma MatchTokensShape(secrets: seq<Bytes>, before: Bytes, p: Bytes)
    requires p in secrets
    ensures var ts := MatchTokens(before, p); MatchesAreSecrets(secrets, ts) && ts != [] && ts[|ts| - 1].Match?
  {
  }

  /** Tokens of a drain: they end in a match, and every match is a secret. */
  predicate EndsInMatch(secrets: seq<Bytes>, tokens: seq<Token>) {
    (tokens != [] ==> tokens[|tokens| - 1].Match?) && MatchesAreSecrets(secrets, tokens)
  }

  lemma MatchAhead(secrets: seq<Bytes>, before: Bytes, p: Bytes, later: seq<Token>)
    requires p in secrets && EndsInMatch(secrets, later)
    ensures EndsInMatch(secrets, MatchTokens(before, p) + later) && MatchTokens(before, p) + later != []
  {
    var now := MatchTokens(before, p);
    MatchTokensShape(secrets, before, p);
    SecretsConcat(secrets, now, later);
    LastOfConcat(now, later);
  }

  lemma {:induction false} DrainShape(secrets: seq<Bytes>, buffer: Bytes)
    ensures var d := DrainMatches(secrets, buffer);
            (d.tokens == [] ==> d.rest == buffer) && EndsInMatch(secrets, d.tokens)
    decreases |buffer|
  {
    match NextMatch(secrets, buffer)
    case None =>
    case Some((i, n)) =>
      NextMatchIsSecret(secrets, buffer);
      DrainShape(secrets, buffer[i + n..]);
      MatchAhead(secrets, buffer[..i], buffer[i..i + n], DrainMatches(secrets, buffer[i + n..]).tokens);
  }

  lemma LastOfConcat(a: seq<Token>, b: seq<Token>)
    requires a != []
    ensures (a + b)[|a + b| - 1] == if b == [] then a[|a| - 1] else b[|b| - 1]
  {
  }

  lemma {:induction false} DrainRestores(secrets: seq<Bytes>, buffer: Bytes)
    ensures var d := DrainMatches(secrets, buffer); Restore(d.tokens) + d.rest == buffer
    decreases |buffer|
  {
    match NextMatch(secrets, buffer)
    case None =>
    case Some((i, n)) =>
      var before, p, rest := buffer[..i], buffer[i..i + n], buffer[i + n..];
      var d := DrainMatches(secrets, rest);
      DrainRestores(secrets, rest);
      MatchTokensRestore(before, p);
      ParseConcat(MatchTokens(before, p), d.tokens, []);
      Assoc(before + p, Restore(d.tokens), d.rest);
      CutTwice(buffer, i, n);
  }

  lemma MatchTokensRestore(before: Bytes, p: Bytes)
    ensures Restore(MatchTokens(before, p)) == before + p
  {
    ParseConcat(Literals(before), [Match(p)], []);
    LiteralParse(before, []);
    SingleMatch(p, []);
  }

  /** With nothing left to match, the held bytes may become literals. */
  lemma HeldBecomesLiteral(secrets: seq<Bytes>, done: seq<Token>, held: Bytes, cut: nat)
    requires cut <= |held| && Leftmost(secrets, done, held) && NextMatch(secrets, held).None?
    ensures Leftmost(secrets, done + Literals(held[..cut]), held[cut..])
  {
    NextMatchByPosition(secrets, held);
    forall j | 0 <= j < cut
      ensures NoneStarts(secrets, held[..cut][j..] + held[cut..])
    {
      assert held[..cut][j..] + held[cut..] == held[j..];
    }
    LeftmostLiterals(secrets, held[..cut], held[cut..]);
    AheadLiterals(held[..cut], held[cut..]);
    assert held[..cut] + held[cut..] == held;
    LeftmostConcat(secrets, done, Literals(held[..cut]), held[cut..]);
  }

  lemma FeedKeepsLeftmost(secrets: seq<Bytes>, done: seq<Token>, held: Bytes, chunk: Bytes)
    requires Leftmost(secrets, done, held) && WindowFull(secrets, done, held)
    ensures var step := Feed(secrets, held, chunk);
            Leftmost(secrets, done + step.tokens, step.rest)
  {
    var d := DrainMatches(secrets, held + chunk);
    var safe := Max(0, |d.rest| - Retained(secrets));
    assert held <= held + chunk;
    LeftmostLonger(secrets, done, held, held + chunk);
    DrainKeepsLeftmost(secrets, done, held + chunk);
    HeldBecomesLiteral(secrets, done + d.tokens, d.rest, safe);
    Assoc(done, d.tokens, Literals(d.rest[..safe]));
  }

  lemma FeedShape(secrets: seq<Bytes>, done: seq<Token>, held: Bytes, chunk: Bytes)
    requires WindowFull(secrets, done, held)
    ensures var step := Feed(secrets, held, chunk);
            && WindowFull(secrets, done + step.tokens, step.rest)
            && |step.rest| <= Retained(secrets)
            && MatchesAreSecrets(secrets, step.tokens)
  {
    var d := DrainMatches(secrets, held + chunk);
    DrainShape(secrets, held + chunk);
    FeedCuts(secrets, held, chunk);
    CutKeepsWindow(secrets, done, held, chunk, d.tokens, d.rest, CutOff(secrets, d));
  }

  lemma CutKeepsWindow(
    secrets: seq<Bytes>, done: seq<Token>, held: Bytes, chunk: Bytes, tokens: seq<Token>, rest: Bytes, cut: nat)
    requires WindowFull(secrets, done, held) && EndsInMatch(secrets, tokens) && (tokens == [] ==> rest == held + chunk)
    requires cut == Max(0, |rest| - Retained(secrets))
    ensures WindowFull(secrets, done + (tokens + Literals(rest[..cut])), rest[cut..])
    ensures |rest[cut..]| <= Retained(secrets) && MatchesAreSecrets(secrets, tokens + Literals(rest[..cut]))
  {
  }

  /** What a feed lets go of and holds back, read off the drain of its buffer. */
  function CutOff(secrets: seq<Bytes>, d: Drained): (cut: nat)
    ensures cut <= |d.rest| && (cut == 0 || cut + Retained(secrets) == |d.rest|)
  {
    Max(0, |d.rest| - Retained(secrets))
  }

  lemma FeedCuts(secrets: seq<Bytes>, held: Bytes, chunk: Bytes)
    ensures var d := DrainMatches(secrets, held + chunk); var cut := CutOff(secrets, d);
            Feed(secrets, held, chunk) == Drained(d.tokens + Literals(d.rest[..cut]), d.rest[cut..])
  {
  }

  lemma FeedRestores(secrets: seq<Bytes>, held: Bytes, chunk: Bytes)
    ensures var step := Feed(secrets, held, chunk); Restore(step.tokens) + step.rest == held + chunk
  {
    var d := DrainMatches(secrets, held + chunk);
    FeedCuts(secrets, held, chunk);
    DrainRestores(secrets, held + chunk);
    HeldRestores(d.tokens, d.rest, CutOff(secrets, d));
  }

  lemma HeldRestores(tokens: seq<Token>, rest: Bytes, cut: nat)
    requires cut <= |rest|
    ensures Restore(tokens + Literals(rest[..cut])) + rest[cut..] == Restore(tokens) + rest
  {
    ParseConcat(tokens, Literals(rest[..cut]), []);
    LiteralParse(rest[..cut], []);
    Assoc(Restore(tokens), rest[..cut], rest[cut..]);
    CutAt(rest, cut);
  }

  /** How the parse so far, the bytes held back and the input fit together between two feeds. */
  ghost predicate FeedState(secrets: seq<Bytes>, done: seq<Token>, held: Bytes, input: Bytes) {
    && Restore(done) + held == input
    && MatchesAreSecrets(secrets, done)
    && Leftmost(secrets, done, held)
    && WindowFull(secrets, done, held)
    && |held| <= Retained(secrets)
  }

  lemma FeedKeepsState(secrets: seq<Bytes>, done: seq<Token>, held: Bytes, input: Bytes, chunk: Bytes)
    requires FeedState(secrets, done, held, input)
    ensures var step := Feed(secrets, held, chunk);
            FeedState(secrets, done + step.tokens, step.rest, input + chunk)
  {
    var step := Feed(secrets, held, chunk);
    FeedKeepsLeftmost(secrets, done, held, chunk);
    FeedShape(secrets, done, held, chunk);
    FeedRestores(secrets, held, chunk);
    ParseConcat(done, step.tokens, []);
    Assoc(Restore(done), Restore(step.tokens), step.rest);
    Assoc(Restore(done), held, chunk);
  }

  lemma ConcatLast(chunks: seq<Bytes>)
    requires chunks != []
    ensures Concat(chunks) == Concat(chunks[..|chunks| - 1]) + chunks[|chunks| - 1]
  {
    assert chunks == chunks[..|chunks| - 1] + [chunks[|chunks| - 1]];
    ConcatSnoc(chunks[..|chunks| - 1], chunks[|chunks| - 1]);
  }

  lemma {:induction false} FeedAllKeeps(secrets: seq<Bytes>, chunks: seq<Bytes>)
    ensures var d := FeedAll(secrets, chunks);
            FeedState(secrets, d.tokens, d.rest, Concat(chunks))
    decreases |chunks|
  {
    if chunks != [] {
      var front, chunk := chunks[..|chunks| - 1], chunks[|chunks| - 1];
      var before := FeedAll(secrets, front);
      FeedAllKeeps(secrets, front);
      FeedKeepsState(secrets, before.tokens, before.rest, Concat(front), chunk);
      ConcatLast(chunks);
    }
  }

  lemma FinishLeftmost(secrets: seq<Bytes>, done: seq<Token>, held: Bytes)
    requires Leftmost(secrets, done, held)
    ensures Leftmost(secrets, done + Finish(secrets, held), [])
  {
    var last := DrainMatches(secrets, held);
    DrainKeepsLeftmost(secrets, done, held);
    HeldBecomesLiteral(secrets, done + last.tokens, last.rest, |last.rest|);
    assert last.rest[..|last.rest|] == last.rest && last.rest[|last.rest|..] == [];
    Assoc(done, last.tokens, Literals(last.rest));
  }

  lemma FinishRestores(secrets: seq<Bytes>, held: Bytes)
    ensures Restore(Finish(secrets, held)) == held && MatchesAreSecrets(secrets, Finish(secrets, held))
  {
    var last := DrainMatches(secrets, held);
    DrainShape(secrets, held);
    DrainRestores(secrets, held);
    ParseConcat(last.tokens, Literals(last.rest), []);
    LiteralParse(last.rest, []);
  }

  /**
   Every stream, whatever the secrets and however the input is cut: putting the matched secrets back
   gives the input, only secrets are matched, and no secret starts at a byte that was let through.
   */
  lemma StreamParsesInput(secrets: seq<Bytes>, chunks: seq<Bytes>)
    ensures Restore(Stream(secrets, chunks)) == Concat(chunks)
    ensures MatchesAreSecrets(secrets, Stream(secrets, chunks))
    ensures Leftmost(secrets, Stream(secrets, chunks), [])
  {
    var d := FeedAll(secrets, chunks);
    FeedAllKeeps(secrets, chunks);
    FinishLeftmost(secrets, d.tokens, d.rest);
    FinishRestores(secrets, d.rest);
    ParseConcat(d.tokens, Finish(secrets, d.rest), []);
    SecretsConcat(secrets, d.tokens, Finish(secrets, d.rest));
  }

  /** The leftmost discipline implies that no literal run contains a secret. */
  lemma {:induction false} LeftmostRunsAreClean(secrets: seq<Bytes>, before: seq<Token>, run: seq<Token>,
                                                after: seq<Token>)
    requires Configured(secrets) && Leftmost(secrets, before + run + after, []) && AllLiteral(run)
    ensures FreeOf(secrets, Restore(run))
  {
    assert before + run + after == before + (run + after);
    LeftmostConcat(secrets, before, run + after, []);
    LeftmostConcat(secrets, run, after, []);
    RunIsClean(secrets, run, Ahead(after, []));
  }

  lemma {:induction false} RunIsClean(secrets: seq<Bytes>, run: seq<Token>, tail: Bytes)
    requires Configured(secrets) && AllLiteral(run) && Leftmost(secrets, run, tail)
    ensures FreeOf(secrets, Restore(run))
  {
    if run != [] {
      var s := Restore(run);
      RunIsClean(secrets, run[1..], tail);
      assert s[1..] == Restore(run[1..]);
      AheadOfRun(run, tail);
      NoneStartsPrefix(secrets, s, Ahead(run, tail));
      assert s[0..] == s;
      forall p, k: nat | p in secrets && k <= |s|
        ensures !OccursAt(s, p, k)
      {
        if k == 0 {
          NoneStartsMeansNoOccurrence(secrets, s, 0, p);
        } else {
          OccurrenceIsPrefix(s, p, k);
          OccurrenceIsPrefix(s[1..], p, k - 1);
          assert s[1..][k - 1..] == s[k..];
          assert !Contains(s[1..], p);
        }
      }
    }
  }

  lemma {:induction false} AheadOfRun(run: seq<Token>, tail: Bytes)
    requires AllLiteral(run)
    ensures Ahead(run, tail) == Restore(run) + tail
  {
    if run == [] {
      assert Restore(run) + tail == tail;
    } else {
      AheadOfRun(run[1..], tail);
      assert [run[0].b] + (Restore(run[1..]) + tail) == Restore(run) + tail;
    }
  }

  // ------------------------------------------------ chunk independence

  /** A secret may stand inside another one only at its very end. */
  predicate NestedOnlyAtEnd(secrets: seq<Bytes>) {
    forall p, q | p in secrets && q in secrets && q != [] :: !Contains(q[..|q| - 1], p)
  }

  /** A secret that reaches past `buffer` cannot start before the next match in it, nor be longer there. */
  lemma OverhangContainsMatch(secrets: seq<Bytes>, buffer: Bytes, more: Bytes, j: nat, m: nat)
    requires NestedOnlyAtEnd(secrets)
    requires NextMatch(secrets, buffer).Some?
    requires j <= NextMatch(secrets, buffer).value.0 && |buffer| < j + m <= |buffer + more|
    ensures (buffer + more)[j..][..m] !in secrets
  {
    var (i, n) := NextMatch(secrets, buffer).value;
    var whole := buffer + more;
    NextMatchByPosition(secrets, buffer);
    assert whole[i..i + n] == buffer[i..i + n];
    SliceOfSlice(whole, j, |whole|, 0, m);
    assert whole[j..][..m] == whole[j..j + m];
    InnerOccurrence(whole, i, n, j, m);
  }

  /** The next match is final: later bytes can neither move nor lengthen it. */
  lemma NextMatchIsFinal(secrets: seq<Bytes>, buffer: Bytes, more: Bytes)
    requires Configured(secrets) && NestedOnlyAtEnd(secrets)
    requires NextMatch(secrets, buffer).Some?
    ensures var (i, n) := NextMatch(secrets, buffer).value;
            && (forall j | 0 <= j < i :: NoneStarts(secrets, (buffer + more)[j..]))
            && NoneLonger(secrets, (buffer + more)[i..], n)
  {
    var (i, n) := NextMatch(secrets, buffer).value;
    NextMatchByPosition(secrets, buffer);
    forall j, m | 0 <= j <= i && 0 < m <= |buffer + more| - j && (j == i ==> n < m)
      ensures (buffer + more)[j..][..m] !in secrets
    {
      if j + m > |buffer| {
        OverhangContainsMatch(secrets, buffer, more, j, m);
      } else {
        assert (buffer + more)[j..][..m] == buffer[j..][..m];
        assert j < i ==> NoneStarts(secrets, buffer[j..]);
      }
    }
  }

  lemma {:induction false} RedactSkipsLiterals(secrets: seq<Bytes>, s: Bytes, i: nat)
    requires i <= |s|
    requires forall j | 0 <= j < i :: NoneStarts(secrets, s[j..])
    ensures Redact(secrets, s) == Literals(s[..i]) + Redact(secrets, s[i..])
    decreases i
  {
    if i == 0 {
      assert s[0..] == s && Literals(s[..0]) + Redact(secrets, s) == Redact(secrets, s);
    } else {
      assert s[0..] == s && NoneStarts(secrets, s);
      NoPrefixMeansZero(secrets, s);
      forall j | 0 <= j < i - 1
        ensures NoneStarts(secrets, s[1..][j..])
      {
        assert s[1..][j..] == s[j + 1..];
      }
      RedactSkipsLiterals(secrets, s[1..], i - 1);
      assert s[1..][i - 1..] == s[i..] && s[1..][..i - 1] == s[1..i];
      assert Literals(s[..i]) == [Literal(s[0])] + Literals(s[1..i]);
      Assoc([Literal(s[0])], Literals(s[1..i]), Redact(secrets, s[i..]));
    }
  }

  lemma NoPrefixMeansZero(secrets: seq<Bytes>, s: Bytes)
    requires NoneStarts(secrets, s)
    ensures LongestAt(secrets, s, |s|) == 0
  {
  }

  lemma LongestIs(secrets: seq<Bytes>, s: Bytes, n: nat)
    requires 0 < n <= |s| && s[..n] in secrets && NoneLonger(secrets, s, n)
    ensures LongestAt(secrets, s, |s|) == n
  {
    LongestAtAll(secrets, s);
  }

  lemma RedactAtMatch(secrets: seq<Bytes>, p: Bytes, rest: Bytes)
    requires p != [] && p in secrets && NoneLonger(secrets, p + rest, |p|)
    ensures Redact(secrets, p + rest) == [Match(p)] + Redact(secrets, rest)
  {
    var s := p + rest;
    assert s[..|p|] == p && s[|p|..] == rest;
    LongestIs(secrets, s, |p|);
  }

  lemma RedactAtLiteral(secrets: seq<Bytes>, b: byte, rest: Bytes)
    requires NoneStarts(secrets, [b] + rest)
    ensures Redact(secrets, [b] + rest) == [Literal(b)] + Redact(secrets, rest)
  {
    var s := [b] + rest;
    assert s[1..] == rest;
    NoPrefixMeansZero(secrets, s);
  }

  /** Literals, one match, and whatever is behind it: the one-shot parse takes them in that order. */
  lemma {:induction false} RedactLiteralsThenMatch(secrets: seq<Bytes>, a: Bytes, p: Bytes, rest: Bytes)
    requires p != [] && p in secrets && NoneLonger(secrets, p + rest, |p|)
    requires forall j | 0 <= j < |a| :: NoneStarts(secrets, a[j..] + (p + rest))
    ensures Redact(secrets, a + (p + rest)) == MatchTokens(a, p) + Redact(secrets, rest)
  {
    if a == [] {
      assert a + (p + rest) == p + rest && MatchTokens(a, p) == [Match(p)];
      RedactAtMatch(secrets, p, rest);
    } else {
      forall j | 0 <= j < |a[1..]| ensures NoneStarts(secrets, a[1..][j..] + (p + rest)) {
        assert a[1..][j..] == a[j + 1..];
      }
      RedactLiteralsThenMatch(secrets, a[1..], p, rest);
      assert a[0..] == a && a + (p + rest) == [a[0]] + (a[1..] + (p + rest));
      RedactAtLiteral(secrets, a[0], a[1..] + (p + rest));
      MatchTokensCons(a, p);
      Assoc([Literal(a[0])], MatchTokens(a[1..], p), Redact(secrets, rest));
    }
  }

  lemma MatchTokensCons(a: Bytes, p: Bytes)
    requires a != []
    ensures MatchTokens(a, p) == [Literal(a[0])] + MatchTokens(a[1..], p)
  {
    assert Literals(a) == [Literal(a[0])] + Literals(a[1..]);
    Assoc([Literal(a[0])], Literals(a[1..]), [Match(p)]);
  }

  lemma MatchPieces(buffer: Bytes, more: Bytes, i: nat, n: nat)
    requires i + n <= |buffer|
    ensures var a, p, rest := buffer[..i], buffer[i..i + n], buffer[i + n..] + more;
            && buffer + more == a + (p + rest) && (buffer + more)[i..] == p + rest
            && forall j | 0 <= j < i :: (buffer + more)[j..] == a[j..] + (p + rest)
  {
  }

  /** One match of the drain is the next match of the one-shot parse of anything longer. */
  lemma RedactTakesMatch(secrets: seq<Bytes>, buffer: Bytes, more: Bytes)
    requires Configured(secrets) && NestedOnlyAtEnd(secrets)
    requires NextMatch(secrets, buffer).Some?
    ensures var (i, n) := NextMatch(secrets, buffer).value;
            (Redact(secrets, buffer + more)
             == MatchTokens(buffer[..i], buffer[i..i + n]) + Redact(secrets, buffer[i + n..] + more))
  {
    var (i, n) := NextMatch(secrets, buffer).value;
    var a, p, rest := buffer[..i], buffer[i..i + n], buffer[i + n..] + more;
    NextMatchByPosition(secrets, buffer);
    NextMatchIsFinal(secrets, buffer, more);
    MatchPieces(buffer, more, i, n);
    RedactLiteralsThenMatch(secrets, a, p, rest);
  }

  /** `parse` takes the next match of any buffer first, whatever stands behind the buffer. */
  ghost predicate TakesMatches(secrets: seq<Bytes>, parse: Bytes -> seq<Token>, more: Bytes) {
    forall b: Bytes | NextMatch(secrets, b).Some? ::
      var (i, n) := NextMatch(secrets, b).value;
      parse(b + more) == MatchTokens(b[..i], b[i..i + n]) + parse(b[i + n..] + more)
  }

  lemma {:induction false} DrainIsPrefixOf(secrets: seq<Bytes>, parse: Bytes -> seq<Token>, buffer: Bytes, more: Bytes)
    requires TakesMatches(secrets, parse, more)
    ensures var d := DrainMatches(secrets, buffer);
            parse(buffer + more) == d.tokens + parse(d.rest + more)
    decreases |buffer|
  {
    if NextMatch(secrets, buffer).None? {
      PrependNothing(parse(buffer + more));
    } else {
      var (i, n) := NextMatch(secrets, buffer).value;
      var rest := buffer[i + n..];
      DrainIsPrefixOf(secrets, parse, rest, more);
      var d := DrainMatches(secrets, rest);
      Assoc(MatchTokens(buffer[..i], buffer[i..i + n]), d.tokens, parse(d.rest + more));
    }
  }

  lemma DrainIsRedactPrefix(secrets: seq<Bytes>, buffer: Bytes, more: Bytes)
    requires Configured(secrets) && NestedOnlyAtEnd(secrets)
    ensures var d := DrainMatches(secrets, buffer);
            Redact(secrets, buffer + more) == d.tokens + Redact(secrets, d.rest + more)
  {
    var parse := (s: Bytes) => Redact(secrets, s);
    forall b: Bytes | NextMatch(secrets, b).Some?
      ensures var (i, n) := NextMatch(secrets, b).value;
              parse(b + more) == MatchTokens(b[..i], b[i..i + n]) + parse(b[i + n..] + more)
    {
      RedactTakesMatch(secrets, b, more);
    }
    DrainIsPrefixOf(secrets, parse, buffer, more);
  }

  /** Bytes ahead of a full window are final: no secret can start there any more. */
  lemma SafePrefixIsFinal(secrets: seq<Bytes>, held: Bytes, more: Bytes, cut: nat)
    requires NextMatch(secrets, held).None?
    requires cut == 0 || cut + Retained(secrets) <= |held|
    ensures Redact(secrets, held + more) == Literals(held[..cut]) + Redact(secrets, held[cut..] + more)
  {
    NextMatchByPosition(secrets, held);
    var whole := held + more;
    forall j | 0 <= j < cut
      ensures NoneStarts(secrets, whole[j..])
    {
      assert held[j..] <= whole[j..];
      LongWindowDecides(secrets, held[j..], whole[j..]);
    }
    RedactSkipsLiterals(secrets, whole, cut);
    assert whole[..cut] == held[..cut] && whole[cut..] == held[cut..] + more;
  }

  lemma FeedIsRedactPrefix(secrets: seq<Bytes>, held: Bytes, chunk: Bytes, more: Bytes)
    requires Configured(secrets) && NestedOnlyAtEnd(secrets)
    ensures var step := Feed(secrets, held, chunk);
            Redact(secrets, held + (chunk + more)) == step.tokens + Redact(secrets, step.rest + more)
  {
    FeedCuts(secrets, held, chunk);
    Assoc(held, chunk, more);
    BufferIsRedactPrefix(secrets, held + chunk, more);
  }

  /** Draining a buffer and letting go of what cannot start a secret any more follows the one-shot parse. */
  lemma BufferIsRedactPrefix(secrets: seq<Bytes>, buffer: Bytes, more: Bytes)
    requires Configured(secrets) && NestedOnlyAtEnd(secrets)
    ensures var d := DrainMatches(secrets, buffer); var cut := CutOff(secrets, d);
            Redact(secrets, buffer + more) == d.tokens + Literals(d.rest[..cut]) + Redact(secrets, d.rest[cut..] + more)
  {
    var d := DrainMatches(secrets, buffer);
    var cut := CutOff(secrets, d);
    DrainIsRedactPrefix(secrets, buffer, more);
    DrainLeavesNoMatch(secrets, buffer);
    SafePrefixIsFinal(secrets, d.rest, more, cut);
    Assoc(d.tokens, Literals(d.rest[..cut]), Redact(secrets, d.rest[cut..] + more));
  }

  lemma {:induction false} DrainLeavesNoMatch(secrets: seq<Bytes>, buffer: Bytes)
    ensures NextMatch(secrets, DrainMatches(secrets, buffer).rest).None?
    decreases |buffer|
  {
    match NextMatch(secrets, buffer)
    case None =>
    case Some((i, n)) => DrainLeavesNoMatch(secrets, buffer[i + n..]);
  }

  lemma {:induction false} FeedAllIsRedactPrefix(secrets: seq<Bytes>, chunks: seq<Bytes>, more: Bytes)
    requires Configured(secrets) && NestedOnlyAtEnd(secrets)
    ensures var d := FeedAll(secrets, chunks);
            Redact(secrets, Concat(chunks) + more) == d.tokens + Redact(secrets, d.rest + more)
    decreases |chunks|
  {
    if chunks == [] {
    } else {
      var front, chunk := chunks[..|chunks| - 1], chunks[|chunks| - 1];
      var before := FeedAll(secrets, front);
      FeedAllIsRedactPrefix(secrets, front, chunk + more);
      FeedIsRedactPrefix(secrets, before.rest, chunk, more);
      assert chunks == front + [chunk];
      ConcatSnoc(front, chunk);
      Assoc(Concat(front), chunk, more);
      var step := Feed(secrets, before.rest, chunk);
      Assoc(before.tokens, step.tokens, Redact(secrets, step.rest + more));
    }
  }

  /** Without inner nesting, every chunking makes the one-shot leftmost-longest parse of the whole input. */
  lemma StreamIsOneShot(secrets: seq<Bytes>, chunks: seq<Bytes>)
    requires Configured(secrets) && NestedOnlyAtEnd(secrets)
    ensures Stream(secrets, chunks) == Redact(secrets, Concat(chunks))
  {
    var d := FeedAll(secrets, chunks);
    FeedAllIsRedactPrefix(secrets, chunks, []);
    assert Concat(chunks) + [] == Concat(chunks) && d.rest + [] == d.rest;
    var last := DrainMatches(secrets, d.rest);
    DrainIsRedactPrefix(secrets, d.rest, []);
    DrainLeavesNoMatch(secrets, d.rest);
    assert last.rest + [] == last.rest;
    NextMatchByPosition(secrets, last.rest);
    RedactSkipsLiterals(secrets, last.rest, |last.rest|);
    assert last.rest[..|last.rest|] == last.rest && Redact(secrets, last.rest[|last.rest|..]) == [];
    assert Literals(last.rest) + [] == Literals(last.rest);
  }

  /** What a run writes and counts. */
  function Observed(secrets: seq<Bytes>, replacement: Bytes, chunks: seq<Bytes>): (Bytes, nat) {
    (Render(Stream(secrets, chunks), replacement), Matches(Stream(secrets, chunks)))
  }

  /** Output and count depend on the input only, not on where it is cut. */
  ghost predicate ChunkIndependent(secrets: seq<Bytes>, replacement: Bytes) {
    forall a, b | Concat(a) == Concat(b) :: Observed(secrets, replacement, a) == Observed(secrets, replacement, b)
  }

  /** Output and count are chunk independent exactly when secrets nest at most at the end. */
  lemma ChunkIndependenceExact(secrets: seq<Bytes>, replacement: Bytes)
    requires Configured(secrets)
    ensures ChunkIndependent(secrets, replacement) <==> NestedOnlyAtEnd(secrets)
  {
    if NestedOnlyAtEnd(secrets) {
      forall a, b | Concat(a) == Concat(b)
        ensures Observed(secrets, replacement, a) == Observed(secrets, replacement, b)
      {
        StreamIsOneShot(secrets, a);
        StreamIsOneShot(secrets, b);
      }
    } else {
      var p, q :| p in secrets && q in secrets && q != [] && Contains(q[..|q| - 1], p);
      NestedSecretSplits(secrets, replacement, p, q);
    }
  }

  lemma SecretAloneIsOneMatch(secrets: seq<Bytes>, q: Bytes)
    requires q in secrets && q != []
    ensures DrainMatches(secrets, q) == Drained([Match(q)], [])
    ensures Feed(secrets, [], q) == Drained([Match(q)], [])
  {
    assert q[..|q|] == q && q[|q|..] == [] && [] + q == q;
    assert Literals(q[..0]) == [];
    assert DrainMatches(secrets, []) == Drained([], []);
    assert NextMatch(secrets, q) == Some((0, |q|));
    assert q[0..|q|] == q;
  }

  lemma FeedAllOfOne(secrets: seq<Bytes>, a: Bytes)
    ensures FeedAll(secrets, [a]) == Feed(secrets, [], a)
  {
    var step := Feed(secrets, [], a);
    assert [a][..0] == [];
    assert [] + step.tokens == step.tokens;
  }

  lemma FeedAllOfTwo(secrets: seq<Bytes>, a: Bytes, b: Bytes)
    ensures Feed(secrets, [], a).tokens <= FeedAll(secrets, [a, b]).tokens
  {
    FeedAllOfOne(secrets, a);
    assert [a, b][..1] == [a];
  }

  /** Fed at once the outer secret is one replacement; fed without its last byte first it is not. */
  lemma NestedSecretSplits(secrets: seq<Bytes>, replacement: Bytes, p: Bytes, q: Bytes)
    requires Configured(secrets) && p in secrets && q in secrets && Contains(q[..|q| - 1], p)
    ensures !ChunkIndependent(secrets, replacement)
  {
    var head, last := q[..|q| - 1], q[|q| - 1..];
    ConcatOne(q);
    ConcatTwo(head, last);
    CutAt(q, |q| - 1);
    WholeSecretIsOneReplacement(secrets, replacement, q);
    SplitStreamDiffers(secrets, replacement, p, q);
    ChunkingsDiffer(secrets, replacement, [q], [head, last]);
  }

  lemma ChunkingsDiffer(secrets: seq<Bytes>, replacement: Bytes, a: seq<Bytes>, b: seq<Bytes>)
    requires Concat(a) == Concat(b) && Observed(secrets, replacement, a) != Observed(secrets, replacement, b)
    ensures !ChunkIndependent(secrets, replacement)
  {
  }

  lemma WholeSecretIsOneReplacement(secrets: seq<Bytes>, replacement: Bytes, q: Bytes)
    requires q in secrets && q != []
    ensures Stream(secrets, [q]) == [Match(q)]
    ensures Observed(secrets, replacement, [q]) == (replacement, 1)
  {
    FeedAllOfOne(secrets, q);
    SecretAloneIsOneMatch(secrets, q);
    FinishNothing(secrets);
    SingleMatch(q, replacement);
  }

  lemma FinishNothing(secrets: seq<Bytes>)
    ensures Finish(secrets, []) == []
  {
  }

  lemma SplitStreamDiffers(secrets: seq<Bytes>, replacement: Bytes, p: Bytes, q: Bytes)
    requires Configured(secrets) && p in secrets && q in secrets && Contains(q[..|q| - 1], p)
    ensures Observed(secrets, replacement, [q[..|q| - 1], q[|q| - 1..]]) != (replacement, 1)
  {
    var head, last := q[..|q| - 1], q[|q| - 1..];
    var ts, first := Stream(secrets, [head, last]), Feed(secrets, [], head).tokens;
    StreamParsesInput(secrets, [head, last]);
    ConcatTwo(head, last);
    FirstFeedMatches(secrets, p, head);
    FeedAllOfTwo(secrets, head, last);
    assert first <= ts;
    FeedRestores(secrets, [], head);
    assert Restore(first) != Restore(ts);
    assert |ts| > 1;
    LiteralCount(ts, replacement);
  }

  lemma FirstFeedMatches(secrets: seq<Bytes>, p: Bytes, head: Bytes)
    requires Configured(secrets) && p in secrets && Contains(head, p)
    ensures Feed(secrets, [], head).tokens != []
  {
    assert [] + head == head;
    NextMatchIsLeftmostLongest(secrets, head);
    assert NextMatch(secrets, head).Some?;
  }
}
