/** The stateful redactor that one capture thread feeds. */
module StreamingRedaction {
  import opened Common
  import opened Redactor

  datatype RedactorError = ReplacementContainsCredential

  class StreamingRedactor {
    const secrets: seq<Bytes>
    const replacement: Bytes
    const maximumSecretLength: nat
    var buffer: Bytes
    var redactions: nat

    ghost predicate Valid() {
      && Configured(secrets)
      && FreeOf(secrets, replacement)
      && maximumSecretLength == LongestLength(secrets)
    }

    constructor (ordered: seq<Bytes>, replacement: Bytes)
      requires Configured(ordered) && FreeOf(ordered, replacement)
      ensures Valid() && secrets == ordered && this.replacement == replacement
      ensures buffer == [] && redactions == 0
    {
      secrets := ordered;
      this.replacement := replacement;
      maximumSecretLength := LongestLength(ordered);
      buffer := [];
      redactions := 0;
    }

    /** Drops empty and repeated secrets and refuses a replacement that would show one. */
    static method Create(values: seq<Bytes>, replacement: Bytes)
      returns (r: Result<StreamingRedactor, RedactorError>)
      ensures r.Err? <==> exists p :: p in values && p != [] && Contains(replacement, p)
      ensures r.Ok? ==> fresh(r.value) && r.value.Valid() && r.value.replacement == replacement
                        && r.value.buffer == [] && r.value.redactions == 0
                        && LongestFirst(r.value.secrets)
                        && (forall p :: p in r.value.secrets <==> p in values && p != [])
    {
      var ordered: seq<Bytes> := [];
      for k := 0 to |values|
        invariant LongestFirst(ordered)
        invariant forall p :: p in ordered <==> p in values[..k] && p != []
      {
        assert values[..k + 1] == values[..k] + [values[k]];
        if values[k] != [] && values[k] !in ordered {
          ordered := InsertLongestFirst(ordered, values[k]);
        }
      }
      assert values[..|values|] == values;
      if exists p | p in ordered :: Contains(replacement, p) {
        return Err(ReplacementContainsCredential);
      }
      var redactor := new StreamingRedactor(ordered, replacement);
      r := Ok(redactor);
    }

    /** Compares every secret's first occurrence, keeping the leftmost and there the longest. */
    method FindNextMatch() returns (best: Option<(nat, nat)>)
      requires Valid()
      ensures best == NextMatch(secrets, buffer)
    {
      best := None;
      for k := 0 to |secrets|
        invariant best == BestOf(secrets[..k], buffer)
      {
        var index := Find(buffer, secrets[k]);
        if index >= 0
           && (best.None? || index < best.value.0 || (index == best.value.0 && |secrets[k]| > best.value.1)) {
          best := Some((index, |secrets[k]|));
        }
        assert secrets[..k + 1][..k] == secrets[..k];
      }
      assert secrets[..|secrets|] == secrets;
      BestIsNextMatch(secrets, buffer);
    }

    method DrainAllMatches() returns (output: Bytes)
      requires Valid()
      modifies this
      ensures buffer == DrainMatches(secrets, old(buffer)).rest
      ensures output == Render(DrainMatches(secrets, old(buffer)).tokens, replacement)
      ensures redactions == old(redactions) + Matches(DrainMatches(secrets, old(buffer)).tokens)
    {
      ghost var all, held, matched := DrainMatches(secrets, buffer), buffer, 0;
      ghost var left := all;
      output := [];
      var next := FindNextMatch();
      while next.Some?
        invariant buffer == held && next == NextMatch(secrets, held)
        invariant redactions == old(redactions) + matched
        invariant left == DrainMatches(secrets, held)
        invariant Draining(all, replacement, [], 0) == Draining(left, replacement, output, matched)
        decreases |buffer|
      {
        var (index, length) := next.value;
        left := DrainStep(secrets, replacement, output, matched, held, left, index, length);
        output := output + buffer[..index];
        output := output + replacement;
        redactions, matched := redactions + 1, matched + 1;
        held := held[index + length..];
        buffer := buffer[index + length..];
        next := FindNextMatch();
      }
      DrainingDone(secrets, replacement, output, matched, held, all);
    }

    method Drain(final: bool) returns (output: Bytes)
      requires Valid()
      modifies this
      ensures final ==> buffer == []
      ensures final ==> output == Render(Finish(secrets, old(buffer)), replacement)
      ensures final ==> redactions == old(redactions) + Matches(Finish(secrets, old(buffer)))
      ensures !final ==> buffer == DrainHeld(secrets, old(buffer)).rest
      ensures !final ==> output == Render(DrainHeld(secrets, old(buffer)).tokens, replacement)
      ensures !final ==> redactions == old(redactions) + Matches(DrainHeld(secrets, old(buffer)).tokens)
    {
      ghost var d := DrainMatches(secrets, buffer);
      output := DrainAllMatches();
      if final {
        RenderLiterals(d.tokens, buffer, replacement);
        output := output + buffer;
        buffer := [];
      } else {
        var retained := maximumSecretLength - 1;
        var safeLength := Max(0, |buffer| - retained);
        RenderLiterals(d.tokens, buffer[..safeLength], replacement);
        if safeLength > 0 {
          output := output + buffer[..safeLength];
          buffer := buffer[safeLength..];
        }
      }
    }

    method FeedChunk(chunk: Bytes) returns (output: Bytes)
      requires Valid()
      modifies this
      ensures buffer == Feed(secrets, old(buffer), chunk).rest
      ensures output == Render(Feed(secrets, old(buffer), chunk).tokens, replacement)
      ensures redactions == old(redactions) + Matches(Feed(secrets, old(buffer), chunk).tokens)
    {
      buffer := buffer + chunk;
      output := Drain(false);
    }

    method FinishStream() returns (output: Bytes)
      requires Valid()
      modifies this
      ensures buffer == []
      ensures output == Render(Finish(secrets, old(buffer)), replacement)
      ensures redactions == old(redactions) + Matches(Finish(secrets, old(buffer)))
    {
      output := Drain(true);
    }
  }

  /**
   One stream from its first chunk to its end: the output is the rendered parse of the stream, and as many
   replacements were made as secrets were matched.
   */
  method RedactStream(redactor: StreamingRedactor, chunks: seq<Bytes>) returns (output: Bytes)
    requires redactor.Valid() && redactor.buffer == [] && redactor.redactions == 0
    modifies redactor
    ensures output == Render(Stream(redactor.secrets, chunks), redactor.replacement)
    ensures redactor.redactions == Matches(Stream(redactor.secrets, chunks)) && redactor.buffer == []
  {
    output := [];
    for k := 0 to |chunks|
      invariant Fed(redactor.secrets, redactor.replacement, chunks[..k], redactor.buffer, output, redactor.redactions)
    {
      FedOneMore(redactor.secrets, redactor.replacement, chunks, k, redactor.buffer, output, redactor.redactions);
      var written := redactor.FeedChunk(chunks[k]);
      output := output + written;
    }
    WholePrefix(chunks);
    FedFinishes(redactor.secrets, redactor.replacement, chunks, redactor.buffer, output, redactor.redactions);
    var written := redactor.FinishStream();
    output := output + written;
  }

  /** Feeding these chunks holds this buffer, and wrote this output with so many replacements. */
  ghost predicate Fed(secrets: seq<Bytes>, r: Bytes, chunks: seq<Bytes>, held: Bytes, output: Bytes, count: nat) {
    var d := FeedAll(secrets, chunks);
    held == d.rest && output == Render(d.tokens, r) && count == Matches(d.tokens)
  }

  lemma FeedNext(secrets: seq<Bytes>, chunks: seq<Bytes>, k: nat)
    requires k < |chunks|
    ensures var before := FeedAll(secrets, chunks[..k]);
            var step := Feed(secrets, before.rest, chunks[k]);
            FeedAll(secrets, chunks[..k + 1]) == Drained(before.tokens + step.tokens, step.rest)
  {
    assert chunks[..k + 1][..k] == chunks[..k] && chunks[..k + 1][k] == chunks[k];
  }

  lemma FedOneMore(secrets: seq<Bytes>, r: Bytes, chunks: seq<Bytes>, k: nat, held: Bytes, output: Bytes, count: nat)
    requires k < |chunks| && Fed(secrets, r, chunks[..k], held, output, count)
    ensures var step := Feed(secrets, held, chunks[k]);
            Fed(secrets, r, chunks[..k + 1], step.rest, output + Render(step.tokens, r), count + Matches(step.tokens))
  {
    FeedNext(secrets, chunks, k);
    ParseConcat(FeedAll(secrets, chunks[..k]).tokens, Feed(secrets, held, chunks[k]).tokens, r);
  }

  lemma FedFinishes(secrets: seq<Bytes>, r: Bytes, chunks: seq<Bytes>, held: Bytes, output: Bytes, count: nat)
    requires Fed(secrets, r, chunks, held, output, count)
    ensures Render(Stream(secrets, chunks), r) == output + Render(Finish(secrets, held), r)
    ensures Matches(Stream(secrets, chunks)) == count + Matches(Finish(secrets, held))
  {
    ParseConcat(FeedAll(secrets, chunks).tokens, Finish(secrets, held), r);
  }

  /** What is held, written and counted in the end, when this drain is still to come. */
  function Draining(left: Drained, r: Bytes, output: Bytes, count: nat): (Bytes, Bytes, nat) {
    (left.rest, output + Render(left.tokens, r), count + Matches(left.tokens))
  }

  lemma DrainingDone(secrets: seq<Bytes>, r: Bytes, output: Bytes, count: nat, buffer: Bytes, all: Drained)
    requires NextMatch(secrets, buffer).None?
    requires Draining(all, r, [], 0) == Draining(DrainMatches(secrets, buffer), r, output, count)
    ensures all.rest == buffer && Render(all.tokens, r) == output && Matches(all.tokens) == count
  {
    assert [] + Render(all.tokens, r) == Render(all.tokens, r) && output + [] == output;
  }

  lemma OneMoreMatch(left: Drained, r: Bytes, output: Bytes, count: nat, before: Bytes, p: Bytes)
    ensures Draining(Drained(MatchTokens(before, p) + left.tokens, left.rest), r, output, count)
         == Draining(left, r, output + before + r, count + 1)
  {
    RenderMatchTokens(before, p, r);
    ParseConcat(MatchTokens(before, p), left.tokens, r);
    Chain3(output, before, r, Render(left.tokens, r));
  }

  lemma DrainStep(
    secrets: seq<Bytes>, r: Bytes, output: Bytes, count: nat, buffer: Bytes, all: Drained, i: nat, n: nat)
    returns (left: Drained)
    requires NextMatch(secrets, buffer) == Some((i, n)) && all == DrainMatches(secrets, buffer)
    ensures left == DrainMatches(secrets, buffer[i + n..])
    ensures Draining(all, r, output, count) == Draining(left, r, output + buffer[..i] + r, count + 1)
  {
    left := DrainMatches(secrets, buffer[i + n..]);
    OneMoreMatch(left, r, output, count, buffer[..i], buffer[i..i + n]);
  }

  lemma Chain3(a: Bytes, b: Bytes, c: Bytes, d: Bytes)
    ensures a + (b + c + d) == a + b + c + d
  {
  }

  /** The minimum over first occurrences by (position, longest). */
  function BestOf(secrets: seq<Bytes>, s: Bytes): (best: Option<(nat, nat)>) {
    if secrets == [] then None
    else
      var best := BestOf(secrets[..|secrets| - 1], s);
      var last := secrets[|secrets| - 1];
      var index := Find(s, last);
      if index >= 0 && (best.None? || index < best.value.0 || (index == best.value.0 && |last| > best.value.1))
      then Some((index, |last|)) else best
  }

  lemma {:induction false} BestOfIsMinimum(secrets: seq<Bytes>, s: Bytes)
    ensures var best := BestOf(secrets, s);
            && (best.None? ==> forall q | q in secrets :: Find(s, q) < 0)
            && (best.Some? ==>
                  && (exists q | q in secrets :: Find(s, q) == best.value.0 && |q| == best.value.1)
                  && forall q | q in secrets && Find(s, q) >= 0 ::
                       best.value.0 < Find(s, q) || (best.value.0 == Find(s, q) && |q| <= best.value.1))
  {
    if secrets != [] {
      var front, last := secrets[..|secrets| - 1], secrets[|secrets| - 1];
      BestOfIsMinimum(front, s);
      assert secrets == front + [last];
    }
  }

  lemma BestIsNextMatch(secrets: seq<Bytes>, s: Bytes)
    requires Configured(secrets)
    ensures BestOf(secrets, s) == NextMatch(secrets, s)
  {
    var best, next := BestOf(secrets, s), NextMatch(secrets, s);
    BestOfIsMinimum(secrets, s);
    if next.Some? {
      var p := NextMatchFound(secrets, s);
      FindIsLeftmost(s, p, next.value.0);
      var q :| q in secrets && Find(s, q) == best.value.0 && |q| == best.value.1;
      BestQualifies(secrets, s, best.value.0, q);
      NextMatchUnique(secrets, s, best.value.0, q, next.value.0, p);
    } else {
      NextMatchIsLeftmostLongest(secrets, s);
      forall q | q in secrets ensures Find(s, q) < 0 {
        assert !Contains(s, q);
      }
    }
  }

  lemma NextMatchFound(secrets: seq<Bytes>, s: Bytes) returns (p: Bytes)
    requires Configured(secrets) && NextMatch(secrets, s).Some?
    ensures IsNextMatch(secrets, s, NextMatch(secrets, s).value.0, p) && |p| == NextMatch(secrets, s).value.1
  {
    NextMatchIsLeftmostLongest(secrets, s);
    var (i, n) := NextMatch(secrets, s).value;
    p := s[i..i + n];
  }

  lemma BestQualifies(secrets: seq<Bytes>, s: Bytes, i: nat, p: Bytes)
    requires p in secrets && OccursAt(s, p, i)
    requires forall q | q in secrets && Find(s, q) >= 0 :: i < Find(s, q) || (i == Find(s, q) && |q| <= |p|)
    ensures IsNextMatch(secrets, s, i, p)
  {
    forall q, j: nat | q in secrets && j <= |s| && OccursAt(s, q, j)
      ensures i < j || (i == j && |q| <= |p|)
    {
      FindIsLeftmost(s, q, j);
    }
  }

  lemma RenderMatchTokens(before: Bytes, p: Bytes, r: Bytes)
    ensures Render(MatchTokens(before, p), r) == before + r
    ensures Matches(MatchTokens(before, p)) == 1
  {
    ParseConcat(Literals(before), [Match(p)], r);
    LiteralParse(before, r);
    SingleMatch(p, r);
  }

  lemma RenderLiterals(done: seq<Token>, s: Bytes, r: Bytes)
    ensures Render(done + Literals(s), r) == Render(done, r) + s
    ensures Matches(done + Literals(s)) == Matches(done)
  {
    ParseConcat(done, Literals(s), r);
    LiteralParse(s, r);
  }
}
