/** The windowed credential scan of `ExactCredentialScrubber`. */
module CredentialScan {
  import opened Common

  datatype ScrubberError = EmptySecretValue

  /** One run's exact-value refusal contract. */
  class ExactCredentialScrubber {
    const privateBytes: seq<Bytes>
    const replacement: Bytes

    ghost predicate Valid() {
      && (forall p | p in privateBytes :: p != [])
      && LongestFirst(privateBytes)
      && replacement == (if FreeOf(privateBytes, REDACTION_MARKER) then REDACTION_MARKER else [])
    }

    constructor (ordered: seq<Bytes>)
      requires forall p | p in ordered :: p != []
      requires LongestFirst(ordered)
      ensures Valid() && privateBytes == ordered
    {
      privateBytes := ordered;
      replacement := if FreeOf(ordered, REDACTION_MARKER) then REDACTION_MARKER else [];
    }

    /** Refuses an empty value; otherwise keeps each distinct value once, longest first. */
    static method Create(privateValues: seq<Bytes>) returns (r: Result<ExactCredentialScrubber, ScrubberError>)
      ensures r.Err? <==> [] in privateValues
      ensures r.Ok? ==> fresh(r.value) && r.value.Valid()
                        && (forall p :: p in r.value.privateBytes <==> p in privateValues)
    {
      var encoded: seq<Bytes> := [];
      for k := 0 to |privateValues|
        invariant [] !in privateValues[..k]
        invariant forall p :: p in encoded <==> p in privateValues[..k]
        invariant LongestFirst(encoded)
      {
        assert privateValues[..k + 1] == privateValues[..k] + [privateValues[k]];
        if privateValues[k] == [] {
          return Err(EmptySecretValue);
        }
        if privateValues[k] !in encoded {
          encoded := InsertLongestFirst(encoded, privateValues[k]);
        }
      }
      assert privateValues[..|privateValues|] == privateValues;
      var scrubber := new ExactCredentialScrubber(encoded);
      r := Ok(scrubber);
    }

    /** The exact test on one byte string. */
    method AssertBytes(value: Bytes) returns (clean: bool)
      ensures clean <==> FreeOf(privateBytes, value)
    {
      clean := true;
      for k := 0 to |privateBytes|
        invariant clean <==> FreeOf(privateBytes[..k], value)
      {
        assert privateBytes[..k + 1] == privateBytes[..k] + [privateBytes[k]];
        if Contains(value, privateBytes[k]) {
          clean := false;
        }
      }
      assert privateBytes[..|privateBytes|] == privateBytes;
    }

    /** Scans a file read piece by piece, carrying only the longest value's length minus one. */
    method AssertFile(pieces: seq<Bytes>) returns (clean: bool)
      requires forall p | p in privateBytes :: p != []
      requires forall c | c in pieces :: c != []
      ensures clean <==> FreeOf(privateBytes, Concat(pieces))
    {
      if privateBytes == [] {
        return true;
      }
      var retained := LongestLength(privateBytes) - 1;
      var overlap: Bytes := [];
      clean := true;
      var k := 0;
      ScanStarts(privateBytes, pieces);
      while clean && k < |pieces|
        invariant 0 <= k <= |pieces|
        invariant ScannedTo(privateBytes, pieces, k, clean, overlap)
      {
        var combined := overlap + pieces[k];
        clean := AssertBytes(combined);
        ScanAdvances(privateBytes, pieces, k, overlap);
        overlap := if retained == 0 then [] else Tail(combined, retained);
        k := k + 1;
      }
      ScanEnds(privateBytes, pieces, k, clean, overlap);
      ScanFromStart(privateBytes, pieces);
    }
  }

  /** Where the scan stands: what it decides is what the rest of it decides, unless it stopped. */
  ghost predicate ScannedTo(ps: seq<Bytes>, pieces: seq<Bytes>, k: nat, clean: bool, overlap: Bytes)
    requires k <= |pieces|
  {
    WindowedScan(ps, [], pieces) == (clean && WindowedScan(ps, overlap, pieces[k..]))
  }

  lemma ScanStarts(ps: seq<Bytes>, pieces: seq<Bytes>)
    ensures ScannedTo(ps, pieces, 0, true, [])
  {
    assert pieces[0..] == pieces;
  }

  lemma ScanAdvances(ps: seq<Bytes>, pieces: seq<Bytes>, k: nat, overlap: Bytes)
    requires k < |pieces| && ScannedTo(ps, pieces, k, true, overlap)
    ensures var combined, retained := overlap + pieces[k], LongestLength(ps) - 1;
            ScannedTo(ps, pieces, k + 1, FreeOf(ps, combined), if retained == 0 then [] else Tail(combined, retained))
  {
    ScanStep(ps, overlap, pieces, k);
  }

  lemma ScanEnds(ps: seq<Bytes>, pieces: seq<Bytes>, k: nat, clean: bool, overlap: Bytes)
    requires k <= |pieces| && ScannedTo(ps, pieces, k, clean, overlap) && (!clean || k == |pieces|)
    ensures clean == WindowedScan(ps, [], pieces)
  {
  }

  lemma ScanStep(ps: seq<Bytes>, overlap: Bytes, pieces: seq<Bytes>, k: nat)
    requires k < |pieces|
    ensures var combined, retained := overlap + pieces[k], LongestLength(ps) - 1;
            var next := if retained == 0 then [] else Tail(combined, retained);
            WindowedScan(ps, overlap, pieces[k..]) == (FreeOf(ps, combined) && WindowedScan(ps, next, pieces[k + 1..]))
  {
    var combined := overlap + pieces[k];
    assert Tail(combined, 0) == [];
    assert pieces[k..][0] == pieces[k] && pieces[k..][1..] == pieces[k + 1..];
  }

  lemma ScanFromStart(ps: seq<Bytes>, pieces: seq<Bytes>)
    requires forall p | p in ps :: p != []
    ensures WindowedScan(ps, [], pieces) <==> FreeOf(ps, Concat(pieces))
  {
    WindowedScanIsWholeSearch(ps, [], pieces);
    assert [] + Concat(pieces) == Concat(pieces);
  }

  /** What the scan answers for the remaining pieces, with `overlap` carried in. */
  predicate WindowedScan(ps: seq<Bytes>, overlap: Bytes, pieces: seq<Bytes>)
    decreases |pieces|
  {
    pieces == [] ||
    var combined := overlap + pieces[0];
    && FreeOf(ps, combined)
    && WindowedScan(ps, Tail(combined, LongestLength(ps) - 1), pieces[1..])
  }

  /** The windowed scan and a search of the whole content always give the same answer. */
  lemma {:induction false} WindowedScanIsWholeSearch(ps: seq<Bytes>, scanned: Bytes, pieces: seq<Bytes>)
    requires forall p | p in ps :: p != []
    requires FreeOf(ps, scanned)
    ensures WindowedScan(ps, Tail(scanned, LongestLength(ps) - 1), pieces)
       <==> FreeOf(ps, scanned + Concat(pieces))
    decreases |pieces|
  {
    if pieces == [] {
      assert scanned + Concat(pieces) == scanned;
    } else {
      var n := LongestLength(ps) - 1;
      WindowDecides(ps, scanned, pieces[0]);
      assert scanned + Concat(pieces) == (scanned + pieces[0]) + Concat(pieces[1..]);
      if FreeOf(ps, scanned + pieces[0]) {
        TailOfTail(scanned, pieces[0], n);
        WindowedScanIsWholeSearch(ps, scanned + pieces[0], pieces[1..]);
      } else {
        PrefixNotFree(ps, scanned + pieces[0], scanned + Concat(pieces));
      }
    }
  }

  /** `value[-n:]` for positive `n`, and the empty string for zero. */
  function Tail(s: Bytes, n: nat): Bytes {
    s[Max(0, |s| - n)..]
  }

  lemma PrefixNotFree(ps: seq<Bytes>, s: Bytes, whole: Bytes)
    requires s <= whole && !FreeOf(ps, s)
    ensures !FreeOf(ps, whole)
  {
    var p :| p in ps && Contains(s, p);
    var i: nat :| i <= |s| && OccursAt(s, p, i);
    assert whole[..|s|] == s;
    OccursInSlice(whole, p, 0, |s|, i);
  }

  lemma TailOfTail(scanned: Bytes, chunk: Bytes, n: nat)
    ensures Tail(Tail(scanned, n) + chunk, n) == Tail(scanned + chunk, n)
  {
  }

  /** The window test on `tail + chunk` is exact for `scanned + chunk`, given `scanned` was clean. */
  lemma WindowDecides(ps: seq<Bytes>, scanned: Bytes, chunk: Bytes)
    requires forall p | p in ps :: p != []
    requires FreeOf(ps, scanned)
    ensures FreeOf(ps, Tail(scanned, LongestLength(ps) - 1) + chunk) <==> FreeOf(ps, scanned + chunk)
  {
    var n := LongestLength(ps) - 1;
    var whole := scanned + chunk;
    var lo := Max(0, |scanned| - n);
    assert Tail(scanned, n) + chunk == whole[lo..|whole|];
    forall p | p in ps
      ensures Contains(whole[lo..|whole|], p) <==> Contains(whole, p)
    {
      assert !Contains(scanned, p);
      WindowFinds(scanned, chunk, p, lo);
    }
  }

  /** A value absent from `scanned` stands in the whole exactly when it stands in a window that starts early enough. */
  lemma WindowFinds(scanned: Bytes, chunk: Bytes, p: Bytes, lo: nat)
    requires p != [] && !Contains(scanned, p) && lo <= |scanned| && |scanned| - lo >= Min(|scanned|, |p| - 1)
    ensures Contains((scanned + chunk)[lo..|scanned + chunk|], p) <==> Contains(scanned + chunk, p)
  {
    var whole := scanned + chunk;
    if Contains(whole[lo..|whole|], p) {
      var i: nat :| i <= |whole| - lo && OccursAt(whole[lo..|whole|], p, i);
      OccursInSlice(whole, p, lo, |whole|, lo + i);
    }
    if Contains(whole, p) {
      var i: nat :| i <= |whole| && OccursAt(whole, p, i);
      NotInsideScanned(scanned, chunk, p, i);
      OccursInSlice(whole, p, lo, |whole|, i);
    }
  }

  lemma NotInsideScanned(scanned: Bytes, chunk: Bytes, p: Bytes, i: nat)
    requires !Contains(scanned, p) && OccursAt(scanned + chunk, p, i)
    ensures i + |p| > |scanned|
  {
    var whole := scanned + chunk;
    assert whole[0..|scanned|] == scanned;
    if i + |p| <= |scanned| { OccursInSlice(whole, p, 0, |scanned|, i); }
  }
}
