/** JSON values, the text encoder as a parameter with its laws, and line framing. */
module Json {
  import opened Common

  /** 2^n. */
  function Pow2(n: nat): (p: int)
    ensures p > 0
  {
    if n == 0 then 1 else 2 * Pow2(n - 1)
  }

  /**
   Amounts of money and time: integer multiples of 2^-1074, of which every finite double is one.
   Sums are exact; floating-point rounding is not modelled.
   */
  type Amount = int
  const ONE: Amount := Pow2(1074)

  /** The amount an integer denotes. */
  function Whole(n: int): Amount { n * ONE }

  datatype Value =
    | Null
    | Bool(b: bool)
    | Int(i: int)
    | Float(a: Amount)
    | Str(s: string)
    | Arr(items: seq<Value>)
    | Obj(fields: map<string, Value>)

  type Fields = map<string, Value>

  /** `mapping.get(key)`: absent reads as null. */
  function Get(fields: Fields, key: string): Value {
    if key in fields then fields[key] else Null
  }

  function Strings(values: seq<string>): (items: seq<Value>)
    ensures |items| == |values|
    ensures forall i | 0 <= i < |values| :: items[i] == Str(values[i])
  {
    seq(|values|, i requires 0 <= i < |values| => Str(values[i]))
  }

  const LF: byte := 10
  const CR: byte := 13

  predicate IsBreak(b: byte) { b == LF || b == CR }

  predicate IsBlank(line: Bytes) {
    forall i | 0 <= i < |line| :: line[i] == 32 || 9 <= line[i] <= 13
  }

  /** The JSON library: compact and indented encodings and the duplicate-safe parser. */
  datatype Text = Text(compact: Value -> Bytes, indented: Value -> Bytes, parse: Bytes -> Option<Value>) {
    /**
     What `json.dumps` and `json.loads` guarantee for each other: escapes keep raw line breaks out, and
     a complete text followed by an object is refused as having extra data.
     */
    ghost predicate Lawful() {
      forall v: Value ::
        && parse(compact(v)) == Some(v)
        && parse(indented(v) + [LF]) == Some(v)
        && (forall i | 0 <= i < |compact(v)| :: !IsBreak(compact(v)[i]))
        && !IsBlank(compact(v))
        && (v.Obj? ==> forall front: Bytes | parse(front).Some? :: parse(front + compact(v)).None?)
    }
  }

  /** Number of bytes before the first line break. */
  function LineLength(s: Bytes): (n: nat)
    ensures n <= |s|
    ensures forall i | 0 <= i < n :: !IsBreak(s[i])
    ensures n < |s| ==> IsBreak(s[n])
  {
    if s == [] || IsBreak(s[0]) then 0 else 1 + LineLength(s[1..])
  }

  /** `content.splitlines()` on bytes: lines end at LF, CR or CR LF. */
  function SplitLines(s: Bytes): seq<Bytes>
    decreases |s|
  {
    if s == [] then []
    else
      var n := LineLength(s);
      if n == |s| then [s]
      else
        var skip := if s[n] == CR && n + 1 < |s| && s[n + 1] == LF then n + 2 else n + 1;
        [s[..n]] + SplitLines(s[skip..])
  }

  lemma {:induction false} LineLengthIs(line: Bytes, rest: Bytes)
    requires forall i | 0 <= i < |line| :: !IsBreak(line[i])
    ensures LineLength(line + [LF] + rest) == |line|
  {
    var s := line + [LF] + rest;
    if line != [] {
      assert s[1..] == line[1..] + [LF] + rest;
      LineLengthIs(line[1..], rest);
    }
  }

  /** A line without breaks, terminated by LF, is split off whole. */
  lemma SplitLine(line: Bytes, rest: Bytes)
    requires forall i | 0 <= i < |line| :: !IsBreak(line[i])
    ensures SplitLines(line + [LF] + rest) == [line] + SplitLines(rest)
  {
    var s := line + [LF] + rest;
    LineLengthIs(line, rest);
    assert s[..|line|] == line && s[|line| + 1..] == rest && s[|line|] == LF;
  }

  /** Lines end at LF, at CR LF taken as one, or at CR; the last one may lack its end. */
  lemma SplitAtBreak(line: Bytes, rest: Bytes)
    requires forall i | 0 <= i < |line| :: !IsBreak(line[i])
    ensures SplitLines([]) == [] && (line != [] ==> SplitLines(line) == [line])
    ensures SplitLines(line + [LF] + rest) == [line] + SplitLines(rest)
    ensures SplitLines(line + ([CR, LF] + rest)) == [line] + SplitLines(rest)
    ensures rest == [] || rest[0] != LF ==> SplitLines(line + ([CR] + rest)) == [line] + SplitLines(rest)
  {
    SplitLine(line, rest);
    BreakAt(line, []);
    AppendNothing(line);
    SplitAtReturnFeed(line, rest);
    if rest == [] || rest[0] != LF { SplitAtReturn(line, rest); }
  }

  lemma SplitAtReturnFeed(line: Bytes, rest: Bytes)
    requires forall i | 0 <= i < |line| :: !IsBreak(line[i])
    ensures SplitLines(line + ([CR, LF] + rest)) == [line] + SplitLines(rest)
  {
    var s := line + ([CR, LF] + rest);
    BreakAt(line, [CR, LF] + rest);
    assert s[|line|] == CR && s[|line| + 1] == LF && s[|line| + 2..] == rest;
  }

  lemma SplitAtReturn(line: Bytes, rest: Bytes)
    requires (forall i | 0 <= i < |line| :: !IsBreak(line[i])) && (rest == [] || rest[0] != LF)
    ensures SplitLines(line + ([CR] + rest)) == [line] + SplitLines(rest)
  {
    var s := line + ([CR] + rest);
    BreakAt(line, [CR] + rest);
    assert s[|line|] == CR && s[|line| + 1..] == rest && (rest != [] ==> s[|line| + 1] == rest[0]);
  }

  lemma {:induction false} BreakAt(line: Bytes, more: Bytes)
    requires forall i | 0 <= i < |line| :: !IsBreak(line[i])
    requires more == [] || IsBreak(more[0])
    ensures LineLength(line + more) == |line| && (line + more)[..|line|] == line
  {
    if line != [] {
      assert (line + more)[1..] == line[1..] + more;
      BreakAt(line[1..], more);
    } else {
      PrependNothing(more);
    }
  }

  /** One compact line per value, each terminated by LF. */
  function Frame(text: Text, values: seq<Value>): Bytes {
    if values == [] then []
    else text.compact(values[0]) + [LF] + Frame(text, values[1..])
  }

  lemma {:induction false} FrameSnoc(text: Text, values: seq<Value>, last: Value)
    ensures Frame(text, values + [last]) == Frame(text, values) + (text.compact(last) + [LF])
  {
    if values == [] {
      assert [last][1..] == [] && [] + [last] == [last];
      var line := text.compact(last) + [LF];
      assert line + [] == line && [] + line == line;
    } else {
      assert (values + [last])[1..] == values[1..] + [last];
      FrameSnoc(text, values[1..], last);
      Assoc(text.compact(values[0]) + [LF], Frame(text, values[1..]), text.compact(last) + [LF]);
    }
  }
}
