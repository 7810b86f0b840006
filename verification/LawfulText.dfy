/**
 The laws assumed of the JSON library can be met: a codec that meets them. Its texts are not JSON; what counts is
 that every value has a text of its own, that none begins another, and that none holds a line break.
 */
module LawfulText {
  import opened Common
  import opened Json

  const ONE_MORE: byte := 49
  const DONE: byte := 46

  /** A number as so many strokes and an end. */
  function Strokes(n: nat): (s: Bytes)
    ensures s != [] && forall b | b in s :: b == ONE_MORE || b == DONE
  {
    if n == 0 then [DONE] else [ONE_MORE] + Strokes(n - 1)
  }

  lemma {:induction false} StrokesUnique(n: nat, m: nat, x: Bytes, y: Bytes)
    requires Strokes(n) + x == Strokes(m) + y
    ensures n == m && x == y
  {
    var s, t := Strokes(n) + x, Strokes(m) + y;
    assert s[0] == t[0] && s[1..] == t[1..];
    if n == 0 || m == 0 {
      assert [DONE] + x == s && [DONE] + y == t;
      assert s[1..] == x && t[1..] == y;
    } else {
      assert s[1..] == Strokes(n - 1) + x && t[1..] == Strokes(m - 1) + y;
      StrokesUnique(n - 1, m - 1, x, y);
    }
  }

  function Number(i: int): (s: Bytes)
    ensures s != [] && forall b | b in s :: b == ONE_MORE || b == DONE
  {
    if i >= 0 then Strokes(2 * i) else Strokes(-2 * i - 1)
  }

  lemma NumberUnique(i: int, j: int, x: Bytes, y: Bytes)
    requires Number(i) + x == Number(j) + y
    ensures i == j && x == y
  {
    StrokesUnique(if i >= 0 then 2 * i else -2 * i - 1, if j >= 0 then 2 * j else -2 * j - 1, x, y);
  }

  function Word(s: string): (t: Bytes)
    ensures t != [] && forall b | b in t :: b == ONE_MORE || b == DONE
  {
    if s == [] then [DONE] else [ONE_MORE] + (Strokes(s[0] as int) + Word(s[1..]))
  }

  lemma {:induction false} WordUnique(s: string, t: string, x: Bytes, y: Bytes)
    requires Word(s) + x == Word(t) + y
    ensures s == t && x == y
  {
    var a, b := Word(s) + x, Word(t) + y;
    assert a[0] == b[0] && a[1..] == b[1..];
    if s == [] || t == [] {
      assert a[1..] == x && b[1..] == y;
    } else {
      Assoc(Strokes(s[0] as int), Word(s[1..]), x);
      Assoc(Strokes(t[0] as int), Word(t[1..]), y);
      assert a[1..] == Strokes(s[0] as int) + Word(s[1..]) + x;
      assert b[1..] == Strokes(t[0] as int) + Word(t[1..]) + y;
      StrokesUnique(s[0] as int, t[0] as int, Word(s[1..]) + x, Word(t[1..]) + y);
      WordUnique(s[1..], t[1..], x, y);
    }
  }

  /** The kind of a value, as a number in front of it. */
  function Kind(v: Value): nat {
    match v
    case Null => 0 case Bool(_) => 1 case Int(_) => 2 case Float(_) => 3
    case Str(_) => 4 case Arr(_) => 5 case Obj(_) => 6
  }

  ghost function Encode(v: Value): (s: Bytes)
    ensures s != [] && forall b | b in s :: b == ONE_MORE || b == DONE
    decreases v, 2, 0
  {
    Strokes(Kind(v)) + Body(v)
  }

  ghost function Body(v: Value): (s: Bytes)
    ensures forall b | b in s :: b == ONE_MORE || b == DONE
    decreases v, 1, 0
  {
    match v
    case Null => []
    case Bool(b) => Number(if b then 1 else 0)
    case Int(i) => Number(i)
    case Float(a) => Number(a)
    case Str(s) => Word(s)
    case Arr(items) => Items(items)
    case Obj(fields) => Entries(v, fields)
  }

  ghost function Items(items: seq<Value>): (s: Bytes)
    ensures forall b | b in s :: b == ONE_MORE || b == DONE
    decreases items
  {
    if items == [] then [DONE] else [ONE_MORE] + (Encode(items[0]) + Items(items[1..]))
  }

  predicate Part(v: Value, fields: Fields) {
    v.Obj? && forall key | key in fields :: key in v.fields && v.fields[key] == fields[key]
  }

  /** Entry by entry, in whatever order they are taken. */
  ghost function Entries(v: Value, fields: Fields): (s: Bytes)
    requires Part(v, fields)
    ensures forall b | b in s :: b == ONE_MORE || b == DONE
    decreases v, 0, |fields|, 1
  {
    if fields == map[] then [DONE] else [ONE_MORE] + Entry(v, fields)
  }

  ghost function Entry(v: Value, fields: Fields): (s: Bytes)
    requires Part(v, fields) && fields != map[]
    ensures forall b | b in s :: b == ONE_MORE || b == DONE
    decreases v, 0, |fields|, 0
  {
    var key := First(fields);
    Word(key) + (Encode(v.fields[key]) + Entries(v, fields - {key}))
  }

  /** The entry that stands in front. */
  ghost function First(fields: Fields): (key: string)
    requires fields != map[]
    ensures key in fields
  {
    var key :| key in fields;
    key
  }

  // ------------------------------------------------------- unique decoding

  lemma {:induction false} EncodeUnique(v: Value, w: Value, x: Bytes, y: Bytes)
    requires Encode(v) + x == Encode(w) + y
    ensures v == w && x == y
    decreases v, 2, 0
  {
    Assoc(Strokes(Kind(v)), Body(v), x);
    Assoc(Strokes(Kind(w)), Body(w), y);
    StrokesUnique(Kind(v), Kind(w), Body(v) + x, Body(w) + y);
    BodyUnique(v, w, x, y);
  }

  lemma {:induction false} BodyUnique(v: Value, w: Value, x: Bytes, y: Bytes)
    requires Kind(v) == Kind(w) && Body(v) + x == Body(w) + y
    ensures v == w && x == y
    decreases v, 1, 0
  {
    match v
    case Null =>
      assert [] + x == x && [] + y == y;
    case Bool(b) => NumberUnique(if b then 1 else 0, if w.b then 1 else 0, x, y);
    case Int(i) => NumberUnique(i, w.i, x, y);
    case Float(a) => NumberUnique(a, w.a, x, y);
    case Str(t) => WordUnique(t, w.s, x, y);
    case Arr(items) => ItemsUnique(items, w.items, x, y);
    case Obj(fields) => EntriesUnique(v, fields, w, w.fields, x, y);
  }

  /** Two marked texts are marked alike, and agree behind the mark. */
  lemma Marked(a: byte, s: Bytes, x: Bytes, b: byte, t: Bytes, y: Bytes)
    requires [a] + s + x == [b] + t + y
    ensures a == b && s + x == t + y
  {
    var l, r := [a] + s + x, [b] + t + y;
    assert l[0] == a && r[0] == b && l[1..] == s + x && r[1..] == t + y;
  }

  lemma Done(x: Bytes)
    ensures [DONE] + x == [DONE] + [] + x
  {
  }

  lemma {:induction false} ItemsUnique(a: seq<Value>, b: seq<Value>, x: Bytes, y: Bytes)
    requires Items(a) + x == Items(b) + y
    ensures a == b && x == y
    decreases a
  {
    if a == [] || b == [] {
      Done(x);
      Done(y);
      Marked(if a == [] then DONE else ONE_MORE, if a == [] then [] else Encode(a[0]) + Items(a[1..]), x,
             if b == [] then DONE else ONE_MORE, if b == [] then [] else Encode(b[0]) + Items(b[1..]), y);
      assert [] + x == x && [] + y == y;
    } else {
      Marked(ONE_MORE, Encode(a[0]) + Items(a[1..]), x, ONE_MORE, Encode(b[0]) + Items(b[1..]), y);
      Assoc(Encode(a[0]), Items(a[1..]), x);
      Assoc(Encode(b[0]), Items(b[1..]), y);
      EncodeUnique(a[0], b[0], Items(a[1..]) + x, Items(b[1..]) + y);
      ItemsUnique(a[1..], b[1..], x, y);
      assert a == [a[0]] + a[1..] && b == [b[0]] + b[1..];
    }
  }

  lemma {:induction false} EntriesUnique(v: Value, a: Fields, w: Value, b: Fields, x: Bytes, y: Bytes)
    requires Part(v, a) && Part(w, b) && Entries(v, a) + x == Entries(w, b) + y
    ensures a == b && x == y
    decreases v, 0, |a|
  {
    if a == map[] || b == map[] {
      Done(x);
      Done(y);
      Marked(if a == map[] then DONE else ONE_MORE, if a == map[] then [] else Entry(v, a), x,
             if b == map[] then DONE else ONE_MORE, if b == map[] then [] else Entry(w, b), y);
      assert [] + x == x && [] + y == y;
    } else {
      var k, l := First(a), First(b);
      Marked(ONE_MORE, Entry(v, a), x, ONE_MORE, Entry(w, b), y);
      Parts(Word(k), Encode(v.fields[k]), Entries(v, a - {k}), x);
      Parts(Word(l), Encode(w.fields[l]), Entries(w, b - {l}), y);
      WordUnique(k, l, Encode(v.fields[k]) + (Entries(v, a - {k}) + x),
                 Encode(w.fields[l]) + (Entries(w, b - {l}) + y));
      EncodeUnique(v.fields[k], w.fields[l], Entries(v, a - {k}) + x, Entries(w, b - {l}) + y);
      EntriesUnique(v, a - {k}, w, b - {l}, x, y);
      PutBack(a, k);
      PutBack(b, l);
    }
  }

  lemma Parts(a: Bytes, b: Bytes, c: Bytes, x: Bytes)
    ensures a + (b + c) + x == a + (b + (c + x))
  {
  }

  lemma PutBack(m: Fields, key: string)
    requires key in m
    ensures (m - {key})[key := m[key]] == m
  {
  }

  // --------------------------------------------------------------- the codec

  ghost predicate IsText(s: Bytes, v: Value) {
    s == Encode(v) || s == Encode(v) + [LF]
  }

  ghost function Decode(s: Bytes): Option<Value> {
    if exists v :: IsText(s, v) then
      var v :| IsText(s, v);
      Some(v)
    else None
  }

  ghost function Codec(): Text {
    Text(v => Encode(v), v => Encode(v), s => Decode(s))
  }

  lemma OneValue(s: Bytes, v: Value, w: Value)
    requires IsText(s, v) && IsText(s, w)
    ensures v == w
  {
    var x: Bytes, y: Bytes := if s == Encode(v) then [] else [LF], if s == Encode(w) then [] else [LF];
    assert Encode(v) + [] == Encode(v) && Encode(w) + [] == Encode(w);
    EncodeUnique(v, w, x, y);
  }

  lemma Decodes(s: Bytes, v: Value)
    requires IsText(s, v)
    ensures Decode(s) == Some(v)
  {
    var w :| IsText(s, w) && Decode(s) == Some(w);
    OneValue(s, v, w);
  }

  /** What follows a text to make another is nothing or a line break. */
  lemma TextContinued(front: Bytes, u: Value, more: Bytes, w: Value)
    requires IsText(front, u) && IsText(front + more, w)
    ensures more == [] || LF in more
  {
    var x: Bytes := if front == Encode(u) then [] else [LF];
    var y: Bytes := if front + more == Encode(w) then [] else [LF];
    assert Encode(u) + [] == Encode(u) && Encode(w) + [] == Encode(w);
    Assoc(Encode(u), x, more);
    EncodeUnique(u, w, x + more, y);
    assert x == [] ==> more == y by { assert [] + more == more; }
  }

  lemma NothingBehindText(front: Bytes, v: Value)
    requires Decode(front).Some?
    ensures Decode(front + Encode(v)).None?
  {
    if Decode(front + Encode(v)).Some? {
      var u :| IsText(front, u);
      var w :| IsText(front + Encode(v), w);
      TextContinued(front, u, Encode(v), w);
    }
  }

  lemma CodecIsLawful()
    ensures Codec().Lawful()
  {
    forall v: Value
      ensures Decode(Encode(v)) == Some(v) && Decode(Encode(v) + [LF]) == Some(v)
    {
      Decodes(Encode(v), v);
      Decodes(Encode(v) + [LF], v);
    }
    forall v: Value, front: Bytes | Decode(front).Some?
      ensures Decode(front + Encode(v)).None?
    {
      NothingBehindText(front, v);
    }
    forall v: Value
      ensures (forall i | 0 <= i < |Encode(v)| :: !IsBreak(Encode(v)[i])) && !IsBlank(Encode(v))
    {
      forall i | 0 <= i < |Encode(v)| ensures !IsBreak(Encode(v)[i]) { assert Encode(v)[i] in Encode(v); }
      assert Encode(v)[0] in Encode(v);
    }
  }
}
