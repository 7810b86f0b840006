/** The artifact manifest: one record line per retained file, appended without replacing anything. */
module Manifest {
  import opened Common
  import opened Json
  import opened AttemptDirectories

  datatype ArtifactRecord = ArtifactRecord(path: string, kind: string, sizeBytes: int, sha256: string,
                                           createdAtUtc: string)

  /**
   What the constructor decides by patterns: a relative path that does not escape, a nonempty kind, a
   lowercase digest, a UTC timestamp, and no recognizable secret.
   */
  type RecordRules = ArtifactRecord -> bool

  predicate RecordOk(rules: RecordRules, r: ArtifactRecord) {
    r.sizeBytes >= 0 && rules(r)
  }

  const RECORD_KEYS := {"schema_version", "path", "kind", "size_bytes", "sha256", "created_at_utc"}

  function RecordDocument(r: ArtifactRecord): Fields {
    map["schema_version" := Str("0.1.0"), "path" := Str(r.path), "kind" := Str(r.kind),
        "size_bytes" := Int(r.sizeBytes), "sha256" := Str(r.sha256), "created_at_utc" := Str(r.createdAtUtc)]
  }

  datatype RecordError = BlankLine | InvalidJson | NotAnObject | WrongFields | UnsupportedVersion | WrongTypes
    | InvalidRecord | Duplicate

  predicate WellTyped(d: Fields)
    requires d.Keys == RECORD_KEYS
  {
    d["size_bytes"].Int? && d["path"].Str? && d["kind"].Str? && d["sha256"].Str? && d["created_at_utc"].Str?
  }

  function RecordFrom(rules: RecordRules, d: Fields): Result<ArtifactRecord, RecordError> {
    if d.Keys != RECORD_KEYS then Err(WrongFields)
    else if d["schema_version"] != Str("0.1.0") then Err(UnsupportedVersion)
    else if !WellTyped(d) then Err(WrongTypes)
    else
      var r := ArtifactRecord(d["path"].s, d["kind"].s, d["size_bytes"].i, d["sha256"].s, d["created_at_utc"].s);
      if RecordOk(rules, r) then Ok(r) else Err(InvalidRecord)
  }

  lemma RecordRoundTrip(rules: RecordRules, r: ArtifactRecord)
    ensures RecordFrom(rules, RecordDocument(r)) == if RecordOk(rules, r) then Ok(r) else Err(InvalidRecord)
  {
  }

  /** A document that reads is the document of its record, which the constructor accepts. */
  lemma RecordReadBack(rules: RecordRules, d: Fields)
    requires RecordFrom(rules, d).Ok?
    ensures RecordDocument(RecordFrom(rules, d).value) == d && RecordOk(rules, RecordFrom(rules, d).value)
  {
    var document := RecordDocument(RecordFrom(rules, d).value);
    assert document.Keys == RECORD_KEYS;
    forall key | key in d ensures document[key] == d[key] {}
  }

  function LineFrom(text: Text, rules: RecordRules, line: Bytes): Result<ArtifactRecord, RecordError> {
    if IsBlank(line) then Err(BlankLine)
    else
      match text.parse(line)
      case None => Err(InvalidJson)
      case Some(v) => if v.Obj? then RecordFrom(rules, v.fields) else Err(NotAnObject)
  }

  function LinesFrom(text: Text, rules: RecordRules, lines: seq<Bytes>): Result<seq<ArtifactRecord>, RecordError> {
    if lines == [] then Ok([])
    else
      var first :- LineFrom(text, rules, lines[0]);
      var rest :- LinesFrom(text, rules, lines[1..]);
      Ok([first] + rest)
  }

  function ReadRecords(text: Text, rules: RecordRules, content: Bytes): Result<seq<ArtifactRecord>, RecordError> {
    LinesFrom(text, rules, SplitLines(content))
  }

  function RecordLine(text: Text, r: ArtifactRecord): Bytes {
    text.compact(Obj(RecordDocument(r)))
  }

  function Paths(rs: seq<ArtifactRecord>): set<string> {
    set r | r in rs :: r.path
  }

  /** One append: the file is decoded in full, a repeated path is refused. */
  function Append(text: Text, rules: RecordRules, content: Bytes, r: ArtifactRecord): Result<Bytes, RecordError> {
    var existing :- ReadRecords(text, rules, content);
    if r.path in Paths(existing) then Err(Duplicate) else Ok(content + (RecordLine(text, r) + [LF]))
  }

  datatype Appended = Appended(content: Bytes, error: Option<RecordError>)

  /** Appends until the first refusal. */
  function AppendAll(text: Text, rules: RecordRules, content: Bytes, rs: seq<ArtifactRecord>): Appended
    decreases |rs|
  {
    if rs == [] then Appended(content, None)
    else
      match Append(text, rules, content, rs[0])
      case Err(error) => Appended(content, Some(error))
      case Ok(next) => AppendAll(text, rules, next, rs[1..])
  }

  /** What is still to be appended, from the `k`-th record on, leads to `all`. */
  predicate AppendsFrom(
      text: Text, rules: RecordRules, content: Bytes, records: seq<ArtifactRecord>, k: nat, all: Appended)
  {
    k <= |records| && AppendAll(text, rules, content, records[k..]) == all
  }

  lemma AppendedFromStart(text: Text, rules: RecordRules, content: Bytes, records: seq<ArtifactRecord>)
    ensures AppendsFrom(text, rules, content, records, 0, AppendAll(text, rules, content, records))
  {
    WholeSuffix(records);
  }

  lemma AppendsNext(
      text: Text, rules: RecordRules, content: Bytes, records: seq<ArtifactRecord>, k: nat, all: Appended)
    requires k < |records| && AppendsFrom(text, rules, content, records, k, all)
    ensures var next := Append(text, rules, content, records[k]);
            if next.Ok? then AppendsFrom(text, rules, next.value, records, k + 1, all)
            else all == Appended(content, Some(next.error))
  {
    assert records[k..][0] == records[k] && records[k..][1..] == records[k + 1..];
  }

  lemma AppendsDone(text: Text, rules: RecordRules, content: Bytes, records: seq<ArtifactRecord>, all: Appended)
    requires AppendsFrom(text, rules, content, records, |records|, all)
    ensures all == Appended(content, None)
  {
  }

  /** Appends one record per retained file to the manifest of a directory. */
  class ArtifactRecordWriter {
    const directory: AttemptDirectory
    const path: string

    constructor (directory: AttemptDirectory, path: string)
      ensures this.directory == directory && this.path == path
    {
      this.directory, this.path := directory, path;
    }

    /** One locked append. A refused record leaves the file as it was, created empty if it was not there. */
    method AppendRecord(text: Text, rules: RecordRules, r: ArtifactRecord) returns (error: Option<RecordError>)
      modifies directory
      ensures var content := ContentOf(old(directory.files), path);
              var appended := Append(text, rules, content, r);
              && (error.None? <==> appended.Ok?)
              && (error.Some? ==> appended == Err(error.value))
              && WroteOnly(old(directory.files), directory.files, path)
              && ContentOf(directory.files, path) == if appended.Ok? then appended.value else content
    {
      var content := ContentOf(directory.files, path);
      WroteEntry(directory.files, path, content);
      WroteEntry(directory.files[path := content], path, content + (RecordLine(text, r) + [LF]));
      directory.files := directory.files[path := content];
      var existing := ReadRecords(text, rules, content);
      if existing.Err? {
        return Some(existing.error);
      }
      if r.path in Paths(existing.value) {
        return Some(Duplicate);
      }
      directory.files := directory.files[path := content + (RecordLine(text, r) + [LF])];
      error := None;
    }

    /** Appends until the first refusal. */
    method AppendEach(text: Text, rules: RecordRules, records: seq<ArtifactRecord>) returns (error: Option<RecordError>)
      requires records != []
      modifies directory
      ensures var appended := AppendAll(text, rules, ContentOf(old(directory.files), path), records);
              && WroteOnly(old(directory.files), directory.files, path)
              && ContentOf(directory.files, path) == appended.content && error == appended.error
    {
      ghost var files, content := directory.files, ContentOf(directory.files, path);
      ghost var all := AppendAll(text, rules, content, records);
      error := None;
      AppendedFromStart(text, rules, content, records);
      for k := 0 to |records|
        invariant error.None? && (if k == 0 then directory.files == files else WroteOnly(files, directory.files, path))
        invariant content == ContentOf(directory.files, path) && AppendsFrom(text, rules, content, records, k, all)
      {
        AppendsNext(text, rules, content, records, k, all);
        ghost var between := directory.files;
        error := AppendRecord(text, rules, records[k]);
        WroteAgain(files, between, directory.files, path);
        if error.Some? {
          return;
        }
        content := ContentOf(directory.files, path);
      }
      AppendsDone(text, rules, content, records, all);
    }
  }

  // ----------------------------------------------------------- line appends

  predicate EndsLine(content: Bytes) {
    content == [] || IsBreak(content[|content| - 1])
  }

  /** Where the next line of nonempty content starts. */
  function NextLine(s: Bytes): (skip: nat)
    requires LineLength(s) < |s|
    ensures 0 < skip <= |s|
  {
    var n := LineLength(s);
    if s[n] == CR && n + 1 < |s| && s[n + 1] == LF then n + 2 else n + 1
  }

  lemma {:induction false} LineLengthGrows(s: Bytes, more: Bytes)
    ensures LineLength(s) < |s| ==> LineLength(s + more) == LineLength(s)
    ensures LineLength(s) == |s| ==> LineLength(s + more) == |s| + LineLength(more)
  {
    if s == [] {
      assert s + more == more;
    } else if !IsBreak(s[0]) {
      assert (s + more)[1..] == s[1..] + more;
      LineLengthGrows(s[1..], more);
    }
  }

  /** The first of several lines. */
  lemma SplitFirst(s: Bytes)
    requires LineLength(s) < |s|
    ensures SplitLines(s) == [s[..LineLength(s)]] + SplitLines(s[NextLine(s)..])
  {
  }

  lemma SlicesOfConcat(a: Bytes, b: Bytes, n: nat, skip: nat)
    requires n <= |a| && skip <= |a|
    ensures (a + b)[..n] == a[..n] && (a + b)[skip..] == a[skip..] + b
  {
  }

  lemma NextLineStays(content: Bytes, more: Bytes)
    requires LineLength(content) < |content|
    requires NextLine(content) < |content| || (more != [] && more[0] != LF)
    ensures LineLength(content + more) == LineLength(content) && NextLine(content + more) == NextLine(content)
  {
    var n := LineLength(content);
    LineLengthGrows(content, more);
    assert n + 1 < |content| ==> (content + more)[n + 1] == content[n + 1];
    assert n + 1 == |content| && more != [] ==> (content + more)[n + 1] == more[0];
  }

  /** The first terminated line is not affected by what is appended, unless a CR at the end meets an LF. */
  lemma FirstLineStays(content: Bytes, more: Bytes)
    requires LineLength(content) < |content|
    requires NextLine(content) < |content| || (more != [] && more[0] != LF)
    ensures var n, skip := LineLength(content), NextLine(content);
            && SplitLines(content) == [content[..n]] + SplitLines(content[skip..])
            && SplitLines(content + more) == [content[..n]] + SplitLines(content[skip..] + more)
  {
    NextLineStays(content, more);
    SplitFirst(content);
    SplitFirst(content + more);
    SlicesOfConcat(content, more, LineLength(content), NextLine(content));
  }

  lemma RestEndsLine(content: Bytes, skip: nat)
    requires EndsLine(content) && skip <= |content|
    ensures EndsLine(content[skip..])
  {
  }

  /** A line appended behind a line break is a line of its own. */
  lemma {:induction false} SplitBehindBreak(content: Bytes, line: Bytes)
    requires EndsLine(content) && line != [] && forall i | 0 <= i < |line| :: !IsBreak(line[i])
    ensures SplitLines(content + (line + [LF])) == SplitLines(content) + [line]
    decreases |content|
  {
    var more := line + [LF];
    if content == [] {
      assert content + more == line + [LF] + [];
      SplitLine(line, []);
    } else {
      var n, skip := LineLength(content), NextLine(content);
      assert more[0] == line[0];
      FirstLineStays(content, more);
      RestEndsLine(content, skip);
      SplitBehindBreak(content[skip..], line);
      Assoc([content[..n]], SplitLines(content[skip..]), [line]);
    }
  }

  /** A line appended behind an unterminated line is swallowed by it. */
  lemma {:induction false} SplitBehindText(content: Bytes, line: Bytes) returns (front: seq<Bytes>, last: Bytes)
    requires !EndsLine(content) && forall i | 0 <= i < |line| :: !IsBreak(line[i])
    ensures SplitLines(content) == front + [last]
    ensures SplitLines(content + (line + [LF])) == front + [last + line]
    decreases |content|
  {
    var n := LineLength(content);
    LineLengthGrows(content, line + [LF]);
    if n == |content| {
      front, last := [], content;
      LongerLastLine(content, line);
    } else {
      var skip := NextLine(content);
      UnterminatedRest(content, skip);
      front, last := SplitBehindText(content[skip..], line);
      FirstLineStays(content, line + [LF]);
      Assoc([content[..n]], front, [last]);
      Assoc([content[..n]], front, [last + line]);
      front := [content[..n]] + front;
    }
  }

  lemma LongerLastLine(content: Bytes, line: Bytes)
    requires LineLength(content) == |content| && content != [] && forall i | 0 <= i < |line| :: !IsBreak(line[i])
    ensures SplitLines(content) == [] + [content]
    ensures SplitLines(content + (line + [LF])) == [] + [content + line]
  {
    assert content + (line + [LF]) == (content + line) + [LF] + [];
    assert forall i | 0 <= i < |content + line| :: !IsBreak((content + line)[i]);
    SplitLine(content + line, []);
  }

  lemma UnterminatedRest(content: Bytes, skip: nat)
    requires !EndsLine(content) && LineLength(content) < |content| && skip == NextLine(content)
    ensures skip < |content| && !EndsLine(content[skip..])
  {
    BreakBefore(content);
    LastOfRest(content, skip);
  }

  lemma BreakBefore(content: Bytes)
    requires LineLength(content) < |content|
    ensures IsBreak(content[NextLine(content) - 1])
  {
  }

  lemma LastOfRest(content: Bytes, skip: nat)
    requires skip <= |content|
    ensures skip < |content|
            ==> |content[skip..]| > 0 && content[skip..][|content[skip..]| - 1] == content[|content| - 1]
  {
  }

  lemma {:induction false} LinesSnoc(text: Text, rules: RecordRules, lines: seq<Bytes>, line: Bytes)
    ensures LinesFrom(text, rules, lines + [line]).Ok?
            <==> LinesFrom(text, rules, lines).Ok? && LineFrom(text, rules, line).Ok?
    ensures LinesFrom(text, rules, lines + [line]).Ok? ==>
              LinesFrom(text, rules, lines + [line]).value
                == LinesFrom(text, rules, lines).value + [LineFrom(text, rules, line).value]
  {
    if lines == [] {
      assert [line][1..] == [] && [] + [line] == [line];
    } else {
      assert (lines + [line])[1..] == lines[1..] + [line];
      LinesSnoc(text, rules, lines[1..], line);
      if LinesFrom(text, rules, lines + [line]).Ok? {
        Assoc([LineFrom(text, rules, lines[0]).value], LinesFrom(text, rules, lines[1..]).value,
              [LineFrom(text, rules, line).value]);
      }
    }
  }

  lemma RecordLineReads(text: Text, rules: RecordRules, r: ArtifactRecord)
    requires text.Lawful() && RecordOk(rules, r)
    ensures LineFrom(text, rules, RecordLine(text, r)) == Ok(r)
    ensures RecordLine(text, r) != [] && forall i | 0 <= i < |RecordLine(text, r)| :: !IsBreak(RecordLine(text, r)[i])
  {
    var v := Obj(RecordDocument(r));
    assert text.parse(text.compact(v)) == Some(v) && !IsBlank(text.compact(v));
    assert forall i | 0 <= i < |text.compact(v)| :: !IsBreak(text.compact(v)[i]);
    RecordRoundTrip(rules, r);
  }

  /** An accepted append to terminated content adds exactly that record. */
  lemma AppendAddsRecord(text: Text, rules: RecordRules, content: Bytes, r: ArtifactRecord)
    requires text.Lawful() && RecordOk(rules, r) && EndsLine(content) && ReadRecords(text, rules, content).Ok?
    ensures ReadRecords(text, rules, content + (RecordLine(text, r) + [LF]))
            == Ok(ReadRecords(text, rules, content).value + [r])
  {
    RecordLineReads(text, rules, r);
    SplitBehindBreak(content, RecordLine(text, r));
    LinesSnoc(text, rules, SplitLines(content), RecordLine(text, r));
  }

  /** Appending behind an unterminated line leaves a file nobody can read. */
  lemma AppendBehindTextUnreadable(text: Text, rules: RecordRules, content: Bytes, r: ArtifactRecord)
    requires text.Lawful() && RecordOk(rules, r) && !EndsLine(content) && ReadRecords(text, rules, content).Ok?
    ensures ReadRecords(text, rules, content + (RecordLine(text, r) + [LF])).Err?
  {
    var line := RecordLine(text, r);
    RecordLineReads(text, rules, r);
    var front, last := SplitBehindText(content, line);
    LinesSnoc(text, rules, front, last);
    LinesSnoc(text, rules, front, last + line);
    ExtraData(text, last, Obj(RecordDocument(r)));
  }

  lemma ExtraData(text: Text, front: Bytes, v: Value)
    requires text.Lawful() && v.Obj? && text.parse(front).Some?
    ensures text.parse(front + text.compact(v)).None?
  {
  }

  /** No two records share a path. */
  predicate DistinctPaths(rs: seq<ArtifactRecord>) {
    rs != [] ==> rs[0].path !in Paths(rs[1..]) && DistinctPaths(rs[1..])
  }

  lemma PathsAddOne(rs: seq<ArtifactRecord>, r: ArtifactRecord)
    ensures Paths(rs + [r]) == Paths(rs) + {r.path}
  {
    PathsConcat(rs, [r]);
  }

  lemma PathsConcat(a: seq<ArtifactRecord>, b: seq<ArtifactRecord>)
    ensures Paths(a + b) == Paths(a) + Paths(b)
  {
    assert forall r :: r in a + b <==> r in a || r in b;
  }

  lemma PathsSplit(rs: seq<ArtifactRecord>)
    requires rs != []
    ensures Paths(rs) == {rs[0].path} + Paths(rs[1..])
  {
    assert rs == [rs[0]] + rs[1..];
    PathsConcat([rs[0]], rs[1..]);
  }

  /** To readable, terminated content exactly the new and distinct paths are appended, in order. */
  lemma {:induction false} AppendAllExact(text: Text, rules: RecordRules, content: Bytes, existing: seq<ArtifactRecord>,
                                          rs: seq<ArtifactRecord>)
    requires text.Lawful() && EndsLine(content) && ReadRecords(text, rules, content) == Ok(existing)
    requires forall r | r in rs :: RecordOk(rules, r)
    ensures AppendAll(text, rules, content, rs).error.None? <==> DistinctPaths(rs) && Paths(existing) !! Paths(rs)
    ensures AppendAll(text, rules, content, rs).error.None? ==>
              ReadRecords(text, rules, AppendAll(text, rules, content, rs).content) == Ok(existing + rs)
    decreases |rs|
  {
    if rs == [] {
      assert existing + rs == existing;
    } else {
      PathsSplit(rs);
      if rs[0].path !in Paths(existing) {
        AppendAddsRecord(text, rules, content, rs[0]);
        PathsConcat(existing, [rs[0]]);
        AppendAllExact(text, rules, content + (RecordLine(text, rs[0]) + [LF]), existing + [rs[0]], rs[1..]);
        assert rs == [rs[0]] + rs[1..];
        Assoc(existing, [rs[0]], rs[1..]);
      }
    }
  }

  /** Where a series of appends broke off, the same series can never go through again. */
  lemma {:induction false} AppendAllBlocks(text: Text, rules: RecordRules, content: Bytes, rs: seq<ArtifactRecord>)
    requires AppendAll(text, rules, content, rs).error.Some?
    ensures var left := ReadRecords(text, rules, AppendAll(text, rules, content, rs).content);
            left.Ok? ==> exists r | r in rs :: r.path in Paths(left.value)
    decreases |rs|
  {
    var next := Append(text, rules, content, rs[0]);
    if next.Ok? {
      AppendAllBlocks(text, rules, next.value, rs[1..]);
      assert forall r | r in rs[1..] :: r in rs;
    } else {
      assert rs[0] in rs;
    }
  }

  /** Two or more appends can only all succeed on readable, terminated content. */
  lemma AppendAllRequires(text: Text, rules: RecordRules, content: Bytes, rs: seq<ArtifactRecord>)
    requires text.Lawful() && |rs| > 1 && forall r | r in rs :: RecordOk(rules, r)
    requires AppendAll(text, rules, content, rs).error.None?
    ensures ReadRecords(text, rules, content).Ok? && EndsLine(content)
  {
    assert Append(text, rules, content, rs[0]).Ok?;
    var next := Append(text, rules, content, rs[0]).value;
    assert AppendAll(text, rules, next, rs[1..]).error.None?;
    assert rs[1..] != [] && Append(text, rules, next, rs[1..][0]).Ok?;
    assert ReadRecords(text, rules, next).Ok?;
    if !EndsLine(content) {
      AppendBehindTextUnreadable(text, rules, content, rs[0]);
    }
  }

  /** What reads as a manifest: one nonblank line of JSON per record, each its record's own document. */
  lemma {:induction false} LinesMean(text: Text, rules: RecordRules, lines: seq<Bytes>, rs: seq<ArtifactRecord>)
    ensures LinesFrom(text, rules, lines) == Ok(rs) <==>
              && |lines| == |rs|
              && forall i | 0 <= i < |rs| ::
                   && !IsBlank(lines[i]) && text.parse(lines[i]) == Some(Obj(RecordDocument(rs[i])))
                   && RecordOk(rules, rs[i])
  {
    if lines != [] && rs != [] {
      LineMeans(text, rules, lines[0], rs[0]);
      LinesMean(text, rules, lines[1..], rs[1..]);
      assert rs == [rs[0]] + rs[1..];
      assert forall i | 0 < i < |rs| && i < |lines| :: rs[i] == rs[1..][i - 1] && lines[i] == lines[1..][i - 1];
      assert forall i | 0 <= i < |rs| - 1 && i < |lines| - 1 ::
             rs[1..][i] == rs[i + 1] && lines[1..][i] == lines[i + 1];
    }
  }

  lemma LineMeans(text: Text, rules: RecordRules, line: Bytes, r: ArtifactRecord)
    ensures LineFrom(text, rules, line) == Ok(r) <==>
              !IsBlank(line) && text.parse(line) == Some(Obj(RecordDocument(r))) && RecordOk(rules, r)
  {
    RecordRoundTrip(rules, r);
    if LineFrom(text, rules, line) == Ok(r) { RecordReadBack(rules, text.parse(line).value.fields); }
  }
}
