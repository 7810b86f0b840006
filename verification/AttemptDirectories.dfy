/** The attempt directory as an object: what every writer of one run shares and updates in place. */
module AttemptDirectories {
  import opened Common

  type Files = map<string, Bytes>

  /** The bytes of a file; one that is not there is created empty when it is opened for appending. */
  function ContentOf(files: Files, path: string): Bytes {
    if path in files then files[path] else []
  }

  /** At most the file at `path` was written, and it is there now. */
  predicate WroteOnly(before: Files, after: Files, path: string) {
    path in after && after - {path} == before - {path}
  }

  lemma WroteEntry(before: Files, path: string, content: Bytes)
    ensures WroteOnly(before, before[path := content], path)
    ensures ContentOf(before[path := content], path) == content
  {
  }

  lemma WroteAgain(before: Files, between: Files, after: Files, path: string)
    requires (between == before || WroteOnly(before, between, path)) && WroteOnly(between, after, path)
    ensures WroteOnly(before, after, path)
  {
  }

  lemma WrittenFile(before: Files, after: Files, path: string)
    requires WroteOnly(before, after, path)
    ensures after == before[path := ContentOf(after, path)]
  {
    forall p ensures p in after <==> p in before[path := ContentOf(after, path)] {
      assert p != path ==> (p in after <==> p in after - {path}) && (p in before <==> p in before - {path});
    }
    forall p | p in after ensures after[p] == before[path := ContentOf(after, path)][p] {
      assert p != path ==> after[p] == (after - {path})[p] && before[p] == (before - {path})[p];
    }
  }

  /** One attempt directory: every file under it, by relative path. */
  class AttemptDirectory {
    var files: Files

    constructor (files: Files)
      ensures this.files == files
    {
      this.files := files;
    }
  }
}
