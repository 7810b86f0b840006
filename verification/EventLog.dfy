/** The append-only event log: every append re-reads the file but compares only with its last event. */
module EventLog {
  import opened Common
  import opened Json
  import opened Events
  import opened AttemptDirectories

  datatype Identity = Identity(runId: string, attempt: int)

  /** What the writer compares before it writes, against the events already in the file. */
  predicate AcceptsNext(writer: Identity, existing: seq<HarnessEvent>, e: HarnessEvent) {
    && e.runId == writer.runId && e.attempt == writer.attempt
    && (existing != [] ==>
          && existing[0].runId == writer.runId && existing[0].attempt == writer.attempt
          && existing[|existing| - 1].sequence < e.sequence
          && existing[|existing| - 1].schemaVersion == e.schemaVersion)
  }

  /** Comparing with the last event only is the full stream check on the extended stream. */
  lemma IncrementalCheckIsFullCheck(rules: Rules, writer: Identity, existing: seq<HarnessEvent>, e: HarnessEvent)
    requires Consistent(existing) && ValidEvent(rules, e)
    ensures AcceptsNext(writer, existing, e)
       <==> (e.runId == writer.runId && e.attempt == writer.attempt && Consistent(existing + [e]))
  {
    var all := existing + [e];
    if existing != [] {
      var last := |existing| - 1;
      assert all[last] == existing[last] && all[|existing|] == e && all[0] == existing[0];
      if AcceptsNext(writer, existing, e) {
        forall i | 0 < i < |all| ensures all[i - 1].sequence < all[i].sequence {
          if i < |existing| { assert existing[i - 1].sequence < existing[i].sequence; }
        }
      }
      if Consistent(all) {
        assert all[|existing|].schemaVersion == all[0].schemaVersion;
        assert all[last].schemaVersion == all[0].schemaVersion;
        assert all[|existing| - 1].sequence < all[|existing|].sequence;
      }
    }
  }

  /** Appends one attempt's events to a log file of its directory. */
  class JsonlEventWriter {
    const identity: Identity
    const directory: AttemptDirectory
    const path: string

    constructor (identity: Identity, directory: AttemptDirectory, path: string)
      ensures this.identity == identity && this.directory == directory && this.path == path
    {
      this.identity, this.directory, this.path := identity, directory, path;
    }

    /** One locked append. A refused event leaves the file as it was, at most created empty. */
    method Append(text: Text, rules: Rules, e: HarnessEvent) returns (r: Result<(), EventError>)
      requires ValidEvent(rules, e)
      modifies directory
      ensures var existing := ReadEvents(text, rules, ContentOf(old(directory.files), path));
              r.Ok? <==> existing.Ok? && AcceptsNext(identity, existing.value, e)
      ensures var content := ContentOf(old(directory.files), path);
              && (r.Ok? ==> directory.files
                            == old(directory.files)[path := content + (text.compact(Obj(EventDocument(e))) + [LF])])
              && (r.Err? ==> || directory.files == old(directory.files)
                             || directory.files == old(directory.files)[path := content])
    {
      if e.runId != identity.runId || e.attempt != identity.attempt {
        return Err(WriterIdentity);
      }
      var content := ContentOf(directory.files, path);
      directory.files := directory.files[path := content];
      var read := ReadEvents(text, rules, content);
      if read.Err? {
        return Err(read.error);
      }
      var existing := read.value;
      if existing != [] {
        if existing[0].runId != identity.runId || existing[0].attempt != identity.attempt {
          return Err(WriterIdentity);
        }
        var last := existing[|existing| - 1];
        if e.sequence <= last.sequence {
          return Err(SequenceNotIncreasing);
        }
        if e.schemaVersion != last.schemaVersion {
          return Err(MixedVersions);
        }
      }
      var encoded := text.compact(Obj(EventDocument(e)));
      directory.files := directory.files[path := content + (encoded + [LF])];
      r := Ok(());
    }
  }

  // -------------------------------------------------- any series of appends

  datatype Attempt = Attempt(writer: Identity, event: HarnessEvent)

  /** The bytes after one append: the same decision the writer makes. */
  function AfterAppend(text: Text, rules: Rules, content: Bytes, a: Attempt): Bytes {
    var existing := ReadEvents(text, rules, content);
    if existing.Ok? && AcceptsNext(a.writer, existing.value, a.event)
    then content + (text.compact(Obj(EventDocument(a.event))) + [LF]) else content
  }

  function AfterAppends(text: Text, rules: Rules, attempts: seq<Attempt>): Bytes {
    if attempts == [] then []
    else AfterAppend(text, rules, AfterAppends(text, rules, attempts[..|attempts| - 1]), attempts[|attempts| - 1])
  }

  /** The events a reader of the whole series would accept, checked in full each time. */
  function AcceptedEvents(attempts: seq<Attempt>): seq<HarnessEvent> {
    if attempts == [] then []
    else
      var before := AcceptedEvents(attempts[..|attempts| - 1]);
      var a := attempts[|attempts| - 1];
      if a.event.runId == a.writer.runId && a.event.attempt == a.writer.attempt && Consistent(before + [a.event])
      then before + [a.event] else before
  }

  /**
   Starting from an empty file, after any series of serialised appends by any writers, reading the
   bytes gives exactly the accepted events in order.
   */
  lemma {:induction false} LogHoldsAcceptedEvents(text: Text, rules: Rules, attempts: seq<Attempt>)
    requires text.Lawful() && forall a | a in attempts :: ValidEvent(rules, a.event)
    ensures AfterAppends(text, rules, attempts) == LogBytes(text, AcceptedEvents(attempts))
    ensures ReadEvents(text, rules, AfterAppends(text, rules, attempts)) == Ok(AcceptedEvents(attempts))
    ensures AllValid(rules, AcceptedEvents(attempts)) && Consistent(AcceptedEvents(attempts))
  {
    if attempts == [] {
      ReadLog(text, rules, []);
    } else {
      var front, a := attempts[..|attempts| - 1], attempts[|attempts| - 1];
      LogHoldsAcceptedEvents(text, rules, front);
      var before := AcceptedEvents(front);
      IncrementalCheckIsFullCheck(rules, a.writer, before, a.event);
      LogSnoc(text, before, a.event);
      ReadLog(text, rules, AcceptedEvents(attempts));
    }
  }
}
