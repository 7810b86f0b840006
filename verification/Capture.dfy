/**
 Two capture threads share one output quota and one process-group terminator. Every locked section
 is one atomic step; any interleaving of the steps is allowed.
 */
module Capture {
  import opened Common
  import opened Redactor
  import RedactionSafety

  // -------------------------------------------------------------- shared objects

  datatype Quota = Quota(maximum: nat, used: nat, exceeded: bool)

  function Accepted(q: Quota, chunk: Bytes): Bytes {
    chunk[..Min(|chunk|, Max(0, q.maximum - q.used))]
  }

  function AfterTake(q: Quota, chunk: Bytes): Quota {
    var accepted := Accepted(q, chunk);
    q.(used := q.used + |accepted|, exceeded := q.exceeded || |accepted| != |chunk|)
  }

  class OutputQuota {
    const maximum: nat
    var used: nat
    var exceeded: bool

    constructor (maximum: nat)
      ensures State() == Quota(maximum, 0, false)
    {
      this.maximum, used, exceeded := maximum, 0, false;
    }

    ghost function State(): Quota
      reads this
    {
      Quota(maximum, used, exceeded)
    }

    method Take(chunk: Bytes) returns (accepted: Bytes)
      modifies this
      ensures accepted == Accepted(old(State()), chunk)
      ensures State() == AfterTake(old(State()), chunk)
    {
      var remaining := Max(0, maximum - used);
      accepted := chunk[..Min(|chunk|, remaining)];
      used := used + |accepted|;
      if |accepted| != |chunk| {
        exceeded := true;
      }
    }
  }

  /** What the operating system answers to one process-group kill. */
  datatype KillAnswer = Delivered | NoSuchProcess | DeniedAfterExit | DeniedWhileRunning

  datatype Terminator = Terminator(terminated: bool, delivered: nat)

  /** One call of the terminator; a denial while the process runs is raised to the caller. */
  function AfterKill(t: Terminator, answer: KillAnswer): Terminator {
    if t.terminated || answer.DeniedWhileRunning? then t
    else Terminator(true, t.delivered + if answer.Delivered? then 1 else 0)
  }

  predicate KillRaises(t: Terminator, answer: KillAnswer) {
    !t.terminated && answer.DeniedWhileRunning?
  }

  class ProcessGroupTerminator {
    var terminated: bool
    var delivered: nat

    constructor ()
      ensures State() == Terminator(false, 0)
    {
      terminated, delivered := false, 0;
    }

    ghost function State(): Terminator
      reads this
    {
      Terminator(terminated, delivered)
    }

    method Call(answer: KillAnswer) returns (raised: bool)
      modifies this
      ensures raised == KillRaises(old(State()), answer)
      ensures State() == AfterKill(old(State()), answer)
    {
      if terminated {
        return false;
      }
      match answer {
        case DeniedWhileRunning => return true;
        case Delivered => delivered := delivered + 1;
        case NoSuchProcess =>
        case DeniedAfterExit =>
      }
      terminated := true;
      raised := false;
    }
  }

  // ---------------------------------------------------------------- one thread

  datatype Phase =
    | Reading                                  // about to read the pipe
    | Offering(chunk: Bytes)                   // about to take quota for redacted bytes
    | Writing(accepted: Bytes, short: bool)    // about to write what was accepted
    | Killing                                  // the quota was short: about to kill
    | Handling                                 // the kill was denied: about to kill once more
    | Stopped(failed: bool)

  /** A thread with the history of what it read, offered to the quota, and wrote. */
  datatype Thread = Thread(
    phase: Phase, held: Bytes, finished: bool,
    chunks: seq<Bytes>, offered: Bytes, log: Bytes)

  datatype ThreadId = Stdout | Stderr

  datatype System = System(
    secrets: seq<Bytes>, replacement: Bytes,
    quota: Quota, terminator: Terminator, stdout: Thread, stderr: Thread)
  {
    function Get(id: ThreadId): Thread {
      if id == Stdout then stdout else stderr
    }

    function Set(id: ThreadId, t: Thread): System {
      if id == Stdout then this.(stdout := t) else this.(stderr := t)
    }
  }

  const IDLE := Thread(Reading, [], false, [], [], [])

  function Start(secrets: seq<Bytes>, replacement: Bytes, maximum: nat): System {
    System(secrets, replacement, Quota(maximum, 0, false), Terminator(false, 0), IDLE, IDLE)
  }

  /** Where a thread goes once its chunk is dealt with. */
  function Resume(t: Thread): Phase {
    if t.finished then Stopped(false) else Reading
  }

  datatype Action =
    | Read(id: ThreadId, chunk: Bytes)
    | EndOfFile(id: ThreadId)
    | TakeQuota(id: ThreadId)
    | WriteLog(id: ThreadId)
    | Kill(id: ThreadId, answer: KillAnswer)
    | OwnerKill(answer: KillAnswer)

  /** One atomic step; an action that is not enabled leaves the system as it is. */
  function Step(s: System, a: Action): System {
    match a
    case OwnerKill(answer) => s.(terminator := AfterKill(s.terminator, answer))
    case Read(id, chunk) =>
      var t := s.Get(id);
      if !t.phase.Reading? || chunk == [] then s
      else
        var step := Feed(s.secrets, t.held, chunk);
        s.Set(id, t.(phase := Offering(Render(step.tokens, s.replacement)),
                     held := step.rest, chunks := t.chunks + [chunk]))
    case EndOfFile(id) =>
      var t := s.Get(id);
      if !t.phase.Reading? then s
      else s.Set(id, t.(phase := Offering(Render(Finish(s.secrets, t.held), s.replacement)),
                        held := [], finished := true))
    case TakeQuota(id) =>
      var t := s.Get(id);
      if !t.phase.Offering? then s
      else
        var accepted := Accepted(s.quota, t.phase.chunk);
        s.(quota := AfterTake(s.quota, t.phase.chunk))
         .Set(id, t.(phase := Writing(accepted, |accepted| != |t.phase.chunk|),
                     offered := t.offered + t.phase.chunk))
    case WriteLog(id) =>
      var t := s.Get(id);
      if !t.phase.Writing? then s
      else s.Set(id, t.(phase := if t.phase.short then Killing else Resume(t),
                        log := t.log + t.phase.accepted))
    case Kill(id, answer) =>
      var t := s.Get(id);
      if t.phase.Killing? then
        s.(terminator := AfterKill(s.terminator, answer))
         .Set(id, t.(phase := if KillRaises(s.terminator, answer) then Handling else Resume(t)))
      else if t.phase.Handling? then
        s.(terminator := AfterKill(s.terminator, answer)).Set(id, t.(phase := Stopped(true)))
      else s
  }

  function Run(s: System, actions: seq<Action>): System {
    if actions == [] then s else Step(Run(s, actions[..|actions| - 1]), actions[|actions| - 1])
  }

  // -------------------------------------------------------------- the invariant

  /** Accepted bytes of a thread, whether already in its log or about to be written. */
  function Won(t: Thread): Bytes {
    if t.phase.Writing? then t.log + t.phase.accepted else t.log
  }

  /** The redacted stream of what a thread has read so far (complete once it has finished). */
  function Redacted(s: System, t: Thread): Bytes {
    if t.finished then Render(Stream(s.secrets, t.chunks), s.replacement)
    else Render(FeedAll(s.secrets, t.chunks).tokens, s.replacement)
  }

  ghost predicate ThreadOk(s: System, t: Thread) {
    && (t.phase.Offering? ==> t.offered + t.phase.chunk == Redacted(s, t))
    && (!t.phase.Offering? ==> t.offered == Redacted(s, t))
    && (!t.finished ==> t.held == FeedAll(s.secrets, t.chunks).rest)
    && Won(t) <= t.offered
    && (Won(t) == t.offered || s.quota.used == s.quota.maximum)
    && (t.phase.Reading? ==> !t.finished)
    && (t.phase.Killing? || t.phase.Handling? || t.phase == Stopped(true) ==> s.quota.exceeded)
    && (t.phase.Writing? && t.phase.short ==> s.quota.exceeded)
    && (t.phase == Stopped(false) ==> t.finished)
  }

  ghost predicate QuotaOk(s: System) {
    var offered := |s.stdout.offered| + |s.stderr.offered|;
    && s.quota.used == |Won(s.stdout)| + |Won(s.stderr)| == Min(s.quota.maximum, offered)
    && (s.quota.exceeded <==> offered > s.quota.maximum)
  }

  ghost predicate Inv(s: System) {
    && ThreadOk(s, s.stdout)
    && ThreadOk(s, s.stderr)
    && QuotaOk(s)
    && (s.terminator.delivered == 0 || (s.terminator.delivered == 1 && s.terminator.terminated))
  }

  lemma StartOk(secrets: seq<Bytes>, replacement: Bytes, maximum: nat)
    ensures Inv(Start(secrets, replacement, maximum))
  {
  }

  lemma ReadKeeps(s: System, id: ThreadId, chunk: Bytes)
    requires Inv(s)
    ensures Inv(Step(s, Read(id, chunk)))
  {
    var t := s.Get(id);
    if t.phase.Reading? && chunk != [] {
      var t' := Step(s, Read(id, chunk)).Get(id);
      AfterRead(s, t, chunk, t');
      ThreadFrame(s, s.terminator, id, t');
    }
  }

  /** The drain of one more chunk, as the redactor holds it. */
  lemma FeedAllSnoc(secrets: seq<Bytes>, chunks: seq<Bytes>, chunk: Bytes)
    ensures var before := FeedAll(secrets, chunks); var step := Feed(secrets, before.rest, chunk);
            FeedAll(secrets, chunks + [chunk]) == Drained(before.tokens + step.tokens, step.rest)
  {
    assert (chunks + [chunk])[..|chunks|] == chunks && (chunks + [chunk])[|chunks|] == chunk;
  }

  lemma RedactedGrows(before: Drained, step: Drained, replacement: Bytes)
    ensures Render(before.tokens + step.tokens, replacement)
            == Render(before.tokens, replacement) + Render(step.tokens, replacement)
  {
    ParseConcat(before.tokens, step.tokens, replacement);
  }

  /** A thread that read a chunk offers what the redactor let go of. */
  lemma OfferedOk(s: System, t: Thread, t': Thread, offer: Bytes)
    requires ThreadOk(s, t) && t.phase.Reading?
    requires t' == t.(phase := Offering(offer), held := t'.held, finished := t'.finished, chunks := t'.chunks)
    requires Redacted(s, t') == Redacted(s, t) + offer
    requires !t'.finished ==> t'.held == FeedAll(s.secrets, t'.chunks).rest
    ensures ThreadOk(s, t') && Won(t') == Won(t)
  {
  }

  lemma AfterRead(s: System, t: Thread, chunk: Bytes, t': Thread)
    requires ThreadOk(s, t) && t.phase.Reading?
    requires var step := Feed(s.secrets, t.held, chunk);
             t' == t.(phase := Offering(Render(step.tokens, s.replacement)), held := step.rest,
                      chunks := t.chunks + [chunk])
    ensures ThreadOk(s, t') && Won(t') == Won(t)
  {
    var before, step := FeedAll(s.secrets, t.chunks), Feed(s.secrets, t.held, chunk);
    FeedAllSnoc(s.secrets, t.chunks, chunk);
    RedactedGrows(before, step, s.replacement);
    OfferedOk(s, t, t', Render(step.tokens, s.replacement));
  }

  lemma EndOfFileKeeps(s: System, id: ThreadId)
    requires Inv(s)
    ensures Inv(Step(s, EndOfFile(id)))
  {
    var t := s.Get(id);
    if t.phase.Reading? {
      var t' := Step(s, EndOfFile(id)).Get(id);
      AfterEndOfFile(s, t, t');
      ThreadFrame(s, s.terminator, id, t');
    }
  }

  lemma FinishedStream(secrets: seq<Bytes>, chunks: seq<Bytes>, replacement: Bytes)
    ensures var before := FeedAll(secrets, chunks);
            Render(Stream(secrets, chunks), replacement)
            == Render(before.tokens, replacement) + Render(Finish(secrets, before.rest), replacement)
  {
    ParseConcat(FeedAll(secrets, chunks).tokens, Finish(secrets, FeedAll(secrets, chunks).rest), replacement);
  }

  lemma AfterEndOfFile(s: System, t: Thread, t': Thread)
    requires ThreadOk(s, t) && t.phase.Reading?
    requires t' == t.(phase := Offering(Render(Finish(s.secrets, t.held), s.replacement)), held := [], finished := true)
    ensures ThreadOk(s, t') && Won(t') == Won(t)
  {
    FinishedStream(s.secrets, t.chunks, s.replacement);
    OfferedOk(s, t, t', Render(Finish(s.secrets, t.held), s.replacement));
  }

  lemma TakeKeeps(s: System, id: ThreadId)
    requires Inv(s)
    ensures Inv(Step(s, TakeQuota(id)))
  {
    var t := s.Get(id);
    if t.phase.Offering? {
      var s' := Step(s, TakeQuota(id));
      var other := if id == Stdout then s.stderr else s.stdout;
      TakenByOne(s, s', t, s'.Get(id));
      SeenByOther(s, s', other, t.phase.chunk);
      TakenFromQuota(s, t, s'.Get(id), other);
    }
  }

  /** The taking thread: what it won is still a prefix of what it offered. */
  lemma TakenByOne(s: System, s': System, t: Thread, t': Thread)
    requires ThreadOk(s, t) && t.phase.Offering? && s.quota.used <= s.quota.maximum
    requires s'.secrets == s.secrets && s'.replacement == s.replacement && s'.quota == AfterTake(s.quota, t.phase.chunk)
    requires var accepted := Accepted(s.quota, t.phase.chunk);
             t' == t.(phase := Writing(accepted, |accepted| != |t.phase.chunk|), offered := t.offered + t.phase.chunk)
    ensures ThreadOk(s', t') && |Won(t')| == |Won(t)| + |Accepted(s.quota, t.phase.chunk)|
  {
    var accepted := Accepted(s.quota, t.phase.chunk);
    if Won(t) == t.offered {
      assert t.offered + accepted <= t.offered + t.phase.chunk;
    } else {
      assert accepted == [];
      assert t.log + [] == t.log;
      assert t.log <= t.offered <= t.offered + t.phase.chunk;
    }
  }

  /** The other thread: a full quota stays full, an exceeded one stays exceeded. */
  lemma SeenByOther(s: System, s': System, t: Thread, chunk: Bytes)
    requires ThreadOk(s, t) && s.quota.used <= s.quota.maximum
    requires s'.secrets == s.secrets && s'.replacement == s.replacement && s'.quota == AfterTake(s.quota, chunk)
    ensures ThreadOk(s', t)
  {
  }

  lemma TakenFromQuota(s: System, t: Thread, t': Thread, other: Thread)
    requires t.phase.Offering? && |t'.offered| == |t.offered| + |t.phase.chunk|
    requires |Won(t')| == |Won(t)| + |Accepted(s.quota, t.phase.chunk)|
    requires s.quota.used == |Won(t)| + |Won(other)| == Min(s.quota.maximum, |t.offered| + |other.offered|)
    requires s.quota.exceeded <==> |t.offered| + |other.offered| > s.quota.maximum
    ensures var q := AfterTake(s.quota, t.phase.chunk);
            && q.used == |Won(t')| + |Won(other)| == Min(q.maximum, |t'.offered| + |other.offered|)
            && (q.exceeded <==> |t'.offered| + |other.offered| > q.maximum)
  {
  }

  lemma WriteKeeps(s: System, id: ThreadId)
    requires Inv(s)
    ensures Inv(Step(s, WriteLog(id)))
  {
    var t := s.Get(id);
    if t.phase.Writing? {
      var t' := Step(s, WriteLog(id)).Get(id);
      AfterWrite(s, t, t');
      ThreadFrame(s, s.terminator, id, t');
    }
  }

  lemma AfterWrite(s: System, t: Thread, t': Thread)
    requires ThreadOk(s, t) && t.phase.Writing?
    requires t' == t.(phase := if t.phase.short then Killing else Resume(t), log := t.log + t.phase.accepted)
    ensures ThreadOk(s, t') && Won(t') == Won(t)
  {
  }

  lemma AfterKillPhase(s: System, t: Thread, phase: Phase)
    requires ThreadOk(s, t) && (t.phase.Killing? || t.phase.Handling?)
    requires phase == Handling || phase == Stopped(true) || phase == Resume(t)
    ensures ThreadOk(s, t.(phase := phase)) && Won(t.(phase := phase)) == Won(t)
  {
  }

  /** A kill is idle, or moves the terminator and the phase of one thread. */
  lemma KillStep(s: System, id: ThreadId, answer: KillAnswer) returns (phase: Phase)
    ensures phase == s.Get(id).phase || phase == Handling || phase == Stopped(true) || phase == Resume(s.Get(id))
    ensures phase == s.Get(id).phase ==> Step(s, Kill(id, answer)) == s
    ensures phase != s.Get(id).phase ==> s.Get(id).phase.Killing? || s.Get(id).phase.Handling?
    ensures phase != s.Get(id).phase ==>
              Step(s, Kill(id, answer))
              == s.(terminator := AfterKill(s.terminator, answer)).Set(id, s.Get(id).(phase := phase))
  {
    var t := s.Get(id);
    phase := if t.phase.Handling? then Stopped(true)
             else if !t.phase.Killing? then t.phase
             else if KillRaises(s.terminator, answer) then Handling
             else Resume(t);
  }

  lemma KillKeeps(s: System, id: ThreadId, answer: KillAnswer)
    requires Inv(s)
    ensures Inv(Step(s, Kill(id, answer)))
  {
    var phase := KillStep(s, id, answer);
    if phase != s.Get(id).phase {
      KilledOk(s, AfterKill(s.terminator, answer), id, phase) by { KillMoves(s.terminator, answer); }
    }
  }

  lemma KilledOk(s: System, terminator: Terminator, id: ThreadId, phase: Phase)
    requires Inv(s) && TerminatorMoves(s.terminator, terminator)
    requires s.Get(id).phase.Killing? || s.Get(id).phase.Handling?
    requires phase == Handling || phase == Stopped(true) || phase == Resume(s.Get(id))
    ensures Inv(s.(terminator := terminator).Set(id, s.Get(id).(phase := phase)))
  {
    AfterKillPhase(s, s.Get(id), phase);
    ThreadFrame(s, terminator, id, s.Get(id).(phase := phase));
  }

  lemma SameQuota(s: System, s': System, t: Thread)
    requires ThreadOk(s, t)
    requires s'.secrets == s.secrets && s'.replacement == s.replacement && s'.quota == s.quota
    ensures ThreadOk(s', t)
  {
  }

  /** The terminator moves only forward: at most one more delivery, and only with the flag set. */
  predicate TerminatorMoves(before: Terminator, after: Terminator) {
    after == before || (!before.terminated && after.terminated && after.delivered <= before.delivered + 1)
  }

  /** Nothing but the terminator changed. */
  lemma TerminatorFrame(s: System, terminator: Terminator)
    requires Inv(s) && TerminatorMoves(s.terminator, terminator)
    ensures Inv(s.(terminator := terminator))
  {
    var s' := s.(terminator := terminator);
    SameQuota(s, s', s.stdout);
    SameQuota(s, s', s.stderr);
  }

  /** Nothing but one thread changed, and that not in what it offered or won. */
  lemma OneThreadFrame(s: System, id: ThreadId, t: Thread)
    requires Inv(s) && ThreadOk(s, t)
    requires Won(t) == Won(s.Get(id)) && t.offered == s.Get(id).offered
    ensures Inv(s.Set(id, t))
  {
    var s' := s.Set(id, t);
    SameQuota(s, s', s.stdout);
    SameQuota(s, s', s.stderr);
    SameQuota(s, s', t);
  }

  /** Changing one thread, not what it offered or won, and the terminator leaves the rest of the invariant alone. */
  lemma ThreadFrame(s: System, terminator: Terminator, id: ThreadId, t: Thread)
    requires Inv(s) && ThreadOk(s, t) && TerminatorMoves(s.terminator, terminator)
    requires Won(t) == Won(s.Get(id)) && t.offered == s.Get(id).offered
    ensures Inv(s.(terminator := terminator).Set(id, t))
  {
    TerminatorFrame(s, terminator);
    SameQuota(s, s.(terminator := terminator), t);
    OneThreadFrame(s.(terminator := terminator), id, t);
  }

  lemma KillMoves(t: Terminator, answer: KillAnswer)
    ensures TerminatorMoves(t, AfterKill(t, answer))
  {
  }

  lemma OwnerKillStep(s: System, answer: KillAnswer)
    ensures Step(s, OwnerKill(answer)) == s.(terminator := AfterKill(s.terminator, answer))
  {
  }

  lemma OwnerKillKeeps(s: System, answer: KillAnswer)
    requires Inv(s)
    ensures Inv(Step(s, OwnerKill(answer)))
  {
    OwnerKillStep(s, answer);
    KillMoves(s.terminator, answer);
    TerminatorFrame(s, AfterKill(s.terminator, answer));
  }

  lemma StepKeeps(s: System, a: Action)
    requires Inv(s)
    ensures Inv(Step(s, a))
  {
    match a
    case Read(id, chunk) => ReadKeeps(s, id, chunk);
    case EndOfFile(id) => EndOfFileKeeps(s, id);
    case TakeQuota(id) => TakeKeeps(s, id);
    case WriteLog(id) => WriteKeeps(s, id);
    case Kill(id, answer) => KillKeeps(s, id, answer);
    case OwnerKill(answer) => OwnerKillKeeps(s, answer);
  }

  lemma StepKeepsConfiguration(s: System, a: Action)
    ensures var s' := Step(s, a);
            s'.secrets == s.secrets && s'.replacement == s.replacement && s'.quota.maximum == s.quota.maximum
  {
  }

  /** Every interleaving keeps the invariant. */
  lemma {:induction false} EveryInterleavingKeeps(s: System, actions: seq<Action>)
    requires Inv(s)
    ensures Inv(Run(s, actions))
    ensures Run(s, actions).secrets == s.secrets && Run(s, actions).replacement == s.replacement
    ensures Run(s, actions).quota.maximum == s.quota.maximum
  {
    if actions != [] {
      var before := Run(s, actions[..|actions| - 1]);
      EveryInterleavingKeeps(s, actions[..|actions| - 1]);
      StepKeeps(before, actions[|actions| - 1]);
      StepKeepsConfiguration(before, actions[|actions| - 1]);
    }
  }

  lemma RedactedIsPrefix(s: System, t: Thread)
    ensures Redacted(s, t) <= Render(Stream(s.secrets, t.chunks), s.replacement)
  {
    var d := FeedAll(s.secrets, t.chunks);
    ParseConcat(d.tokens, Finish(s.secrets, d.rest), s.replacement);
  }

  /** At any moment of any interleaving. */
  lemma CaptureAtAnyMoment(secrets: seq<Bytes>, replacement: Bytes, maximum: nat, actions: seq<Action>, id: ThreadId)
    ensures var s := Run(Start(secrets, replacement, maximum), actions);
            var t := s.Get(id);
            && t.log <= Render(Stream(secrets, t.chunks), replacement)
            && |s.stdout.log| + |s.stderr.log| <= s.quota.used <= maximum
            && s.terminator.delivered <= 1
            && (t.phase == Stopped(true) ==> s.quota.exceeded)
  {
    StartOk(secrets, replacement, maximum);
    EveryInterleavingKeeps(Start(secrets, replacement, maximum), actions);
    var s := Run(Start(secrets, replacement, maximum), actions);
    RedactedIsPrefix(s, s.Get(id));
  }

  /** Once both threads have stopped. */
  lemma CaptureWhenStopped(secrets: seq<Bytes>, replacement: Bytes, maximum: nat, actions: seq<Action>, s: System)
    requires s == Run(Start(secrets, replacement, maximum), actions)
    requires s.stdout.phase.Stopped? && s.stderr.phase.Stopped?
    ensures var offered := |s.stdout.offered| + |s.stderr.offered|;
            && |s.stdout.log| + |s.stderr.log| == s.quota.used == Min(maximum, offered)
            && (s.quota.exceeded <==> offered > maximum)
            && (!s.quota.exceeded ==>
                  && s.stdout.log == Render(Stream(secrets, s.stdout.chunks), replacement)
                  && s.stderr.log == Render(Stream(secrets, s.stderr.chunks), replacement))
    ensures s.quota.exceeded ==>
              s.terminator.terminated || s.stdout.phase == Stopped(true) || s.stderr.phase == Stopped(true)
  {
    StartOk(secrets, replacement, maximum);
    EveryInterleavingKeeps(Start(secrets, replacement, maximum), actions);
    StoppedIsComplete(s);
    ShortTakeLeadsToKill(secrets, replacement, maximum, actions);
  }

  // ------------------------------------------------------ the kill happens

  /** The thread fell short of the quota and has not yet got its kill through, or never did. */
  predicate KillPending(t: Thread) {
    (t.phase.Writing? && t.phase.short) || t.phase.Killing? || t.phase.Handling? || t.phase == Stopped(true)
  }

  predicate ExceededHandled(s: System) {
    s.quota.exceeded ==> s.terminator.terminated || KillPending(s.stdout) || KillPending(s.stderr)
  }

  lemma StepHandles(s: System, a: Action)
    requires ExceededHandled(s)
    ensures ExceededHandled(Step(s, a))
  {
  }

  /**
   In every reachable state: once a take fell short, the process group is terminated or one of the threads is
   still on its way to the kill, or has failed over it.
   */
  lemma {:induction false} ShortTakeLeadsToKill(
    secrets: seq<Bytes>, replacement: Bytes, maximum: nat, actions: seq<Action>)
    ensures ExceededHandled(Run(Start(secrets, replacement, maximum), actions))
  {
    if actions != [] {
      var front := actions[..|actions| - 1];
      ShortTakeLeadsToKill(secrets, replacement, maximum, front);
      StepHandles(Run(Start(secrets, replacement, maximum), front), actions[|actions| - 1]);
    }
  }

  /** A thread about to kill does so: only the system's denial keeps the group alive, and that is tried once more. */
  lemma KillTerminates(s: System, id: ThreadId, answer: KillAnswer)
    requires s.Get(id).phase.Killing? || s.Get(id).phase.Handling?
    ensures var s' := Step(s, Kill(id, answer));
            && (s'.terminator.terminated <==> s.terminator.terminated || !answer.DeniedWhileRunning?)
            && (s.Get(id).phase.Killing? && !s'.terminator.terminated ==> s'.Get(id).phase.Handling?)
            && (s.Get(id).phase.Handling? ==> s'.Get(id).phase == Stopped(true))
            && (s'.terminator.delivered == s.terminator.delivered
                + if !s.terminator.terminated && answer.Delivered? then 1 else 0)
  {
  }

  /** A thread that has not stopped can always go on. */
  lemma NeverStuck(s: System, id: ThreadId) returns (a: Action)
    requires !s.Get(id).phase.Stopped?
    ensures Step(s, a).Get(id).phase != s.Get(id).phase
  {
    match s.Get(id).phase
    case Reading => a := EndOfFile(id);
    case Offering(_) => a := TakeQuota(id);
    case Writing(_, _) => a := WriteLog(id);
    case Killing => a := Kill(id, Delivered);
    case Handling => a := Kill(id, Delivered);
  }

  lemma StoppedIsComplete(s: System)
    requires Inv(s) && s.stdout.phase.Stopped? && s.stderr.phase.Stopped?
    ensures var offered := |s.stdout.offered| + |s.stderr.offered|;
            && |s.stdout.log| + |s.stderr.log| == s.quota.used == Min(s.quota.maximum, offered)
            && (s.quota.exceeded <==> offered > s.quota.maximum)
            && (!s.quota.exceeded ==>
                  && s.stdout.log == Render(Stream(s.secrets, s.stdout.chunks), s.replacement)
                  && s.stderr.log == Render(Stream(s.secrets, s.stderr.chunks), s.replacement))
  {
  }

  /** With a safe configuration no log ever shows a secret, wherever the quota cuts it. */
  lemma LogsNeverShowSecrets(secrets: seq<Bytes>, replacement: Bytes, maximum: nat, actions: seq<Action>, id: ThreadId)
    requires Configured(secrets) && FreeOf(secrets, replacement)
    requires RedactionSafety.SafeReplacement(secrets, replacement)
    ensures FreeOf(secrets, Run(Start(secrets, replacement, maximum), actions).Get(id).log)
  {
    var t := Run(Start(secrets, replacement, maximum), actions).Get(id);
    CaptureAtAnyMoment(secrets, replacement, maximum, actions, id);
    RedactionSafety.SafeIsClean(secrets, replacement, t.chunks);
    PrefixIsFree(secrets, t.log, Render(Stream(secrets, t.chunks), replacement));
  }

  lemma PrefixIsFree(ps: seq<Bytes>, s: Bytes, whole: Bytes)
    requires s <= whole && FreeOf(ps, whole)
    ensures FreeOf(ps, s)
  {
    forall p, i: nat | p in ps && i <= |s|
      ensures !OccursAt(s, p, i)
    {
      if i + |p| <= |s| {
        assert s[i..i + |p|] == whole[i..i + |p|];
        assert !OccursAt(whole, p, i) by { assert !Contains(whole, p); }
      }
    }
  }
}
