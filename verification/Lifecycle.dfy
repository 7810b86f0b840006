/** The lifecycle of a sealed event stream: the validator's position lists against a declarative reading. */
module Lifecycle {
  import opened Json
  import opened Events

  /** Event `i` is the only one of its type. */
  predicate OnlyAt(es: seq<HarnessEvent>, t: EventType, i: int) {
    0 <= i < |es| && es[i].eventType == t && forall j | 0 <= j < |es| && es[j].eventType == t :: j == i
  }

  predicate Never(es: seq<HarnessEvent>, t: EventType) {
    forall j | 0 <= j < |es| :: es[j].eventType != t
  }

  predicate Owned(e: HarnessEvent) {
    IsAdapterType(e.eventType) <==> e.source != CONTROL_SOURCE
  }

  /** The characters `str.strip` removes: Unicode white space and the separators U+001C to U+001F. */
  predicate IsSpace(c: char) {
    var code := c as int;
    || 0x09 <= code <= 0x0D || 0x1C <= code <= 0x20 || code == 0x85 || code == 0xA0 || code == 0x1680
    || 0x2000 <= code <= 0x200A || code == 0x2028 || code == 0x2029 || code == 0x202F || code == 0x205F
    || code == 0x3000
  }

  predicate TerminalOk(e: HarnessEvent) {
    var status, code := Get(e.payload, "status"), Get(e.payload, "return_code");
    status.Str? && (exists i | 0 <= i < |status.s| :: !IsSpace(status.s[i])) && code.Int?
  }

  /** The command either ran, start before completion and both behind preflight, or never started. */
  predicate CommandOrder(es: seq<HarnessEvent>, preflight: int) {
    || (Never(es, CommandStarted) && Never(es, CommandCompleted))
    || exists s, c | preflight < s < c < |es| :: OnlyAt(es, CommandStarted, s) && OnlyAt(es, CommandCompleted, c)
  }

  /** The lifecycle read off a stream: one start at the front, one stop at the end, preflight and command between. */
  predicate LifecycleShape(es: seq<HarnessEvent>) {
    && OnlyAt(es, RunStarted, 0) && OnlyAt(es, RunStopped, |es| - 1)
    && exists p | 0 < p < |es| - 1 :: OnlyAt(es, PreflightCompleted, p) && CommandOrder(es, p)
  }

  /** A completed stream: one initial start, one final stop, one preflight between, a well-formed ending. */
  predicate Completed(es: seq<HarnessEvent>) {
    && (forall i | 0 <= i < |es| :: Owned(es[i]))
    && (es != [] ==> LifecycleShape(es) && TerminalOk(es[|es| - 1]))
  }

  // ------------------------------------------------------------ the validator

  function Positions(es: seq<HarnessEvent>, t: EventType): (ps: seq<int>)
  {
    if es == [] then []
    else
      var k := |es| - 1;
      Positions(es[..k], t) + if es[k].eventType == t then [k] else []
  }

  predicate Ascending(ps: seq<int>) {
    forall i, j | 0 <= i < j < |ps| :: ps[i] < ps[j]
  }

  /** The list holds exactly the positions of the type, in ascending order. */
  lemma {:induction false} PositionsExact(es: seq<HarnessEvent>, t: EventType)
    ensures forall p :: p in Positions(es, t) <==> 0 <= p < |es| && es[p].eventType == t
    ensures Ascending(Positions(es, t))
  {
    if es != [] {
      var front := es[..|es| - 1];
      PositionsExact(front, t);
      assert forall p | 0 <= p < |front| :: front[p] == es[p];
      var fs := Positions(front, t);
      forall i | 0 <= i < |fs| ensures fs[i] < |front| { assert fs[i] in fs; }
    }
  }

  lemma OneValue(ps: seq<int>, i: int)
    requires i in ps && (forall p | p in ps :: p == i) && Ascending(ps)
    ensures ps == [i]
  {
    forall k | 0 <= k < |ps| ensures ps[k] == i { assert ps[k] in ps; }
    TwoAscend(ps);
  }

  lemma TwoAscend(ps: seq<int>)
    requires Ascending(ps)
    ensures |ps| <= 1 || ps[0] < ps[1]
  {
  }

  lemma NoPositions(es: seq<HarnessEvent>, t: EventType)
    ensures Positions(es, t) == [] <==> Never(es, t)
  {
    var ps := Positions(es, t);
    PositionsExact(es, t);
    if ps != [] { assert ps[0] in ps; }
  }

  lemma OnePosition(es: seq<HarnessEvent>, t: EventType)
    requires |Positions(es, t)| == 1
    ensures OnlyAt(es, t, Positions(es, t)[0])
  {
    var ps := Positions(es, t);
    PositionsExact(es, t);
    assert ps[0] in ps;
    forall j | 0 <= j < |es| && es[j].eventType == t ensures j == ps[0] { assert j in ps; }
  }

  lemma OnlyPosition(es: seq<HarnessEvent>, t: EventType, i: int)
    requires OnlyAt(es, t, i)
    ensures Positions(es, t) == [i]
  {
    PositionsExact(es, t);
    OneValue(Positions(es, t), i);
  }

  datatype LifecycleError =
    | ReservedSource | ForeignControlEvent | StartedNotInitial | PreflightCount | StoppedNotFinal
    | StartedTwice | CompletedTwice | CommandHalf | CommandOrderWrong
    | PreflightBeforeStart | CommandBeforePreflight | StopBeforePreflight | BadStatus | BadReturnCode

  /** The position checks the validator makes, given its five position lists. */
  predicate PositionsAccepted(n: int, started: seq<int>, preflight: seq<int>, stopped: seq<int>,
                              commandStarted: seq<int>, commandCompleted: seq<int>) {
    && |started| == 1 && started[0] == 0
    && |preflight| == 1
    && |stopped| == 1 && stopped[0] == n - 1
    && |commandStarted| <= 1 && |commandCompleted| <= 1
    && (commandStarted != [] <==> commandCompleted != [])
    && (commandStarted != [] && commandCompleted != [] ==> commandStarted[0] < commandCompleted[0])
    && preflight[0] > started[0]
    && (commandStarted != [] ==> preflight[0] < commandStarted[0])
    && preflight[0] < stopped[0]
  }

  /** No command, or one that started behind the preflight and completed later. */
  predicate CommandsApart(preflight: int, started: seq<int>, completed: seq<int>) {
    || (started == [] && completed == [])
    || (|started| == 1 && |completed| == 1 && preflight < started[0] < completed[0])
  }

  lemma CommandsFromPositions(es: seq<HarnessEvent>, preflight: int)
    requires CommandsApart(preflight, Positions(es, CommandStarted), Positions(es, CommandCompleted))
    ensures CommandOrder(es, preflight)
  {
    NoPositions(es, CommandStarted);
    NoPositions(es, CommandCompleted);
    if Positions(es, CommandStarted) != [] {
      OnePosition(es, CommandStarted);
      OnePosition(es, CommandCompleted);
    }
  }

  lemma PositionsFromCommands(es: seq<HarnessEvent>, preflight: int)
    requires CommandOrder(es, preflight)
    ensures CommandsApart(preflight, Positions(es, CommandStarted), Positions(es, CommandCompleted))
  {
    NoPositions(es, CommandStarted);
    NoPositions(es, CommandCompleted);
    if !(Never(es, CommandStarted) && Never(es, CommandCompleted)) {
      var s, c :| preflight < s < c < |es| && OnlyAt(es, CommandStarted, s) && OnlyAt(es, CommandCompleted, c);
      OnlyPosition(es, CommandStarted, s);
      OnlyPosition(es, CommandCompleted, c);
    }
  }

  /** The five position lists of a stream pass the checks. */
  predicate StreamPositionsAccepted(es: seq<HarnessEvent>) {
    PositionsAccepted(|es|, Positions(es, RunStarted), Positions(es, PreflightCompleted), Positions(es, RunStopped),
                      Positions(es, CommandStarted), Positions(es, CommandCompleted))
  }

  /** The one position of a type, and no other. */
  lemma PositionsAt(es: seq<HarnessEvent>, t: EventType, i: int)
    ensures Positions(es, t) == [i] <==> OnlyAt(es, t, i)
  {
    if Positions(es, t) == [i] { OnePosition(es, t); }
    if OnlyAt(es, t, i) { OnlyPosition(es, t, i); }
  }

  /** The checks on any five lists, read as a shape. */
  lemma AcceptedLists(n: int, started: seq<int>, preflight: seq<int>, stopped: seq<int>,
                      commandStarted: seq<int>, commandCompleted: seq<int>)
    requires PositionsAccepted(n, started, preflight, stopped, commandStarted, commandCompleted)
    ensures started == [0] && stopped == [n - 1] && |preflight| == 1 && 0 < preflight[0] < n - 1
    ensures CommandsApart(preflight[0], commandStarted, commandCompleted)
  {
  }

  lemma AcceptedHasShape(es: seq<HarnessEvent>)
    requires es != [] && StreamPositionsAccepted(es)
    ensures LifecycleShape(es)
  {
    AcceptedLists(|es|, Positions(es, RunStarted), Positions(es, PreflightCompleted), Positions(es, RunStopped),
                  Positions(es, CommandStarted), Positions(es, CommandCompleted));
    var p := Positions(es, PreflightCompleted)[0];
    PositionsAt(es, RunStarted, 0);
    PositionsAt(es, RunStopped, |es| - 1);
    PositionsAt(es, PreflightCompleted, p);
    CommandsFromPositions(es, p);
  }

  lemma ShapedLists(n: int, p: int, started: seq<int>, preflight: seq<int>, stopped: seq<int>,
                    commandStarted: seq<int>, commandCompleted: seq<int>)
    requires started == [0] && preflight == [p] && stopped == [n - 1] && 0 < p < n - 1
    requires CommandsApart(p, commandStarted, commandCompleted)
    ensures PositionsAccepted(n, started, preflight, stopped, commandStarted, commandCompleted)
  {
  }

  lemma ShapeIsAcceptedAt(es: seq<HarnessEvent>, p: int)
    requires OnlyAt(es, RunStarted, 0) && OnlyAt(es, RunStopped, |es| - 1)
    requires 0 < p < |es| - 1 && OnlyAt(es, PreflightCompleted, p) && CommandOrder(es, p)
    ensures StreamPositionsAccepted(es)
  {
    var starts, preflights, stops :=
      Positions(es, RunStarted), Positions(es, PreflightCompleted), Positions(es, RunStopped);
    PositionsAt(es, RunStarted, 0);
    PositionsAt(es, PreflightCompleted, p);
    PositionsAt(es, RunStopped, |es| - 1);
    PositionsFromCommands(es, p);
    ShapedLists(|es|, p, starts, preflights, stops, Positions(es, CommandStarted), Positions(es, CommandCompleted));
  }

  lemma ShapeIsAccepted(es: seq<HarnessEvent>)
    requires es != [] && LifecycleShape(es)
    ensures StreamPositionsAccepted(es)
  {
    var p :| 0 < p < |es| - 1 && OnlyAt(es, PreflightCompleted, p) && CommandOrder(es, p);
    ShapeIsAcceptedAt(es, p);
  }

  lemma PositionsDecide(es: seq<HarnessEvent>)
    requires es != []
    ensures StreamPositionsAccepted(es) <==> LifecycleShape(es)
  {
    if LifecycleShape(es) {
      ShapeIsAccepted(es);
    }
    if StreamPositionsAccepted(es) {
      AcceptedHasShape(es);
    }
  }

  method OwnershipErrors(es: seq<HarnessEvent>) returns (errors: seq<LifecycleError>)
    ensures errors == [] <==> forall i | 0 <= i < |es| :: Owned(es[i])
  {
    errors := [];
    for k := 0 to |es|
      invariant errors == [] <==> forall i | 0 <= i < k :: Owned(es[i])
    {
      if IsAdapterType(es[k].eventType) {
        if es[k].source == CONTROL_SOURCE { errors := errors + [ReservedSource]; }
      } else if es[k].source != CONTROL_SOURCE {
        errors := errors + [ForeignControlEvent];
      }
    }
  }

  method FillPositions(es: seq<HarnessEvent>) returns (positions: map<EventType, seq<int>>)
    ensures forall t :: t in positions && positions[t] == Positions(es, t)
  {
    forall t: EventType ensures t in EVENT_TYPES { TypeListed(t); }
    positions := map t | t in EVENT_TYPES :: [];
    for k := 0 to |es|
      invariant forall t :: t in positions && positions[t] == Positions(es[..k], t)
    {
      assert es[..k + 1][..k] == es[..k];
      var t := es[k].eventType;
      positions := positions[t := positions[t] + [k]];
    }
    assert es[..|es|] == es;
  }

  method TerminalErrors(stop: HarnessEvent) returns (errors: seq<LifecycleError>)
    ensures errors == [] <==> TerminalOk(stop)
  {
    errors := [];
    var status := Get(stop.payload, "status");
    if !status.Str? || forall i | 0 <= i < |status.s| :: IsSpace(status.s[i]) { errors := errors + [BadStatus]; }
    if !Get(stop.payload, "return_code").Int? { errors := errors + [BadReturnCode]; }
  }

  method CompletedStreamErrors(es: seq<HarnessEvent>) returns (errors: seq<LifecycleError>)
    ensures errors == [] <==> Completed(es)
  {
    errors := OwnershipErrors(es);
    if es == [] {
      return;
    }
    var positions := FillPositions(es);
    var stopped := positions[RunStopped];
    var order := PositionErrors(|es|, positions[RunStarted], positions[PreflightCompleted], stopped,
                                positions[CommandStarted], positions[CommandCompleted]);
    PositionsDecide(es);
    PositionsExact(es, RunStopped);
    errors := errors + order;
    if |stopped| == 1 {
      assert stopped[0] in stopped;
      var terminal := TerminalErrors(es[stopped[0]]);
      errors := errors + terminal;
    }
  }

  method PositionErrors(n: int, started: seq<int>, preflight: seq<int>, stopped: seq<int>,
                        commandStarted: seq<int>, commandCompleted: seq<int>) returns (errors: seq<LifecycleError>)
    ensures errors == [] <==> PositionsAccepted(n, started, preflight, stopped, commandStarted, commandCompleted)
  {
    errors := [];
    if |started| != 1 || started[0] != 0 { errors := errors + [StartedNotInitial]; }
    if |preflight| != 1 { errors := errors + [PreflightCount]; }
    if |stopped| != 1 || stopped[0] != n - 1 { errors := errors + [StoppedNotFinal]; }
    if |commandStarted| > 1 { errors := errors + [StartedTwice]; }
    if |commandCompleted| > 1 { errors := errors + [CompletedTwice]; }
    if (commandStarted != []) != (commandCompleted != []) { errors := errors + [CommandHalf]; }
    if commandStarted != [] && commandCompleted != [] && commandStarted[0] >= commandCompleted[0] {
      errors := errors + [CommandOrderWrong];
    }
    if preflight != [] {
      if started != [] && preflight[0] <= started[0] { errors := errors + [PreflightBeforeStart]; }
      if commandStarted != [] && preflight[0] >= commandStarted[0] { errors := errors + [CommandBeforePreflight]; }
      if stopped != [] && preflight[0] >= stopped[|stopped| - 1] { errors := errors + [StopBeforePreflight]; }
    }
  }

  // ------------------------------------------------------- streams by shape

  predicate IsLifecycle(t: EventType) {
    t.RunStarted? || t.PreflightCompleted? || t.CommandStarted? || t.CommandCompleted? || t.RunStopped?
  }

  predicate NoLifecycle(es: seq<HarnessEvent>) {
    forall i | 0 <= i < |es| :: !IsLifecycle(es[i].eventType)
  }

  /** How every run opens: started, preflighted, and the command either completed or failed to launch. */
  predicate Opening(es: seq<HarnessEvent>) {
    && |es| >= 3
    && es[0].eventType.RunStarted? && es[1].eventType.PreflightCompleted?
    && (|| (es[2].eventType.Error? && NoLifecycle(es[2..]))
        || (|es| >= 4 && es[2].eventType.CommandStarted? && es[3].eventType.CommandCompleted? && NoLifecycle(es[4..])))
  }

  lemma OpeningExtends(es: seq<HarnessEvent>, e: HarnessEvent)
    requires Opening(es) && !IsLifecycle(e.eventType)
    ensures Opening(es + [e])
  {
    assert (es + [e])[2..] == es[2..] + [e];
    if |es| >= 4 { assert (es + [e])[4..] == es[4..] + [e]; }
  }

  /** Some run-stopped event stands in the stream. */
  predicate Stopped(es: seq<HarnessEvent>) {
    exists i | 0 <= i < |es| :: es[i].eventType.RunStopped?
  }

  lemma StoppedConcat(a: seq<HarnessEvent>, b: seq<HarnessEvent>)
    ensures Stopped(a + b) <==> Stopped(a) || Stopped(b)
  {
    var all := a + b;
    if i :| 0 <= i < |a| && a[i].eventType.RunStopped? { assert all[i] == a[i]; }
    if i :| 0 <= i < |b| && b[i].eventType.RunStopped? { assert all[|a| + i] == b[i]; }
  }

  lemma OpeningIsUnstopped(es: seq<HarnessEvent>)
    requires Opening(es)
    ensures !Stopped(es)
  {
    var from := if es[2].eventType.Error? then 2 else 4;
    forall i | from <= i < |es| ensures !es[i].eventType.RunStopped? { assert es[i] == es[from..][i - from]; }
  }

  /** A stream with an earlier stop is not completed by another one. */
  lemma SecondStopIncomplete(es: seq<HarnessEvent>, stop: HarnessEvent)
    requires Stopped(es)
    ensures !Completed(es + [stop])
  {
    var i :| 0 <= i < |es| && es[i].eventType.RunStopped?;
    assert (es + [stop])[i] == es[i];
  }

  /** Closing an opened stream with a well-formed stop completes it. */
  lemma OpeningCompletes(es: seq<HarnessEvent>, stop: HarnessEvent)
    requires Opening(es) && stop.eventType.RunStopped? && TerminalOk(stop)
    requires (forall i | 0 <= i < |es| :: Owned(es[i])) && Owned(stop)
    ensures Completed(es + [stop])
  {
    var all := es + [stop];
    var launched := !es[2].eventType.Error?;
    forall i | 2 <= i < |es| && (launched ==> i >= 4)
      ensures !IsLifecycle(all[i].eventType)
    {
      assert launched ==> es[i] == es[4..][i - 4];
      assert !launched ==> es[i] == es[2..][i - 2];
    }
    assert OnlyAt(all, RunStarted, 0) && OnlyAt(all, RunStopped, |all| - 1) && OnlyAt(all, PreflightCompleted, 1);
    if launched {
      assert OnlyAt(all, CommandStarted, 2) && OnlyAt(all, CommandCompleted, 3);
    }
    assert CommandOrder(all, 1);
  }
}
