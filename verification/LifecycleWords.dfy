/** A completed stream read as a word: its lifecycle events in order, whatever stands between them. */
module LifecycleWords {
  import opened Common
  import opened Json
  import opened Events
  import opened Lifecycle

  const LETTERS := {RunStarted, PreflightCompleted, CommandStarted, CommandCompleted, RunStopped}
  const QUIET := [RunStarted, PreflightCompleted, RunStopped]
  const LAUNCHED := [RunStarted, PreflightCompleted, CommandStarted, CommandCompleted, RunStopped]

  /** The lifecycle events of a stream, by type. */
  function Word(es: seq<HarnessEvent>): seq<EventType> {
    if es == [] then []
    else
      var last := es[|es| - 1].eventType;
      Word(es[..|es| - 1]) + if last in LETTERS then [last] else []
  }

  predicate Spells(es: seq<HarnessEvent>, ps: seq<nat>) {
    && |ps| == |Word(es)|
    && (forall i | 0 <= i < |ps| :: ps[i] < |es| && es[ps[i]].eventType == Word(es)[i])
    && (forall i, j | 0 <= i < j < |ps| :: ps[i] < ps[j])
    && (forall k | 0 <= k < |es| && es[k].eventType in LETTERS :: k in ps)
  }

  /** Where the letters stand. */
  lemma {:induction false} LetterPositions(es: seq<HarnessEvent>) returns (ps: seq<nat>)
    ensures Spells(es, ps)
  {
    ps := [];
    if es != [] {
      var front, last := es[..|es| - 1], es[|es| - 1].eventType;
      ps := LetterPositions(front);
      assert forall k | 0 <= k < |front| :: front[k] == es[k];
      if last in LETTERS { ps := ps + [|front|]; }
    }
  }

  /** The letter that the word has once stands in the stream once. */
  lemma {:induction false} LetterOnce(es: seq<HarnessEvent>, ps: seq<nat>, i: nat)
    requires Spells(es, ps) && i < |ps| && forall j | 0 <= j < |ps| && Word(es)[j] == Word(es)[i] :: j == i
    ensures Word(es)[i] in LETTERS ==> OnlyAt(es, Word(es)[i], ps[i])
  {
    if Word(es)[i] in LETTERS {
      forall k | 0 <= k < |es| && es[k].eventType == Word(es)[i] ensures k == ps[i] {
        var j :| 0 <= j < |ps| && ps[j] == k;
        assert Word(es)[j] == Word(es)[i];
      }
    }
  }

  lemma {:induction false} NoLetter(es: seq<HarnessEvent>, ps: seq<nat>, t: EventType)
    requires Spells(es, ps) && t in LETTERS && t !in Word(es)
    ensures Never(es, t)
  {
    forall k | 0 <= k < |es| && es[k].eventType in LETTERS ensures es[k].eventType in Word(es) {
      var j :| 0 <= j < |ps| && ps[j] == k;
      assert Word(es)[j] in Word(es);
    }
  }

  /** One more event, and events that spell nothing. */
  lemma {:induction false} OneMore(es: seq<HarnessEvent>, k: nat)
    requires k < |es|
    ensures Word(es[..k + 1]) == Word(es[..k]) + if es[k].eventType in LETTERS then [es[k].eventType] else []
  {
    assert es[..k + 1][..k] == es[..k];
  }

  lemma {:induction false} Silent(es: seq<HarnessEvent>, i: nat, j: nat)
    requires i <= j <= |es| && forall k | i <= k < j :: es[k].eventType !in LETTERS
    ensures Word(es[..j]) == Word(es[..i])
    decreases j
  {
    if i < j {
      Silent(es, i, j - 1);
      OneMore(es, j - 1);
      AppendNothing(Word(es[..j - 1]));
    }
  }

  /** From one letter to the next. */
  lemma {:induction false} NextLetter(es: seq<HarnessEvent>, i: nat, j: nat, word: seq<EventType>, t: EventType)
    requires i <= j < |es| && es[j].eventType == t && t in LETTERS && Word(es[..i]) == word
    requires forall k | i <= k < j :: es[k].eventType !in LETTERS
    ensures Word(es[..j + 1]) == word + [t]
  {
    Silent(es, i, j);
    OneMore(es, j);
  }

  /** Letters stand at these places only. */
  predicate LettersAt(es: seq<HarnessEvent>, places: set<int>) {
    forall k | 0 <= k < |es| && es[k].eventType in LETTERS :: k in places
  }

  lemma {:induction false} OpeningSpelled(es: seq<HarnessEvent>, p: nat)
    requires 0 < p < |es| && forall k | 0 < k < p :: es[k].eventType !in LETTERS
    requires es[0].eventType == RunStarted && es[p].eventType == PreflightCompleted
    ensures Word(es[..p + 1]) == [RunStarted, PreflightCompleted]
  {
    NextLetter(es, 0, 0, [], RunStarted);
    NextLetter(es, 1, p, [RunStarted], PreflightCompleted);
  }

  lemma {:induction false} CommandSpelled(es: seq<HarnessEvent>, i: nat, s: nat, c: nat, word: seq<EventType>)
    requires i <= s < c < |es| && Word(es[..i]) == word
    requires forall k | i <= k < c && k != s :: es[k].eventType !in LETTERS
    requires es[s].eventType == CommandStarted && es[c].eventType == CommandCompleted
    ensures Word(es[..c + 1]) == word + [CommandStarted] + [CommandCompleted]
  {
    NextLetter(es, i, s, word, CommandStarted);
    NextLetter(es, s + 1, c, word + [CommandStarted], CommandCompleted);
  }

  lemma {:induction false} StopSpelled(es: seq<HarnessEvent>, i: nat, word: seq<EventType>)
    requires i < |es| && Word(es[..i]) == word && forall k | i <= k < |es| - 1 :: es[k].eventType !in LETTERS
    requires es[|es| - 1].eventType == RunStopped
    ensures Word(es) == word + [RunStopped]
  {
    NextLetter(es, i, |es| - 1, word, RunStopped);
    WholePrefix(es);
  }

  lemma {:induction false} QuietSpelled(es: seq<HarnessEvent>, p: nat)
    requires 0 < p < |es| - 1 && LettersAt(es, {0, p, |es| - 1})
    requires es[0].eventType == RunStarted && es[p].eventType == PreflightCompleted
    requires es[|es| - 1].eventType == RunStopped
    ensures Word(es) == QUIET
  {
    OpeningSpelled(es, p);
    StopSpelled(es, p + 1, [RunStarted, PreflightCompleted]);
  }

  lemma {:induction false} LaunchedSpelled(es: seq<HarnessEvent>, p: nat, s: nat, c: nat)
    requires 0 < p < s < c < |es| - 1 && LettersAt(es, {0, p, s, c, |es| - 1})
    requires es[0].eventType == RunStarted && es[p].eventType == PreflightCompleted
    requires es[s].eventType == CommandStarted && es[c].eventType == CommandCompleted
    requires es[|es| - 1].eventType == RunStopped
    ensures Word(es) == LAUNCHED
  {
    var opening := [RunStarted, PreflightCompleted];
    OpeningSpelled(es, p);
    CommandSpelled(es, p + 1, s, c, opening);
    StopSpelled(es, c + 1, opening + [CommandStarted] + [CommandCompleted]);
  }

  lemma {:induction false} ShapeSpells(es: seq<HarnessEvent>)
    requires LifecycleShape(es)
    ensures Word(es) == QUIET || Word(es) == LAUNCHED
  {
    var p :| 0 < p < |es| - 1 && OnlyAt(es, PreflightCompleted, p) && CommandOrder(es, p);
    if Never(es, CommandStarted) && Never(es, CommandCompleted) {
      QuietSpelled(es, p);
    } else {
      var s, c :| p < s < c < |es| && OnlyAt(es, CommandStarted, s) && OnlyAt(es, CommandCompleted, c);
      assert c != |es| - 1;
      LaunchedSpelled(es, p, s, c);
    }
  }

  /** The first event is the first letter and the last event the last one. */
  lemma {:induction false} EndsPlaced(es: seq<HarnessEvent>, ps: seq<nat>)
    requires Spells(es, ps) && ps != [] && es[0].eventType in LETTERS && es[|es| - 1].eventType in LETTERS
    ensures ps[0] == 0 && ps[|ps| - 1] == |es| - 1
  {
    assert 0 in ps && |es| - 1 in ps;
  }

  lemma {:induction false} QuietShaped(es: seq<HarnessEvent>, ps: seq<nat>)
    requires Spells(es, ps) && Word(es) == QUIET && ps[0] == 0 && ps[2] == |es| - 1
    ensures LifecycleShape(es)
  {
    LetterOnce(es, ps, 0);
    LetterOnce(es, ps, 1);
    LetterOnce(es, ps, 2);
    NoLetter(es, ps, CommandStarted);
    NoLetter(es, ps, CommandCompleted);
    assert OnlyAt(es, PreflightCompleted, ps[1]) && CommandOrder(es, ps[1]);
  }

  lemma {:induction false} LaunchedShaped(es: seq<HarnessEvent>, ps: seq<nat>)
    requires Spells(es, ps) && Word(es) == LAUNCHED && ps[0] == 0 && ps[4] == |es| - 1
    ensures LifecycleShape(es)
  {
    LetterOnce(es, ps, 0);
    LetterOnce(es, ps, 1);
    LetterOnce(es, ps, 2);
    LetterOnce(es, ps, 3);
    LetterOnce(es, ps, 4);
    assert OnlyAt(es, CommandStarted, ps[2]) && OnlyAt(es, CommandCompleted, ps[3]);
    assert OnlyAt(es, PreflightCompleted, ps[1]) && CommandOrder(es, ps[1]);
  }

  /** The five position lists come to this: the stream starts, stops, and spells one of two words. */
  lemma {:induction false} ShapeIsAWord(es: seq<HarnessEvent>)
    requires es != []
    ensures LifecycleShape(es) <==>
              && es[0].eventType == RunStarted && es[|es| - 1].eventType == RunStopped
              && (|| Word(es) == [RunStarted, PreflightCompleted, RunStopped]
                  || Word(es) == [RunStarted, PreflightCompleted, CommandStarted, CommandCompleted, RunStopped])
  {
    if LifecycleShape(es) { ShapeSpells(es); }
    if es[0].eventType == RunStarted && es[|es| - 1].eventType == RunStopped {
      var ps := LetterPositions(es);
      if Word(es) == QUIET {
        EndsPlaced(es, ps);
        QuietShaped(es, ps);
      }
      if Word(es) == LAUNCHED {
        EndsPlaced(es, ps);
        LaunchedShaped(es, ps);
      }
    }
  }

  /** The adapter's ten types come from the adapter and all others from the harness. */
  predicate FromItsOwner(e: HarnessEvent) {
    e.source != "giclab-harness" <==>
      e.eventType in {RegulationDecision, Observation, BeliefState, CandidateAction, PredictedFuture,
                      CriticEvaluation, Plan, ExecutedAction, Outcome, Metric}
  }

  /** A stream is complete exactly when its events have their owners, it spells a lifecycle, and its end says how. */
  lemma {:induction false} CompletedReads(es: seq<HarnessEvent>)
    requires es != []
    ensures Completed(es) <==>
              && (forall i | 0 <= i < |es| :: FromItsOwner(es[i]))
              && es[0].eventType == RunStarted && es[|es| - 1].eventType == RunStopped
              && (Word(es) == QUIET || Word(es) == LAUNCHED)
              && var last := es[|es| - 1].payload;
                 && Get(last, "return_code").Int? && Get(last, "status").Str?
                 && exists i | 0 <= i < |Get(last, "status").s| :: !IsSpace(Get(last, "status").s[i])
  {
    forall i | 0 <= i < |es| ensures Owned(es[i]) <==> FromItsOwner(es[i]) {}
    ShapeIsAWord(es);
  }
}
