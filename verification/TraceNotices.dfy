/** What the source itself reports in a trace: one notice for every text it left in a place meant for errors. */
module TraceNotices {
  import opened Common
  import opened Json
  import opened TraceSessions
  import E = Events
  import S = Session
  import T = TaskSources

  const EVENT_SOURCE := "sira-session-json"

  /** The places a source reports in. */
  datatype Place = ActionError(step: nat) | ErrorPrefix(step: nat) | ReturnAction(step: nat) | SessionError

  function Spoken(blank: string -> bool, v: Value): Option<string> {
    if v.Str? && !blank(v.s) then Some(v.s) else None
  }

  function InfoField(item: Item, key: string): Value {
    if Get(item.info, "obs_info").Obj? then Get(item.info["obs_info"].fields, key) else Null
  }

  /** What the trace says in a place: text that is more than white space. */
  function TextAt(blank: string -> bool, s: Session, place: Place): Option<string> {
    match place
    case SessionError => Spoken(blank, Str(s.error))
    case ActionError(k) => if k < |s.history| then
      Spoken(blank, Get(s.history[k].observation, "last_action_error")) else None
    case ErrorPrefix(k) => if k < |s.history| then Spoken(blank, InfoField(s.history[k], "error_prefix")) else None
    case ReturnAction(k) => if k < |s.history| then Spoken(blank, InfoField(s.history[k], "return_action")) else None
  }

  function Tail(place: Place): string {
    match place
    case SessionError => ""
    case ActionError(k) => "][0].last_action_error"
    case ErrorPrefix(k) => "][2].obs_info.error_prefix"
    case ReturnAction(k) => "][2].obs_info.return_action"
  }

  /** `history[3][2].obs_info.error_prefix` and the like. */
  function Path(place: Place): string {
    if place.SessionError? then "error" else "history[" + (T.Decimal(place.step) + Tail(place))
  }

  function Kind(place: Place): string {
    match place
    case SessionError => "source-session-error"
    case ActionError(k) => "source-action-warning"
    case ErrorPrefix(k) => "source-observation-warning"
    case ReturnAction(k) => "source-terminal-return-action"
  }

  predicate IsFailure(place: Place) { place.SessionError? || place.ReturnAction? }

  function NoticeOf(place: Place, message: string): S.Notice {
    S.Notice(IsFailure(place), Kind(place), message, EVENT_SOURCE, [Path(place)],
             if IsFailure(place) then E.Observed else E.Derived)
  }

  function NoticeAt(blank: string -> bool, s: Session, place: Place): seq<S.Notice> {
    var text := TextAt(blank, s, place);
    if text.Some? then [NoticeOf(place, text.value)] else []
  }

  function StepNotices(blank: string -> bool, s: Session, k: nat): seq<S.Notice> {
    NoticeAt(blank, s, ActionError(k)) + NoticeAt(blank, s, ErrorPrefix(k)) + NoticeAt(blank, s, ReturnAction(k))
  }

  /** The notices of the first `k` steps, step by step. */
  function PerStep(blank: string -> bool, s: Session, k: nat): (parts: seq<seq<S.Notice>>)
    ensures |parts| == k
    ensures forall i | 0 <= i < k :: parts[i] == StepNotices(blank, s, i)
  {
    seq(k, i requires 0 <= i < k => StepNotices(blank, s, i))
  }

  function Notices(blank: string -> bool, s: Session): seq<S.Notice> {
    Flatten(PerStep(blank, s, |s.history|)) + NoticeAt(blank, s, SessionError)
  }

  lemma OneStepMore(blank: string -> bool, s: Session, k: nat)
    ensures Flatten(PerStep(blank, s, k + 1)) == Flatten(PerStep(blank, s, k)) + StepNotices(blank, s, k)
  {
    assert PerStep(blank, s, k + 1)[..k] == PerStep(blank, s, k);
  }

  method SourceNotices(blank: string -> bool, s: Session) returns (notices: seq<S.Notice>)
    ensures notices == Notices(blank, s)
  {
    notices := [];
    for k := 0 to |s.history|
      invariant notices == Flatten(PerStep(blank, s, k))
    {
      var step := NoticeStep(blank, s, k);
      OneStepMore(blank, s, k);
      notices := notices + step;
    }
    if !blank(s.error) {
      notices := notices + [S.Notice(true, "source-session-error", s.error, EVENT_SOURCE, ["error"], E.Observed)];
    } else {
      AppendNothing(notices);
    }
  }

  /** One pass of the loop: at most three notices, in this order. */
  method NoticeStep(blank: string -> bool, s: Session, k: nat) returns (notices: seq<S.Notice>)
    requires k < |s.history|
    ensures notices == StepNotices(blank, s, k)
  {
    notices := [];
    var observation, info := s.history[k].observation, s.history[k].info;
    var actionError := Get(observation, "last_action_error");
    if actionError.Str? && !blank(actionError.s) {
      notices := notices
        + [S.Notice(false, "source-action-warning", actionError.s, EVENT_SOURCE, [Path(ActionError(k))], E.Derived)];
    }
    assert notices == NoticeAt(blank, s, ActionError(k));
    if Get(info, "obs_info").Obj? {
      var prefix, action := Get(info["obs_info"].fields, "error_prefix"), Get(info["obs_info"].fields, "return_action");
      if prefix.Str? && !blank(prefix.s) {
        notices := notices
          + [S.Notice(false, "source-observation-warning", prefix.s, EVENT_SOURCE, [Path(ErrorPrefix(k))], E.Derived)];
      }
      assert notices == NoticeAt(blank, s, ActionError(k)) + NoticeAt(blank, s, ErrorPrefix(k));
      if action.Str? && !blank(action.s) {
        notices := notices + [S.Notice(true, "source-terminal-return-action", action.s, EVENT_SOURCE,
                                       [Path(ReturnAction(k))], E.Observed)];
      }
    }
  }

  // ---------------------------------------------------------------- theorems

  lemma DigitsEnd(a: string, b: string, x: string, y: string)
    requires ']' !in a && ']' !in b && x != "" && y != "" && x[0] == ']' && y[0] == ']'
    requires "history[" + (a + x) == "history[" + (b + y)
    ensures a == b && x == y
  {
    var s, t := "history[" + (a + x), "history[" + (b + y);
    assert s[8..] == a + x && t[8..] == b + y;
    var r := a + x;
    assert r == b + y && r[|a|] == ']' && r[|b|] == ']';
    assert forall i | 0 <= i < |a| :: r[i] == a[i];
    assert forall i | 0 <= i < |b| :: r[i] == b[i];
    assert |a| == |b|;
    assert a == r[..|a|] && b == r[..|b|] && x == r[|a|..] && y == r[|b|..];
  }

  lemma TailsDiffer(p: Place, q: Place)
    requires !p.SessionError? && !q.SessionError? && p.step == q.step && Tail(p) == Tail(q)
    ensures p == q
  {
    assert p.ActionError? <==> Tail(p)[2] == '0';
    assert p.ErrorPrefix? <==> |Tail(p)| == 26;
    assert q.ActionError? <==> Tail(q)[2] == '0';
    assert q.ErrorPrefix? <==> |Tail(q)| == 26;
  }

  lemma PathLengths(p: Place)
    ensures p.SessionError? <==> |Path(p)| == 5
  {
  }

  /** A source path names one place of the trace. */
  lemma PathsDiffer(p: Place, q: Place)
    requires Path(p) == Path(q)
    ensures p == q
  {
    PathLengths(p);
    PathLengths(q);
    if !p.SessionError? && !q.SessionError? {
      DigitsEnd(T.Decimal(p.step), T.Decimal(q.step), Tail(p), Tail(q));
      T.DecimalInjective(p.step, q.step);
      TailsDiffer(p, q);
    }
  }

  ghost predicate Reported(blank: string -> bool, s: Session, place: Place, n: S.Notice) {
    TextAt(blank, s, place).Some? && n == NoticeOf(place, TextAt(blank, s, place).value)
  }

  lemma {:induction false} InFlatten<X>(x: X, parts: seq<seq<X>>, i: nat)
    requires i < |parts| && x in parts[i]
    ensures x in Flatten(parts)
  {
    if i < |parts| - 1 { InFlatten(x, parts[..|parts| - 1], i); }
  }

  lemma {:induction false} FlattenedFrom<X>(x: X, parts: seq<seq<X>>) returns (i: nat)
    requires x in Flatten(parts)
    ensures i < |parts| && x in parts[i]
  {
    if x in parts[|parts| - 1] {
      i := |parts| - 1;
    } else {
      i := FlattenedFrom(x, parts[..|parts| - 1]);
    }
  }

  lemma StepReported(blank: string -> bool, s: Session, k: nat, n: S.Notice)
    ensures n in StepNotices(blank, s, k) <==>
            || Reported(blank, s, ActionError(k), n) || Reported(blank, s, ErrorPrefix(k), n)
            || Reported(blank, s, ReturnAction(k), n)
  {
  }

  lemma ListedIsReported(blank: string -> bool, s: Session, n: S.Notice) returns (place: Place)
    requires n in Notices(blank, s)
    ensures Reported(blank, s, place, n)
  {
    if n in NoticeAt(blank, s, SessionError) {
      place := SessionError;
    } else {
      var k := FlattenedFrom(n, PerStep(blank, s, |s.history|));
      StepReported(blank, s, k, n);
      place := if Reported(blank, s, ActionError(k), n) then ActionError(k)
               else if Reported(blank, s, ErrorPrefix(k), n) then ErrorPrefix(k) else ReturnAction(k);
    }
  }

  lemma InConcat<X>(x: X, a: seq<X>, b: seq<X>)
    requires x in a || x in b
    ensures x in a + b
  {
  }

  lemma ReportedIsListed(blank: string -> bool, s: Session, n: S.Notice, place: Place)
    requires Reported(blank, s, place, n)
    ensures n in Notices(blank, s)
  {
    var parts := PerStep(blank, s, |s.history|);
    if !place.SessionError? {
      StepReported(blank, s, place.step, n);
      InFlatten(n, parts, place.step);
    }
    InConcat(n, Flatten(parts), NoticeAt(blank, s, SessionError));
  }

  /** A notice stands exactly for a place the trace speaks in, with its whole text. */
  lemma NoticesExact(blank: string -> bool, s: Session, n: S.Notice)
    ensures n in Notices(blank, s) <==> exists place :: Reported(blank, s, place, n)
  {
    if n in Notices(blank, s) {
      var place := ListedIsReported(blank, s, n);
    }
    forall place | Reported(blank, s, place, n) ensures n in Notices(blank, s) {
      ReportedIsListed(blank, s, n, place);
    }
  }

  /** What a notice says of its place, word for word. */
  predicate SaysPlace(s: Session, place: Place, n: S.Notice) {
    match place
    case SessionError =>
      n == S.Notice(true, "source-session-error", s.error, "sira-session-json", ["error"], E.Observed)
    case ActionError(k) =>
      && k < |s.history| && Get(s.history[k].observation, "last_action_error") == Str(n.message)
      && n == S.Notice(false, "source-action-warning", n.message, "sira-session-json",
                       ["history[" + (T.Decimal(k) + "][0].last_action_error")], E.Derived)
    case ErrorPrefix(k) =>
      && k < |s.history| && Get(s.history[k].info, "obs_info").Obj?
      && Get(Get(s.history[k].info, "obs_info").fields, "error_prefix") == Str(n.message)
      && n == S.Notice(false, "source-observation-warning", n.message, "sira-session-json",
                       ["history[" + (T.Decimal(k) + "][2].obs_info.error_prefix")], E.Derived)
    case ReturnAction(k) =>
      && k < |s.history| && Get(s.history[k].info, "obs_info").Obj?
      && Get(Get(s.history[k].info, "obs_info").fields, "return_action") == Str(n.message)
      && n == S.Notice(true, "source-terminal-return-action", n.message, "sira-session-json",
                       ["history[" + (T.Decimal(k) + "][2].obs_info.return_action")], E.Observed)
  }

  lemma ReportedSays(blank: string -> bool, s: Session, place: Place, n: S.Notice)
    ensures Reported(blank, s, place, n) <==> SaysPlace(s, place, n) && !blank(n.message)
  {
  }

  /** The notices of a trace are those that say one of its places, and no others. */
  lemma NoticesSayPlaces(blank: string -> bool, s: Session, n: S.Notice)
    ensures n in Notices(blank, s) <==> exists place :: SaysPlace(s, place, n) && !blank(n.message)
  {
    NoticesExact(blank, s, n);
    forall place ensures Reported(blank, s, place, n) <==> SaysPlace(s, place, n) && !blank(n.message) {
      ReportedSays(blank, s, place, n);
    }
    if place :| SaysPlace(s, place, n) && !blank(n.message) { assert Reported(blank, s, place, n); }
  }
}
