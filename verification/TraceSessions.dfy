/** A session trace: its structural validation and its reconciliation with the configured task. */
module TraceSessions {
  import opened Common
  import opened Json

  /** One history item: the observation, the requested action and the step information. */
  datatype Item = Item(observation: Fields, action: string, info: Fields)

  datatype Session = Session(
    goal: string, history: seq<Item>, isComplete: bool, error: string,
    instanceId: Option<string>, rewards: Option<seq<Value>>, testResult: Option<Value>)

  datatype TraceError =
    | InvalidField | BadHistoryItem | BadStepInfo | InvalidOutcome
    | GoalMismatch | TooManySteps | ItemMismatch | CompletionMismatch | OutcomeMismatch

  // ------------------------------------------------------------- structure

  predicate TextOrNull(d: Fields, key: string) {
    key in d ==> d[key].Null? || d[key].Str?
  }

  predicate TextIfPresent(d: Fields, key: string) {
    key in d ==> d[key].Str?
  }

  predicate InfoOk(info: Fields) {
    && TextOrNull(info, "obs") && TextOrNull(info, "state") && TextOrNull(info, "plan") && TextOrNull(info, "intent")
    && TextOrNull(info, "action") && TextOrNull(info, "memory_update")
    && "action" in info
    && ("obs_info" in info ==>
          && info["obs_info"].Obj?
          && TextIfPresent(info["obs_info"].fields, "goal") && TextIfPresent(info["obs_info"].fields, "error_prefix")
          && TextIfPresent(info["obs_info"].fields, "return_action"))
  }

  function ItemFrom(v: Value): Result<Item, TraceError> {
    if !v.Arr? || |v.items| != 3 || !v.items[0].Obj? || !v.items[1].Str? || !v.items[2].Obj? then Err(BadHistoryItem)
    else if !InfoOk(v.items[2].fields) then Err(BadStepInfo)
    else Ok(Item(v.items[0].fields, v.items[1].s, v.items[2].fields))
  }

  /** The value a well-formed item was read from. */
  function ItemValue(item: Item): Value {
    Arr([Obj(item.observation), Str(item.action), Obj(item.info)])
  }

  lemma ItemRoundTrip(v: Value)
    requires ItemFrom(v).Ok?
    ensures ItemValue(ItemFrom(v).value) == v && InfoOk(ItemFrom(v).value.info)
  {
    assert v.items == [v.items[0], v.items[1], v.items[2]];
  }

  predicate IsNumber(v: Value) { v.Int? || v.Float? }

  predicate OutcomeFieldsOk(d: Fields) {
    && ("rewards" in d ==> d["rewards"].Arr? && forall v | v in d["rewards"].items :: IsNumber(v))
    && ("test_result" in d ==> IsNumber(d["test_result"]))
  }

  predicate HeaderOk(blank: string -> bool, d: Fields) {
    && Get(d, "goal").Str? && Get(d, "history").Arr? && Get(d, "is_complete").Bool? && Get(d, "error").Str?
    && !blank(Get(d, "goal").s)
    && "instance_id" in d && (d["instance_id"].Null? || d["instance_id"].Str?)
  }

  /** The declarative reading of validation: every part well-formed, every item an item. */
  predicate Validated(blank: string -> bool, d: Fields, s: Session) {
    && HeaderOk(blank, d) && OutcomeFieldsOk(d)
    && s.goal == d["goal"].s && s.isComplete == d["is_complete"].b && s.error == d["error"].s
    && |s.history| == |d["history"].items|
    && (forall i | 0 <= i < |s.history| :: ItemFrom(d["history"].items[i]) == Ok(s.history[i]))
    && s.instanceId == (if d["instance_id"].Str? then Some(d["instance_id"].s) else None)
    && s.rewards == (if "rewards" in d then Some(d["rewards"].items) else None)
    && s.testResult == (if "test_result" in d then Some(d["test_result"]) else None)
  }

  /** Validation reads the session, or refuses exactly when there is nothing well-formed to read. */
  method ValidateSession(blank: string -> bool, d: Fields) returns (r: Result<Session, TraceError>)
    ensures r.Ok? ==> Validated(blank, d, r.value)
    ensures forall s :: Validated(blank, d, s) ==> r == Ok(s)
  {
    if !HeaderOk(blank, d) {
      return Err(InvalidField);
    }
    var items := d["history"].items;
    var history: seq<Item> := [];
    for k := 0 to |items|
      invariant |history| == k
      invariant forall i | 0 <= i < k :: ItemFrom(items[i]) == Ok(history[i])
    {
      var item := ItemFrom(items[k]);
      if item.Err? {
        return Err(item.error);
      }
      history := history + [item.value];
    }
    if !OutcomeFieldsOk(d) {
      return Err(InvalidOutcome);
    }
    var session := Session(d["goal"].s, history, d["is_complete"].b, d["error"].s,
                           if d["instance_id"].Str? then Some(d["instance_id"].s) else None,
                           if "rewards" in d then Some(d["rewards"].items) else None,
                           if "test_result" in d then Some(d["test_result"]) else None);
    forall s | Validated(blank, d, s) ensures s == session { assert s.history == history; }
    r := Ok(session);
  }

  // --------------------------------------------------------- reconciliation

  /** The part of the configuration a trace is held against. */
  datatype Expected = Expected(goal: string, maxSteps: int, webarenaInstance: Option<string>)

  predicate GoalAgrees(d: Fields, goal: string) {
    Get(d, "goal").Null? || Get(d, "goal") == Str(goal)
  }

  /** One item against the task, its own duplicate fields and the action before it. */
  predicate ItemReconciled(goal: string, item: Item, previous: Option<string>) {
    && GoalAgrees(item.observation, goal)
    && (Get(item.info, "obs_info").Obj? ==> GoalAgrees(Get(item.info, "obs_info").fields, goal))
    && Get(item.info, "action") == Str(item.action)
    && (Get(item.info, "plan").Null? <==> Get(item.info, "intent").Null?)
    && Get(item.info, "plan") == Get(item.info, "intent")
    && var last := Get(item.observation, "last_action");
       match previous
       case None => last.Null? || last == Str("")
       case Some(action) => last.Null? || last == Str(action)
  }

  function Previous(history: seq<Item>, i: nat): Option<string>
    requires i <= |history|
  {
    if i == 0 then None else Some(history[i - 1].action)
  }

  predicate StartsWith(s: string, prefix: string) { prefix <= s }

  const FINAL_ACTION := "send_msg_to_user"

  predicate CompletesWith(history: seq<Item>) {
    history != [] && StartsWith(history[|history| - 1].action, FINAL_ACTION)
  }

  predicate Positive(v: Value) { (v.Int? && v.i > 0) || (v.Float? && v.a > 0) }

  predicate OutcomeReconciled(e: Expected, s: Session) {
    match e.webarenaInstance
    case None => s.instanceId.None? && s.rewards.None? && s.testResult.None?
    case Some(instance) =>
      && s.instanceId == Some(instance)
      && s.rewards.Some? && s.rewards.value != []
      && s.testResult == Some(Float(if exists v | v in s.rewards.value :: Positive(v) then ONE else 0))
  }

  predicate ReconciledAt(goal: string, history: seq<Item>, i: nat)
    requires i < |history|
  {
    ItemReconciled(goal, history[i], Previous(history, i))
  }

  predicate HistoryReconciled(goal: string, history: seq<Item>) {
    forall i | 0 <= i < |history| :: ReconciledAt(goal, history, i)
  }

  /** The trace agrees with the task, with its own duplicate fields and with itself from step to step. */
  predicate Reconciled(e: Expected, s: Session) {
    && s.goal == e.goal && |s.history| <= e.maxSteps
    && HistoryReconciled(e.goal, s.history)
    && (s.isComplete <==> CompletesWith(s.history))
    && OutcomeReconciled(e, s)
  }

  /** Item by item, carrying the previous action. */
  method ReconcileHistory(goal: string, history: seq<Item>) returns (ok: bool)
    ensures ok <==> HistoryReconciled(goal, history)
  {
    var previous: Option<string> := None;
    for k := 0 to |history|
      invariant previous == Previous(history, k)
      invariant forall i | 0 <= i < k :: ReconciledAt(goal, history, i)
    {
      var agrees := ItemReconciled(goal, history[k], previous);
      assert agrees <==> ReconciledAt(goal, history, k);
      if !agrees {
        return false;
      }
      previous := Some(history[k].action);
    }
    ok := true;
  }

  method ReconcileSession(e: Expected, s: Session) returns (error: Option<TraceError>)
    ensures error.None? <==> Reconciled(e, s)
  {
    if s.goal != e.goal {
      return Some(GoalMismatch);
    }
    if |s.history| > e.maxSteps {
      return Some(TooManySteps);
    }
    var items := ReconcileHistory(e.goal, s.history);
    if !items {
      return Some(ItemMismatch);
    }
    if s.isComplete != CompletesWith(s.history) {
      return Some(CompletionMismatch);
    }
    if !OutcomeReconciled(e, s) {
      return Some(OutcomeMismatch);
    }
    error := None;
  }

  // ------------------------------------------------- what acceptance comes to

  /** The value under the key is text, or null, or missing. */
  predicate Texts(d: Fields, keys: seq<string>) {
    forall key | key in keys :: Get(d, key).Null? || Get(d, key).Str?
  }

  /** The value under the key is text, or missing; null is refused. */
  predicate StrictTexts(d: Fields, keys: seq<string>) {
    forall key | key in keys && key in d :: d[key].Str?
  }

  /** What a well-formed history item is, key by key. */
  lemma ItemFacts(v: Value)
    ensures ItemFrom(v).Ok? <==>
              && v.Arr? && |v.items| == 3 && v.items[0].Obj? && v.items[1].Str? && v.items[2].Obj?
              && var info := v.items[2].fields;
                 && "action" in info
                 && Texts(info, ["obs", "state", "plan", "intent", "action", "memory_update"])
                 && ("obs_info" in info ==>
                       && info["obs_info"].Obj?
                       && StrictTexts(info["obs_info"].fields, ["goal", "error_prefix", "return_action"]))
  {
    if v.Arr? && |v.items| == 3 && v.items[2].Obj? {
      InfoFacts(v.items[2].fields);
    }
  }

  lemma InfoFacts(info: Fields)
    ensures InfoOk(info) <==>
              && "action" in info
              && Texts(info, ["obs", "state", "plan", "intent", "action", "memory_update"])
              && ("obs_info" in info ==>
                    && info["obs_info"].Obj?
                    && StrictTexts(info["obs_info"].fields, ["goal", "error_prefix", "return_action"]))
  {
    SixTexts(info, "obs", "state", "plan", "intent", "action", "memory_update");
    if "obs_info" in info && info["obs_info"].Obj? {
      ThreeTexts(info["obs_info"].fields, "goal", "error_prefix", "return_action");
    }
  }

  lemma SixTexts(d: Fields, a: string, b: string, c: string, e: string, f: string, g: string)
    ensures Texts(d, [a, b, c, e, f, g]) <==>
              TextOrNull(d, a) && TextOrNull(d, b) && TextOrNull(d, c)
              && TextOrNull(d, e) && TextOrNull(d, f) && TextOrNull(d, g)
  {
    var keys := [a, b, c, e, f, g];
    assert keys[0] == a && keys[1] == b && keys[2] == c && keys[3] == e && keys[4] == f && keys[5] == g;
    assert forall key | key in keys :: (TextOrNull(d, key) <==> Get(d, key).Null? || Get(d, key).Str?);
  }

  lemma ThreeTexts(d: Fields, a: string, b: string, c: string)
    ensures StrictTexts(d, [a, b, c]) <==> TextIfPresent(d, a) && TextIfPresent(d, b) && TextIfPresent(d, c)
  {
    var keys := [a, b, c];
    assert keys[0] == a && keys[1] == b && keys[2] == c;
  }

  /** What a well-formed trace is at its top level; null stands for no instance and nothing else. */
  lemma HeaderFacts(blank: string -> bool, d: Fields)
    ensures HeaderOk(blank, d) && OutcomeFieldsOk(d) <==>
              && "goal" in d && d["goal"].Str? && !blank(d["goal"].s) && "history" in d && d["history"].Arr?
              && "is_complete" in d && d["is_complete"].Bool? && "error" in d && d["error"].Str?
              && "instance_id" in d && (d["instance_id"] == Null || d["instance_id"].Str?)
              && ("rewards" in d ==>
                    d["rewards"].Arr? && forall v | v in d["rewards"].items :: v.Int? || v.Float?)
              && ("test_result" in d ==> d["test_result"].Int? || d["test_result"].Float?)
  {
  }

  /** One step of a reconciled trace agrees with the goal, with its own copies and with the step before it. */
  predicate StepAgrees(goal: string, history: seq<Item>, i: nat)
    requires i < |history|
  {
    var observation, info, last := history[i].observation, history[i].info, Get(history[i].observation, "last_action");
    && (Get(observation, "goal") == Null || Get(observation, "goal") == Str(goal))
    && (Get(info, "obs_info").Obj? ==>
          var inner := Get(Get(info, "obs_info").fields, "goal"); inner == Null || inner == Str(goal))
    && Get(info, "action") == Str(history[i].action)
    && Get(info, "plan") == Get(info, "intent")
    && (last == Null || last == Str(if i == 0 then "" else history[i - 1].action))
  }

  lemma StepFacts(goal: string, history: seq<Item>, i: nat)
    requires i < |history|
    ensures ReconciledAt(goal, history, i) <==> StepAgrees(goal, history, i)
  {
  }

  /** A reconciled trace in full: every step agrees, completion is the final message, and the outcome fits the task. */
  lemma ReconciledFacts(e: Expected, s: Session)
    ensures Reconciled(e, s) <==>
              && s.goal == e.goal && |s.history| <= e.maxSteps
              && (forall i | 0 <= i < |s.history| :: StepAgrees(e.goal, s.history, i))
              && (s.isComplete <==> s.history != [] && "send_msg_to_user" <= s.history[|s.history| - 1].action)
              && (e.webarenaInstance.None? ==> s.instanceId == None && s.rewards == None && s.testResult == None)
              && (e.webarenaInstance.Some? ==>
                    && s.instanceId == e.webarenaInstance && s.rewards.Some? && |s.rewards.value| > 0
                    && s.testResult.Some? && s.testResult.value.Float?
                    && (s.testResult.value.a == ONE || s.testResult.value.a == 0)
                    && (s.testResult.value.a == ONE <==>
                          exists v | v in s.rewards.value :: (v.Int? && v.i > 0) || (v.Float? && v.a > 0)))
  {
    forall i | 0 <= i < |s.history| ensures ReconciledAt(e.goal, s.history, i) <==> StepAgrees(e.goal, s.history, i) {
      StepFacts(e.goal, s.history, i);
    }
    OutcomeFacts(e, s);
  }

  lemma OutcomeFacts(e: Expected, s: Session)
    ensures OutcomeReconciled(e, s) <==>
              && (e.webarenaInstance.None? ==> s.instanceId == None && s.rewards == None && s.testResult == None)
              && (e.webarenaInstance.Some? ==>
                    && s.instanceId == e.webarenaInstance && s.rewards.Some? && |s.rewards.value| > 0
                    && s.testResult.Some? && s.testResult.value.Float?
                    && (s.testResult.value.a == ONE || s.testResult.value.a == 0)
                    && (s.testResult.value.a == ONE <==>
                          exists v | v in s.rewards.value :: (v.Int? && v.i > 0) || (v.Float? && v.a > 0)))
  {
    if s.rewards.Some? {
      assert (exists v | v in s.rewards.value :: Positive(v)) <==>
             exists v | v in s.rewards.value :: (v.Int? && v.i > 0) || (v.Float? && v.a > 0) by {
        assert forall v :: Positive(v) <==> (v.Int? && v.i > 0) || (v.Float? && v.a > 0);
      }
    }
  }
}
