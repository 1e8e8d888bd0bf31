/** The plan validator of llm_planner.py, over the same JSON values. A raised `PlanValidationError`
    is `Rejected`; its text is not modelled. */
module PythonPlanValidator {
  import opened JsonGrammar
  import opened PlanRules
  import CppPlanValidator

  function ExactKeys(value: Json, expected: set<string>): (r: Verdict<map<string, Json>>)
    ensures r.Accepted? <==> value.Object? && value.members.Keys == expected
    ensures r.Accepted? ==> r.value == value.members
  {
    if !value.Object? then Rejected else if value.members.Keys != expected then Rejected else Accepted(value.members)
  }

  function StringOf(value: Json, maximum: nat, allowEmpty: bool): (r: Verdict<string>)
    ensures r.Accepted? <==> value.Str? && (allowEmpty || value.s != "") && |value.s| <= maximum
    ensures r.Accepted? ==> value == Str(r.value)
  {
    if !value.Str? then Rejected
    else if (!allowEmpty && |value.s| == 0) || |value.s| > maximum then Rejected else Accepted(value.s)
  }

  /** The tail of the pattern: any number of id characters. */
  predicate MatchesTail(text: string) {
    |text| == 0 || (IsIdChar(text[0]) && MatchesTail(text[1..]))
  }

  /** `SAFE_ID.fullmatch`. */
  predicate FullMatch(text: string) {
    |text| > 0 && IsAlnum(text[0]) && MatchesTail(text[1..])
  }

  lemma {:induction false} TailIsIdChars(text: string)
    ensures MatchesTail(text) <==> forall k :: 0 <= k < |text| ==> IsIdChar(text[k])
  {
    if |text| > 0 {
      TailIsIdChars(text[1..]);
      assert forall k :: 1 <= k < |text| ==> text[k] == text[1..][k - 1];
    }
  }

  lemma FullMatchIsSafeId(text: string)
    ensures FullMatch(text) <==> SafeId(text)
  {
    if |text| > 0 {
      TailIsIdChars(text[1..]);
      assert forall k :: 1 <= k < |text| ==> text[k] == text[1..][k - 1];
    }
  }

  function SafeIdOf(value: Json, maximum: nat, allowEmpty: bool): (r: Verdict<string>)
    ensures r.Accepted? <==> value.Str? && |value.s| <= maximum && (SafeId(value.s) || (allowEmpty && value.s == ""))
    ensures r.Accepted? ==> value == Str(r.value)
  {
    var text :- StringOf(value, maximum, allowEmpty);
    FullMatchIsSafeId(text);
    if |text| > 0 && !FullMatch(text) then Rejected else Accepted(text)
  }

  function NumberOf(value: Json, num: string -> real, minimum: real, maximum: real): (r: Verdict<real>)
    ensures r.Accepted? <==> NumberIn(value, num, minimum, maximum)
    ensures r.Accepted? ==> r.value == num(value.lexeme)
  {
    if !value.Number? then Rejected
    else if num(value.lexeme) < minimum || num(value.lexeme) > maximum then Rejected else Accepted(num(value.lexeme))
  }

  function IntegerOf(value: Json, num: string -> real, minimum: int, maximum: int): (r: Verdict<int>)
    ensures r.Accepted? <==> IntegerIn(value, num, minimum, maximum)
  {
    if !value.Number? then Rejected
    else
      var number := num(value.lexeme);
      if number.Floor as real != number then Rejected
      else if number.Floor < minimum || number.Floor > maximum then Rejected else Accepted(number.Floor)
  }

  datatype Parsed = Parsed(taskId: string, incidentId: string, kind: string, predecessor: string, frameId: string, mapVersion: string)

  function ParsedOf(t: Task): Parsed {
    Parsed(t.taskId, t.incidentId, t.kind, t.predecessor, t.frameId, t.mapVersion)
  }

  method CheckTarget(value: Json, num: string -> real) returns (r: Verdict<()>)
    ensures r.Accepted? <==> TargetOk(value, num)
  {
    var target :- ExactKeys(value, TARGET_KEYS);
    var _ :- NumberOf(target["latitude_deg"], num, -90.0, 90.0);
    var _ :- NumberOf(target["longitude_deg"], num, -180.0, 180.0);
    var _ :- NumberOf(target["altitude_m"], num, -500.0, 10000.0);
    r := Accepted(());
  }

  datatype Texts = Texts(taskId: string, incidentId: string, kind: string, priority: string, capability: string,
                         predecessor: string, frameId: string, mapVersion: string)

  predicate Spelled(m: map<string, Json>, t: Texts)
    requires m.Keys == TASK_KEYS
  {
    && m["task_id"] == Str(t.taskId) && m["incident_id"] == Str(t.incidentId) && m["kind"] == Str(t.kind)
    && m["priority"] == Str(t.priority) && m["required_capability"] == Str(t.capability)
    && m["predecessor_task_id"] == Str(t.predecessor) && m["frame_id"] == Str(t.frameId) && m["map_version"] == Str(t.mapVersion)
  }

  predicate TextsOk(t: Texts) {
    && |t.taskId| <= 64 && SafeId(t.taskId) && |t.incidentId| <= 64 && SafeId(t.incidentId)
    && t.kind in {SURVEY, DELIVERY} && t.priority in {"NORMAL", "HIGH", "CRITICAL"}
    && (t.predecessor == "" || (|t.predecessor| <= 64 && SafeId(t.predecessor)))
    && t.frameId == FRAME_ID && t.mapVersion == MAP_VERSION
  }

  /** The string fields of a task. */
  method CheckTexts(task: map<string, Json>) returns (r: Verdict<Texts>)
    requires task.Keys == TASK_KEYS
    ensures r.Accepted? ==> Spelled(task, r.value) && TextsOk(r.value)
    ensures forall t :: Spelled(task, t) && TextsOk(t) && 1 <= |t.capability| <= 48 ==> r.Accepted?
  {
    hide SafeId;
    CanonicalLengths();
    var taskId :- SafeIdOf(task["task_id"], 64, false);
    var incidentId :- SafeIdOf(task["incident_id"], 64, false);
    var kind :- StringOf(task["kind"], 16, false);
    var priority :- StringOf(task["priority"], 16, false);
    if kind !in {SURVEY, DELIVERY} {
      return Rejected;
    }
    if priority !in {"NORMAL", "HIGH", "CRITICAL"} {
      return Rejected;
    }
    var capability :- StringOf(task["required_capability"], 48, false);
    var predecessor :- SafeIdOf(task["predecessor_task_id"], 64, true);
    var frameId :- SafeIdOf(task["frame_id"], 32, false);
    var mapVersion :- SafeIdOf(task["map_version"], 32, false);
    if frameId != FRAME_ID || mapVersion != MAP_VERSION {
      return Rejected;
    }
    r := Accepted(Texts(taskId, incidentId, kind, priority, capability, predecessor, frameId, mapVersion));
  }

  lemma TextsOfFields(m: map<string, Json>, num: string -> real)
    requires m.Keys == TASK_KEYS && FieldsOk(m, num)
    ensures exists t :: Spelled(m, t) && TextsOk(t) && 1 <= |t.capability| <= 48
  {
    hide SafeId;
    CanonicalLengths();
    var t := Texts(m["task_id"].s, m["incident_id"].s, m["kind"].s, m["priority"].s, m["required_capability"].s,
                   m["predecessor_task_id"].s, m["frame_id"].s, m["map_version"].s);
    assert Spelled(m, t) && TextsOk(t);
  }

  /** One turn of the validating loop, without the duplicate check. */
  method ParseTask(raw: Json, num: string -> real) returns (r: Verdict<Parsed>)
    ensures r.Accepted? <==> TaskOk(raw, num)
    ensures r.Accepted? ==> r.value == ParsedOf(TaskOf(raw, num))
  {
    hide SafeId, IntegerIn, NumberIn, TargetOk;
    var task :- ExactKeys(raw, TASK_KEYS);
    if FieldsOk(task, num) {
      TextsOfFields(task, num);
    }
    var texts :- CheckTexts(task);
    var _ :- IntegerOf(task["revision"], num, 1, 2147483647);
    var payload :- NumberOf(task["payload_kg"], num, 0.0, 12.0);
    var _ :- IntegerOf(task["deadline_s"], num, 1, 86400);
    var _ :- CheckTarget(task["target_wgs84"], num);
    if texts.kind == SURVEY && (texts.capability != CAMERA || payload != 0.0) {
      return Rejected;
    }
    if texts.kind == DELIVERY && (texts.capability != PAYLOAD || payload <= 0.0) {
      return Rejected;
    }
    r := Accepted(Parsed(texts.taskId, texts.incidentId, texts.kind, texts.predecessor, texts.frameId, texts.mapVersion));
  }

  /** The list comprehension that picks the tasks of one kind. */
  function OfKind(parsed: seq<Parsed>, kind: string): seq<Parsed> {
    if |parsed| == 0 then []
    else (if parsed[0].kind == kind then [parsed[0]] else []) + OfKind(parsed[1..], kind)
  }

  method ValidatePlan(plan: Json, num: string -> real) returns (r: Verdict<Json>)
    ensures r.Accepted? <==> PlanOk(plan, num)
    ensures r.Accepted? ==> r.value == plan
  {
    hide FieldsOk, TaskOf, TaskOk;
    var root :- ExactKeys(plan, {"tasks"});
    var tasks := root["tasks"];
    if !tasks.Array? || |tasks.items| != 2 {
      return Rejected;
    }
    var seenIds: set<string> := {};
    var parsed: seq<Parsed> := [];
    for index := 0 to 2
      invariant |parsed| == index
      invariant forall k :: 0 <= k < index ==> TaskOk(tasks.items[k], num) && parsed[k] == ParsedOf(TaskOf(tasks.items[k], num))
      invariant forall k :: 0 <= k < index ==> KindKnown(TaskOf(tasks.items[k], num)) && parsed[k].frameId == FRAME_ID && parsed[k].mapVersion == MAP_VERSION
      invariant seenIds == set k | 0 <= k < index :: parsed[k].taskId
      invariant index == 2 ==> parsed[0].taskId != parsed[1].taskId
    {
      var item :- ParseTask(tasks.items[index], num);
      TaskIsKnown(tasks.items[index], num);
      if item.taskId in seenIds {
        return Rejected;
      }
      seenIds := seenIds + {item.taskId};
      parsed := parsed + [item];
    }
    r := CrossRules(parsed[0], parsed[1], plan);
    assert parsed == [parsed[0], parsed[1]];
  }

  /** The rules after the loop. */
  method CrossRules(a: Parsed, b: Parsed, plan: Json) returns (r: Verdict<Json>)
    requires a.kind in {SURVEY, DELIVERY} && b.kind in {SURVEY, DELIVERY}
    requires a.frameId == b.frameId && a.mapVersion == b.mapVersion && a.taskId != b.taskId
    ensures r.Accepted? <==> Follows(a, b) || Follows(b, a)
    ensures r.Accepted? ==> r.value == plan
  {
    var surveys := OfKind([a, b], SURVEY);
    var deliveries := OfKind([a, b], DELIVERY);
    TwoOfKind(a, b, SURVEY);
    TwoOfKind(a, b, DELIVERY);
    if |surveys| != 1 || |deliveries| != 1 {
      return Rejected;
    }
    var survey, delivery := surveys[0], deliveries[0];
    if survey.predecessor != "" {
      return Rejected;
    }
    if delivery.predecessor != survey.taskId {
      return Rejected;
    }
    if survey.incidentId != delivery.incidentId {
      return Rejected;
    }
    if (survey.frameId, survey.mapVersion) != (delivery.frameId, delivery.mapVersion) {
      return Rejected;
    }
    r := Accepted(plan);
  }

  predicate Follows(survey: Parsed, delivery: Parsed) {
    && survey.kind == SURVEY && delivery.kind == DELIVERY && survey.incidentId == delivery.incidentId
    && survey.predecessor == "" && delivery.predecessor == survey.taskId
  }

  lemma TwoOfKind(a: Parsed, b: Parsed, kind: string)
    ensures OfKind([a, b], kind) == (if a.kind == kind then [a] else []) + (if b.kind == kind then [b] else [])
  {
    assert [a, b][1..] == [b];
    assert OfKind([b], kind) == if b.kind == kind then [b] else [];
  }

  /** The two validators accept the same values. */
  method BothValidators(value: Json, num: string -> real) returns (cpp: bool, python: bool)
    ensures cpp == python
    ensures cpp <==> PlanOk(value, num)
  {
    var c := CppPlanValidator.PlanFromJson(value, num);
    var p := ValidatePlan(value, num);
    cpp, python := c.Accepted?, p.Accepted?;
  }
}
