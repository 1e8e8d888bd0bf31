/** The plan validator of src/task_plan.cpp: `require_*`, `parse_task`, `validate_plan` and
    `parse_json`. A thrown exception is `Rejected`; its text is not modelled. */
module CppPlanValidator {
  import opened Wrappers
  import opened JsonGrammar
  import JsonScanner
  import JsonParser
  import opened PlanRules

  function RequireProperty(owner: Json, name: string): (r: Verdict<Json>)
    ensures r.Accepted? <==> owner.Object? && name in owner.members
    ensures r.Accepted? ==> r.value == owner.members[name]
  {
    if owner.Object? && name in owner.members then Accepted(owner.members[name]) else Rejected
  }

  function RequireExactProperties(value: Json, expected: set<string>): (r: Verdict<()>)
    ensures r.Accepted? <==> value.Object? && value.members.Keys == expected
  {
    if !value.Object? then Rejected
    else if value.members.Keys != expected then Rejected else Accepted(())
  }

  function RequireString(owner: Json, name: string, maxLength: nat, allowEmpty: bool): (r: Verdict<string>)
    ensures r.Accepted? <==> owner.Object? && name in owner.members && owner.members[name].Str?
                             && (allowEmpty || owner.members[name].s != "") && |owner.members[name].s| <= maxLength
    ensures r.Accepted? ==> owner.members[name] == Str(r.value)
  {
    var value :- RequireProperty(owner, name);
    if !value.Str? then Rejected
    else if (!allowEmpty && |value.s| == 0) || |value.s| > maxLength then Rejected else Accepted(value.s)
  }

  function RequireNumber(owner: Json, name: string, num: string -> real, minimum: real, maximum: real): (r: Verdict<real>)
    ensures r.Accepted? <==> owner.Object? && name in owner.members && NumberIn(owner.members[name], num, minimum, maximum)
    ensures r.Accepted? ==> r.value == num(owner.members[name].lexeme)
  {
    var value :- RequireProperty(owner, name);
    if !value.Number? then Rejected
    else if num(value.lexeme) < minimum || num(value.lexeme) > maximum then Rejected else Accepted(num(value.lexeme))
  }

  function RequireInteger(owner: Json, name: string, num: string -> real, minimum: int, maximum: int): (r: Verdict<int>)
    ensures r.Accepted? <==> owner.Object? && name in owner.members && IntegerIn(owner.members[name], num, minimum, maximum)
    ensures r.Accepted? ==> r.value == num(owner.members[name].lexeme).Floor
  {
    var number :- RequireNumber(owner, name, num, minimum as real, maximum as real);
    if number.Floor as real != number then Rejected else Accepted(number.Floor)
  }

  /** The character loop of `is_safe_identifier`. */
  method IsSafeIdentifier(value: string) returns (safe: bool)
    ensures safe <==> SafeId(value)
  {
    if |value| == 0 || !IsAlnum(value[0]) {
      return false;
    }
    for k := 0 to |value|
      invariant forall i :: 0 <= i < k ==> IsIdChar(value[i])
    {
      if !IsAlnum(value[k]) && value[k] != '.' && value[k] != '_' && value[k] != '-' {
        return false;
      }
    }
    safe := true;
  }

  method RequireSafeIdentifier(value: string) returns (r: Verdict<()>)
    ensures r.Accepted? <==> SafeId(value)
  {
    var safe := IsSafeIdentifier(value);
    r := if safe then Accepted(()) else Rejected;
  }

  method ParseTarget(target: Json, num: string -> real) returns (r: Verdict<Target>)
    ensures r.Accepted? <==> TargetOk(target, num)
    ensures r.Accepted? ==> r.value == Target(num(target.members["latitude_deg"].lexeme), num(target.members["longitude_deg"].lexeme),
                                              num(target.members["altitude_m"].lexeme))
  {
    var _ :- RequireExactProperties(target, TARGET_KEYS);
    var latitude :- RequireNumber(target, "latitude_deg", num, -90.0, 90.0);
    var longitude :- RequireNumber(target, "longitude_deg", num, -180.0, 180.0);
    var altitude :- RequireNumber(target, "altitude_m", num, -500.0, 10000.0);
    r := Accepted(Target(latitude, longitude, altitude));
  }

  /** The fields as they are fetched, before the cross-field checks. */
  predicate Fetched(m: map<string, Json>, num: string -> real, t: Task)
    requires m.Keys == TASK_KEYS
  {
    && m["task_id"] == Str(t.taskId) && m["incident_id"] == Str(t.incidentId) && m["kind"] == Str(t.kind)
    && m["priority"] == Str(t.priority) && m["required_capability"] == Str(t.capability)
    && m["predecessor_task_id"] == Str(t.predecessor) && m["frame_id"] == Str(t.frameId) && m["map_version"] == Str(t.mapVersion)
    && IntegerIn(m["revision"], num, 1, 2147483647) && t.revision == num(m["revision"].lexeme).Floor
    && IntegerIn(m["deadline_s"], num, 1, 86400) && t.deadline == num(m["deadline_s"].lexeme).Floor
    && NumberIn(m["payload_kg"], num, 0.0, 12.0) && t.payload == num(m["payload_kg"].lexeme)
  }

  predicate LengthsOk(t: Task) {
    && 1 <= |t.taskId| <= 64 && 1 <= |t.incidentId| <= 64 && 1 <= |t.kind| <= 16 && 1 <= |t.priority| <= 16
    && 1 <= |t.capability| <= 48 && |t.predecessor| <= 64 && 1 <= |t.frameId| <= 32 && 1 <= |t.mapVersion| <= 32
  }

  method FetchFields(value: Json, num: string -> real) returns (r: Verdict<Task>)
    requires value.Object? && value.members.Keys == TASK_KEYS
    ensures r.Accepted? ==> Fetched(value.members, num, r.value) && LengthsOk(r.value)
    ensures FieldsOk(value.members, num) ==> r.Accepted?
  {
    CanonicalLengths();
    var taskId :- RequireString(value, "task_id", 64, false);
    var incidentId :- RequireString(value, "incident_id", 64, false);
    var kind :- RequireString(value, "kind", 16, false);
    var priority :- RequireString(value, "priority", 16, false);
    var revision :- RequireInteger(value, "revision", num, 1, 2147483647);
    var capability :- RequireString(value, "required_capability", 48, false);
    var predecessor :- RequireString(value, "predecessor_task_id", 64, true);
    var payload :- RequireNumber(value, "payload_kg", num, 0.0, 12.0);
    var deadline :- RequireInteger(value, "deadline_s", num, 1, 86400);
    var frameId :- RequireString(value, "frame_id", 32, false);
    var mapVersion :- RequireString(value, "map_version", 32, false);
    r := Accepted(Task(taskId, incidentId, kind, priority, revision, capability, Target(0.0, 0.0, 0.0), predecessor,
                       payload, deadline, frameId, mapVersion));
  }

  /** Priority, and what the kind demands of capability and payload. */
  method CheckKind(task: Task) returns (r: Verdict<()>)
    ensures r.Accepted? <==> task.priority in {"NORMAL", "HIGH", "CRITICAL"} && KindOk(task.kind, task.capability, task.payload)
  {
    if task.priority != "NORMAL" && task.priority != "HIGH" && task.priority != "CRITICAL" {
      return Rejected;
    }
    if task.kind == SURVEY {
      if task.capability != CAMERA || task.payload != 0.0 {
        return Rejected;
      }
    } else if task.kind == DELIVERY {
      if task.capability != PAYLOAD || task.payload <= 0.0 {
        return Rejected;
      }
    } else {
      return Rejected;
    }
    r := Accepted(());
  }

  method ParseTask(value: Json, num: string -> real) returns (r: Verdict<Task>)
    ensures r.Accepted? <==> TaskOk(value, num)
    ensures r.Accepted? ==> r.value == TaskOf(value, num)
  {
    hide SafeId, TargetOk, IntegerIn, NumberIn, KindOk;
    CanonicalLengths();
    var _ :- RequireExactProperties(value, TASK_KEYS);
    var task :- FetchFields(value, num);
    if task.frameId != FRAME_ID || task.mapVersion != MAP_VERSION {
      return Rejected;
    }
    var taskSafe := IsSafeIdentifier(task.taskId);
    var incidentSafe := IsSafeIdentifier(task.incidentId);
    var frameSafe := IsSafeIdentifier(task.frameId);
    var mapSafe := IsSafeIdentifier(task.mapVersion);
    if !taskSafe || !incidentSafe || !frameSafe || !mapSafe {
      return Rejected;
    }
    if task.predecessor != "" {
      var _ :- RequireSafeIdentifier(task.predecessor);
    }
    var target :- ParseTarget(value.members["target_wgs84"], num);
    task := task.(target := target);
    var _ :- CheckKind(task);
    r := Accepted(task);
  }

  /** The cross-task rules, over parsed tasks. */
  method ValidatePlan(tasks: seq<Task>) returns (r: Verdict<()>)
    requires forall k :: 0 <= k < |tasks| ==> KindKnown(tasks[k]) && tasks[k].frameId == FRAME_ID && tasks[k].mapVersion == MAP_VERSION
    ensures r.Accepted? <==> |tasks| == 2 && PairOk(tasks[0], tasks[1])
  {
    if |tasks| != 2 {
      return Rejected;
    }
    var survey: Option<Task>, delivery: Option<Task> := None, None;
    var taskIds: set<string> := {};
    for k := 0 to 2
      invariant taskIds == (if k == 0 then {} else if k == 1 then {tasks[0].taskId} else {tasks[0].taskId, tasks[1].taskId})
      invariant k == 2 ==> tasks[0].taskId != tasks[1].taskId && tasks[0].kind != tasks[1].kind
      invariant survey == if k > 0 && tasks[0].kind == SURVEY then Some(tasks[0]) else if k > 1 && tasks[1].kind == SURVEY then Some(tasks[1]) else None
      invariant delivery == if k > 0 && tasks[0].kind == DELIVERY then Some(tasks[0]) else if k > 1 && tasks[1].kind == DELIVERY then Some(tasks[1]) else None
    {
      var task := tasks[k];
      if task.taskId in taskIds {
        return Rejected;
      }
      taskIds := taskIds + {task.taskId};
      if task.kind == SURVEY {
        if survey.Some? {
          return Rejected;
        }
        survey := Some(task);
      } else {
        if delivery.Some? {
          return Rejected;
        }
        delivery := Some(task);
      }
    }
    if survey.value.predecessor != "" {
      return Rejected;
    }
    if delivery.value.predecessor != survey.value.taskId {
      return Rejected;
    }
    if survey.value.incidentId != delivery.value.incidentId {
      return Rejected;
    }
    if survey.value.frameId != delivery.value.frameId || survey.value.mapVersion != delivery.value.mapVersion {
      return Rejected;
    }
    r := Accepted(());
  }

  /** From a parsed value to the plan. */
  method PlanFromJson(root: Json, num: string -> real) returns (r: Verdict<seq<Task>>)
    ensures r.Accepted? <==> PlanOk(root, num)
    ensures r.Accepted? ==> r.value == PlanOf(root, num)
  {
    hide FieldsOk, PairOk;
    var _ :- RequireExactProperties(root, {"tasks"});
    var tasks := root.members["tasks"];
    if !tasks.Array? {
      return Rejected;
    }
    var plan: seq<Task> := [];
    for index := 0 to |tasks.items|
      invariant |plan| == index
      invariant forall k :: 0 <= k < index ==> TaskOk(tasks.items[k], num) && plan[k] == TaskOf(tasks.items[k], num)
      invariant forall k :: 0 <= k < index ==> KindKnown(plan[k]) && plan[k].frameId == FRAME_ID && plan[k].mapVersion == MAP_VERSION
    {
      var task :- ParseTask(tasks.items[index], num);
      TaskIsKnown(tasks.items[index], num);
      plan := plan + [task];
    }
    var _ :- ValidatePlan(plan);
    r := Accepted(plan);
    assert plan == [plan[0], plan[1]];
  }

  /** Text to plan: accepted exactly when the text derives a value that is a plan. */
  method ParseJson(text: string, fits: string -> bool, num: string -> real) returns (r: Verdict<seq<Task>>)
    ensures r.Accepted? <==> exists v :: Derives(text, v, fits) && PlanOk(v, num)
    ensures forall v :: r.Accepted? && Derives(text, v, fits) ==> PlanOk(v, num) && r.value == PlanOf(v, num)
  {
    hide Derives, PlanOk, JsonScanner.Document;
    var parser := new JsonParser.Parser(text, fits);
    var parsed := parser.Parse();
    if parsed.Err? {
      return Rejected;
    }
    assert Derives(text, parsed.value, fits);
    r := PlanFromJson(parsed.value, num);
  }
}
