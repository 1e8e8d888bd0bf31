/** What a task plan must be, read off the schema and the planner rules of llm_planner.py: the
    common specification of the C++ and the Python validator. `num` is the double a number lexeme
    is read as. */
module PlanRules {
  import opened JsonGrammar

  datatype Target = Target(latitude: real, longitude: real, altitude: real)

  datatype Task = Task(taskId: string, incidentId: string, kind: string, priority: string, revision: int,
                       capability: string, target: Target, predecessor: string, payload: real, deadline: int,
                       frameId: string, mapVersion: string)

  datatype Verdict<+T> = Accepted(value: T) | Rejected {
    predicate IsFailure() {
      Rejected?
    }

    function PropagateFailure<U>(): Verdict<U>
      requires Rejected?
    {
      Rejected
    }

    function Extract(): T
      requires Accepted?
    {
      value
    }
  }

  const FRAME_ID := "park_enu_v1"
  const MAP_VERSION := "campus-map-2026.1"
  const SURVEY := "SURVEY"
  const DELIVERY := "DELIVERY"
  const CAMERA := "CAMERA_THERMAL"
  const PAYLOAD := "MEDICAL_PAYLOAD"

  const TASK_KEYS := {"task_id", "incident_id", "kind", "priority", "revision", "required_capability", "target_wgs84",
                      "predecessor_task_id", "payload_kg", "deadline_s", "frame_id", "map_version"}
  const TARGET_KEYS := {"latitude_deg", "longitude_deg", "altitude_m"}

  predicate IsAlnum(c: char) {
    '0' <= c <= '9' || 'A' <= c <= 'Z' || 'a' <= c <= 'z'
  }

  predicate IsIdChar(c: char) {
    IsAlnum(c) || c == '.' || c == '_' || c == '-'
  }

  /** The pattern ^[A-Za-z0-9][A-Za-z0-9._-]*$. */
  predicate SafeId(v: string) {
    |v| > 0 && IsAlnum(v[0]) && forall k :: 0 <= k < |v| ==> IsIdChar(v[k])
  }

  predicate IdField(j: Json) {
    j.Str? && |j.s| <= 64 && SafeId(j.s)
  }

  predicate NumberIn(j: Json, num: string -> real, low: real, high: real) {
    j.Number? && low <= num(j.lexeme) <= high
  }

  predicate IntegerIn(j: Json, num: string -> real, low: int, high: int) {
    NumberIn(j, num, low as real, high as real) && num(j.lexeme).Floor as real == num(j.lexeme)
  }

  predicate TargetOk(j: Json, num: string -> real) {
    && j.Object? && j.members.Keys == TARGET_KEYS
    && NumberIn(j.members["latitude_deg"], num, -90.0, 90.0)
    && NumberIn(j.members["longitude_deg"], num, -180.0, 180.0)
    && NumberIn(j.members["altitude_m"], num, -500.0, 10000.0)
  }

  /** The kind fixes the capability and whether there is a payload. */
  predicate KindOk(kind: string, capability: string, payload: real) {
    || (kind == SURVEY && capability == CAMERA && payload == 0.0)
    || (kind == DELIVERY && capability == PAYLOAD && payload > 0.0)
  }

  predicate FieldsOk(m: map<string, Json>, num: string -> real)
    requires m.Keys == TASK_KEYS
  {
    && IdField(m["task_id"]) && IdField(m["incident_id"])
    && m["kind"].Str? && m["priority"].Str? && m["required_capability"].Str?
    && m["priority"].s in {"NORMAL", "HIGH", "CRITICAL"}
    && IntegerIn(m["revision"], num, 1, 2147483647)
    && (m["predecessor_task_id"] == Str("") || IdField(m["predecessor_task_id"]))
    && NumberIn(m["payload_kg"], num, 0.0, 12.0)
    && IntegerIn(m["deadline_s"], num, 1, 86400)
    && m["frame_id"] == Str(FRAME_ID) && m["map_version"] == Str(MAP_VERSION)
    && TargetOk(m["target_wgs84"], num)
    && KindOk(m["kind"].s, m["required_capability"].s, num(m["payload_kg"].lexeme))
  }

  predicate TaskOk(j: Json, num: string -> real) {
    j.Object? && j.members.Keys == TASK_KEYS && FieldsOk(j.members, num)
  }

  function TaskOf(j: Json, num: string -> real): Task
    requires TaskOk(j, num)
  {
    var m := j.members;
    var t := m["target_wgs84"].members;
    Task(m["task_id"].s, m["incident_id"].s, m["kind"].s, m["priority"].s, num(m["revision"].lexeme).Floor,
         m["required_capability"].s,
         Target(num(t["latitude_deg"].lexeme), num(t["longitude_deg"].lexeme), num(t["altitude_m"].lexeme)),
         m["predecessor_task_id"].s, num(m["payload_kg"].lexeme), num(m["deadline_s"].lexeme).Floor,
         m["frame_id"].s, m["map_version"].s)
  }

  /** A SURVEY without a predecessor and a DELIVERY that waits for it, in one incident. */
  predicate Ordered(survey: Task, delivery: Task) {
    && survey.kind == SURVEY && delivery.kind == DELIVERY
    && survey.taskId != delivery.taskId && survey.incidentId == delivery.incidentId
    && survey.predecessor == "" && delivery.predecessor == survey.taskId
  }

  predicate PairOk(a: Task, b: Task) {
    Ordered(a, b) || Ordered(b, a)
  }

  predicate PlanOk(root: Json, num: string -> real) {
    && root.Object? && root.members.Keys == {"tasks"} && root.members["tasks"].Array?
    && |root.members["tasks"].items| == 2
    && TaskOk(root.members["tasks"].items[0], num) && TaskOk(root.members["tasks"].items[1], num)
    && PairOk(TaskOf(root.members["tasks"].items[0], num), TaskOf(root.members["tasks"].items[1], num))
  }

  function PlanOf(root: Json, num: string -> real): seq<Task>
    requires PlanOk(root, num)
  {
    [TaskOf(root.members["tasks"].items[0], num), TaskOf(root.members["tasks"].items[1], num)]
  }

  /** The canonical texts keep the length limits both validators impose before they compare. */
  lemma CanonicalLengths()
    ensures 1 <= |SURVEY| <= 16 && 1 <= |DELIVERY| <= 16 && 1 <= |CAMERA| <= 48 && 1 <= |PAYLOAD| <= 48
    ensures 1 <= |FRAME_ID| <= 32 && 1 <= |MAP_VERSION| <= 32 && SafeId(FRAME_ID) && SafeId(MAP_VERSION)
  {
  }

  predicate KindKnown(t: Task) {
    t.kind == SURVEY || t.kind == DELIVERY
  }

  lemma TaskIsKnown(j: Json, num: string -> real)
    requires TaskOk(j, num)
    ensures KindKnown(TaskOf(j, num)) && TaskOf(j, num).frameId == FRAME_ID && TaskOf(j, num).mapVersion == MAP_VERSION
  {
  }

  /** The order of the two tasks does not matter. */
  lemma SwapInvariant(a: Json, b: Json, num: string -> real)
    ensures PlanOk(Object(map["tasks" := Array([a, b])]), num) <==> PlanOk(Object(map["tasks" := Array([b, a])]), num)
  {
    hide TaskOk;
    assert map["tasks" := Array([a, b])].Keys == {"tasks"} == map["tasks" := Array([b, a])].Keys;
  }

  /** What an accepted plan guarantees: one SURVEY that waits for nothing and needs no payload, one
      DELIVERY of at most 12 kg that waits for it, different ids. */
  lemma AcceptedPlan(root: Json, num: string -> real) returns (survey: Task, delivery: Task)
    requires PlanOk(root, num)
    ensures PlanOf(root, num) == [survey, delivery] || PlanOf(root, num) == [delivery, survey]
    ensures survey.kind == SURVEY && survey.predecessor == "" && survey.capability == CAMERA && survey.payload == 0.0
    ensures delivery.kind == DELIVERY && delivery.predecessor == survey.taskId && delivery.capability == PAYLOAD
    ensures 0.0 < delivery.payload <= 12.0
    ensures survey.taskId != delivery.taskId && survey.taskId != "" && delivery.taskId != ""
    ensures |survey.taskId| <= 64 && |delivery.taskId| <= 64
  {
    var plan := PlanOf(root, num);
    survey, delivery := plan[0], plan[1];
    if Ordered(plan[1], plan[0]) {
      survey, delivery := plan[1], plan[0];
    }
  }

  // ----- the rules in one piece

  /** A text of 1 to 64 letters, digits, dots, underscores and hyphens that begins with a letter or a digit. */
  predicate IdText(v: string) {
    && 1 <= |v| <= 64
    && ('0' <= v[0] <= '9' || 'A' <= v[0] <= 'Z' || 'a' <= v[0] <= 'z')
    && forall k :: 0 <= k < |v| ==> ('0' <= v[k] <= '9' || 'A' <= v[k] <= 'Z' || 'a' <= v[k] <= 'z' || v[k] == '.' || v[k] == '_' || v[k] == '-')
  }

  /** A task: exactly the twelve fields, each in its range. */
  lemma TaskOkExactly(j: Json, num: string -> real)
    ensures TaskOk(j, num) <==>
              && j.Object? && var m := j.members;
              && m.Keys == {"task_id", "incident_id", "kind", "priority", "revision", "required_capability", "target_wgs84", "predecessor_task_id",
                            "payload_kg", "deadline_s", "frame_id", "map_version"}
              && m["task_id"].Str? && IdText(m["task_id"].s) && m["incident_id"].Str? && IdText(m["incident_id"].s)
              && m["predecessor_task_id"].Str? && (m["predecessor_task_id"].s == "" || IdText(m["predecessor_task_id"].s))
              && m["priority"] in {Str("NORMAL"), Str("HIGH"), Str("CRITICAL")}
              && m["frame_id"] == Str("park_enu_v1") && m["map_version"] == Str("campus-map-2026.1")
              && m["revision"].Number? && 1.0 <= num(m["revision"].lexeme) <= 2147483647.0
              && num(m["revision"].lexeme).Floor as real == num(m["revision"].lexeme)
              && m["deadline_s"].Number? && 1.0 <= num(m["deadline_s"].lexeme) <= 86400.0
              && num(m["deadline_s"].lexeme).Floor as real == num(m["deadline_s"].lexeme)
              && m["payload_kg"].Number?
              && ((m["kind"] == Str("SURVEY") && m["required_capability"] == Str("CAMERA_THERMAL") && num(m["payload_kg"].lexeme) == 0.0)
                  || (m["kind"] == Str("DELIVERY") && m["required_capability"] == Str("MEDICAL_PAYLOAD") && 0.0 < num(m["payload_kg"].lexeme) <= 12.0))
              && m["target_wgs84"].Object? && var t := m["target_wgs84"].members;
              && t.Keys == {"latitude_deg", "longitude_deg", "altitude_m"}
              && t["latitude_deg"].Number? && -90.0 <= num(t["latitude_deg"].lexeme) <= 90.0
              && t["longitude_deg"].Number? && -180.0 <= num(t["longitude_deg"].lexeme) <= 180.0
              && t["altitude_m"].Number? && -500.0 <= num(t["altitude_m"].lexeme) <= 10000.0
  {
    hide SafeId, IdText;
    if j.Object? && j.members.Keys == TASK_KEYS {
      var m := j.members;
      IdTextIsSafe(m["task_id"]);
      IdTextIsSafe(m["incident_id"]);
      IdTextIsSafe(m["predecessor_task_id"]);
    }
  }

  lemma IdTextIsSafe(j: Json)
    ensures IdField(j) <==> j.Str? && IdText(j.s)
  {
  }

  /** A plan: two such tasks of one incident under different ids, a survey that waits for nothing and a delivery that
      waits for it, in either order; and what is read from each. */
  lemma PlanOkExactly(root: Json, num: string -> real)
    ensures PlanOk(root, num) <==>
              && root.Object? && root.members.Keys == {"tasks"} && root.members["tasks"].Array? && |root.members["tasks"].items| == 2
              && var a, b := root.members["tasks"].items[0], root.members["tasks"].items[1];
              && TaskOk(a, num) && TaskOk(b, num)
              && a.members["incident_id"] == b.members["incident_id"] && a.members["task_id"] != b.members["task_id"]
              && ((a.members["kind"] == Str("SURVEY") && b.members["kind"] == Str("DELIVERY")
                   && a.members["predecessor_task_id"] == Str("") && b.members["predecessor_task_id"] == a.members["task_id"])
                  || (b.members["kind"] == Str("SURVEY") && a.members["kind"] == Str("DELIVERY")
                      && b.members["predecessor_task_id"] == Str("") && a.members["predecessor_task_id"] == b.members["task_id"]))
  {
    hide SafeId;
  }

  /** What is read from an accepted task. */
  lemma TaskIsRead(j: Json, num: string -> real)
    requires TaskOk(j, num)
    ensures var t, m := TaskOf(j, num), j.members;
            && Str(t.taskId) == m["task_id"] && Str(t.incidentId) == m["incident_id"] && Str(t.kind) == m["kind"] && Str(t.priority) == m["priority"]
            && Str(t.capability) == m["required_capability"] && Str(t.predecessor) == m["predecessor_task_id"]
            && Str(t.frameId) == m["frame_id"] && Str(t.mapVersion) == m["map_version"]
            && t.revision as real == num(m["revision"].lexeme) && t.deadline as real == num(m["deadline_s"].lexeme)
            && t.payload == num(m["payload_kg"].lexeme)
            && var at := m["target_wgs84"].members;
               t.target == Target(num(at["latitude_deg"].lexeme), num(at["longitude_deg"].lexeme), num(at["altitude_m"].lexeme))
  {
    hide SafeId;
  }
}
