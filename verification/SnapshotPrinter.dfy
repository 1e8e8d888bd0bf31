/** The hand-written JSON printer of `DashboardBridge` in src/main.cpp: `escape` and
    `write_snapshot`. Numbers are held as the lexemes the stream prints for finite values. */
module SnapshotPrinter {
  import opened Wrappers
  import opened JsonGrammar

  datatype TaskKind = Survey | Delivery
  datatype Priority = Normal | High | Critical
  datatype DeviceKind = UavDevice | UgvDevice | CoordinatorDevice | DashboardDevice
  datatype Phase = Idle | Bidding | Assigned | EnRoute | Executing | Completed | Failed
  datatype EventKind = TaskPublished | BidSubmitted | TaskAssigned | Progress | TaskCompleted | SafetyAlert

  datatype Enu = Enu(east: Num, north: Num, up: Num)
  datatype TaskInfo = TaskInfo(id: string, capability: string, predecessor: string, kind: TaskKind, priority: Priority, target: Enu)
  datatype TransformData = TransformData(enu: Enu, x: Num, y: Num)
  datatype VehicleInfo = VehicleInfo(agentId: string, taskId: string, kind: DeviceKind, phase: Phase,
                                     pose: Enu, battery: Num, progress: Num)
  datatype EventInfo = EventInfo(id: string, taskId: string, source: string, kind: EventKind, code: string, occurredAt: Num)

  /** The state of the bridge. `tasks` and `vehicles` list the values of the two maps in the order
      in which they are iterated. */
  datatype Dashboard = Dashboard(tasks: seq<TaskInfo>, assignments: map<string, string>, vehicles: seq<VehicleInfo>,
                                 transforms: map<string, TransformData>, events: seq<EventInfo>)

  const SCENARIO := "campus emergency response"
  const TRANSPORT := "ZRDDS typed topics via DashboardBridge"

  const ZERO := Num(false, "0", None, None)
  const DOMAIN_ID := Num(false, "42", None, None)

  function KindName(k: TaskKind): string {
    if k == Survey then "SURVEY" else "DELIVERY"
  }

  function PriorityName(p: Priority): string {
    match p
    case Critical => "CRITICAL"
    case High => "HIGH"
    case Normal => "NORMAL"
  }

  function DeviceName(k: DeviceKind): string {
    if k == UavDevice then "UAV" else "UGV"
  }

  function PhaseName(p: Phase): string {
    match p
    case Idle => "IDLE"
    case Bidding => "BIDDING"
    case Assigned => "ASSIGNED"
    case EnRoute => "EN_ROUTE"
    case Executing => "EXECUTING"
    case Completed => "COMPLETED"
    case Failed => "FAILED"
  }

  function EventName(k: EventKind): string {
    match k
    case TaskPublished => "TASK_PUBLISHED"
    case BidSubmitted => "BID_SUBMITTED"
    case TaskAssigned => "TASK_ASSIGNED"
    case Progress => "PROGRESS"
    case TaskCompleted => "TASK_COMPLETED"
    case SafetyAlert => "SAFETY_ALERT"
  }

  function EscapeChar(c: char): string {
    if c == '\\' then "\\\\" else if c == '"' then "\\\""
    else if c == '\n' then "\\n" else if c == '\r' then "\\r" else if c == '\t' then "\\t" else [c]
  }

  function Escape(v: string): string {
    if |v| == 0 then "" else EscapeChar(v[0]) + Escape(v[1..])
  }

  lemma {:induction false} EscapeSnoc(v: string, c: char)
    ensures Escape(v + [c]) == Escape(v) + EscapeChar(c)
  {
    if |v| == 0 {
      assert v + [c] == [c];
    } else {
      EscapeSnoc(v[1..], c);
      assert (v + [c])[1..] == v[1..] + [c];
    }
  }

  method EscapeText(value: string) returns (result: string)
    ensures result == Escape(value)
  {
    result := "";
    for i := 0 to |value|
      invariant result == Escape(value[..i])
    {
      EscapeSnoc(value[..i], value[i]);
      assert value[..i + 1] == value[..i] + [value[i]];
      var character := value[i];
      if character == '\\' {
        result := result + "\\\\";
      } else if character == '"' {
        result := result + "\\\"";
      } else if character == '\n' {
        result := result + "\\n";
      } else if character == '\r' {
        result := result + "\\r";
      } else if character == '\t' {
        result := result + "\\t";
      } else {
        result := result + [character];
      }
    }
    assert value[..|value|] == value;
  }

  // ----- the text of each row, as the stream insertions spell it

  function AssignedTo(d: Dashboard, t: TaskInfo): string {
    if t.id in d.assignments then d.assignments[t.id] else ""
  }

  function TransformOf(d: Dashboard, t: TaskInfo): TransformData {
    if t.id in d.transforms then d.transforms[t.id] else TransformData(t.target, ZERO, ZERO)
  }

  function EnuText(e: Enu, rest: string): string {
    "\"enu\":{\"east\":" + (NumText(e.east) + (",\"north\":" + (NumText(e.north) + (",\"up\":" + (NumText(e.up) + rest)))))
  }

  function TaskText(d: Dashboard, t: TaskInfo): string {
    var tr := TransformOf(d, t);
    "    {\"id\":\"" + (Escape(t.id) + ("\",\"kind\":\"" + (KindName(t.kind)
    + ("\",\"priority\":\"" + (PriorityName(t.priority) + ("\",\"capability\":\"" + (Escape(t.capability)
    + ("\",\"predecessor\":\"" + (Escape(t.predecessor) + ("\",\"assigned_to\":\"" + (Escape(AssignedTo(d, t))
    + ("\"," + EnuText(tr.enu,
       "},\"sandbox\":{\"x\":" + (NumText(tr.x) + (",\"y\":" + (NumText(tr.y) + "}}"))))))))))))))))
  }

  function VehicleText(v: VehicleInfo): string {
    "    {\"id\":\"" + (Escape(v.agentId) + ("\",\"kind\":\"" + (DeviceName(v.kind)
    + ("\",\"phase\":\"" + (PhaseName(v.phase) + ("\",\"task_id\":\"" + (Escape(v.taskId)
    + ("\",\"battery_percent\":" + (NumText(v.battery) + (",\"progress_percent\":" + (NumText(v.progress)
    + ("," + EnuText(v.pose, "}}")))))))))))))
  }

  function EventText(e: EventInfo): string {
    "    {\"id\":\"" + (Escape(e.id) + ("\",\"task_id\":\"" + (Escape(e.taskId)
    + ("\",\"source\":\"" + (Escape(e.source) + ("\",\"kind\":\"" + (EventName(e.kind)
    + ("\",\"code\":\"" + (Escape(e.code) + ("\",\"occurred_at_ms\":" + (NumText(e.occurredAt) + "}")))))))))))
  }

  /** Rows separated by a comma and a line feed. */
  function Joined(rows: seq<string>): string {
    if |rows| == 0 then "" else if |rows| == 1 then rows[0] else rows[0] + (",\n" + Joined(rows[1..]))
  }

  function TaskRows(d: Dashboard): (r: seq<string>)
    ensures |r| == |d.tasks|
  {
    seq(|d.tasks|, k requires 0 <= k < |d.tasks| => TaskText(d, d.tasks[k]))
  }

  function VehicleRows(d: Dashboard): (r: seq<string>)
    ensures |r| == |d.vehicles|
  {
    seq(|d.vehicles|, k requires 0 <= k < |d.vehicles| => VehicleText(d.vehicles[k]))
  }

  function EventRows(d: Dashboard): (r: seq<string>)
    ensures |r| == |d.events|
  {
    seq(|d.events|, k requires 0 <= k < |d.events| => EventText(d.events[k]))
  }

  function HeadText(now: Num, rest: string): string {
    "{\n" + ("  \"scenario\": \"" + SCENARIO + "\",\n"
    + ("  \"domain_id\": " + (NumText(DOMAIN_ID) + (",\n"
    + ("  \"transport\": \"" + TRANSPORT + "\",\n"
    + ("  \"generated_at_ms\": " + (NumText(now) + (",\n" + rest))))))))
  }

  function SnapshotText(d: Dashboard, now: Num): string {
    HeadText(now,
      "  \"tasks\": [\n" + (Joined(TaskRows(d)) + ("\n  ],\n"
      + ("  \"vehicles\": [\n" + (Joined(VehicleRows(d)) + ("\n  ],\n"
      + ("  \"events\": [\n" + (Joined(EventRows(d)) + "\n  ]\n}\n"))))))))
  }

  /** A row more. */
  lemma {:induction false} JoinedSnoc(rows: seq<string>, row: string)
    ensures Joined(rows + [row]) == if |rows| == 0 then row else Joined(rows) + (",\n" + row)
  {
    if |rows| == 0 {
      assert rows + [row] == [row];
    } else if |rows| == 1 {
      assert (rows + [row])[1..] == [row];
    } else {
      JoinedSnoc(rows[1..], row);
      assert (rows + [row])[1..] == rows[1..] + [row];
      assert rows[0] + (",\n" + (Joined(rows[1..]) + (",\n" + row))) == rows[0] + (",\n" + Joined(rows[1..])) + (",\n" + row);
    }
  }

  /** The loop every list is written with. */
  method WriteRows(out: string, rows: seq<string>) returns (grown: string)
    ensures grown == out + Joined(rows)
  {
    grown := out;
    var first := true;
    for k := 0 to |rows|
      invariant first == (k == 0)
      invariant grown == out + Joined(rows[..k])
    {
      JoinedSnoc(rows[..k], rows[k]);
      assert rows[..k + 1] == rows[..k] + [rows[k]];
      if !first {
        grown := grown + ",\n";
      }
      first := false;
      grown := grown + rows[k];
    }
    assert rows[..|rows|] == rows;
  }

  method WriteSnapshot(d: Dashboard, now: Num) returns (out: string)
    ensures out == SnapshotText(d, now)
  {
    out := HeadText(now, "");
    out := out + "  \"tasks\": [\n";
    out := WriteRows(out, TaskRows(d));
    out := out + "\n  ],\n";
    out := out + "  \"vehicles\": [\n";
    out := WriteRows(out, VehicleRows(d));
    out := out + "\n  ],\n";
    out := out + "  \"events\": [\n";
    out := WriteRows(out, EventRows(d));
    out := out + "\n  ]\n}\n";
    SnapshotSpelled(d, now, out);
  }

  lemma HeadOpens(now: Num, rest: string)
    ensures HeadText(now, "") + rest == HeadText(now, rest)
  {
    var a, b, c := "{\n", "  \"scenario\": \"" + SCENARIO + "\",\n", "  \"domain_id\": ";
    var e, f := "  \"transport\": \"" + TRANSPORT + "\",\n", "  \"generated_at_ms\": ";
    var n, m := NumText(DOMAIN_ID), NumText(now);
    assert HeadText(now, "") == a + (b + (c + (n + (",\n" + (e + (f + (m + (",\n" + ""))))))));
    NineParts(a, b, c, n, ",\n", e, f, m, ",\n", rest);
  }

  lemma NineParts(a: string, b: string, c: string, d: string, e: string, f: string, g: string, h: string, i: string, rest: string)
    ensures a + (b + (c + (d + (e + (f + (g + (h + (i + "")))))))) + rest == a + (b + (c + (d + (e + (f + (g + (h + (i + rest))))))))
  {
    assert i + "" == i;
    assert h + i + rest == h + (i + rest);
    assert g + (h + i) + rest == g + (h + i + rest);
    assert f + (g + (h + i)) + rest == f + (g + (h + i) + rest);
    assert e + (f + (g + (h + i))) + rest == e + (f + (g + (h + i)) + rest);
    assert d + (e + (f + (g + (h + i)))) + rest == d + (e + (f + (g + (h + i))) + rest);
    assert c + (d + (e + (f + (g + (h + i))))) + rest == c + (d + (e + (f + (g + (h + i)))) + rest);
    assert b + (c + (d + (e + (f + (g + (h + i)))))) + rest == b + (c + (d + (e + (f + (g + (h + i))))) + rest);
    assert a + (b + (c + (d + (e + (f + (g + (h + i))))))) + rest == a + (b + (c + (d + (e + (f + (g + (h + i)))))) + rest);
  }

  lemma SnapshotSpelled(d: Dashboard, now: Num, out: string)
    requires out == HeadText(now, "") + "  \"tasks\": [\n" + Joined(TaskRows(d)) + "\n  ],\n" + "  \"vehicles\": [\n"
                    + Joined(VehicleRows(d)) + "\n  ],\n" + "  \"events\": [\n" + Joined(EventRows(d)) + "\n  ]\n}\n"
    ensures out == SnapshotText(d, now)
  {
    hide HeadText, Joined;
    var t, v, e := Joined(TaskRows(d)), Joined(VehicleRows(d)), Joined(EventRows(d));
    var h, a, b, c, z := HeadText(now, ""), "  \"tasks\": [\n", "\n  ],\n", "  \"vehicles\": [\n", "\n  ]\n}\n";
    LeftToRight(h, a, t, b, c, v, b, "  \"events\": [\n", e, z);
    HeadOpens(now, a + (t + (b + (c + (v + (b + ("  \"events\": [\n" + (e + z))))))));
  }

  lemma LeftToRight(a: string, b: string, c: string, d: string, e: string, f: string, g: string, h: string, i: string, j: string)
    ensures a + b + c + d + e + f + g + h + i + j == a + (b + (c + (d + (e + (f + (g + (h + (i + j))))))))
  {
    assert a + b + c + d + e + f + g + h + i + j == a + b + c + d + e + f + g + h + (i + j);
    assert a + b + c + d + e + f + g + h + (i + j) == a + b + c + d + e + f + g + (h + (i + j));
    assert a + b + c + d + e + f + g + (h + (i + j)) == a + b + c + d + e + f + (g + (h + (i + j)));
    assert a + b + c + d + e + f + (g + (h + (i + j))) == a + b + c + d + e + (f + (g + (h + (i + j))));
    assert a + b + c + d + e + (f + (g + (h + (i + j)))) == a + b + c + d + (e + (f + (g + (h + (i + j)))));
    assert a + b + c + d + (e + (f + (g + (h + (i + j))))) == a + b + c + (d + (e + (f + (g + (h + (i + j))))));
    assert a + b + c + (d + (e + (f + (g + (h + (i + j)))))) == a + b + (c + (d + (e + (f + (g + (h + (i + j)))))));
    assert a + b + (c + (d + (e + (f + (g + (h + (i + j))))))) == a + (b + (c + (d + (e + (f + (g + (h + (i + j))))))));
  }
}
