/** Print/parse round trip: the parser reads the printed snapshot back, exactly when no string holds
    a control byte other than line feed, carriage return and tab. */
module SnapshotRoundTrip {
  import opened Wrappers
  import opened Text
  import opened JsonGrammar
  import opened JsonScanner
  import opened JsonStrings
  import opened JsonTheorems
  import opened SnapshotPrinter
  import opened SnapshotTrees

  // ----- escape against the string scanner

  predicate CleanChar(c: char) {
    c as int >= 0x20 || c == '\n' || c == '\r' || c == '\t'
  }

  predicate Clean(v: string) {
    forall k :: 0 <= k < |v| ==> CleanChar(v[k])
  }

  function EscapeChr(c: char): Chr {
    if c == '\\' || c == '"' then Short(c) else if c == '\n' then Short('n')
    else if c == '\r' then Short('r') else if c == '\t' then Short('t') else Raw(c)
  }

  function EscapeChrs(v: string): seq<Chr> {
    seq(|v|, k requires 0 <= k < |v| => EscapeChr(v[k]))
  }

  lemma {:induction false} EscapeSpell(v: string)
    ensures CharsText(EscapeChrs(v)) == Escape(v)
    ensures WfChars(EscapeChrs(v)) <==> Clean(v)
    ensures Clean(v) ==> CharsBytes(EscapeChrs(v)) == v
  {
    if |v| > 0 {
      EscapeSpell(v[1..]);
      var ks := EscapeChrs(v);
      assert ks[1..] == EscapeChrs(v[1..]);
      assert v == [v[0]] + v[1..];
      assert WfChars(ks) <==> WfChr(ks[0]) && WfChars(ks[1..]) by {
        assert forall k :: 1 <= k < |ks| ==> ks[k] == ks[1..][k - 1];
      }
      assert Clean(v) <==> CleanChar(v[0]) && Clean(v[1..]);
    }
  }

  /** `parse_string` undoes `escape`, wherever the quoted text stands, exactly for clean strings. */
  lemma ParseStringUndoesEscape(s: string, i: nat, v: string)
    requires At(s, i, "\"" + (Escape(v) + "\""))
    ensures Clean(v) ==> String(s, i) == Ok(v, i + |Escape(v)| + 2)
    ensures !Clean(v) ==> String(s, i).Err?
  {
    hide StringLoop, WfChars, Clean, CharsText, CharsBytes;
    EscapeSpell(v);
    if Clean(v) {
      QuotedComplete(s, i, EscapeChrs(v));
    } else {
      AtConcat(s, i, "\"", Escape(v) + "\"");
      AtHead(s, i, "\"");
      DirtyStringFails(s, i + 1, "", v);
    }
  }

  lemma {:induction false} DirtyStringFails(s: string, i: nat, acc: string, v: string)
    requires !Clean(v) && At(s, i, Escape(v) + "\"")
    ensures StringLoop(s, i, acc).Err?
    decreases |v|
  {
    var c, rest := v[0], v[1..];
    assert Escape(v) + "\"" == EscapeChar(c) + (Escape(rest) + "\"");
    hide At, Escape;
    AtConcat(s, i, EscapeChar(c), Escape(rest) + "\"");
    AtHead(s, i, EscapeChar(c));
    if CleanChar(c) {
      OneChr(s, i, acc, EscapeChr(c));
      assert !Clean(rest);
      DirtyStringFails(s, i + |EscapeChar(c)|, acc + ChrBytes(EscapeChr(c)), rest);
    }
  }

  // ----- what the printed rows stand for

  function Esc(v: string): Value {
    StrV(EscapeChrs(v))
  }

  function Lit(t: string): Value {
    StrV(Raws(t))
  }

  const ROW := Layout(Gap("    ", ""), NONE, NONE, NONE)
  const INNER := Layout(NONE, NONE, NONE, NONE)

  function EnuRecord(e: Enu): Json {
    Object(Record([("east", Number(NumText(e.east))), ("north", Number(NumText(e.north))), ("up", Number(NumText(e.up)))]))
  }

  function TaskEntries(d: Dashboard, t: TaskInfo): seq<Entry> {
    [("id", Str(t.id)), ("kind", Str(KindName(t.kind))), ("priority", Str(PriorityName(t.priority))),
     ("capability", Str(t.capability)), ("predecessor", Str(t.predecessor)), ("assigned_to", Str(AssignedTo(d, t))),
     ("enu", EnuRecord(TransformOf(d, t).enu)),
     ("sandbox", Object(Record([("x", Number(NumText(TransformOf(d, t).x))), ("y", Number(NumText(TransformOf(d, t).y)))])))]
  }

  function VehicleEntries(v: VehicleInfo): seq<Entry> {
    [("id", Str(v.agentId)), ("kind", Str(DeviceName(v.kind))), ("phase", Str(PhaseName(v.phase))), ("task_id", Str(v.taskId)),
     ("battery_percent", Number(NumText(v.battery))), ("progress_percent", Number(NumText(v.progress))), ("enu", EnuRecord(v.pose))]
  }

  function EventEntries(e: EventInfo): seq<Entry> {
    [("id", Str(e.id)), ("task_id", Str(e.taskId)), ("source", Str(e.source)), ("kind", Str(EventName(e.kind))),
     ("code", Str(e.code)), ("occurred_at_ms", Number(NumText(e.occurredAt)))]
  }

  /** The value the snapshot stands for: every list, in order. */
  function SnapshotEntries(d: Dashboard, now: Num): seq<Entry> {
    [("scenario", Str(SCENARIO)), ("domain_id", Number("42")),
     ("transport", Str(TRANSPORT)), ("generated_at_ms", Number(NumText(now))),
     ("tasks", Array(seq(|d.tasks|, k requires 0 <= k < |d.tasks| => Object(Record(TaskEntries(d, d.tasks[k])))))),
     ("vehicles", Array(seq(|d.vehicles|, k requires 0 <= k < |d.vehicles| => Object(Record(VehicleEntries(d.vehicles[k])))))),
     ("events", Array(seq(|d.events|, k requires 0 <= k < |d.events| => Object(Record(EventEntries(d.events[k]))))))]
  }

  // ----- the trees of the rows

  function EnuFields(e: Enu): seq<Field> {
    [("north", NumV(e.north)), ("up", NumV(e.up))]
  }

  function EnuTree(e: Enu): Value {
    ObjOf(INNER, "east", NumV(e.east), EnuFields(e))
  }

  function BoxTree(tr: TransformData): Value {
    ObjOf(INNER, "x", NumV(tr.x), [("y", NumV(tr.y))])
  }

  function TaskFields(d: Dashboard, t: TaskInfo): seq<Field> {
    [("kind", Lit(KindName(t.kind))), ("priority", Lit(PriorityName(t.priority))), ("capability", Esc(t.capability)),
     ("predecessor", Esc(t.predecessor)), ("assigned_to", Esc(AssignedTo(d, t))), ("enu", EnuTree(TransformOf(d, t).enu)),
     ("sandbox", BoxTree(TransformOf(d, t)))]
  }

  function TaskTree(d: Dashboard, t: TaskInfo): Value {
    ObjOf(ROW, "id", Esc(t.id), TaskFields(d, t))
  }

  function VehicleFields(v: VehicleInfo): seq<Field> {
    [("kind", Lit(DeviceName(v.kind))), ("phase", Lit(PhaseName(v.phase))), ("task_id", Esc(v.taskId)),
     ("battery_percent", NumV(v.battery)), ("progress_percent", NumV(v.progress)), ("enu", EnuTree(v.pose))]
  }

  function VehicleTree(v: VehicleInfo): Value {
    ObjOf(ROW, "id", Esc(v.agentId), VehicleFields(v))
  }

  function EventFields(e: EventInfo): seq<Field> {
    [("task_id", Esc(e.taskId)), ("source", Esc(e.source)), ("kind", Lit(EventName(e.kind))), ("code", Esc(e.code)),
     ("occurred_at_ms", NumV(e.occurredAt))]
  }

  function EventTree(e: EventInfo): Value {
    ObjOf(ROW, "id", Esc(e.id), EventFields(e))
  }

  // ----- the text of the rows is the text of their trees

  /** A string field after a string field: the closing quote of one and the opening of the next are
      in one literal. */
  lemma QuotedCell(literal: string, name: string, v: Value, spelled: string, fs: seq<Field>, l: Layout, rest: string)
    requires Plain(name) && l.comma == NONE && l.colon == NONE
    requires literal == "\",\"" + name + "\":\"" && ValueText(v) == "\"" + (spelled + "\"") && rest == "\"" + Rest(fs, l)
    ensures literal + (spelled + rest) == "\"" + Rest([(name, v)] + fs, l)
  {
    hide Rest, ValueText;
    RestCons(name, v, fs, l);
    Regroup(name, spelled, Rest(fs, l));
  }

  lemma Regroup(name: string, spelled: string, tail: string)
    ensures "\",\"" + name + "\":\"" + (spelled + ("\"" + tail))
         == "\"" + ("," + ("\"" + (name + "\"") + (":" + ("\"" + (spelled + "\""))) + tail))
  {
    var x := spelled + ("\"" + tail);
    assert "\"" + (spelled + "\"") + tail == "\"" + x;
    assert ":" + ("\"" + (spelled + "\"")) + tail == ":" + ("\"" + x);
    assert "\"" + (name + "\"") + (":" + ("\"" + (spelled + "\""))) + tail == "\"" + (name + "\"") + (":" + ("\"" + x));
    assert "\",\"" + name + "\":\"" + x == "\"" + ("," + ("\"" + (name + "\"") + (":" + ("\"" + x))));
  }

  /** A number, or an object, after a string. */
  lemma BareCell(literal: string, name: string, v: Value, spelled: string, fs: seq<Field>, l: Layout, rest: string)
    requires Plain(name) && l.comma == NONE && l.colon == NONE
    requires literal == ",\"" + name + "\":" && ValueText(v) == spelled && rest == Rest(fs, l)
    ensures literal + (spelled + rest) == Rest([(name, v)] + fs, l)
    ensures "\"" + literal + (spelled + rest) == "\"" + Rest([(name, v)] + fs, l)
  {
    hide Rest, ValueText;
    RestCons(name, v, fs, l);
    assert ",\"" + name + "\":" + (spelled + rest) == "," + ("\"" + (name + "\"") + (":" + spelled) + rest);
  }

  lemma Closing(l: Layout)
    requires l.close == NONE
    ensures Rest([], l) == "}"
  {
  }

  lemma EscText(v: string)
    ensures ValueText(Esc(v)) == "\"" + (Escape(v) + "\"")
  {
    EscapeSpell(v);
  }

  lemma LitText(t: string)
    requires Plain(t)
    ensures ValueText(Lit(t)) == "\"" + (t + "\"")
  {
    RawsSpell(t);
  }

  // ----- nested objects

  lemma PairText(a: string, x: Value, b: string, y: Value)
    requires Plain(a) && Plain(b)
    ensures ValueText(ObjOf(INNER, a, x, [(b, y)])) == "{\"" + (a + ("\":" + (ValueText(x) + (",\"" + (b + ("\":" + (ValueText(y) + "}")))))))
  {
    hide ValueText, Rest, ObjOf;
    ObjText(INNER, a, x, [(b, y)]);
    RestCons(b, y, [], INNER);
    Closing(INNER);
    assert [(b, y)] + [] == [(b, y)];
    FieldBare(b, y, "}");
    FieldBare(a, x, Rest([(b, y)], INNER));
    assert "," + ("\"" + (b + ("\":" + (ValueText(y) + "}")))) == ",\"" + (b + ("\":" + (ValueText(y) + "}")));
    var tail := ValueText(x) + (",\"" + (b + ("\":" + (ValueText(y) + "}"))));
    assert "{" + ("\"" + (a + ("\":" + tail))) == "{\"" + (a + ("\":" + tail));
  }

  lemma FieldBare(name: string, v: Value, tail: string)
    ensures FieldText(name, INNER, v) + tail == "\"" + (name + ("\":" + (ValueText(v) + tail)))
  {
    hide ValueText;
    var t := ValueText(v);
    assert "\"" + (name + "\"") + (":" + t) + tail == "\"" + (name + "\"") + (":" + (t + tail));
    assert "\"" + (name + "\"") + (":" + (t + tail)) == "\"" + (name + ("\"" + (":" + (t + tail))));
    assert "\"" + (":" + (t + tail)) == "\":" + (t + tail);
  }

  function BoxText(tr: TransformData): string {
    "{\"x\":" + (NumText(tr.x) + (",\"y\":" + (NumText(tr.y) + "}")))
  }

  lemma BoxSpelled(tr: TransformData)
    ensures ValueText(BoxTree(tr)) == BoxText(tr)
  {
    hide NumText;
    PairText("x", NumV(tr.x), "y", NumV(tr.y));
    var y := NumText(tr.y) + "}";
    assert ",\"" + ("y" + ("\":" + y)) == ",\"y\":" + y;
    var x := NumText(tr.x) + (",\"y\":" + y);
    assert "{\"" + ("x" + ("\":" + x)) == "{\"x\":" + x;
  }

  function EnuObject(e: Enu): string {
    "{\"east\":" + (NumText(e.east) + (",\"north\":" + (NumText(e.north) + (",\"up\":" + (NumText(e.up) + "}")))))
  }

  lemma EnuSpelled(e: Enu)
    ensures ValueText(EnuTree(e)) == EnuObject(e)
  {
    hide NumText, Rest, ObjOf, FieldText;
    ObjText(INNER, "east", NumV(e.east), EnuFields(e));
    assert EnuFields(e) == [("north", NumV(e.north))] + [("up", NumV(e.up))];
    assert [("up", NumV(e.up))] == [("up", NumV(e.up))] + [];
    RestCons("north", NumV(e.north), [("up", NumV(e.up))], INNER);
    RestCons("up", NumV(e.up), [], INNER);
    Closing(INNER);
    EnuGroups(e);
  }

  lemma EnuGroups(e: Enu)
    ensures "{" + (FieldText("east", INNER, NumV(e.east)) + ("," + (FieldText("north", INNER, NumV(e.north)) + ("," + (FieldText("up", INNER, NumV(e.up)) + "}")))))
         == EnuObject(e)
  {
    hide NumText, FieldText;
    FieldBare("up", NumV(e.up), "}");
    var u := NumText(e.up) + "}";
    assert "," + ("\"" + ("up" + ("\":" + u))) == ",\"up\":" + u;
    FieldBare("north", NumV(e.north), ",\"up\":" + u);
    var n := NumText(e.north) + (",\"up\":" + u);
    assert "," + ("\"" + ("north" + ("\":" + n))) == ",\"north\":" + n;
    FieldBare("east", NumV(e.east), ",\"north\":" + n);
    var t := NumText(e.east) + (",\"north\":" + n);
    assert "{" + ("\"" + ("east" + ("\":" + t))) == "{\"east\":" + t;
  }

  lemma EnuCell(e: Enu, fs: seq<Field>, y: string)
    requires y == Rest(fs, ROW)
    ensures "," + EnuText(e, "}" + y) == Rest([("enu", EnuTree(e))] + fs, ROW)
    ensures "\"," + EnuText(e, "}" + y) == "\"" + Rest([("enu", EnuTree(e))] + fs, ROW)
  {
    hide NumText, Rest, EnuTree;
    EnuSpelled(e);
    BareCell(",\"enu\":", "enu", EnuTree(e), EnuObject(e), fs, ROW, y);
    EnuJoins(e, y);
    assert "\"," + EnuText(e, "}" + y) == "\"" + ("," + EnuText(e, "}" + y));
  }

  lemma EnuJoins(e: Enu, y: string)
    ensures ",\"enu\":" + (EnuObject(e) + y) == "," + EnuText(e, "}" + y)
  {
    hide NumText;
    var u := NumText(e.up) + ("}" + y);
    assert NumText(e.up) + "}" + y == u;
    assert ",\"up\":" + (NumText(e.up) + "}") + y == ",\"up\":" + u;
    var n := NumText(e.north) + (",\"up\":" + u);
    assert NumText(e.north) + (",\"up\":" + (NumText(e.up) + "}")) + y == n;
    assert ",\"north\":" + (NumText(e.north) + (",\"up\":" + (NumText(e.up) + "}"))) + y == ",\"north\":" + n;
    var t := NumText(e.east) + (",\"north\":" + n);
    assert NumText(e.east) + (",\"north\":" + (NumText(e.north) + (",\"up\":" + (NumText(e.up) + "}")))) + y == t;
    assert EnuObject(e) + y == "{\"east\":" + t;
    assert ",\"enu\":" + ("{\"east\":" + t) == "," + ("\"enu\":{\"east\":" + t);
  }

  lemma BoxCell(tr: TransformData)
    ensures "},\"sandbox\":{\"x\":" + (NumText(tr.x) + (",\"y\":" + (NumText(tr.y) + "}}"))) == "}" + Rest([("sandbox", BoxTree(tr))], ROW)
  {
    hide NumText, Rest, BoxTree, BoxText;
    BoxSpelled(tr);
    Closing(ROW);
    assert [("sandbox", BoxTree(tr))] + [] == [("sandbox", BoxTree(tr))];
    BareCell(",\"sandbox\":", "sandbox", BoxTree(tr), BoxText(tr), [], ROW, "}");
    BoxJoins(tr);
  }

  lemma BoxJoins(tr: TransformData)
    ensures "},\"sandbox\":{\"x\":" + (NumText(tr.x) + (",\"y\":" + (NumText(tr.y) + "}}"))) == "}" + (",\"sandbox\":" + (BoxText(tr) + "}"))
  {
    hide NumText;
    var y := NumText(tr.y) + "}}";
    assert NumText(tr.y) + "}" + "}" == y;
    assert ",\"y\":" + (NumText(tr.y) + "}") + "}" == ",\"y\":" + y;
    var x := NumText(tr.x) + (",\"y\":" + y);
    assert NumText(tr.x) + (",\"y\":" + (NumText(tr.y) + "}")) + "}" == x;
    assert BoxText(tr) + "}" == "{\"x\":" + x;
    assert "}" + (",\"sandbox\":" + ("{\"x\":" + x)) == "},\"sandbox\":{\"x\":" + x;
  }

  // ----- the rows

  /** The first field of a row. */
  lemma RowOpens(v: string, fs: seq<Field>, rest: string)
    requires rest == "\"" + Rest(fs, ROW)
    ensures "    {\"id\":\"" + (Escape(v) + rest) == ValueText(ObjOf(ROW, "id", Esc(v), fs))
  {
    var e, tail := Escape(v), Rest(fs, ROW);
    RowStart();
    EscText(v);
    ObjText(ROW, "id", Esc(v), fs);
    IdField(v);
    hide Escape, Rest, Esc, ObjOf, FieldText, ValueText, Token;
    IdJoins(e, tail);
  }

  lemma RowStart()
    ensures Token(ROW.open, '{') == "    {"
  {
  }

  lemma IdField(v: string)
    ensures FieldText("id", ROW, Esc(v)) == "\"" + ("id" + "\"") + (":" + ("\"" + (Escape(v) + "\"")))
  {
    EscText(v);
    hide Escape, Esc, ValueText;
  }

  lemma IdJoins(e: string, tail: string)
    ensures "    {" + ("\"" + ("id" + "\"") + (":" + ("\"" + (e + "\""))) + tail) == "    {\"id\":\"" + (e + ("\"" + tail))
  {
    var id := "\"id\":\"";
    assert "\"" + ("id" + "\"") + (":" + ("\"" + (e + "\""))) == id + (e + "\"");
    assert id + (e + "\"") + tail == id + (e + ("\"" + tail));
    assert "    {" + (id + (e + ("\"" + tail))) == "    {\"id\":\"" + (e + ("\"" + tail));
  }

  lemma EscCell(literal: string, name: string, v: string, fs: seq<Field>, rest: string)
    requires Plain(name) && literal == "\",\"" + name + "\":\"" && rest == "\"" + Rest(fs, ROW)
    ensures literal + (Escape(v) + rest) == "\"" + Rest([(name, Esc(v))] + fs, ROW)
  {
    hide Escape, Rest, Esc;
    EscText(v);
    QuotedCell(literal, name, Esc(v), Escape(v), fs, ROW, rest);
  }

  lemma LitCell(literal: string, name: string, t: string, fs: seq<Field>, rest: string)
    requires Plain(name) && Plain(t) && literal == "\",\"" + name + "\":\"" && rest == "\"" + Rest(fs, ROW)
    ensures literal + (t + rest) == "\"" + Rest([(name, Lit(t))] + fs, ROW)
  {
    hide Rest, Lit;
    LitText(t);
    QuotedCell(literal, name, Lit(t), t, fs, ROW, rest);
  }

  lemma NumCell(literal: string, name: string, n: Num, fs: seq<Field>, rest: string)
    requires Plain(name) && literal == ",\"" + name + "\":" && rest == Rest(fs, ROW)
    ensures literal + (NumText(n) + rest) == Rest([(name, NumV(n))] + fs, ROW)
    ensures "\"" + literal + (NumText(n) + rest) == "\"" + Rest([(name, NumV(n))] + fs, ROW)
  {
    hide Rest, NumText;
    BareCell(literal, name, NumV(n), NumText(n), fs, ROW, rest);
  }

  lemma NamesArePlain()
    ensures Plain("kind") && Plain("priority") && Plain("capability") && Plain("predecessor") && Plain("assigned_to")
    ensures Plain("phase") && Plain("task_id") && Plain("battery_percent") && Plain("progress_percent")
    ensures Plain("source") && Plain("code") && Plain("occurred_at_ms") && Plain("id") && Plain("enu") && Plain("sandbox")
    ensures Plain("east") && Plain("north") && Plain("up") && Plain("x") && Plain("y")
  {
  }

  lemma TaskWordsArePlain(k: TaskKind, p: Priority)
    ensures Plain(KindName(k)) && Plain(PriorityName(p))
  {
  }

  lemma VehicleWordsArePlain(device: DeviceKind, phase: Phase)
    ensures Plain(DeviceName(device)) && Plain(PhaseName(phase))
  {
  }

  lemma EventWordIsPlain(event: EventKind)
    ensures Plain(EventName(event))
  {
  }

  lemma EventTail(e: EventInfo)
    ensures "\",\"kind\":\"" + (EventName(e.kind) + ("\",\"code\":\"" + (Escape(e.code) + ("\",\"occurred_at_ms\":" + (NumText(e.occurredAt) + "}")))))
         == "\"" + Rest([("kind", Lit(EventName(e.kind)))] + ([("code", Esc(e.code))] + [("occurred_at_ms", NumV(e.occurredAt))]), ROW)
  {
    hide Escape, Rest, Esc, Lit, NumText, Plain, EventName;
    NamesArePlain();
    EventWordIsPlain(e.kind);
    Closing(ROW);
    var f5 := [("occurred_at_ms", NumV(e.occurredAt))];
    assert f5 == f5 + [];
    NumCell(",\"occurred_at_ms\":", "occurred_at_ms", e.occurredAt, [], "}");
    var t5 := "\",\"occurred_at_ms\":" + (NumText(e.occurredAt) + "}");
    assert "\"" + ",\"occurred_at_ms\":" == "\",\"occurred_at_ms\":";
    EscCell("\",\"code\":\"", "code", e.code, f5, t5);
    LitCell("\",\"kind\":\"", "kind", EventName(e.kind), [("code", Esc(e.code))] + f5, "\",\"code\":\"" + (Escape(e.code) + t5));
  }

  lemma EventSpelled(e: EventInfo)
    ensures EventText(e) == ValueText(EventTree(e))
  {
    hide Escape, Rest, Esc, Lit, NumText, Plain, EventName, ObjOf, ValueText;
    NamesArePlain();
    EventTail(e);
    var f3 := [("kind", Lit(EventName(e.kind)))] + ([("code", Esc(e.code))] + [("occurred_at_ms", NumV(e.occurredAt))]);
    var t4 := "\",\"code\":\"" + (Escape(e.code) + ("\",\"occurred_at_ms\":" + (NumText(e.occurredAt) + "}")));
    var t3 := "\",\"kind\":\"" + (EventName(e.kind) + t4);
    var f2 := [("source", Esc(e.source))] + f3;
    EscCell("\",\"source\":\"", "source", e.source, f3, t3);
    var t2 := "\",\"source\":\"" + (Escape(e.source) + t3);
    var f1 := [("task_id", Esc(e.taskId))] + f2;
    EscCell("\",\"task_id\":\"", "task_id", e.taskId, f2, t2);
    assert f1 == EventFields(e);
    RowOpens(e.id, f1, "\",\"task_id\":\"" + (Escape(e.taskId) + t2));
  }

  lemma VehicleNumbers(v: VehicleInfo)
    ensures "\",\"battery_percent\":" + (NumText(v.battery) + (",\"progress_percent\":" + (NumText(v.progress) + ("," + EnuText(v.pose, "}}")))))
         == "\"" + Rest([("battery_percent", NumV(v.battery))] + ([("progress_percent", NumV(v.progress))] + [("enu", EnuTree(v.pose))]), ROW)
  {
    hide Rest, NumText, Plain, EnuText, EnuTree;
    NamesArePlain();
    Closing(ROW);
    var f6 := [("enu", EnuTree(v.pose))];
    assert f6 == f6 + [];
    assert "}" + "}" == "}}";
    EnuCell(v.pose, [], "}");
    var t6 := "," + EnuText(v.pose, "}}");
    NumCell(",\"progress_percent\":", "progress_percent", v.progress, f6, t6);
    var f5 := [("progress_percent", NumV(v.progress))] + f6;
    var t5 := ",\"progress_percent\":" + (NumText(v.progress) + t6);
    NumCell(",\"battery_percent\":", "battery_percent", v.battery, f5, t5);
    assert "\"" + ",\"battery_percent\":" == "\",\"battery_percent\":";
  }

  lemma VehicleSpelled(v: VehicleInfo)
    ensures VehicleText(v) == ValueText(VehicleTree(v))
  {
    hide Escape, Rest, Esc, Lit, NumText, Plain, DeviceName, PhaseName, ObjOf, ValueText, EnuText, EnuTree;
    NamesArePlain();
    VehicleWordsArePlain(v.kind, v.phase);
    VehicleNumbers(v);
    var f4 := [("battery_percent", NumV(v.battery))] + ([("progress_percent", NumV(v.progress))] + [("enu", EnuTree(v.pose))]);
    var t4 := "\",\"battery_percent\":" + (NumText(v.battery) + (",\"progress_percent\":" + (NumText(v.progress) + ("," + EnuText(v.pose, "}}")))));
    var f3 := [("task_id", Esc(v.taskId))] + f4;
    EscCell("\",\"task_id\":\"", "task_id", v.taskId, f4, t4);
    var t3 := "\",\"task_id\":\"" + (Escape(v.taskId) + t4);
    var f2 := [("phase", Lit(PhaseName(v.phase)))] + f3;
    LitCell("\",\"phase\":\"", "phase", PhaseName(v.phase), f3, t3);
    var t2 := "\",\"phase\":\"" + (PhaseName(v.phase) + t3);
    var f1 := [("kind", Lit(DeviceName(v.kind)))] + f2;
    LitCell("\",\"kind\":\"", "kind", DeviceName(v.kind), f2, t2);
    assert f1 == VehicleFields(v);
    RowOpens(v.agentId, f1, "\",\"kind\":\"" + (DeviceName(v.kind) + t2));
  }

  lemma TaskSpelled(d: Dashboard, t: TaskInfo)
    ensures TaskText(d, t) == ValueText(TaskTree(d, t))
  {
    hide Escape, Rest, Esc, Lit, NumText, Plain, KindName, PriorityName, ObjOf, ValueText, EnuText, EnuTree, BoxTree, TransformOf, AssignedTo;
    NamesArePlain();
    TaskWordsArePlain(t.kind, t.priority);
    var tr := TransformOf(d, t);
    var f7 := [("sandbox", BoxTree(tr))];
    BoxCell(tr);
    var f6 := [("enu", EnuTree(tr.enu))] + f7;
    var t7 := "},\"sandbox\":{\"x\":" + (NumText(tr.x) + (",\"y\":" + (NumText(tr.y) + "}}")));
    EnuCell(tr.enu, f7, Rest(f7, ROW));
    var t6 := "\"," + EnuText(tr.enu, t7);
    var f5 := [("assigned_to", Esc(AssignedTo(d, t)))] + f6;
    EscCell("\",\"assigned_to\":\"", "assigned_to", AssignedTo(d, t), f6, t6);
    var t5 := "\",\"assigned_to\":\"" + (Escape(AssignedTo(d, t)) + t6);
    var f4 := [("predecessor", Esc(t.predecessor))] + f5;
    EscCell("\",\"predecessor\":\"", "predecessor", t.predecessor, f5, t5);
    var t4 := "\",\"predecessor\":\"" + (Escape(t.predecessor) + t5);
    var f3 := [("capability", Esc(t.capability))] + f4;
    EscCell("\",\"capability\":\"", "capability", t.capability, f4, t4);
    var t3 := "\",\"capability\":\"" + (Escape(t.capability) + t4);
    var f2 := [("priority", Lit(PriorityName(t.priority)))] + f3;
    LitCell("\",\"priority\":\"", "priority", PriorityName(t.priority), f3, t3);
    var t2 := "\",\"priority\":\"" + (PriorityName(t.priority) + t3);
    var f1 := [("kind", Lit(KindName(t.kind)))] + f2;
    LitCell("\",\"kind\":\"", "kind", KindName(t.kind), f2, t2);
    assert f1 == TaskFields(d, t);
    RowOpens(t.id, f1, "\",\"kind\":\"" + (KindName(t.kind) + t2));
  }

  // ----- the rows stand for their records

  /** Every number printed is a JSON number in range; `fits` accepts it. */
  predicate GoodNum(n: Num, fits: string -> bool) {
    WfNum(n) && fits(NumText(n))
  }

  predicate GoodEnu(e: Enu, fits: string -> bool) {
    GoodNum(e.east, fits) && GoodNum(e.north, fits) && GoodNum(e.up, fits)
  }

  predicate FiniteTask(d: Dashboard, t: TaskInfo, fits: string -> bool) {
    GoodEnu(TransformOf(d, t).enu, fits) && GoodNum(TransformOf(d, t).x, fits) && GoodNum(TransformOf(d, t).y, fits)
  }

  predicate FiniteVehicle(v: VehicleInfo, fits: string -> bool) {
    GoodEnu(v.pose, fits) && GoodNum(v.battery, fits) && GoodNum(v.progress, fits)
  }

  predicate Finite(d: Dashboard, now: Num, fits: string -> bool) {
    && GoodNum(now, fits) && GoodNum(DOMAIN_ID, fits)
    && (forall k :: 0 <= k < |d.tasks| ==> FiniteTask(d, d.tasks[k], fits))
    && (forall k :: 0 <= k < |d.vehicles| ==> FiniteVehicle(d.vehicles[k], fits))
    && (forall k :: 0 <= k < |d.events| ==> GoodNum(d.events[k].occurredAt, fits))
  }

  predicate CleanTask(d: Dashboard, t: TaskInfo) {
    Clean(t.id) && Clean(t.capability) && Clean(t.predecessor) && Clean(AssignedTo(d, t))
  }

  predicate CleanVehicle(v: VehicleInfo) {
    Clean(v.agentId) && Clean(v.taskId)
  }

  predicate CleanEvent(e: EventInfo) {
    Clean(e.id) && Clean(e.taskId) && Clean(e.source) && Clean(e.code)
  }

  /** No string printed holds a control byte other than line feed, carriage return and tab. */
  predicate AllClean(d: Dashboard) {
    && (forall k :: 0 <= k < |d.tasks| ==> CleanTask(d, d.tasks[k]))
    && (forall k :: 0 <= k < |d.vehicles| ==> CleanVehicle(d.vehicles[k]))
    && (forall k :: 0 <= k < |d.events| ==> CleanEvent(d.events[k]))
  }

  lemma EscStands(name: string, v: string, fits: string -> bool, room: int)
    requires Plain(name) && Clean(v) && room >= 0
    ensures Stands((name, Esc(v)), (name, Str(v)), fits, room)
  {
    EscapeSpell(v);
  }

  lemma LitStands(name: string, t: string, fits: string -> bool, room: int)
    requires Plain(name) && Plain(t) && room >= 0
    ensures Stands((name, Lit(t)), (name, Str(t)), fits, room)
  {
    RawsSpell(t);
  }

  lemma NumStands(name: string, n: Num, fits: string -> bool, room: int)
    requires Plain(name) && GoodNum(n, fits) && room >= 0
    ensures Stands((name, NumV(n)), (name, Number(NumText(n))), fits, room)
  {
  }

  lemma EnuStands(e: Enu, fits: string -> bool, room: int)
    requires GoodEnu(e, fits) && room >= 1
    ensures Stands(("enu", EnuTree(e)), ("enu", EnuRecord(e)), fits, room)
  {
    hide Plain, GoodNum, Wf, Admissible, Denote, Record, ObjOf;
    NamesArePlain();
    NumStands("east", e.east, fits, room - 1);
    NumStands("north", e.north, fits, room - 1);
    NumStands("up", e.up, fits, room - 1);
    var first := ("east", Number(NumText(e.east)));
    var others := [("north", Number(NumText(e.north))), ("up", Number(NumText(e.up)))];
    ObjStands(INNER, "east", NumV(e.east), EnuFields(e), first, others, fits, room);
    assert [first] + others == [("east", Number(NumText(e.east))), ("north", Number(NumText(e.north))), ("up", Number(NumText(e.up)))];
  }

  lemma BoxStands(tr: TransformData, fits: string -> bool, room: int)
    requires GoodNum(tr.x, fits) && GoodNum(tr.y, fits) && room >= 1
    ensures Stands(("sandbox", BoxTree(tr)),
                   ("sandbox", Object(Record([("x", Number(NumText(tr.x))), ("y", Number(NumText(tr.y)))]))), fits, room)
  {
    hide Plain, GoodNum, Wf, Admissible, Denote, Record, ObjOf;
    NamesArePlain();
    NumStands("x", tr.x, fits, room - 1);
    NumStands("y", tr.y, fits, room - 1);
    var first := ("x", Number(NumText(tr.x)));
    var others := [("y", Number(NumText(tr.y)))];
    ObjStands(INNER, "x", NumV(tr.x), [("y", NumV(tr.y))], first, others, fits, room);
    assert [first] + others == [("x", Number(NumText(tr.x))), ("y", Number(NumText(tr.y)))];
  }

  predicate RowStands(v: Value, j: Json, fits: string -> bool, room: int) {
    Wf(v) && Admissible(v, fits, room) && Denote(v) == j
  }

  // The keys of a row differ.

  lemma TaskKeysDiffer(d: Dashboard, t: TaskInfo)
    ensures DistinctEntries(TaskEntries(d, t))
  {
    hide KindName, PriorityName, AssignedTo, TransformOf, EnuRecord, Record, NumText;
  }

  lemma VehicleKeysDiffer(v: VehicleInfo)
    ensures DistinctEntries(VehicleEntries(v))
  {
    hide DeviceName, PhaseName, EnuRecord, NumText;
  }

  lemma EventKeysDiffer(e: EventInfo)
    ensures DistinctEntries(EventEntries(e))
  {
    hide EventName, NumText;
  }

  lemma TaskStands(d: Dashboard, t: TaskInfo, fits: string -> bool, room: int)
    requires CleanTask(d, t) && FiniteTask(d, t, fits) && room >= 2
    ensures RowStands(TaskTree(d, t), Object(Record(TaskEntries(d, t))), fits, room)
  {
    hide Plain, GoodNum, Wf, Admissible, Denote, Record, ObjOf, Clean, Stands, AllStand, GoodEnu, EnuTree, BoxTree, Esc, Lit, KindName, PriorityName,
         TransformOf, AssignedTo, EnuRecord, DistinctEntries;
    NamesArePlain();
    TaskWordsArePlain(t.kind, t.priority);
    TaskKeysDiffer(d, t);
    var f, e := TaskFields(d, t), TaskEntries(d, t);
    EscStands("id", t.id, fits, room - 1);
    LitStands("kind", KindName(t.kind), fits, room - 1);
    LitStands("priority", PriorityName(t.priority), fits, room - 1);
    EscStands("capability", t.capability, fits, room - 1);
    EscStands("predecessor", t.predecessor, fits, room - 1);
    EscStands("assigned_to", AssignedTo(d, t), fits, room - 1);
    EnuStands(TransformOf(d, t).enu, fits, room - 1);
    BoxStands(TransformOf(d, t), fits, room - 1);
    SevenStand(f[0], e[1], f[1], e[2], f[2], e[3], f[3], e[4], f[4], e[5], f[5], e[6], f[6], e[7], fits, room - 1);
    var others := [e[1], e[2], e[3], e[4], e[5], e[6], e[7]];
    assert [e[0]] + others == e && [f[0], f[1], f[2], f[3], f[4], f[5], f[6]] == f;
    ObjStands(ROW, "id", Esc(t.id), f, e[0], others, fits, room);
  }

  lemma VehicleStands(v: VehicleInfo, fits: string -> bool, room: int)
    requires CleanVehicle(v) && FiniteVehicle(v, fits) && room >= 2
    ensures RowStands(VehicleTree(v), Object(Record(VehicleEntries(v))), fits, room)
  {
    hide Plain, GoodNum, Wf, Admissible, Denote, Record, ObjOf, Clean, Stands, AllStand, GoodEnu, EnuTree, Esc, Lit, DeviceName, PhaseName, EnuRecord, DistinctEntries;
    NamesArePlain();
    VehicleWordsArePlain(v.kind, v.phase);
    VehicleKeysDiffer(v);
    var f, e := VehicleFields(v), VehicleEntries(v);
    EscStands("id", v.agentId, fits, room - 1);
    LitStands("kind", DeviceName(v.kind), fits, room - 1);
    LitStands("phase", PhaseName(v.phase), fits, room - 1);
    EscStands("task_id", v.taskId, fits, room - 1);
    NumStands("battery_percent", v.battery, fits, room - 1);
    NumStands("progress_percent", v.progress, fits, room - 1);
    EnuStands(v.pose, fits, room - 1);
    SixStand(f[0], e[1], f[1], e[2], f[2], e[3], f[3], e[4], f[4], e[5], f[5], e[6], fits, room - 1);
    var others := [e[1], e[2], e[3], e[4], e[5], e[6]];
    assert [e[0]] + others == e && [f[0], f[1], f[2], f[3], f[4], f[5]] == f;
    ObjStands(ROW, "id", Esc(v.agentId), f, e[0], others, fits, room);
  }

  lemma EventStands(v: EventInfo, fits: string -> bool, room: int)
    requires CleanEvent(v) && GoodNum(v.occurredAt, fits) && room >= 2
    ensures RowStands(EventTree(v), Object(Record(EventEntries(v))), fits, room)
  {
    hide Plain, GoodNum, Wf, Admissible, Denote, Record, ObjOf, Clean, Stands, AllStand, Esc, Lit, EventName, DistinctEntries;
    NamesArePlain();
    EventWordIsPlain(v.kind);
    EventKeysDiffer(v);
    var f, e := EventFields(v), EventEntries(v);
    EscStands("id", v.id, fits, room - 1);
    EscStands("task_id", v.taskId, fits, room - 1);
    EscStands("source", v.source, fits, room - 1);
    LitStands("kind", EventName(v.kind), fits, room - 1);
    EscStands("code", v.code, fits, room - 1);
    NumStands("occurred_at_ms", v.occurredAt, fits, room - 1);
    FiveStand(f[0], e[1], f[1], e[2], f[2], e[3], f[3], e[4], f[4], e[5], fits, room - 1);
    var others := [e[1], e[2], e[3], e[4], e[5]];
    assert [e[0]] + others == e && [f[0], f[1], f[2], f[3], f[4]] == f;
    ObjStands(ROW, "id", Esc(v.id), f, e[0], others, fits, room);
  }

  // ----- the whole snapshot

  const ROWS_OPEN := Gap("", "\n")
  const ROWS_CLOSE := Gap("\n  ", "")
  const TOP := Layout(Gap("", "\n  "), Gap("", "\n  "), Gap("", " "), Gap("\n", ""))

  function RowsTree(vs: seq<Value>): Value {
    ArrOf(ROWS_OPEN, ROWS_OPEN, ROWS_CLOSE, vs)
  }

  function RowsText(rows: seq<string>): string {
    "[\n" + (Joined(rows) + "\n  ]")
  }

  lemma {:induction false} ItemsSpelled(vs: seq<Value>, rows: seq<string>)
    requires |vs| == |rows| > 0 && forall k :: 0 <= k < |vs| ==> rows[k] == ValueText(vs[k])
    ensures ValueText(vs[0]) + ItemsText(ItemsOf(vs[1..], ROWS_OPEN), "\n  ]") == Joined(rows) + "\n  ]"
  {
    hide ValueText;
    if |vs| > 1 {
      ItemsSpelled(vs[1..], rows[1..]);
      assert Token(ROWS_OPEN, ',') == ",\n";
      assert vs[1..][0] == vs[1] && vs[1..][1..] == vs[2..];
      assert rows[0] + (",\n" + (Joined(rows[1..]) + "\n  ]")) == rows[0] + (",\n" + Joined(rows[1..])) + "\n  ]";
    }
  }

  lemma RowsSpelled(vs: seq<Value>, rows: seq<string>)
    requires |vs| == |rows| && forall k :: 0 <= k < |vs| ==> rows[k] == ValueText(vs[k])
    ensures ValueText(RowsTree(vs)) == RowsText(rows)
  {
    assert Token(ROWS_OPEN, '[') == "[\n" && Token(ROWS_CLOSE, ']') == "\n  ]";
    if |vs| > 0 {
      ItemsSpelled(vs, rows);
    } else {
      assert "" + "\n  ]" == "\n  ]";
    }
  }

  function TaskTrees(d: Dashboard): seq<Value> {
    seq(|d.tasks|, k requires 0 <= k < |d.tasks| => TaskTree(d, d.tasks[k]))
  }

  function VehicleTrees(d: Dashboard): seq<Value> {
    seq(|d.vehicles|, k requires 0 <= k < |d.vehicles| => VehicleTree(d.vehicles[k]))
  }

  function EventTrees(d: Dashboard): seq<Value> {
    seq(|d.events|, k requires 0 <= k < |d.events| => EventTree(d.events[k]))
  }

  lemma ListsSpelled(d: Dashboard)
    ensures ValueText(RowsTree(TaskTrees(d))) == RowsText(TaskRows(d))
    ensures ValueText(RowsTree(VehicleTrees(d))) == RowsText(VehicleRows(d))
    ensures ValueText(RowsTree(EventTrees(d))) == RowsText(EventRows(d))
  {
    hide TaskText, VehicleText, EventText, ValueText, TaskTree, VehicleTree, EventTree, RowsTree, RowsText;
    forall k | 0 <= k < |d.tasks|
      ensures TaskRows(d)[k] == ValueText(TaskTrees(d)[k])
    {
      TaskSpelled(d, d.tasks[k]);
    }
    RowsSpelled(TaskTrees(d), TaskRows(d));
    forall k | 0 <= k < |d.vehicles|
      ensures VehicleRows(d)[k] == ValueText(VehicleTrees(d)[k])
    {
      VehicleSpelled(d.vehicles[k]);
    }
    RowsSpelled(VehicleTrees(d), VehicleRows(d));
    forall k | 0 <= k < |d.events|
      ensures EventRows(d)[k] == ValueText(EventTrees(d)[k])
    {
      EventSpelled(d.events[k]);
    }
    RowsSpelled(EventTrees(d), EventRows(d));
  }

  function TopFields(d: Dashboard, now: Num): seq<Field> {
    [("domain_id", NumV(DOMAIN_ID)), ("transport", Lit(TRANSPORT)), ("generated_at_ms", NumV(now)),
     ("tasks", RowsTree(TaskTrees(d))), ("vehicles", RowsTree(VehicleTrees(d))), ("events", RowsTree(EventTrees(d)))]
  }

  function TopTree(d: Dashboard, now: Num): Value {
    ObjOf(TOP, "scenario", Lit(SCENARIO), TopFields(d, now))
  }

  /** A line of the outermost object, after a line that lacks its separator. */
  lemma TopCell(line: string, name: string, v: Value, fs: seq<Field>, rest: string)
    requires Plain(name) && line == "  \"" + name + "\": " && rest == Rest(fs, TOP)
    ensures ",\n" + (line + (ValueText(v) + rest)) == Rest([(name, v)] + fs, TOP)
  {
    hide Rest, ValueText;
    RestCons(name, v, fs, TOP);
    assert Token(TOP.comma, ',') == ",\n  " && Token(TOP.colon, ':') == ": ";
    var t := ValueText(v);
    assert "\"" + (name + "\"") + (": " + t) + rest == "\"" + (name + "\"") + (": " + (t + rest));
    assert ",\n  " + ("\"" + (name + "\"") + (": " + (t + rest))) == ",\n" + ("  \"" + name + "\": " + (t + rest));
  }

  /** A list of the outermost object; the line break after its bracket is part of its value. */
  lemma ListCell(line: string, name: string, v: Value, joined: string, fs: seq<Field>, rest: string)
    requires Plain(name) && line == "  \"" + name + "\": [\n" && rest == Rest(fs, TOP)
    requires ValueText(v) == "[\n" + (joined + "\n  ]")
    ensures ",\n" + (line + (joined + ("\n  ]" + rest))) == Rest([(name, v)] + fs, TOP)
  {
    hide Rest, ValueText, Plain;
    var head := "  \"" + name + "\": ";
    TopCell(head, name, v, fs, rest);
    assert "[\n" + (joined + "\n  ]") + rest == "[\n" + (joined + ("\n  ]" + rest));
    var tail := joined + ("\n  ]" + rest);
    assert "  \"" + name + "\": [\n" == head + "[\n";
    assert head + "[\n" + tail == head + ("[\n" + tail);
  }

  lemma TopNames()
    ensures Plain("scenario") && Plain("domain_id") && Plain("transport") && Plain("generated_at_ms")
    ensures Plain("tasks") && Plain("vehicles") && Plain("events")
  {
  }

  lemma TopTexts()
    ensures Plain(SCENARIO) && Plain(TRANSPORT)
  {
  }

  /** The three lists, from the separator after the header on. */
  lemma TopListsSpelled(d: Dashboard, t: string, v: string, e: string)
    requires RowsText(TaskRows(d)) == "[\n" + (t + "\n  ]") && RowsText(VehicleRows(d)) == "[\n" + (v + "\n  ]")
    requires RowsText(EventRows(d)) == "[\n" + (e + "\n  ]")
    ensures ",\n" + ("  \"tasks\": [\n" + (t + ("\n  ],\n" + ("  \"vehicles\": [\n" + (v + ("\n  ],\n" + ("  \"events\": [\n" + (e + "\n  ]\n}"))))))))
         == Rest([("tasks", RowsTree(TaskTrees(d))), ("vehicles", RowsTree(VehicleTrees(d))), ("events", RowsTree(EventTrees(d)))], TOP)
  {
    hide Rest, ValueText, Plain, RowsTree, RowsText, TaskRows, VehicleRows, EventRows, TaskTrees, VehicleTrees, EventTrees;
    TopNames();
    ListsSpelled(d);
    var f3 := [("events", RowsTree(EventTrees(d)))];
    assert f3 + [] == f3;
    TopCloses();
    ListCell("  \"events\": [\n", "events", RowsTree(EventTrees(d)), e, [], "\n}");
    assert "\n  ]" + "\n}" == "\n  ]\n}";
    var x3 := "  \"events\": [\n" + (e + "\n  ]\n}");
    var f2 := [("vehicles", RowsTree(VehicleTrees(d)))] + f3;
    ListCell("  \"vehicles\": [\n", "vehicles", RowsTree(VehicleTrees(d)), v, f3, ",\n" + x3);
    assert "\n  ]" + (",\n" + x3) == "\n  ],\n" + x3;
    var x2 := "  \"vehicles\": [\n" + (v + ("\n  ],\n" + x3));
    ListCell("  \"tasks\": [\n", "tasks", RowsTree(TaskTrees(d)), t, f2, ",\n" + x2);
    assert "\n  ]" + (",\n" + x2) == "\n  ],\n" + x2;
    assert [("tasks", RowsTree(TaskTrees(d)))] + f2
        == [("tasks", RowsTree(TaskTrees(d))), ("vehicles", RowsTree(VehicleTrees(d))), ("events", RowsTree(EventTrees(d)))];
  }

  lemma TopCloses()
    ensures Rest([], TOP) == "\n}"
  {
  }

  /** The header, in front of the lists `x`. */
  lemma TopHeadSpelled(now: Num, fs: seq<Field>, x: string)
    requires ",\n" + x == Rest(fs, TOP)
    ensures HeadText(now, x)
         == ValueText(ObjOf(TOP, "scenario", Lit(SCENARIO),
                            [("domain_id", NumV(DOMAIN_ID)), ("transport", Lit(TRANSPORT)),
                             ("generated_at_ms", NumV(now))] + fs))
  {
    hide Rest, Plain, Lit, ObjOf, NumText, ValueText;
    TopNames();
    var f3 := [("generated_at_ms", NumV(now))] + fs;
    NumValueText(now);
    TopCell("  \"generated_at_ms\": ", "generated_at_ms", NumV(now), fs, ",\n" + x);
    var x3 := "  \"generated_at_ms\": " + (NumText(now) + (",\n" + x));
    var f2 := [("transport", Lit(TRANSPORT))] + f3;
    TransportCell(f3, x3);
    var x2 := "  \"transport\": \"" + TRANSPORT + "\",\n" + x3;
    var f1 := [("domain_id", NumV(DOMAIN_ID))] + f2;
    NumValueText(DOMAIN_ID);
    TopCell("  \"domain_id\": ", "domain_id", NumV(DOMAIN_ID), f2, ",\n" + x2);
    var x1 := "  \"domain_id\": " + (NumText(DOMAIN_ID) + (",\n" + x2));
    ScenarioOpens(f1, x1);
    assert f1 == [("domain_id", NumV(DOMAIN_ID)), ("transport", Lit(TRANSPORT)),
                  ("generated_at_ms", NumV(now))] + fs;
  }

  lemma NumValueText(n: Num)
    ensures ValueText(NumV(n)) == NumText(n)
  {
  }

  /** A line of the outermost object that holds a fixed text. */
  lemma WordCell(name: string, t: string, fs: seq<Field>, x: string)
    requires Plain(name) && Plain(t) && ",\n" + x == Rest(fs, TOP)
    ensures ",\n" + ("  \"" + name + "\": \"" + t + "\",\n" + x) == Rest([(name, Lit(t))] + fs, TOP)
  {
    hide Rest, Plain, Lit, ValueText;
    LitText(t);
    TopCell("  \"" + name + "\": ", name, Lit(t), fs, ",\n" + x);
    assert "\"" + (t + "\"") + (",\n" + x) == "\"" + (t + ("\",\n" + x));
    var head := "  \"" + name + "\": ";
    assert "  \"" + name + "\": \"" == head + "\"" by {
      assert "\": \"" == "\": " + "\"";
    }
    assert head + ("\"" + (t + ("\",\n" + x))) == head + "\"" + t + "\",\n" + x;
  }

  lemma TransportCell(fs: seq<Field>, x: string)
    requires ",\n" + x == Rest(fs, TOP)
    ensures ",\n" + ("  \"transport\": \"" + TRANSPORT + "\",\n" + x)
         == Rest([("transport", Lit(TRANSPORT))] + fs, TOP)
  {
    hide Rest, Plain, Lit;
    TopNames();
    TopTexts();
    WordCell("transport", TRANSPORT, fs, x);
    assert "  \"" + "transport" + "\": \"" == "  \"transport\": \"";
  }

  /** The opening brace and the first line. */
  lemma FirstCell(name: string, t: string, fs: seq<Field>, x: string)
    requires Plain(name) && Plain(t) && ",\n" + x == Rest(fs, TOP)
    ensures "{\n" + ("  \"" + name + "\": \"" + t + "\",\n" + x) == ValueText(ObjOf(TOP, name, Lit(t), fs))
  {
    hide Rest, Plain, Lit, ValueText, ObjOf;
    LitText(t);
    ObjText(TOP, name, Lit(t), fs);
    assert Token(TOP.open, '{') == "{\n  " && Token(TOP.colon, ':') == ": ";
    var y := t + ("\",\n" + x);
    assert ": " + ("\"" + (t + "\"")) + (",\n" + x) == ": \"" + y;
    assert "\"" + (name + "\"") + (": " + ("\"" + (t + "\""))) + (",\n" + x) == "\"" + (name + "\"") + (": \"" + y);
    assert "{\n  " + ("\"" + (name + "\"") + (": \"" + y)) == "{\n" + ("  \"" + name + "\": \"" + y);
    assert "  \"" + name + "\": \"" + y == "  \"" + name + "\": \"" + t + "\",\n" + x;
  }

  lemma ScenarioOpens(fs: seq<Field>, x: string)
    requires ",\n" + x == Rest(fs, TOP)
    ensures "{\n" + ("  \"scenario\": \"" + SCENARIO + "\",\n" + x)
         == ValueText(ObjOf(TOP, "scenario", Lit(SCENARIO), fs))
  {
    hide Rest, Plain, Lit, ValueText, ObjOf;
    TopNames();
    TopTexts();
    FirstCell("scenario", SCENARIO, fs, x);
    assert "  \"" + "scenario" + "\": \"" == "  \"scenario\": \"";
  }

  function SnapshotDoc(d: Dashboard, now: Num): Doc {
    Doc("", TopTree(d, now), "\n")
  }

  lemma SnapshotIsDocText(d: Dashboard, now: Num)
    ensures SnapshotText(d, now) == DocText(SnapshotDoc(d, now))
  {
    hide HeadText, Joined, Rest, ValueText, ObjOf, Lit, RowsTree;
    var t, v, e := Joined(TaskRows(d)), Joined(VehicleRows(d)), Joined(EventRows(d));
    var a, b, c, g, z := "  \"tasks\": [\n", "\n  ],\n", "  \"vehicles\": [\n", "  \"events\": [\n", "\n  ]\n}";
    var x := a + (t + (b + (c + (v + (b + (g + (e + z)))))));
    TopListsSpelled(d, t, v, e);
    var fs := [("tasks", RowsTree(TaskTrees(d))), ("vehicles", RowsTree(VehicleTrees(d))), ("events", RowsTree(EventTrees(d)))];
    TopHeadSpelled(now, fs, x);
    assert TopFields(d, now) == [("domain_id", NumV(DOMAIN_ID)), ("transport", Lit(TRANSPORT)),
                                 ("generated_at_ms", NumV(now))] + fs;
    assert z + "\n" == "\n  ]\n}\n";
    LastByte(a, t, b, c, v, g, e, z);
    HeadOpens(now, x);
    HeadOpens(now, x + "\n");
    assert HeadText(now, "") + (x + "\n") == HeadText(now, "") + x + "\n";
    assert "" + (HeadText(now, x) + "\n") == HeadText(now, x) + "\n";
  }

  lemma LastByte(a: string, t: string, b: string, c: string, v: string, g: string, e: string, z: string)
    ensures a + (t + (b + (c + (v + (b + (g + (e + (z + "\n")))))))) == a + (t + (b + (c + (v + (b + (g + (e + z))))))) + "\n"
  {
    assert e + (z + "\n") == e + z + "\n";
    assert g + (e + z + "\n") == g + (e + z) + "\n";
    assert b + (g + (e + z) + "\n") == b + (g + (e + z)) + "\n";
    assert v + (b + (g + (e + z)) + "\n") == v + (b + (g + (e + z))) + "\n";
    assert c + (v + (b + (g + (e + z))) + "\n") == c + (v + (b + (g + (e + z)))) + "\n";
    assert b + (c + (v + (b + (g + (e + z)))) + "\n") == b + (c + (v + (b + (g + (e + z))))) + "\n";
    assert t + (b + (c + (v + (b + (g + (e + z))))) + "\n") == t + (b + (c + (v + (b + (g + (e + z)))))) + "\n";
    assert a + (t + (b + (c + (v + (b + (g + (e + z)))))) + "\n") == a + (t + (b + (c + (v + (b + (g + (e + z))))))) + "\n";
  }

  // ----- and stands for the lists

  lemma RowsStandFor(name: string, vs: seq<Value>, js: seq<Json>, fits: string -> bool)
    requires Plain(name) && RowsStand(vs, js, fits, MAX_DEPTH - 2)
    ensures Stands((name, RowsTree(vs)), (name, Array(js)), fits, MAX_DEPTH - 1)
  {
    hide Plain, RowsStand, Wf, Admissible, Denote, ArrOf;
    ArrStands(ROWS_OPEN, ROWS_OPEN, ROWS_CLOSE, vs, js, fits, MAX_DEPTH - 1);
  }

  lemma ListsStand(d: Dashboard, now: Num, fits: string -> bool)
    requires AllClean(d) && Finite(d, now, fits)
    ensures RowsStand(TaskTrees(d), SnapshotEntries(d, now)[4].1.items, fits, MAX_DEPTH - 2)
    ensures RowsStand(VehicleTrees(d), SnapshotEntries(d, now)[5].1.items, fits, MAX_DEPTH - 2)
    ensures RowsStand(EventTrees(d), SnapshotEntries(d, now)[6].1.items, fits, MAX_DEPTH - 2)
  {
    hide TaskTree, VehicleTree, EventTree, Record, CleanTask, CleanVehicle, CleanEvent, FiniteTask, FiniteVehicle, GoodNum, Wf, Admissible, Denote,
      TaskEntries, VehicleEntries, EventEntries;
    var room := MAX_DEPTH - 2;
    forall k | 0 <= k < |d.tasks|
      ensures RowStands(TaskTree(d, d.tasks[k]), Object(Record(TaskEntries(d, d.tasks[k]))), fits, room)
    {
      TaskStands(d, d.tasks[k], fits, room);
    }
    forall k | 0 <= k < |d.vehicles|
      ensures RowStands(VehicleTree(d.vehicles[k]), Object(Record(VehicleEntries(d.vehicles[k]))), fits, room)
    {
      VehicleStands(d.vehicles[k], fits, room);
    }
    forall k | 0 <= k < |d.events|
      ensures RowStands(EventTree(d.events[k]), Object(Record(EventEntries(d.events[k]))), fits, room)
    {
      EventStands(d.events[k], fits, room);
    }
  }

  lemma SnapshotStands(d: Dashboard, now: Num, fits: string -> bool)
    requires AllClean(d) && Finite(d, now, fits)
    ensures WfDoc(SnapshotDoc(d, now)) && Admissible(TopTree(d, now), fits, MAX_DEPTH)
    ensures Denote(TopTree(d, now)) == Object(Record(SnapshotEntries(d, now)))
  {
    hide Plain, GoodNum, Wf, Admissible, Denote, Record, ObjOf, Stands, Lit, RowsTree, AllClean, TaskTrees, VehicleTrees, EventTrees, RowsStand,
      TaskEntries, VehicleEntries, EventEntries;
    TopNames();
    TopTexts();
    ListsStand(d, now, fits);
    var es := SnapshotEntries(d, now);
    var room := MAX_DEPTH - 1;
    DomainText();
    LitStands("scenario", SCENARIO, fits, room);
    NumStands("domain_id", DOMAIN_ID, fits, room);
    LitStands("transport", TRANSPORT, fits, room);
    NumStands("generated_at_ms", now, fits, room);
    RowsStandFor("tasks", TaskTrees(d), es[4].1.items, fits);
    RowsStandFor("vehicles", VehicleTrees(d), es[5].1.items, fits);
    RowsStandFor("events", EventTrees(d), es[6].1.items, fits);
    assert [es[0]] + es[1..] == es;
    ObjStands(TOP, "scenario", Lit(SCENARIO), TopFields(d, now), es[0], es[1..], fits, MAX_DEPTH);
  }

  lemma DomainText()
    ensures NumText(DOMAIN_ID) == "42"
  {
    assert "" + ("42" + ("" + "")) == "42";
  }

  // ----- the converse

  /** No control byte but whitespace. */
  predicate NoControl(t: string) {
    forall k :: 0 <= k < |t| ==> t[k] as int >= 0x20 || IsWs(t[k])
  }

  lemma NoControlConcat(a: string, b: string)
    ensures NoControl(a + b) <==> NoControl(a) && NoControl(b)
  {
    if NoControl(a + b) {
      forall k | 0 <= k < |a|
        ensures a[k] as int >= 0x20 || IsWs(a[k])
      {
        assert (a + b)[k] == a[k];
      }
      forall k | 0 <= k < |b|
        ensures b[k] as int >= 0x20 || IsWs(b[k])
      {
        assert (a + b)[|a| + k] == b[k];
      }
    }
  }

  lemma {:induction false} CharsNoControl(ks: seq<Chr>)
    requires WfChars(ks)
    ensures NoControl(CharsText(ks))
  {
    if |ks| == 0 {
      assert NoControl("");
    } else {
      hide NoControl, WfChr, ChrText;
      CharsNoControl(ks[1..]);
      ChrNoControl(ks[0]);
      NoControlConcat(ChrText(ks[0]), CharsText(ks[1..]));
    }
  }

  lemma ChrNoControl(k: Chr)
    requires WfChr(k)
    ensures NoControl(ChrText(k))
  {
  }

  lemma StringNoControl(ks: seq<Chr>)
    requires WfChars(ks)
    ensures NoControl(StringText(ks))
  {
    hide CharsText, WfChars;
    CharsNoControl(ks);
    NoControlConcat(CharsText(ks), "\"");
    NoControlConcat("\"", CharsText(ks) + "\"");
  }

  lemma NumNoControl(n: Num)
    requires WfNum(n)
    ensures NoControl(NumText(n))
  {
    NoControlConcat(FracText(n.frac), ExpText(n.exp));
    NoControlConcat(n.whole, FracText(n.frac) + ExpText(n.exp));
    NoControlConcat(if n.minus then "-" else "", n.whole + (FracText(n.frac) + ExpText(n.exp)));
  }

  lemma TokenNoControl(g: Gap, c: char)
    requires WfGap(g) && c as int >= 0x20
    ensures NoControl(Token(g, c))
  {
  }

  lemma {:induction false} ValueNoControl(v: Value)
    requires Wf(v)
    ensures NoControl(ValueText(v))
    decreases v, 0
  {
    hide NoControl, Token;
    match v
    case NullV => assert NoControl("null") by { LiteralsNoControl(); }
    case TrueV => assert NoControl("true") by { LiteralsNoControl(); }
    case FalseV => assert NoControl("false") by { LiteralsNoControl(); }
    case NumV(n) => NumNoControl(n);
    case StrV(ks) => StringNoControl(ks);
    case ArrV(open, items, close) =>
      TokenNoControl(open, '[');
      TokenNoControl(close, ']');
      if items.Items? {
        ValueNoControl(items.first);
        ItemsNoControl(items.rest, Token(close, ']'));
        NoControlConcat(ValueText(items.first), ItemsText(items.rest, Token(close, ']')));
      }
      NoControlConcat(Token(open, '['), ArrayInner(items, close));
    case ObjV(open, members, close) =>
      TokenNoControl(open, '{');
      TokenNoControl(close, '}');
      if members.Members? {
        MemberNoControl(members.name, members.colon, members.v);
        MembersNoControl(members.rest, Token(close, '}'));
        NoControlConcat(MemberText(members.name, members.colon, members.v), MembersText(members.rest, Token(close, '}')));
      }
      NoControlConcat(Token(open, '{'), ObjectInner(members, close));
  }

  lemma LiteralsNoControl()
    ensures NoControl("null") && NoControl("true") && NoControl("false")
  {
  }

  lemma {:induction false} ItemsNoControl(r: ItemTail, end: string)
    requires WfItems(r) && NoControl(end)
    ensures NoControl(ItemsText(r, end))
    decreases r
  {
    hide NoControl, Token;
    if r.ItemMore? {
      TokenNoControl(r.comma, ',');
      ValueNoControl(r.v);
      ItemsNoControl(r.rest, end);
      NoControlConcat(ValueText(r.v), ItemsText(r.rest, end));
      NoControlConcat(Token(r.comma, ','), ValueText(r.v) + ItemsText(r.rest, end));
    }
  }

  lemma {:induction false} MemberNoControl(name: seq<Chr>, colon: Gap, v: Value)
    requires WfChars(name) && WfGap(colon) && Wf(v)
    ensures NoControl(MemberText(name, colon, v))
    decreases v, 1
  {
    hide NoControl, Token, StringText;
    StringNoControl(name);
    TokenNoControl(colon, ':');
    ValueNoControl(v);
    NoControlConcat(Token(colon, ':'), ValueText(v));
    NoControlConcat(StringText(name), Token(colon, ':') + ValueText(v));
  }

  lemma {:induction false} MembersNoControl(r: MemberTail, end: string)
    requires WfMembers(r) && NoControl(end)
    ensures NoControl(MembersText(r, end))
    decreases r
  {
    hide NoControl, Token, MemberText;
    if r.MemberMore? {
      TokenNoControl(r.comma, ',');
      MemberNoControl(r.name, r.colon, r.v);
      MembersNoControl(r.rest, end);
      NoControlConcat(MemberText(r.name, r.colon, r.v), MembersText(r.rest, end));
      NoControlConcat(Token(r.comma, ','), MemberText(r.name, r.colon, r.v) + MembersText(r.rest, end));
    }
  }

  /** No accepted text, of whatever kind, holds a control byte other than whitespace. */
  lemma AcceptedHasNoControl(text: string, fits: string -> bool)
    requires Document(text, fits).Ok?
    ensures NoControl(text)
  {
    hide Document, Wf, Admissible, ValueText, Denote;
    AcceptsExactlyTheGrammar(text, Document(text, fits).value, fits);
    var d: Doc :| WfDoc(d) && Admissible(d.v, fits, MAX_DEPTH) && DocText(d) == text && Denote(d.v) == Document(text, fits).value;
    ValueNoControl(d.v);
    NoControlConcat(ValueText(d.v), d.after);
    NoControlConcat(d.before, ValueText(d.v) + d.after);
  }

  lemma OneKeepsControl(c: char)
    requires NoControl(EscapeChar(c))
    ensures CleanChar(c)
  {
    var t := EscapeChar(c);
    assert t[0] as int >= 0x20 || IsWs(t[0]);
  }

  lemma {:induction false} EscapeKeepsControl(v: string)
    requires NoControl(Escape(v))
    ensures Clean(v)
  {
    if |v| > 0 {
      NoControlConcat(EscapeChar(v[0]), Escape(v[1..]));
      OneKeepsControl(v[0]);
      EscapeKeepsControl(v[1..]);
      assert v == [v[0]] + v[1..];
    }
  }

  /** Reading a row's text from its start: a literal, an escaped string, the rest. */
  lemma Peel(literal: string, piece: string, rest: string)
    requires NoControl(literal + (piece + rest))
    ensures NoControl(piece) && NoControl(rest)
  {
    NoControlConcat(literal, piece + rest);
    NoControlConcat(piece, rest);
  }

  lemma EventIsClean(e: EventInfo)
    requires NoControl(EventText(e))
    ensures CleanEvent(e)
  {
    hide Escape, NoControl, Clean, NumText, EventName;
    var t5 := "\",\"occurred_at_ms\":" + (NumText(e.occurredAt) + "}");
    var t4 := "\",\"code\":\"" + (Escape(e.code) + t5);
    var t3 := "\",\"kind\":\"" + (EventName(e.kind) + t4);
    var t2 := "\",\"source\":\"" + (Escape(e.source) + t3);
    var t1 := "\",\"task_id\":\"" + (Escape(e.taskId) + t2);
    Peel("    {\"id\":\"", Escape(e.id), t1);
    Peel("\",\"task_id\":\"", Escape(e.taskId), t2);
    Peel("\",\"source\":\"", Escape(e.source), t3);
    Peel("\",\"kind\":\"", EventName(e.kind), t4);
    Peel("\",\"code\":\"", Escape(e.code), t5);
    EscapeKeepsControl(e.id);
    EscapeKeepsControl(e.taskId);
    EscapeKeepsControl(e.source);
    EscapeKeepsControl(e.code);
  }

  lemma VehicleIsClean(v: VehicleInfo)
    requires NoControl(VehicleText(v))
    ensures CleanVehicle(v)
  {
    hide Escape, NoControl, Clean, NumText, DeviceName, PhaseName, EnuText;
    var t4 := "\",\"battery_percent\":" + (NumText(v.battery) + (",\"progress_percent\":" + (NumText(v.progress) + ("," + EnuText(v.pose, "}}")))));
    var t3 := "\",\"task_id\":\"" + (Escape(v.taskId) + t4);
    var t2 := "\",\"phase\":\"" + (PhaseName(v.phase) + t3);
    var t1 := "\",\"kind\":\"" + (DeviceName(v.kind) + t2);
    Peel("    {\"id\":\"", Escape(v.agentId), t1);
    Peel("\",\"kind\":\"", DeviceName(v.kind), t2);
    Peel("\",\"phase\":\"", PhaseName(v.phase), t3);
    Peel("\",\"task_id\":\"", Escape(v.taskId), t4);
    EscapeKeepsControl(v.agentId);
    EscapeKeepsControl(v.taskId);
  }

  lemma TaskIsClean(d: Dashboard, t: TaskInfo)
    requires NoControl(TaskText(d, t))
    ensures CleanTask(d, t)
  {
    hide Escape, NoControl, Clean, NumText, KindName, PriorityName, EnuText, TransformOf, AssignedTo;
    var tr := TransformOf(d, t);
    var t6 := "\"," + EnuText(tr.enu, "},\"sandbox\":{\"x\":" + (NumText(tr.x) + (",\"y\":" + (NumText(tr.y) + "}}"))));
    var t5 := "\",\"assigned_to\":\"" + (Escape(AssignedTo(d, t)) + t6);
    var t4 := "\",\"predecessor\":\"" + (Escape(t.predecessor) + t5);
    var t3 := "\",\"capability\":\"" + (Escape(t.capability) + t4);
    var t2 := "\",\"priority\":\"" + (PriorityName(t.priority) + t3);
    var t1 := "\",\"kind\":\"" + (KindName(t.kind) + t2);
    Peel("    {\"id\":\"", Escape(t.id), t1);
    Peel("\",\"kind\":\"", KindName(t.kind), t2);
    Peel("\",\"priority\":\"", PriorityName(t.priority), t3);
    Peel("\",\"capability\":\"", Escape(t.capability), t4);
    Peel("\",\"predecessor\":\"", Escape(t.predecessor), t5);
    Peel("\",\"assigned_to\":\"", Escape(AssignedTo(d, t)), t6);
    EscapeKeepsControl(t.id);
    EscapeKeepsControl(t.capability);
    EscapeKeepsControl(t.predecessor);
    EscapeKeepsControl(AssignedTo(d, t));
  }

  lemma {:induction false} RowsNoControl(rows: seq<string>, k: nat)
    requires NoControl(Joined(rows)) && k < |rows|
    ensures NoControl(rows[k])
  {
    hide NoControl;
    if |rows| > 1 {
      NoControlConcat(rows[0], ",\n" + Joined(rows[1..]));
      NoControlConcat(",\n", Joined(rows[1..]));
      if k > 0 {
        RowsNoControl(rows[1..], k - 1);
      }
    }
  }

  lemma CleanIfAccepted(d: Dashboard, now: Num)
    requires NoControl(SnapshotText(d, now))
    ensures AllClean(d)
  {
    hide NoControl, HeadText, Joined, TaskText, VehicleText, EventText, CleanTask, CleanVehicle, CleanEvent;
    var t, v, e := Joined(TaskRows(d)), Joined(VehicleRows(d)), Joined(EventRows(d));
    var x3 := "\n  ],\n" + ("  \"events\": [\n" + (e + "\n  ]\n}\n"));
    var x2 := "\n  ],\n" + ("  \"vehicles\": [\n" + (v + x3));
    var x1 := "  \"tasks\": [\n" + (t + x2);
    HeadOpens(now, x1);
    NoControlConcat(HeadText(now, ""), x1);
    Peel("  \"tasks\": [\n", t, x2);
    NoControlConcat("\n  ],\n", "  \"vehicles\": [\n" + (v + x3));
    Peel("  \"vehicles\": [\n", v, x3);
    NoControlConcat("\n  ],\n", "  \"events\": [\n" + (e + "\n  ]\n}\n"));
    Peel("  \"events\": [\n", e, "\n  ]\n}\n");
    forall k | 0 <= k < |d.tasks|
      ensures CleanTask(d, d.tasks[k])
    {
      RowsNoControl(TaskRows(d), k);
      TaskIsClean(d, d.tasks[k]);
    }
    forall k | 0 <= k < |d.vehicles|
      ensures CleanVehicle(d.vehicles[k])
    {
      RowsNoControl(VehicleRows(d), k);
      VehicleIsClean(d.vehicles[k]);
    }
    forall k | 0 <= k < |d.events|
      ensures CleanEvent(d.events[k])
    {
      RowsNoControl(EventRows(d), k);
      EventIsClean(d.events[k]);
    }
  }

  // ----- the theorem

  /** Whatever the numbers of tasks, vehicles and events, the printed text is accepted exactly when
      every string is clean, and then yields exactly the lists printed, in order. */
  lemma PrintThenParse(d: Dashboard, now: Num, fits: string -> bool)
    requires Finite(d, now, fits)
    ensures AllClean(d) ==> Document(SnapshotText(d, now), fits) == Ok(Object(Record(SnapshotEntries(d, now))), |SnapshotText(d, now)|)
    ensures !AllClean(d) ==> Document(SnapshotText(d, now), fits).Err?
  {
    hide Document, SnapshotText, Finite, AllClean, Wf, Admissible, Denote, SnapshotEntries, Record, ValueText, TopTree;
    var text := SnapshotText(d, now);
    if AllClean(d) {
      SnapshotIsDocText(d, now);
      SnapshotStands(d, now, fits);
      AcceptsExactlyTheGrammar(text, Object(Record(SnapshotEntries(d, now))), fits);
    } else if Document(text, fits).Ok? {
      AcceptedHasNoControl(text, fits);
      CleanIfAccepted(d, now);
    }
  }

  /** The lists are found under their names, row by row. */
  lemma ListsAreFound(d: Dashboard, now: Num)
    ensures var m := Record(SnapshotEntries(d, now));
            && "tasks" in m && m["tasks"].Array? && |m["tasks"].items| == |d.tasks|
            && "vehicles" in m && m["vehicles"].Array? && |m["vehicles"].items| == |d.vehicles|
            && "events" in m && m["events"].Array? && |m["events"].items| == |d.events|
            && (forall k :: 0 <= k < |d.tasks| ==> m["tasks"].items[k] == Object(Record(TaskEntries(d, d.tasks[k]))))
            && (forall k :: 0 <= k < |d.vehicles| ==> m["vehicles"].items[k] == Object(Record(VehicleEntries(d.vehicles[k]))))
            && (forall k :: 0 <= k < |d.events| ==> m["events"].items[k] == Object(Record(EventEntries(d.events[k]))))
  {
    hide Record, TaskEntries, VehicleEntries, EventEntries;
    var es := SnapshotEntries(d, now);
    RecordHasAll(es, 4);
    RecordHasAll(es, 5);
    RecordHasAll(es, 6);
  }
}
