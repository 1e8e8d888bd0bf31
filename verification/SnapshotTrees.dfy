/** Derivation trees for printed records: objects given by a list of fields and a layout, and the
    text and the value they stand for. */
module SnapshotTrees {
  import opened JsonGrammar

  type Field = (string, Value)
  type Entry = (string, Json)

  const NONE := Gap("", "")

  /** Where the whitespace of an object goes. */
  datatype Layout = Layout(open: Gap, comma: Gap, colon: Gap, close: Gap)

  predicate WfLayout(l: Layout) {
    WfGap(l.open) && WfGap(l.comma) && WfGap(l.colon) && WfGap(l.close)
  }

  // ----- strings

  /** A text that is its own escape. */
  predicate Plain(t: string) {
    forall k :: 0 <= k < |t| ==> IsRaw(t[k])
  }

  function Raws(t: string): seq<Chr> {
    seq(|t|, k requires 0 <= k < |t| => Raw(t[k]))
  }

  lemma {:induction false} RawsSpell(t: string)
    requires Plain(t)
    ensures WfChars(Raws(t)) && CharsText(Raws(t)) == t && CharsBytes(Raws(t)) == t
  {
    if |t| > 0 {
      RawsSpell(t[1..]);
      assert Raws(t)[1..] == Raws(t[1..]);
      assert t == [t[0]] + t[1..];
    }
  }

  // ----- objects

  function TailOf(fs: seq<Field>, l: Layout): MemberTail {
    if |fs| == 0 then MemberEnd else MemberMore(l.comma, Raws(fs[0].0), l.colon, fs[0].1, TailOf(fs[1..], l))
  }

  function ObjOf(l: Layout, name: string, v: Value, fs: seq<Field>): Value {
    ObjV(l.open, Members(Raws(name), l.colon, v, TailOf(fs, l)), l.close)
  }

  /** The text of the further fields and the closing brace. */
  function Rest(fs: seq<Field>, l: Layout): string {
    MembersText(TailOf(fs, l), Token(l.close, '}'))
  }

  /** The text of one field. */
  function FieldText(name: string, l: Layout, v: Value): string {
    "\"" + (name + "\"") + (Token(l.colon, ':') + ValueText(v))
  }

  lemma RestCons(name: string, v: Value, fs: seq<Field>, l: Layout)
    requires Plain(name)
    ensures Rest([(name, v)] + fs, l) == Token(l.comma, ',') + (FieldText(name, l, v) + Rest(fs, l))
  {
    RawsSpell(name);
    assert ([(name, v)] + fs)[1..] == fs;
    assert TailOf([(name, v)] + fs, l) == MemberMore(l.comma, Raws(name), l.colon, v, TailOf(fs, l));
    assert MemberText(Raws(name), l.colon, v) == FieldText(name, l, v);
  }

  lemma ObjText(l: Layout, name: string, v: Value, fs: seq<Field>)
    requires Plain(name)
    ensures ValueText(ObjOf(l, name, v, fs)) == Token(l.open, '{') + (FieldText(name, l, v) + Rest(fs, l))
  {
    RawsSpell(name);
    assert MemberText(Raws(name), l.colon, v) == FieldText(name, l, v);
  }

  /** The record a list of entries stands for. */
  function Record(es: seq<Entry>): map<string, Json> {
    if |es| == 0 then map[] else map[es[0].0 := es[0].1] + Record(es[1..])
  }

  predicate DistinctEntries(es: seq<Entry>) {
    forall i, j :: 0 <= i < j < |es| ==> es[i].0 != es[j].0
  }

  /** Nothing is lost: every entry is in the record, under its own name. */
  lemma {:induction false} RecordHasAll(es: seq<Entry>, k: nat)
    requires DistinctEntries(es) && k < |es|
    ensures es[k].0 in Record(es) && Record(es)[es[k].0] == es[k].1
  {
    if k > 0 {
      RecordHasAll(es[1..], k - 1);
    } else {
      RecordOnlyNames(es[1..], es[0].0);
    }
  }

  lemma {:induction false} RecordOnlyNames(es: seq<Entry>, name: string)
    requires forall j :: 0 <= j < |es| ==> es[j].0 != name
    ensures name !in Record(es)
  {
    if |es| > 0 {
      RecordOnlyNames(es[1..], name);
    }
  }

  /** A field tree that stands for an entry and fits in the room. */
  predicate Stands(f: Field, e: Entry, fits: string -> bool, room: int) {
    Plain(f.0) && f.0 == e.0 && Wf(f.1) && Admissible(f.1, fits, room) && Denote(f.1) == e.1
  }

  predicate AllStand(fs: seq<Field>, es: seq<Entry>, fits: string -> bool, room: int) {
    |fs| == |es| && forall k :: 0 <= k < |fs| ==> Stands(fs[k], es[k], fits, room)
  }

  lemma FiveStand(f0: Field, e0: Entry, f1: Field, e1: Entry, f2: Field, e2: Entry, f3: Field, e3: Entry, f4: Field, e4: Entry,
                  fits: string -> bool, room: int)
    requires Stands(f0, e0, fits, room) && Stands(f1, e1, fits, room)
    requires Stands(f2, e2, fits, room) && Stands(f3, e3, fits, room)
    requires Stands(f4, e4, fits, room)
    ensures AllStand([f0, f1, f2, f3, f4], [e0, e1, e2, e3, e4], fits, room)
  {
    hide Stands;
  }

  lemma SixStand(f0: Field, e0: Entry, f1: Field, e1: Entry, f2: Field, e2: Entry, f3: Field, e3: Entry, f4: Field, e4: Entry, f5: Field, e5: Entry,
                 fits: string -> bool, room: int)
    requires Stands(f0, e0, fits, room) && Stands(f1, e1, fits, room)
    requires Stands(f2, e2, fits, room) && Stands(f3, e3, fits, room)
    requires Stands(f4, e4, fits, room) && Stands(f5, e5, fits, room)
    ensures AllStand([f0, f1, f2, f3, f4, f5], [e0, e1, e2, e3, e4, e5], fits, room)
  {
    hide Stands;
  }

  lemma SevenStand(f0: Field, e0: Entry, f1: Field, e1: Entry, f2: Field, e2: Entry, f3: Field, e3: Entry, f4: Field, e4: Entry, f5: Field, e5: Entry, f6: Field, e6: Entry,
                   fits: string -> bool, room: int)
    requires Stands(f0, e0, fits, room) && Stands(f1, e1, fits, room)
    requires Stands(f2, e2, fits, room) && Stands(f3, e3, fits, room)
    requires Stands(f4, e4, fits, room) && Stands(f5, e5, fits, room)
    requires Stands(f6, e6, fits, room)
    ensures AllStand([f0, f1, f2, f3, f4, f5, f6], [e0, e1, e2, e3, e4, e5, e6], fits, room)
  {
    hide Stands;
  }

  lemma {:induction false} TailStands(fs: seq<Field>, es: seq<Entry>, l: Layout, fits: string -> bool, room: int)
    requires AllStand(fs, es, fits, room) && DistinctEntries(es) && WfLayout(l)
    ensures WfMembers(TailOf(fs, l)) && AdmissibleMembers(TailOf(fs, l), fits, room) && DistinctNames(TailOf(fs, l))
    ensures DenoteMembers(TailOf(fs, l)) == Record(es)
    ensures Names(TailOf(fs, l)) == Record(es).Keys
  {
    if |fs| > 0 {
      assert Stands(fs[0], es[0], fits, room);
      assert forall k :: 0 <= k < |fs[1..]| ==> fs[1..][k] == fs[k + 1] && es[1..][k] == es[k + 1];
      TailStands(fs[1..], es[1..], l, fits, room);
      RawsSpell(fs[0].0);
      RecordOnlyNames(es[1..], es[0].0);
    }
  }

  lemma ObjStands(l: Layout, name: string, v: Value, fs: seq<Field>, e: Entry, es: seq<Entry>, fits: string -> bool, room: int)
    requires Stands((name, v), e, fits, room - 1) && AllStand(fs, es, fits, room - 1)
    requires DistinctEntries([e] + es) && WfLayout(l) && room >= 0
    ensures Wf(ObjOf(l, name, v, fs)) && Admissible(ObjOf(l, name, v, fs), fits, room)
    ensures Denote(ObjOf(l, name, v, fs)) == Object(Record([e] + es))
  {
    hide Wf, WfChars, Plain;
    assert forall k :: 0 <= k < |es| ==> es[k] == ([e] + es)[k + 1];
    assert DistinctEntries(es);
    TailStands(fs, es, l, fits, room - 1);
    RawsSpell(name);
    assert ([e] + es)[0] == e && ([e] + es)[1..] == es;
    assert forall j :: 0 <= j < |es| ==> es[j].0 != e.0;
    RecordOnlyNames(es, e.0);
    ObjUnfolds(l, name, v, fs, fits, room);
  }

  lemma ObjUnfolds(l: Layout, name: string, v: Value, fs: seq<Field>, fits: string -> bool, room: int)
    requires WfChars(Raws(name)) && CharsBytes(Raws(name)) == name && Wf(v) && WfMembers(TailOf(fs, l)) && WfLayout(l)
    requires name !in Names(TailOf(fs, l)) && DistinctNames(TailOf(fs, l)) && room >= 0
    requires Admissible(v, fits, room - 1) && AdmissibleMembers(TailOf(fs, l), fits, room - 1)
    ensures Wf(ObjOf(l, name, v, fs)) && Admissible(ObjOf(l, name, v, fs), fits, room)
    ensures Denote(ObjOf(l, name, v, fs)) == Object(map[name := Denote(v)] + DenoteMembers(TailOf(fs, l)))
  {
    hide TailOf, Raws, WfChars, CharsBytes;
  }

  // ----- arrays of rows

  function ItemsOf(vs: seq<Value>, comma: Gap): ItemTail {
    if |vs| == 0 then ItemEnd else ItemMore(comma, vs[0], ItemsOf(vs[1..], comma))
  }

  function ArrOf(open: Gap, comma: Gap, close: Gap, vs: seq<Value>): Value {
    ArrV(open, if |vs| == 0 then NoItems else Items(vs[0], ItemsOf(vs[1..], comma)), close)
  }

  predicate RowsStand(vs: seq<Value>, js: seq<Json>, fits: string -> bool, room: int) {
    |vs| == |js| && forall k :: 0 <= k < |vs| ==> Wf(vs[k]) && Admissible(vs[k], fits, room) && Denote(vs[k]) == js[k]
  }

  lemma {:induction false} ItemsStand(vs: seq<Value>, js: seq<Json>, comma: Gap, fits: string -> bool, room: int)
    requires RowsStand(vs, js, fits, room) && WfGap(comma)
    ensures WfItems(ItemsOf(vs, comma)) && AdmissibleItems(ItemsOf(vs, comma), fits, room)
    ensures DenoteItems(ItemsOf(vs, comma)) == js
  {
    if |vs| > 0 {
      ItemsStand(vs[1..], js[1..], comma, fits, room);
      assert js == [js[0]] + js[1..];
    }
  }

  lemma ArrStands(open: Gap, comma: Gap, close: Gap, vs: seq<Value>, js: seq<Json>, fits: string -> bool, room: int)
    requires RowsStand(vs, js, fits, room - 1) && WfGap(open) && WfGap(comma) && WfGap(close) && room >= 0
    ensures Wf(ArrOf(open, comma, close, vs)) && Admissible(ArrOf(open, comma, close, vs), fits, room)
    ensures Denote(ArrOf(open, comma, close, vs)) == Array(js)
  {
    if |vs| > 0 {
      ItemsStand(vs[1..], js[1..], comma, fits, room - 1);
      assert js == [js[0]] + js[1..];
    }
  }
}
