/** The grammar of RFC 8259, sections 2 to 7, as derivation trees: `...Text` is the text a tree
    derives, `...Value` what it denotes, `Wf...` that it uses the rules as written. Three
    restrictions are the parser's own: object names are distinct, `\u` escapes of surrogates come
    in pairs, and numbers satisfy a range test given as a parameter. */
module JsonGrammar {
  import opened Wrappers
  import opened Unicode

  datatype Json =
    | Null
    | Bool(b: bool)
    | Number(lexeme: string)
    | Str(s: string)
    | Array(items: seq<Json>)
    | Object(members: map<string, Json>)

  // ----- section 2: whitespace and structural characters

  predicate IsWs(c: char) {
    c == ' ' || c == '\n' || c == '\r' || c == '\t'
  }

  predicate AllWs(w: string) {
    forall k :: 0 <= k < |w| ==> IsWs(w[k])
  }

  /** A structural character stands between two stretches of whitespace. */
  datatype Gap = Gap(before: string, after: string)

  predicate WfGap(g: Gap) {
    AllWs(g.before) && AllWs(g.after)
  }

  function Token(g: Gap, c: char): string {
    g.before + [c] + g.after
  }

  // ----- section 6: numbers

  predicate IsDigit(c: char) {
    '0' <= c <= '9'
  }

  predicate AllDigits(t: string) {
    forall k :: 0 <= k < |t| ==> IsDigit(t[k])
  }

  /** int [ frac ] [ exp ] with an optional minus; `frac` holds the digits after the point and
      `exp` the letter, the optional sign and the digits. */
  datatype Num = Num(minus: bool, whole: string, frac: Option<string>, exp: Option<Exponent>)

  datatype Exponent = Exponent(e: char, sign: string, digits: string)

  predicate WfNum(n: Num) {
    && WfWhole(n.whole)
    && (n.frac.Some? ==> |n.frac.value| > 0 && AllDigits(n.frac.value))
    && (n.exp.Some? ==> WfExponent(n.exp.value))
  }

  /** No leading zero. */
  predicate WfWhole(w: string) {
    |w| > 0 && AllDigits(w) && (w[0] == '0' ==> |w| == 1)
  }

  predicate WfExponent(x: Exponent) {
    (x.e == 'e' || x.e == 'E') && (x.sign == "" || x.sign == "+" || x.sign == "-") && |x.digits| > 0 && AllDigits(x.digits)
  }

  function FracText(f: Option<string>): string {
    if f.Some? then "." + f.value else ""
  }

  function ExpText(x: Option<Exponent>): string {
    if x.Some? then [x.value.e] + (x.value.sign + x.value.digits) else ""
  }

  function NumText(n: Num): string {
    (if n.minus then "-" else "") + (n.whole + (FracText(n.frac) + ExpText(n.exp)))
  }

  // ----- section 7: strings

  predicate IsHex(c: char) {
    '0' <= c <= '9' || 'a' <= c <= 'f' || 'A' <= c <= 'F'
  }

  function HexDigit(c: char): (n: nat)
    requires IsHex(c)
    ensures n < 16
  {
    if '0' <= c <= '9' then c as int - '0' as int
    else if 'a' <= c <= 'f' then c as int - 'a' as int + 10
    else c as int - 'A' as int + 10
  }

  predicate IsHex4(h: string) {
    |h| == 4 && IsHex(h[0]) && IsHex(h[1]) && IsHex(h[2]) && IsHex(h[3])
  }

  function Hex4(h: string): (n: nat)
    requires IsHex4(h)
    ensures n < 0x10000
  {
    HexDigit(h[0]) * 4096 + HexDigit(h[1]) * 256 + HexDigit(h[2]) * 16 + HexDigit(h[3])
  }

  /** One item of a string: an unescaped byte, a two-character escape, a `\u` escape of a scalar
      value, or two `\u` escapes that form a surrogate pair. */
  datatype Chr = Raw(c: char) | Short(e: char) | Unit(h: string) | Pair(hi: string, lo: string)

  predicate IsRaw(c: char) {
    c as int >= 0x20 && c != '"' && c != '\\'
  }

  predicate IsShort(e: char) {
    e == '"' || e == '\\' || e == '/' || e == 'b' || e == 'f' || e == 'n' || e == 'r' || e == 't'
  }

  function Unescape(e: char): char
    requires IsShort(e)
  {
    if e == 'b' then 8 as char else if e == 'f' then 12 as char
    else if e == 'n' then '\n' else if e == 'r' then '\r' else if e == 't' then '\t' else e
  }

  predicate WfChr(k: Chr) {
    match k
    case Raw(c) => IsRaw(c)
    case Short(e) => IsShort(e)
    case Unit(h) => IsHex4(h) && !IsHigh(Hex4(h)) && !IsLow(Hex4(h))
    case Pair(hi, lo) => IsHex4(hi) && IsHigh(Hex4(hi)) && IsHex4(lo) && IsLow(Hex4(lo))
  }

  function ChrText(k: Chr): (t: string)
    ensures |t| > 0
  {
    match k
    case Raw(c) => [c]
    case Short(e) => ['\\', e]
    case Unit(h) => "\\u" + h
    case Pair(hi, lo) => "\\u" + hi + ("\\u" + lo)
  }

  /** The bytes an item stands for. */
  function ChrBytes(k: Chr): string {
    if !WfChr(k) then "" else
    match k
    case Raw(c) => [c]
    case Short(e) => [Unescape(e)]
    case Unit(h) => Utf8(Hex4(h))
    case Pair(hi, lo) => Utf8(Combine(Hex4(hi), Hex4(lo)))
  }

  predicate WfChars(ks: seq<Chr>) {
    forall k :: 0 <= k < |ks| ==> WfChr(ks[k])
  }

  function CharsText(ks: seq<Chr>): string {
    if |ks| == 0 then "" else ChrText(ks[0]) + CharsText(ks[1..])
  }

  function CharsBytes(ks: seq<Chr>): string {
    if |ks| == 0 then "" else ChrBytes(ks[0]) + CharsBytes(ks[1..])
  }

  function StringText(ks: seq<Chr>): string {
    "\"" + (CharsText(ks) + "\"")
  }

  // ----- sections 3 to 5: values, objects, arrays

  datatype Value =
    | NullV
    | TrueV
    | FalseV
    | NumV(n: Num)
    | StrV(ks: seq<Chr>)
    | ArrV(open: Gap, items: Items, close: Gap)
    | ObjV(open: Gap, members: Members, close: Gap)

  datatype Items = NoItems | Items(first: Value, rest: ItemTail)

  datatype ItemTail = ItemEnd | ItemMore(comma: Gap, v: Value, rest: ItemTail)

  datatype Members = NoMembers | Members(name: seq<Chr>, colon: Gap, v: Value, rest: MemberTail)

  datatype MemberTail = MemberEnd | MemberMore(comma: Gap, name: seq<Chr>, colon: Gap, v: Value, rest: MemberTail)

  predicate Wf(v: Value) {
    match v
    case NumV(n) => WfNum(n)
    case StrV(ks) => WfChars(ks)
    case ArrV(open, items, close) => WfGap(open) && WfGap(close) && (items.Items? ==> Wf(items.first) && WfItems(items.rest))
    case ObjV(open, members, close) =>
      && WfGap(open) && WfGap(close)
      && (members.Members? ==> WfChars(members.name) && WfGap(members.colon) && Wf(members.v) && WfMembers(members.rest))
    case _ => true
  }

  predicate WfItems(r: ItemTail) {
    r.ItemMore? ==> WfGap(r.comma) && Wf(r.v) && WfItems(r.rest)
  }

  predicate WfMembers(r: MemberTail) {
    r.MemberMore? ==> WfGap(r.comma) && WfChars(r.name) && WfGap(r.colon) && Wf(r.v) && WfMembers(r.rest)
  }

  function ValueText(v: Value): string
    decreases v, 0
  {
    match v
    case NullV => "null"
    case TrueV => "true"
    case FalseV => "false"
    case NumV(n) => NumText(n)
    case StrV(ks) => StringText(ks)
    case ArrV(open, items, close) =>
      Token(open, '[') + ArrayInner(items, close)
    case ObjV(open, members, close) =>
      Token(open, '{') + ObjectInner(members, close)
  }

  function ArrayInner(items: Items, close: Gap): string
    decreases items, 1
  {
    if items.NoItems? then Token(close, ']') else ValueText(items.first) + ItemsText(items.rest, Token(close, ']'))
  }

  function ObjectInner(members: Members, close: Gap): string
    decreases members, 1
  {
    if members.NoMembers? then Token(close, '}')
    else MemberText(members.name, members.colon, members.v) + MembersText(members.rest, Token(close, '}'))
  }

  /** The text of the further items of an array, followed by `end`. */
  function ItemsText(r: ItemTail, end: string): string {
    if r.ItemEnd? then end else Token(r.comma, ',') + (ValueText(r.v) + ItemsText(r.rest, end))
  }

  function MemberText(name: seq<Chr>, colon: Gap, v: Value): string
    decreases v, 1
  {
    StringText(name) + (Token(colon, ':') + ValueText(v))
  }

  function MembersText(r: MemberTail, end: string): string {
    if r.MemberEnd? then end else Token(r.comma, ',') + (MemberText(r.name, r.colon, r.v) + MembersText(r.rest, end))
  }

  // ----- the three restrictions

  function Names(r: MemberTail): set<string> {
    if r.MemberEnd? then {} else {CharsBytes(r.name)} + Names(r.rest)
  }

  predicate DistinctNames(r: MemberTail) {
    r.MemberMore? ==> CharsBytes(r.name) !in Names(r.rest) && DistinctNames(r.rest)
  }

  /** Every object has distinct names, every number is in range, and no value lies deeper than
      `room` levels below this one. */
  predicate Admissible(v: Value, fits: string -> bool, room: int) {
    room >= 0 &&
    match v
    case NumV(n) => fits(NumText(n))
    case ArrV(_, items, _) =>
      items.Items? ==> Admissible(items.first, fits, room - 1) && AdmissibleItems(items.rest, fits, room - 1)
    case ObjV(_, members, _) =>
      members.Members? ==>
        && CharsBytes(members.name) !in Names(members.rest) && DistinctNames(members.rest)
        && Admissible(members.v, fits, room - 1) && AdmissibleMembers(members.rest, fits, room - 1)
    case _ => true
  }

  predicate AdmissibleItems(r: ItemTail, fits: string -> bool, room: int) {
    r.ItemMore? ==> Admissible(r.v, fits, room) && AdmissibleItems(r.rest, fits, room)
  }

  predicate AdmissibleMembers(r: MemberTail, fits: string -> bool, room: int) {
    r.MemberMore? ==> Admissible(r.v, fits, room) && AdmissibleMembers(r.rest, fits, room)
  }

  // ----- what a derivation denotes

  function Denote(v: Value): Json {
    match v
    case NullV => Null
    case TrueV => Bool(true)
    case FalseV => Bool(false)
    case NumV(n) => Number(NumText(n))
    case StrV(ks) => Str(CharsBytes(ks))
    case ArrV(_, items, _) => Array(if items.NoItems? then [] else [Denote(items.first)] + DenoteItems(items.rest))
    case ObjV(_, members, _) =>
      Object(if members.NoMembers? then map[]
             else map[CharsBytes(members.name) := Denote(members.v)] + DenoteMembers(members.rest))
  }

  function DenoteItems(r: ItemTail): seq<Json> {
    if r.ItemEnd? then [] else [Denote(r.v)] + DenoteItems(r.rest)
  }

  function DenoteMembers(r: MemberTail): (m: map<string, Json>)
    ensures m.Keys == Names(r)
  {
    if r.MemberEnd? then map[] else map[CharsBytes(r.name) := Denote(r.v)] + DenoteMembers(r.rest)
  }

  lemma MapsJoin(acc: map<string, Json>, key: string, v: Json, rest: MemberTail)
    requires WfMembers(rest) && rest.MemberMore? && key !in Names(rest)
    ensures acc[key := v] + (map[CharsBytes(rest.name) := Denote(rest.v)] + DenoteMembers(rest.rest))
         == acc + (map[key := v] + DenoteMembers(rest))
  {
  }

  /** JSON-text = ws value ws. */
  datatype Doc = Doc(before: string, v: Value, after: string)

  predicate WfDoc(d: Doc) {
    AllWs(d.before) && Wf(d.v) && AllWs(d.after)
  }

  function DocText(d: Doc): string {
    d.before + (ValueText(d.v) + d.after)
  }

  const MAX_DEPTH := 64

  /** `text` derives `v` in the restricted grammar. */
  ghost predicate Derives(text: string, v: Json, fits: string -> bool) {
    exists d: Doc :: WfDoc(d) && Admissible(d.v, fits, MAX_DEPTH) && DocText(d) == text && Denote(d.v) == v
  }
}
