/** Every text of the restricted grammar is accepted, with the value it derives. */
module JsonCompleteness {
  import opened Wrappers
  import opened Text
  import opened JsonGrammar
  import opened JsonScanner
  import opened JsonStrings
  import opened JsonNumbers

  lemma {:induction false} SkipOver(s: string, i: nat, w: string)
    requires At(s, i, w) && AllWs(w)
    ensures SkipWs(s, i) == SkipWs(s, i + |w|)
    decreases |w|
  {
    if |w| > 0 {
      assert s[i] == s[i..i + |w|][0] == w[0];
      assert s[i + 1..i + |w|] == s[i..i + |w|][1..] == w[1..];
      SkipOver(s, i + 1, w[1..]);
    }
  }

  lemma TokenParts(g: Gap, c: char)
    ensures Token(g, c) == g.before + ([c] + g.after)
  {
  }

  /** Across a structural character. */
  lemma TokenAt(s: string, i: nat, g: Gap, c: char)
    requires At(s, i, Token(g, c)) && WfGap(g) && !IsWs(c)
    ensures SkipWs(s, i) == i + |g.before| < |s| && s[i + |g.before|] == c
    ensures SkipWs(s, i + |g.before| + 1) == SkipWs(s, i + |Token(g, c)|)
  {
    hide At, AllWs, SkipWs, Token;
    TokenParts(g, c);
    AtConcat(s, i, g.before, [c] + g.after);
    AtConcat(s, i + |g.before|, [c], g.after);
    AtHead(s, i + |g.before|, [c]);
    SkipOver(s, i, g.before);
    SkipOver(s, i + |g.before| + 1, g.after);
    NoSkip(s, i + |g.before|);
  }

  /** What may come after a value: the end, whitespace, or a closing or separating character. */
  predicate Follows(s: string, k: nat) {
    k < |s| ==> IsWs(s[k]) || s[k] == ',' || s[k] == ']' || s[k] == '}'
  }

  lemma TokenFollows(s: string, i: nat, g: Gap, c: char)
    requires At(s, i, Token(g, c)) && WfGap(g) && (c == ',' || c == ']' || c == '}')
    ensures Follows(s, i) && SkipWs(s, i) < |s|
  {
    TokenAt(s, i, g, c);
    assert s[i] == s[i..i + |Token(g, c)|][0];
  }

  /** The first character of a value once whitespace is skipped. */
  predicate Starts(c: char) {
    c == '{' || c == '[' || c == '"' || c == 't' || c == 'f' || c == 'n' || c == '-' || IsDigit(c)
  }

  lemma ScalarStart(s: string, i: nat, v: Value)
    requires Wf(v) && !v.ArrV? && !v.ObjV? && At(s, i, ValueText(v)) && Follows(s, i + |ValueText(v)|)
    ensures i < |s| && SkipWs(s, i) == i && Starts(s[i])
  {
    hide SkipWs, NumberEnd, String, At, NumText, WfNum;
    match v
    case NumV(n) =>
      NumberComplete(s, i, n);
      NoSkip(s, i);
    case StrV(ks) =>
      AtConcat(s, i, "\"", CharsText(ks) + "\"");
      AtHead(s, i, "\"");
      NoSkip(s, i);
    case NullV | TrueV | FalseV =>
      AtHead(s, i, ValueText(v));
      NoSkip(s, i);
  }

  lemma ValueStart(s: string, i: nat, v: Value)
    requires Wf(v) && At(s, i, ValueText(v)) && Follows(s, i + |ValueText(v)|)
    ensures SkipWs(s, i) < |s| && Starts(s[SkipWs(s, i)])
  {
    hide SkipWs, At, Token;
    match v
    case ArrV(open, items, close) =>
      AtConcat(s, i, Token(open, '['), ArrayInner(items, close));
      TokenAt(s, i, open, '[');
    case ObjV(open, members, close) =>
      AtConcat(s, i, Token(open, '{'), ObjectInner(members, close));
      TokenAt(s, i, open, '{');
    case _ =>
      ScalarStart(s, i, v);
  }

  lemma LiteralComplete(s: string, i: nat, depth: nat, v: Value, fits: string -> bool)
    requires (v.NullV? || v.TrueV? || v.FalseV?) && depth <= MAX_DEPTH && At(s, i, ValueText(v))
    ensures forall p :: 0 <= p <= |s| && SkipWs(s, p) == i ==> ValueAt(s, p, depth, fits) == Ok(Denote(v), i + |ValueText(v)|)
  {
    hide ObjectAt, ArrayAt, NumberAt, String, SkipWs;
    assert s[i] == s[i..i + |ValueText(v)|][0];
  }

  lemma StringValueComplete(s: string, i: nat, depth: nat, ks: seq<Chr>, fits: string -> bool)
    requires WfChars(ks) && depth <= MAX_DEPTH && At(s, i, StringText(ks))
    ensures forall p :: 0 <= p <= |s| && SkipWs(s, p) == i ==> ValueAt(s, p, depth, fits) == Ok(Str(CharsBytes(ks)), i + |StringText(ks)|)
  {
    hide ObjectAt, ArrayAt, NumberAt, Literal, SkipWs, StringLoop;
    QuotedComplete(s, i, ks);
  }

  lemma NumberValueComplete(s: string, i: nat, depth: nat, n: Num, fits: string -> bool)
    requires WfNum(n) && depth <= MAX_DEPTH && At(s, i, NumText(n)) && Stops(s, i + |NumText(n)|) && fits(NumText(n))
    ensures forall p :: 0 <= p <= |s| && SkipWs(s, p) == i ==> ValueAt(s, p, depth, fits) == Ok(Number(NumText(n)), i + |NumText(n)|)
  {
    hide ObjectAt, ArrayAt, Literal, SkipWs, String, NumberEnd, NumText, WfNum;
    NumberComplete(s, i, n);
  }

  /** A value starting at `i` is read from any position that skips to the same place. */
  lemma {:induction false} ValueComplete(s: string, i: nat, p: nat, depth: nat, v: Value, fits: string -> bool)
    requires Wf(v) && Admissible(v, fits, MAX_DEPTH - depth)
    requires At(s, i, ValueText(v)) && Follows(s, i + |ValueText(v)|)
    requires p <= |s| && SkipWs(s, p) == SkipWs(s, i)
    ensures ValueAt(s, p, depth, fits).Ok? && ValueAt(s, p, depth, fits).value == Denote(v)
    ensures SkipWs(s, ValueAt(s, p, depth, fits).next) == SkipWs(s, i + |ValueText(v)|)
    decreases |ValueText(v)|
  {
    hide SkipWs, ValueAt, Token, At, NumText, StringText;
    match v
    case ArrV(open, items, close) =>
      ArrayComplete(s, i, p, depth, open, items, close, fits);
    case ObjV(open, members, close) =>
      ObjectComplete(s, i, p, depth, open, members, close, fits);
    case NumV(n) =>
      ScalarStart(s, i, v);
      NumberValueComplete(s, i, depth, n, fits);
    case StrV(ks) =>
      ScalarStart(s, i, v);
      StringValueComplete(s, i, depth, ks, fits);
    case _ =>
      ScalarStart(s, i, v);
      LiteralComplete(s, i, depth, v, fits);
  }

  /** How an array is entered. */
  lemma ArrayStep(s: string, p: nat, depth: nat, fits: string -> bool)
    requires p <= |s| && depth <= MAX_DEPTH && SkipWs(s, p) < |s| && s[SkipWs(s, p)] == '['
    ensures ValueAt(s, p, depth, fits) ==
            var j := SkipWs(s, SkipWs(s, p) + 1);
            if j < |s| && s[j] == ']' then Ok(Array([]), j + 1) else ItemsAt(s, j, depth + 1, [], fits)
  {
    hide SkipWs, ItemsAt, ObjectAt, NumberAt, Literal, String;
    NoSkip(s, SkipWs(s, p));
  }

  lemma {:induction false} ArrayComplete(s: string, i: nat, p: nat, depth: nat, open: Gap, items: Items, close: Gap, fits: string -> bool)
    requires Wf(ArrV(open, items, close)) && Admissible(ArrV(open, items, close), fits, MAX_DEPTH - depth)
    requires At(s, i, Token(open, '[') + ArrayInner(items, close)) && p <= |s| && SkipWs(s, p) == SkipWs(s, i)
    ensures ValueAt(s, p, depth, fits).Ok? && ValueAt(s, p, depth, fits).value == Denote(ArrV(open, items, close))
    ensures SkipWs(s, ValueAt(s, p, depth, fits).next) == SkipWs(s, i + |Token(open, '[') + ArrayInner(items, close)|)
    decreases |Token(open, '[') + ArrayInner(items, close)|, 0
  {
    hide SkipWs, ValueAt, ItemsAt, At, Token, WfGap;
    AtConcat(s, i, Token(open, '['), ArrayInner(items, close));
    TokenAt(s, i, open, '[');
    ArrayStep(s, p, depth, fits);
    var k := i + |Token(open, '[')|;
    if items.NoItems? {
      TokenAt(s, k, close, ']');
    } else {
      ItemsStart(s, k, items.first, items.rest, close);
      SkipTwice(s, k);
      ItemsComplete(s, k, SkipWs(s, k), depth + 1, [], items.first, items.rest, close, fits);
      assert [] + ([Denote(items.first)] + DenoteItems(items.rest)) == [Denote(items.first)] + DenoteItems(items.rest);
    }
  }

  lemma ItemsFollow(s: string, k: nat, rest: ItemTail, close: Gap)
    requires WfItems(rest) && WfGap(close) && At(s, k, ItemsText(rest, Token(close, ']')))
    ensures Follows(s, k) && SkipWs(s, k) < |s|
  {
    if rest.ItemEnd? {
      TokenFollows(s, k, close, ']');
    } else {
      AtConcat(s, k, Token(rest.comma, ','), ValueText(rest.v) + ItemsText(rest.rest, Token(close, ']')));
      TokenFollows(s, k, rest.comma, ',');
    }
  }

  lemma ItemsStart(s: string, i: nat, first: Value, rest: ItemTail, close: Gap)
    requires Wf(first) && WfItems(rest) && WfGap(close)
    requires At(s, i, ValueText(first) + ItemsText(rest, Token(close, ']')))
    ensures SkipWs(s, i) < |s| && Starts(s[SkipWs(s, i)])
    ensures At(s, i, ValueText(first)) && At(s, i + |ValueText(first)|, ItemsText(rest, Token(close, ']')))
    ensures Follows(s, i + |ValueText(first)|)
  {
    AtConcat(s, i, ValueText(first), ItemsText(rest, Token(close, ']')));
    ItemsFollow(s, i + |ValueText(first)|, rest, close);
    ValueStart(s, i, first);
  }

  /** How an item is passed. */
  lemma ItemsStep(s: string, p: nat, depth: nat, acc: seq<Json>, fits: string -> bool)
    requires p <= |s| && ValueAt(s, p, depth, fits).Ok? && SkipWs(s, ValueAt(s, p, depth, fits).next) < |s|
    ensures var v := ValueAt(s, p, depth, fits);
            var e := SkipWs(s, v.next);
            && (s[e] == ']' ==> ItemsAt(s, p, depth, acc, fits) == Ok(Array(acc + [v.value]), e + 1))
            && (s[e] == ',' ==> ItemsAt(s, p, depth, acc, fits) == ItemsAt(s, e + 1, depth, acc + [v.value], fits))
  {
    hide SkipWs, ValueAt;
  }

  /** Where the pieces of further items stand. */
  lemma ItemsSplit(s: string, k: nat, rest: ItemTail, close: Gap)
    requires rest.ItemMore? && At(s, k, ItemsText(rest, Token(close, ']')))
    ensures At(s, k, Token(rest.comma, ','))
    ensures At(s, k + |Token(rest.comma, ',')|, ValueText(rest.v) + ItemsText(rest.rest, Token(close, ']')))
    ensures |ItemsText(rest, Token(close, ']'))| == |Token(rest.comma, ',')| + |ValueText(rest.v) + ItemsText(rest.rest, Token(close, ']'))|
    ensures |Token(rest.comma, ',')| > 0
  {
    AtConcat(s, k, Token(rest.comma, ','), ValueText(rest.v) + ItemsText(rest.rest, Token(close, ']')));
  }

  lemma {:induction false} ItemsComplete(s: string, i: nat, p: nat, depth: nat, acc: seq<Json>,
                                         first: Value, rest: ItemTail, close: Gap, fits: string -> bool)
    requires Wf(first) && WfItems(rest) && WfGap(close)
    requires Admissible(first, fits, MAX_DEPTH - depth) && AdmissibleItems(rest, fits, MAX_DEPTH - depth)
    requires At(s, i, ValueText(first) + ItemsText(rest, Token(close, ']')))
    requires p <= |s| && SkipWs(s, p) == SkipWs(s, i)
    ensures ItemsAt(s, p, depth, acc, fits).Ok?
    ensures ItemsAt(s, p, depth, acc, fits).value == Array(acc + ([Denote(first)] + DenoteItems(rest)))
    ensures SkipWs(s, ItemsAt(s, p, depth, acc, fits).next) == SkipWs(s, i + |ValueText(first) + ItemsText(rest, Token(close, ']'))|)
    decreases |ValueText(first) + ItemsText(rest, Token(close, ']'))|
  {
    hide SkipWs, ValueAt, ItemsAt, MembersAt, ArrayAt, At, Wf, Admissible, Token, ValueText, WfGap, Follows, Starts, Denote;
    ItemsStart(s, i, first, rest, close);
    var k := i + |ValueText(first)|;
    ItemsTextPositive(rest, close);
    ValueComplete(s, i, p, depth, first, fits);
    ItemsFollow(s, k, rest, close);
    ItemsStep(s, p, depth, acc, fits);
    if rest.ItemEnd? {
      TokenAt(s, k, close, ']');
      assert acc + ([Denote(first)] + DenoteItems(rest)) == acc + [Denote(first)];
    } else {
      ItemsSplit(s, k, rest, close);
      TokenAt(s, k, rest.comma, ',');
      ItemsComplete(s, k + |Token(rest.comma, ',')|, k + |rest.comma.before| + 1, depth, acc + [Denote(first)], rest.v, rest.rest, close, fits);
      assert acc + [Denote(first)] + ([Denote(rest.v)] + DenoteItems(rest.rest)) == acc + ([Denote(first)] + DenoteItems(rest));
    }
  }

  lemma ItemsTextPositive(rest: ItemTail, close: Gap)
    ensures |ItemsText(rest, Token(close, ']'))| > 0
  {
  }

  /** How an object is entered. */
  lemma ObjectStep(s: string, p: nat, depth: nat, fits: string -> bool)
    requires p <= |s| && depth <= MAX_DEPTH && SkipWs(s, p) < |s| && s[SkipWs(s, p)] == '{'
    ensures ValueAt(s, p, depth, fits) ==
            var j := SkipWs(s, SkipWs(s, p) + 1);
            if j < |s| && s[j] == '}' then Ok(Object(map[]), j + 1) else MembersAt(s, j, depth + 1, map[], fits)
  {
    hide SkipWs, MembersAt, ArrayAt, NumberAt, Literal, String;
    NoSkip(s, SkipWs(s, p));
  }

  lemma {:induction false} ObjectComplete(s: string, i: nat, p: nat, depth: nat, open: Gap, members: Members, close: Gap, fits: string -> bool)
    requires Wf(ObjV(open, members, close)) && Admissible(ObjV(open, members, close), fits, MAX_DEPTH - depth)
    requires At(s, i, Token(open, '{') + ObjectInner(members, close)) && p <= |s| && SkipWs(s, p) == SkipWs(s, i)
    ensures ValueAt(s, p, depth, fits).Ok? && ValueAt(s, p, depth, fits).value == Denote(ObjV(open, members, close))
    ensures SkipWs(s, ValueAt(s, p, depth, fits).next) == SkipWs(s, i + |Token(open, '{') + ObjectInner(members, close)|)
    decreases |Token(open, '{') + ObjectInner(members, close)|, 0
  {
    hide SkipWs, ValueAt, MembersAt, At, Token, String, MemberText, CharsBytes, WfChars, WfGap;
    AtConcat(s, i, Token(open, '{'), ObjectInner(members, close));
    TokenAt(s, i, open, '{');
    ObjectStep(s, p, depth, fits);
    var k := i + |Token(open, '{')|;
    if members.NoMembers? {
      TokenAt(s, k, close, '}');
    } else {
      MemberStart(s, k, members.name, members.colon, members.v, members.rest, close);
      SkipTwice(s, k);
      var all := map[CharsBytes(members.name) := Denote(members.v)] + DenoteMembers(members.rest);
      MembersComplete(s, k, SkipWs(s, k), depth + 1, map[], members.name, members.colon, members.v, members.rest, close, fits);
      assert map[] + all == all;
    }
  }

  lemma MembersFollow(s: string, k: nat, rest: MemberTail, close: Gap)
    requires WfMembers(rest) && WfGap(close) && At(s, k, MembersText(rest, Token(close, '}')))
    ensures Follows(s, k) && SkipWs(s, k) < |s|
  {
    if rest.MemberEnd? {
      TokenFollows(s, k, close, '}');
    } else {
      AtConcat(s, k, Token(rest.comma, ','), MemberText(rest.name, rest.colon, rest.v) + MembersText(rest.rest, Token(close, '}')));
      TokenFollows(s, k, rest.comma, ',');
    }
  }

  /** Where the pieces of a member stand. */
  lemma MemberSplit(s: string, i: nat, name: seq<Chr>, colon: Gap, v: Value)
    requires At(s, i, MemberText(name, colon, v))
    ensures At(s, i, StringText(name)) && At(s, i + |StringText(name)|, Token(colon, ':'))
    ensures At(s, i + |StringText(name)| + |Token(colon, ':')|, ValueText(v))
    ensures |MemberText(name, colon, v)| == |StringText(name)| + |Token(colon, ':')| + |ValueText(v)|
  {
    hide At, Token, ValueText, StringText;
    AtConcat(s, i, StringText(name), Token(colon, ':') + ValueText(v));
    AtConcat(s, i + |StringText(name)|, Token(colon, ':'), ValueText(v));
  }

  lemma MemberStart(s: string, i: nat, name: seq<Chr>, colon: Gap, v: Value, rest: MemberTail, close: Gap)
    requires WfChars(name) && WfMembers(rest) && WfGap(close)
    requires At(s, i, MemberText(name, colon, v) + MembersText(rest, Token(close, '}')))
    ensures SkipWs(s, i) == i < |s| && s[i] == '"'
    ensures At(s, i, MemberText(name, colon, v))
    ensures At(s, i + |MemberText(name, colon, v)|, MembersText(rest, Token(close, '}')))
    ensures Follows(s, i + |MemberText(name, colon, v)|) && SkipWs(s, i + |MemberText(name, colon, v)|) < |s|
  {
    hide At, Token, ValueText, SkipWs, StringLoop, MemberText, WfMembers, StringText;
    AtConcat(s, i, MemberText(name, colon, v), MembersText(rest, Token(close, '}')));
    MembersFollow(s, i + |MemberText(name, colon, v)|, rest, close);
    MemberSplit(s, i, name, colon, v);
    QuotedComplete(s, i, name);
    NoSkip(s, i);
  }

  /** Reading one member leaves the cursor before what follows it. */
  lemma {:induction false} MemberComplete(s: string, i: nat, depth: nat, name: seq<Chr>, colon: Gap, v: Value, fits: string -> bool)
    returns (key: Scan<string>, c: nat, r: Scan<Json>)
    requires WfChars(name) && WfGap(colon) && Wf(v) && Admissible(v, fits, MAX_DEPTH - depth)
    requires At(s, i, MemberText(name, colon, v)) && Follows(s, i + |MemberText(name, colon, v)|)
    ensures key == String(s, i) && key.Ok? && key.value == CharsBytes(name)
    ensures c == SkipWs(s, key.next) < |s| && s[c] == ':'
    ensures r == ValueAt(s, c + 1, depth, fits) && r.Ok? && r.value == Denote(v)
    ensures SkipWs(s, r.next) == SkipWs(s, i + |MemberText(name, colon, v)|)
    decreases |MemberText(name, colon, v)|, 1
  {
    hide ValueAt, SkipWs, At, String, Token, ValueText, MemberText, StringText, Wf, Admissible, Denote, WfChars, WfGap, Follows, CharsBytes;
    MemberSplit(s, i, name, colon, v);
    QuotedComplete(s, i, name);
    var k := i + |StringText(name)|;
    TokenAt(s, k, colon, ':');
    key, c := String(s, i), k + |colon.before|;
    ValueComplete(s, k + |Token(colon, ':')|, c + 1, depth, v, fits);
    r := ValueAt(s, c + 1, depth, fits);
  }

  /** How a member is passed. */
  lemma MembersStep(s: string, p: nat, depth: nat, acc: map<string, Json>, fits: string -> bool, key: Scan<string>, c: nat, r: Scan<Json>)
    requires p <= |s| && SkipWs(s, p) < |s| && s[SkipWs(s, p)] == '"'
    requires key == String(s, SkipWs(s, p)) && key.Ok? && key.value !in acc
    requires c == SkipWs(s, key.next) < |s| && s[c] == ':'
    requires r == ValueAt(s, c + 1, depth, fits) && r.Ok? && SkipWs(s, r.next) < |s|
    ensures var e := SkipWs(s, r.next);
            var grown := acc[key.value := r.value];
            && (s[e] == '}' ==> MembersAt(s, p, depth, acc, fits) == Ok(Object(grown), e + 1))
            && (s[e] == ',' ==> MembersAt(s, p, depth, acc, fits) == MembersAt(s, e + 1, depth, grown, fits))
  {
    hide SkipWs, ValueAt, String;
  }

  /** Where the pieces of further members stand. */
  lemma MembersSplit(s: string, k: nat, rest: MemberTail, close: Gap)
    requires rest.MemberMore? && At(s, k, MembersText(rest, Token(close, '}')))
    ensures At(s, k, Token(rest.comma, ','))
    ensures At(s, k + |Token(rest.comma, ',')|, MemberText(rest.name, rest.colon, rest.v) + MembersText(rest.rest, Token(close, '}')))
    ensures |MembersText(rest, Token(close, '}'))|
         == |Token(rest.comma, ',')| + |MemberText(rest.name, rest.colon, rest.v) + MembersText(rest.rest, Token(close, '}'))|
    ensures |Token(rest.comma, ',')| > 0
  {
    AtConcat(s, k, Token(rest.comma, ','), MemberText(rest.name, rest.colon, rest.v) + MembersText(rest.rest, Token(close, '}')));
  }

  lemma {:induction false} MembersComplete(s: string, i: nat, p: nat, depth: nat, acc: map<string, Json>,
                                           name: seq<Chr>, colon: Gap, v: Value, rest: MemberTail, close: Gap, fits: string -> bool)
    requires WfChars(name) && WfGap(colon) && Wf(v) && WfMembers(rest) && WfGap(close)
    requires Admissible(v, fits, MAX_DEPTH - depth) && AdmissibleMembers(rest, fits, MAX_DEPTH - depth)
    requires DistinctNames(rest) && CharsBytes(name) !in Names(rest)
    requires acc.Keys !! Names(rest) && CharsBytes(name) !in acc
    requires At(s, i, MemberText(name, colon, v) + MembersText(rest, Token(close, '}')))
    requires p <= |s| && SkipWs(s, p) == SkipWs(s, i)
    ensures MembersAt(s, p, depth, acc, fits).Ok?
    ensures MembersAt(s, p, depth, acc, fits).value == Object(acc + (map[CharsBytes(name) := Denote(v)] + DenoteMembers(rest)))
    ensures SkipWs(s, MembersAt(s, p, depth, acc, fits).next)
         == SkipWs(s, i + |MemberText(name, colon, v) + MembersText(rest, Token(close, '}'))|)
    decreases |MemberText(name, colon, v) + MembersText(rest, Token(close, '}'))|
  {
    hide SkipWs, ValueAt, MembersAt, String, At, Wf, Admissible, Token, ValueText, MemberText, CharsBytes, Denote, WfChars, WfGap, Follows;
    MembersTextPositive(rest, close);
    MemberStart(s, i, name, colon, v, rest, close);
    var key, c, r := MemberComplete(s, i, depth, name, colon, v, fits);
    MembersStep(s, p, depth, acc, fits, key, c, r);
    var k := i + |MemberText(name, colon, v)|;
    var grown := acc[CharsBytes(name) := Denote(v)];
    if rest.MemberEnd? {
      TokenAt(s, k, close, '}');
      assert acc + (map[CharsBytes(name) := Denote(v)] + DenoteMembers(rest)) == grown;
    } else {
      MembersSplit(s, k, rest, close);
      TokenAt(s, k, rest.comma, ',');
      MembersComplete(s, k + |Token(rest.comma, ',')|, k + |rest.comma.before| + 1, depth, grown, rest.name, rest.colon, rest.v, rest.rest, close, fits);
      MapsJoin(acc, CharsBytes(name), Denote(v), rest);
    }
  }

  lemma MembersTextPositive(rest: MemberTail, close: Gap)
    ensures |MembersText(rest, Token(close, '}'))| > 0
  {
  }

  lemma OnlyWsLeft(s: string, k: nat, w: string)
    requires At(s, k, w) && AllWs(w) && k + |w| == |s|
    ensures Follows(s, k) && SkipWs(s, k) == |s|
  {
    SkipOver(s, k, w);
    assert k < |s| ==> s[k] == s[k..k + |w|][0];
  }

  /** A derivable text is accepted, and read to its end. */
  lemma DocumentComplete(d: Doc, fits: string -> bool)
    requires WfDoc(d) && Admissible(d.v, fits, MAX_DEPTH)
    ensures Document(DocText(d), fits) == Ok(Denote(d.v), |DocText(d)|)
  {
    hide ValueAt, SkipWs, ValueText, Wf, Admissible;
    var s := DocText(d);
    assert At(s, 0, s);
    AtConcat(s, 0, d.before, ValueText(d.v) + d.after);
    var i := |d.before|;
    AtConcat(s, i, ValueText(d.v), d.after);
    var k := i + |ValueText(d.v)|;
    OnlyWsLeft(s, k, d.after);
    SkipOver(s, 0, d.before);
    ValueComplete(s, i, 0, 0, d.v, fits);
  }
}
