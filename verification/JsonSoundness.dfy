/** Every accepted text has a derivation in the restricted grammar that denotes the value returned. */
module JsonSoundness {
  import opened Wrappers
  import opened Text
  import opened JsonGrammar
  import opened JsonScanner
  import opened JsonStrings
  import opened JsonNumbers

  /** The whitespace a skip passes over. */
  function Skipped(s: string, i: nat): (w: string)
    requires i <= |s|
    ensures i + |w| == SkipWs(s, i)
  {
    s[i..SkipWs(s, i)]
  }

  lemma SkippedAt(s: string, i: nat)
    requires i <= |s|
    ensures AllWs(Skipped(s, i)) && At(s, i, Skipped(s, i))
  {
    SkippedIsWs(s, i);
  }

  /** A structural character found after a skip, up to position `k`. */
  lemma TokenFound(s: string, i: nat, c: char) returns (g: Gap)
    requires i <= |s| && SkipWs(s, i) < |s| && s[SkipWs(s, i)] == c
    ensures WfGap(g) && At(s, i, Token(g, c)) && SkipWs(s, i) + 1 == i + |Token(g, c)| && g.after == ""
  {
    g := Gap(Skipped(s, i), "");
    SkippedAt(s, i);
    assert s[SkipWs(s, i)..SkipWs(s, i) + 1] == [c];
    AtConcat(s, i, g.before, [c]);
    assert Token(g, c) == g.before + [c];
  }

  /** A structural character whose trailing whitespace is skipped as well. */
  lemma TokenWiden(s: string, i: nat, g: Gap, c: char) returns (wide: Gap)
    requires WfGap(g) && At(s, i, Token(g, c)) && g.after == ""
    ensures WfGap(wide) && At(s, i, Token(wide, c)) && i + |Token(wide, c)| == SkipWs(s, i + |Token(g, c)|)
  {
    var k := i + |Token(g, c)|;
    wide := Gap(g.before, Skipped(s, k));
    SkippedAt(s, k);
    AtConcat(s, i, Token(g, c), wide.after);
    assert Token(g, c) + wide.after == Token(wide, c);
  }

  /** The derivation of an accepted value, from its first character on. */
  lemma {:induction false} ValueSound(s: string, i: nat, depth: nat, fits: string -> bool) returns (v: Value)
    requires i <= |s| && ValueAt(s, i, depth, fits).Ok?
    ensures Wf(v) && Admissible(v, fits, MAX_DEPTH - depth)
    ensures At(s, SkipWs(s, i), ValueText(v))
    ensures ValueAt(s, i, depth, fits) == Ok(Denote(v), SkipWs(s, i) + |ValueText(v)|)
    decreases |s| - i, 2
  {
    hide ObjectAt, ArrayAt, SkipWs, NumberAt, String, Literal, At, NumText, StringText, CharsBytes;
    var j := SkipWs(s, i);
    if s[j] == '{' {
      v := ObjectSound(s, j, depth + 1, fits);
    } else if s[j] == '[' {
      v := ArraySound(s, j, depth + 1, fits);
    } else if s[j] == '"' {
      var ks := QuotedSound(s, j);
      v := StrV(ks);
    } else if s[j] == 't' || s[j] == 'f' || s[j] == 'n' {
      v := LiteralSound(s, j);
    } else {
      v := NumberValueSound(s, j, fits);
    }
  }

  lemma LiteralSound(s: string, j: nat) returns (v: Value)
    requires j < |s| && (s[j] == 't' || s[j] == 'f' || s[j] == 'n')
    ensures v.TrueV? || v.FalseV? || v.NullV?
    ensures v == if s[j] == 't' then TrueV else if s[j] == 'f' then FalseV else NullV
    ensures Literal(s, j, ValueText(v), Denote(v)).Ok? ==>
              At(s, j, ValueText(v)) && Literal(s, j, ValueText(v), Denote(v)) == Ok(Denote(v), j + |ValueText(v)|)
  {
    v := if s[j] == 't' then TrueV else if s[j] == 'f' then FalseV else NullV;
  }

  lemma NumberValueSound(s: string, j: nat, fits: string -> bool) returns (v: Value)
    requires j < |s| && NumberAt(s, j, fits).Ok?
    ensures v.NumV? && WfNum(v.n) && fits(NumText(v.n)) && At(s, j, NumText(v.n))
    ensures NumberAt(s, j, fits) == Ok(Number(NumText(v.n)), j + |NumText(v.n)|)
  {
    hide NumberEnd, NumText, WfNum;
    var n := NumberSound(s, j);
    v := NumV(n);
  }

  lemma {:induction false} ArraySound(s: string, j: nat, depth: nat, fits: string -> bool) returns (v: Value)
    requires j < |s| && s[j] == '[' && ArrayAt(s, j, depth, fits).Ok? && depth <= MAX_DEPTH + 1
    ensures v.ArrV? && Wf(v) && Admissible(v, fits, MAX_DEPTH + 1 - depth)
    ensures At(s, j, ValueText(v)) && ArrayAt(s, j, depth, fits) == Ok(Denote(v), j + |ValueText(v)|)
    decreases |s| - j, 1
  {
    hide ItemsAt, SkipWs, At, Token, WfGap;
    NoSkip(s, j);
    var g := TokenFound(s, j, '[');
    var open := TokenWiden(s, j, g, '[');
    var k := SkipWs(s, j + 1);
    if k < |s| && s[k] == ']' {
      NoSkip(s, k);
      var close := TokenFound(s, k, ']');
      v := ArrV(open, NoItems, close);
      AtConcat(s, j, Token(open, '['), ArrayInner(NoItems, close));
    } else {
      SkipTwice(s, j + 1);
      var first, rest, close := ItemsSound(s, k, depth, [], fits);
      v := ArrV(open, Items(first, rest), close);
      AtConcat(s, j, Token(open, '['), ArrayInner(v.items, close));
      assert [] + ([Denote(first)] + DenoteItems(rest)) == [Denote(first)] + DenoteItems(rest);
    }
  }

  lemma {:induction false} ItemsSound(s: string, i: nat, depth: nat, acc: seq<Json>, fits: string -> bool)
    returns (first: Value, rest: ItemTail, close: Gap)
    requires i <= |s| && ItemsAt(s, i, depth, acc, fits).Ok?
    ensures Wf(first) && WfItems(rest) && WfGap(close)
    ensures Admissible(first, fits, MAX_DEPTH - depth) && AdmissibleItems(rest, fits, MAX_DEPTH - depth)
    ensures At(s, SkipWs(s, i), ValueText(first) + ItemsText(rest, Token(close, ']')))
    ensures ItemsAt(s, i, depth, acc, fits)
         == Ok(Array(acc + ([Denote(first)] + DenoteItems(rest))), SkipWs(s, i) + |ValueText(first) + ItemsText(rest, Token(close, ']'))|)
    decreases |s| - i, 3
  {
    hide ValueAt, SkipWs, At, Token, WfGap, Wf, Admissible, ValueText, Denote, Expected;
    first := ValueSound(s, i, depth, fits);
    var st := SkipWs(s, i);
    var k := st + |ValueText(first)|;
    var e := SkipWs(s, k);
    if s[e] == ']' {
      close := TokenFound(s, k, ']');
      rest := ItemEnd;
      assert acc + ([Denote(first)] + DenoteItems(rest)) == acc + [Denote(first)];
    } else {
      var g := TokenFound(s, k, ',');
      var comma := TokenWiden(s, k, g, ',');
      var v, more;
      v, more, close := ItemsSound(s, e + 1, depth, acc + [Denote(first)], fits);
      rest := ItemMore(comma, v, more);
      AtConcat(s, k, Token(comma, ','), ValueText(v) + ItemsText(more, Token(close, ']')));
      assert acc + [Denote(first)] + ([Denote(v)] + DenoteItems(more)) == acc + ([Denote(first)] + DenoteItems(rest));
    }
    AtConcat(s, st, ValueText(first), ItemsText(rest, Token(close, ']')));
  }

  lemma {:induction false} ObjectSound(s: string, j: nat, depth: nat, fits: string -> bool) returns (v: Value)
    requires j < |s| && s[j] == '{' && ObjectAt(s, j, depth, fits).Ok? && depth <= MAX_DEPTH + 1
    ensures v.ObjV? && Wf(v) && Admissible(v, fits, MAX_DEPTH + 1 - depth)
    ensures At(s, j, ValueText(v)) && ObjectAt(s, j, depth, fits) == Ok(Denote(v), j + |ValueText(v)|)
    decreases |s| - j, 1
  {
    hide MembersAt, SkipWs, At, Token, WfGap, MemberText, CharsBytes, WfChars;
    NoSkip(s, j);
    var g := TokenFound(s, j, '{');
    var open := TokenWiden(s, j, g, '{');
    var k := SkipWs(s, j + 1);
    if k < |s| && s[k] == '}' {
      NoSkip(s, k);
      var close := TokenFound(s, k, '}');
      v := ObjV(open, NoMembers, close);
      AtConcat(s, j, Token(open, '{'), ObjectInner(NoMembers, close));
    } else {
      SkipTwice(s, j + 1);
      var name, colon, first, rest, close := MembersSound(s, k, depth, map[], fits);
      v := ObjV(open, Members(name, colon, first, rest), close);
      AtConcat(s, j, Token(open, '{'), ObjectInner(v.members, close));
      var all := map[CharsBytes(name) := Denote(first)] + DenoteMembers(rest);
      assert map[] + all == all;
    }
  }

  /** One member: its name, its colon and its value. */
  lemma {:induction false} MemberSound(s: string, j: nat, depth: nat, fits: string -> bool)
    returns (name: seq<Chr>, colon: Gap, v: Value)
    requires j <= |s| && String(s, j).Ok?
    requires SkipWs(s, String(s, j).next) < |s| && s[SkipWs(s, String(s, j).next)] == ':'
    requires ValueAt(s, SkipWs(s, String(s, j).next) + 1, depth, fits).Ok?
    ensures WfChars(name) && WfGap(colon) && Wf(v) && Admissible(v, fits, MAX_DEPTH - depth)
    ensures At(s, j, MemberText(name, colon, v)) && String(s, j).value == CharsBytes(name)
    ensures ValueAt(s, SkipWs(s, String(s, j).next) + 1, depth, fits) == Ok(Denote(v), j + |MemberText(name, colon, v)|)
    decreases |s| - j, 2
  {
    hide ValueAt, SkipWs, StringLoop, At, Token, WfGap, Wf, Admissible, ValueText, StringText, WfChars, CharsBytes;
    name := QuotedSound(s, j);
    var k := j + |StringText(name)|;
    var g := TokenFound(s, k, ':');
    colon := TokenWiden(s, k, g, ':');
    v := ValueSound(s, SkipWs(s, k) + 1, depth, fits);
    AtConcat(s, k, Token(colon, ':'), ValueText(v));
    AtConcat(s, j, StringText(name), Token(colon, ':') + ValueText(v));
  }

  lemma {:induction false} MembersSound(s: string, i: nat, depth: nat, acc: map<string, Json>, fits: string -> bool)
    returns (name: seq<Chr>, colon: Gap, v: Value, rest: MemberTail, close: Gap)
    requires i <= |s| && MembersAt(s, i, depth, acc, fits).Ok?
    ensures WfChars(name) && WfGap(colon) && Wf(v) && WfMembers(rest) && WfGap(close)
    ensures Admissible(v, fits, MAX_DEPTH - depth) && AdmissibleMembers(rest, fits, MAX_DEPTH - depth)
    ensures CharsBytes(name) !in acc && acc.Keys !! Names(rest) && CharsBytes(name) !in Names(rest) && DistinctNames(rest)
    ensures At(s, SkipWs(s, i), MemberText(name, colon, v) + MembersText(rest, Token(close, '}')))
    ensures MembersAt(s, i, depth, acc, fits)
         == Ok(Object(acc + (map[CharsBytes(name) := Denote(v)] + DenoteMembers(rest))),
               SkipWs(s, i) + |MemberText(name, colon, v) + MembersText(rest, Token(close, '}'))|)
    decreases |s| - i, 3
  {
    hide ValueAt, SkipWs, String, At, Token, WfGap, Wf, Admissible, ValueText, MemberText, WfChars, CharsBytes, Denote, Skipped, StringLoop, Expected;
    var st := SkipWs(s, i);
    name, colon, v := MemberSound(s, st, depth, fits);
    var k := st + |MemberText(name, colon, v)|;
    var e := SkipWs(s, k);
    var grown := acc[CharsBytes(name) := Denote(v)];
    if s[e] == '}' {
      close := TokenFound(s, k, '}');
      rest := MemberEnd;
      assert acc + (map[CharsBytes(name) := Denote(v)] + DenoteMembers(rest)) == grown;
    } else {
      var g := TokenFound(s, k, ',');
      var comma := TokenWiden(s, k, g, ',');
      var name', colon', v', more;
      name', colon', v', more, close := MembersSound(s, e + 1, depth, grown, fits);
      rest := MemberMore(comma, name', colon', v', more);
      AtConcat(s, k, Token(comma, ','), MemberText(name', colon', v') + MembersText(more, Token(close, '}')));
      MapsJoin(acc, CharsBytes(name), Denote(v), rest);
    }
    AtConcat(s, st, MemberText(name, colon, v), MembersText(rest, Token(close, '}')));
  }

  lemma DocumentSound(s: string, fits: string -> bool) returns (d: Doc)
    requires Document(s, fits).Ok?
    ensures WfDoc(d) && Admissible(d.v, fits, MAX_DEPTH) && DocText(d) == s && Document(s, fits) == Ok(Denote(d.v), |s|)
  {
    hide ValueAt, SkipWs, ValueText, Wf, Admissible;
    var v := ValueSound(s, 0, 0, fits);
    var k := SkipWs(s, 0) + |ValueText(v)|;
    d := Doc(Skipped(s, 0), v, Skipped(s, k));
    SkippedAt(s, 0);
    SkippedAt(s, k);
    AtConcat(s, SkipWs(s, 0), ValueText(v), d.after);
    AtConcat(s, 0, d.before, ValueText(v) + d.after);
  }
}
