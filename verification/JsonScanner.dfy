/** What each method of the parser in src/task_plan.cpp computes, as functions of the text and the
    position: the value and the position after it, or the position and text of the exception. */
module JsonScanner {
  import opened Wrappers
  import opened Unicode
  import opened JsonGrammar

  /** The text of the exception for a missing character. */
  function Expected(c: char): string {
    "expected '" + [c] + "'"
  }

  function SkipWs(s: string, i: nat): (j: nat)
    requires i <= |s|
    ensures i <= j <= |s| && (j < |s| ==> !IsWs(s[j]))
    decreases |s| - i
  {
    if i < |s| && IsWs(s[i]) then SkipWs(s, i + 1) else i
  }

  lemma NoSkip(s: string, i: nat)
    requires i < |s| && !IsWs(s[i])
    ensures SkipWs(s, i) == i
  {
  }

  lemma SkipTwice(s: string, i: nat)
    requires i <= |s|
    ensures SkipWs(s, SkipWs(s, i)) == SkipWs(s, i)
  {
  }

  lemma SkippedIsWs(s: string, i: nat)
    requires i <= |s|
    ensures AllWs(s[i..SkipWs(s, i)])
    decreases |s| - i
  {
    if i < |s| && IsWs(s[i]) {
      SkippedIsWs(s, i + 1);
      assert s[i..SkipWs(s, i)] == [s[i]] + s[i + 1..SkipWs(s, i)];
    }
  }

  function Digits(s: string, i: nat): (j: nat)
    requires i <= |s|
    ensures i <= j <= |s| && (j < |s| ==> !IsDigit(s[j]))
    decreases |s| - i
  {
    if i < |s| && IsDigit(s[i]) then Digits(s, i + 1) else i
  }

  lemma RunIsDigits(s: string, i: nat)
    requires i <= |s|
    ensures AllDigits(s[i..Digits(s, i)])
    decreases |s| - i
  {
    if i < |s| && IsDigit(s[i]) {
      RunIsDigits(s, i + 1);
      assert s[i..Digits(s, i)] == [s[i]] + s[i + 1..Digits(s, i)];
    }
  }

  /** The next `left` hexadecimal digits, after digits worth `acc`. */
  function HexLoop(s: string, i: nat, left: nat, acc: nat): (r: Scan<nat>)
    requires i + left <= |s|
    ensures r.Ok? ==> r.next == i + left
    ensures r.Err? ==> r.at <= |s|
    decreases left
  {
    if left == 0 then Ok(acc, i)
    else if IsHex(s[i]) then HexLoop(s, i + 1, left - 1, acc * 16 + HexDigit(s[i]))
    else Err(i + 1, "invalid Unicode escape")
  }

  function HexQuad(s: string, i: nat): (r: Scan<nat>)
    requires i <= |s|
    ensures r.Ok? ==> r.next == i + 4 <= |s| && IsHex4(s[i..i + 4]) && r.value == Hex4(s[i..i + 4])
    ensures r.Err? ==> r.at <= |s|
    ensures i + 4 <= |s| && IsHex4(s[i..i + 4]) ==> r.Ok?
  {
    if i + 4 > |s| then Err(i, "incomplete Unicode escape")
    else
      var r := HexLoop(s, i, 4, 0);
      HexLoopValue(s, i);
      r
  }

  lemma HexLoopValue(s: string, i: nat)
    requires i + 4 <= |s|
    ensures HexLoop(s, i, 4, 0).Ok? <==> IsHex4(s[i..i + 4])
    ensures HexLoop(s, i, 4, 0).Ok? ==> HexLoop(s, i, 4, 0).value == Hex4(s[i..i + 4])
  {
    if IsHex(s[i]) {
      var a := HexDigit(s[i]);
      assert HexLoop(s, i, 4, 0) == HexLoop(s, i + 1, 3, a);
      if IsHex(s[i + 1]) {
        var b := a * 16 + HexDigit(s[i + 1]);
        assert HexLoop(s, i + 1, 3, a) == HexLoop(s, i + 2, 2, b);
        if IsHex(s[i + 2]) {
          var c := b * 16 + HexDigit(s[i + 2]);
          assert HexLoop(s, i + 2, 2, b) == HexLoop(s, i + 3, 1, c);
        }
      }
    }
  }

  /** The bytes of the escape whose first character after the backslash is at `i`. */
  function EscapeAt(s: string, i: nat): (r: Scan<string>)
    requires i < |s|
    ensures r.Ok? ==> i < r.next <= |s|
    ensures r.Err? ==> r.at <= |s|
  {
    if s[i] == 'u' then
      var first := HexQuad(s, i + 1);
      if first.Err? then Err(first.at, first.why)
      else if IsHigh(first.value) then
        if first.next + 2 > |s| || s[first.next] != '\\' || s[first.next + 1] != 'u' then
          Err(first.next, "high surrogate is not followed by a low surrogate")
        else
          var low := HexQuad(s, first.next + 2);
          if low.Err? then Err(low.at, low.why)
          else if !IsLow(low.value) then Err(low.next, "invalid low surrogate")
          else Ok(Utf8(Combine(first.value, low.value)), low.next)
      else if IsLow(first.value) then Err(first.next, "unexpected low surrogate")
      else Ok(Utf8(first.value), first.next)
    else if IsShort(s[i]) then Ok([Unescape(s[i])], i + 1)
    else Err(i + 1, "invalid string escape")
  }

  /** The rest of a string from `i`, after contents `acc`. */
  function StringLoop(s: string, i: nat, acc: string): (r: Scan<string>)
    requires i <= |s|
    ensures r.Ok? ==> i < r.next <= |s|
    ensures r.Err? ==> r.at <= |s|
    decreases |s| - i
  {
    if i >= |s| then Err(i, "unterminated string")
    else if s[i] == '"' then Ok(acc, i + 1)
    else if s[i] as int < 0x20 then Err(i + 1, "unescaped control character in string")
    else if s[i] != '\\' then StringLoop(s, i + 1, acc + [s[i]])
    else if i + 1 >= |s| then Err(i + 1, "incomplete string escape")
    else
      var e := EscapeAt(s, i + 1);
      if e.Err? then e else StringLoop(s, e.next, acc + e.value)
  }

  function String(s: string, i: nat): (r: Scan<string>)
    requires i <= |s|
    ensures r.Ok? ==> i < r.next <= |s|
    ensures r.Err? ==> r.at <= |s|
  {
    if i >= |s| || s[i] != '"' then Err(i, "expected a string") else StringLoop(s, i + 1, "")
  }

  function WholePart(s: string, i: nat): (r: Scan<()>)
    requires i < |s|
    ensures r.Ok? ==> i < r.next <= |s|
    ensures r.Err? ==> r.at <= |s|
  {
    if s[i] == '0' then
      if i + 1 < |s| && IsDigit(s[i + 1]) then Err(i + 1, "leading zero in number") else Ok((), i + 1)
    else if '1' <= s[i] <= '9' then
      assert Digits(s, i) == Digits(s, i + 1);
      Ok((), Digits(s, i))
    else Err(i, "invalid number")
  }

  function FracPart(s: string, i: nat): (r: Scan<()>)
    requires i <= |s|
    ensures r.Ok? ==> i <= r.next <= |s|
    ensures r.Err? ==> r.at <= |s|
  {
    if i < |s| && s[i] == '.' then
      if i + 1 >= |s| || !IsDigit(s[i + 1]) then Err(i + 1, "invalid fractional number") else Ok((), Digits(s, i + 1))
    else Ok((), i)
  }

  function ExpPart(s: string, i: nat): (r: Scan<()>)
    requires i <= |s|
    ensures r.Ok? ==> i <= r.next <= |s|
    ensures r.Err? ==> r.at <= |s|
  {
    if i < |s| && (s[i] == 'e' || s[i] == 'E') then
      var j := if i + 1 < |s| && (s[i + 1] == '+' || s[i + 1] == '-') then i + 2 else i + 1;
      if j >= |s| || !IsDigit(s[j]) then Err(j, "invalid number exponent") else Ok((), Digits(s, j))
    else Ok((), i)
  }

  /** Where the number starting at `i` ends. */
  function NumberEnd(s: string, i: nat): (r: Scan<()>)
    requires i < |s|
    ensures r.Ok? ==> i < r.next <= |s|
    ensures r.Err? ==> r.at <= |s|
  {
    var j := if s[i] == '-' then i + 1 else i;
    if j >= |s| then Err(j, "incomplete number")
    else
      var whole := WholePart(s, j);
      if whole.Err? then whole
      else
        var frac := FracPart(s, whole.next);
        if frac.Err? then frac else ExpPart(s, frac.next)
  }

  function NumberAt(s: string, i: nat, fits: string -> bool): (r: Scan<Json>)
    requires i < |s|
    ensures r.Ok? ==> i < r.next <= |s|
    ensures r.Err? ==> r.at <= |s|
  {
    var end := NumberEnd(s, i);
    if end.Err? then Err(end.at, end.why)
    else if !fits(s[i..end.next]) then Err(end.next, "number is outside the supported range")
    else Ok(Number(s[i..end.next]), end.next)
  }

  function Literal(s: string, i: nat, text: string, v: Json): (r: Scan<Json>)
    requires i < |s| && |text| > 0
    ensures r.Ok? ==> i < r.next <= |s|
    ensures r.Err? ==> r.at <= |s|
  {
    if i + |text| <= |s| && s[i..i + |text|] == text then Ok(v, i + |text|) else Err(i, "invalid literal")
  }

  function ValueAt(s: string, i: nat, depth: nat, fits: string -> bool): (r: Scan<Json>)
    requires i <= |s|
    ensures r.Ok? ==> i < r.next <= |s|
    ensures r.Err? ==> r.at <= |s|
    decreases |s| - i, 2
  {
    var j := SkipWs(s, i);
    if depth > MAX_DEPTH then Err(j, "maximum nesting depth exceeded")
    else if j >= |s| then Err(j, "expected a JSON value")
    else if s[j] == '{' then ObjectAt(s, j, depth + 1, fits)
    else if s[j] == '[' then ArrayAt(s, j, depth + 1, fits)
    else if s[j] == '"' then
      var t := String(s, j);
      if t.Err? then Err(t.at, t.why) else Ok(Str(t.value), t.next)
    else if s[j] == 't' then Literal(s, j, "true", Bool(true))
    else if s[j] == 'f' then Literal(s, j, "false", Bool(false))
    else if s[j] == 'n' then Literal(s, j, "null", Null)
    else if s[j] == '-' || IsDigit(s[j]) then NumberAt(s, j, fits)
    else Err(j, "unexpected character")
  }

  function ObjectAt(s: string, i: nat, depth: nat, fits: string -> bool): (r: Scan<Json>)
    requires i <= |s|
    ensures r.Ok? ==> i < r.next <= |s|
    ensures r.Err? ==> r.at <= |s|
    decreases |s| - i, 1
  {
    var k := SkipWs(s, i);
    if k >= |s| || s[k] != '{' then Err(k, Expected('{'))
    else
      var j := SkipWs(s, k + 1);
      if j < |s| && s[j] == '}' then Ok(Object(map[]), j + 1) else MembersAt(s, j, depth, map[], fits)
  }

  /** The members from `i` up to the closing brace, after members `acc`. */
  function MembersAt(s: string, i: nat, depth: nat, acc: map<string, Json>, fits: string -> bool): (r: Scan<Json>)
    requires i <= |s|
    ensures r.Ok? ==> i < r.next <= |s|
    ensures r.Err? ==> r.at <= |s|
    decreases |s| - i, 3
  {
    var j := SkipWs(s, i);
    if j >= |s| || s[j] != '"' then Err(j, "expected an object property name")
    else
      var key := String(s, j);
      if key.Err? then Err(key.at, key.why)
      else
        var c := SkipWs(s, key.next);
        if c >= |s| || s[c] != ':' then Err(c, Expected(':'))
        else
          var v := ValueAt(s, c + 1, depth, fits);
          if v.Err? then v
          else if key.value in acc then Err(v.next, "duplicate object property: " + key.value)
          else
            var e := SkipWs(s, v.next);
            if e < |s| && s[e] == '}' then Ok(Object(acc[key.value := v.value]), e + 1)
            else if e < |s| && s[e] == ',' then MembersAt(s, e + 1, depth, acc[key.value := v.value], fits)
            else Err(e, Expected(','))
  }

  function ArrayAt(s: string, i: nat, depth: nat, fits: string -> bool): (r: Scan<Json>)
    requires i <= |s|
    ensures r.Ok? ==> i < r.next <= |s|
    ensures r.Err? ==> r.at <= |s|
    decreases |s| - i, 1
  {
    var k := SkipWs(s, i);
    if k >= |s| || s[k] != '[' then Err(k, Expected('['))
    else
      var j := SkipWs(s, k + 1);
      if j < |s| && s[j] == ']' then Ok(Array([]), j + 1) else ItemsAt(s, j, depth, [], fits)
  }

  /** The items from `i` up to the closing bracket, after items `acc`. */
  function ItemsAt(s: string, i: nat, depth: nat, acc: seq<Json>, fits: string -> bool): (r: Scan<Json>)
    requires i <= |s|
    ensures r.Ok? ==> i < r.next <= |s|
    ensures r.Err? ==> r.at <= |s|
    decreases |s| - i, 3
  {
    var v := ValueAt(s, i, depth, fits);
    if v.Err? then v
    else
      var e := SkipWs(s, v.next);
      if e < |s| && s[e] == ']' then Ok(Array(acc + [v.value]), e + 1)
      else if e < |s| && s[e] == ',' then ItemsAt(s, e + 1, depth, acc + [v.value], fits)
      else Err(e, Expected(','))
  }

  /** The whole text as one value. */
  function Document(s: string, fits: string -> bool): (r: Scan<Json>) {
    var v := ValueAt(s, 0, 0, fits);
    if v.Err? then v
    else
      var e := SkipWs(s, v.next);
      if e != |s| then Err(e, "unexpected content after the JSON value") else Ok(v.value, e)
  }
}
