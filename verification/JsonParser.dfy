/** The recursive-descent parser of src/task_plan.cpp: a cursor over a byte string. `fits` stands
    for the range test of `std::stod`. Where src/task_plan.cpp throws, a method returns `Err` with the
    position of the cursor and the text. */
module JsonParser {
  import opened Wrappers
  import opened Unicode
  import opened JsonGrammar
  import opened JsonScanner
  import opened JsonTheorems

  /** Appends the UTF-8 form of a code point. */
  method AppendUtf8(output: string, codepoint: nat) returns (grown: string)
    requires codepoint <= 0x10FFFF
    ensures grown == output + Utf8(codepoint)
    ensures IsScalar(codepoint) ==> WellFormed(grown[|output|..]) && Lax(grown[|output|..]) && Payload(grown[|output|..]) == codepoint
  {
    grown := output;
    if codepoint <= 0x7F {
      grown := grown + [Byte(codepoint)];
    } else if codepoint <= 0x7FF {
      grown := grown + [Byte(0xC0 + codepoint / 64)];
      grown := grown + [Byte(0x80 + codepoint % 64)];
    } else if codepoint <= 0xFFFF {
      grown := grown + [Byte(0xE0 + codepoint / 4096)];
      grown := grown + [Byte(0x80 + codepoint / 64 % 64)];
      grown := grown + [Byte(0x80 + codepoint % 64)];
    } else {
      grown := grown + [Byte(0xF0 + codepoint / 262144)];
      grown := grown + [Byte(0x80 + codepoint / 4096 % 64)];
      grown := grown + [Byte(0x80 + codepoint / 64 % 64)];
      grown := grown + [Byte(0x80 + codepoint % 64)];
    }
    assert grown == output + Utf8(codepoint);
    if IsScalar(codepoint) {
      assert grown[|output|..] == Utf8(codepoint);
      EncodeThenDecode(codepoint);
    }
  }

  class Parser {
    const input: string
    const fits: string -> bool
    var position: nat

    constructor (input: string, fits: string -> bool)
      ensures this.input == input && this.fits == fits && position == 0
    {
      this.input, this.fits, position := input, fits, 0;
    }

    /** Parses the whole input: `v` is returned exactly when the input derives `v`. */
    method Parse() returns (r: Scan<Json>)
      requires position == 0
      modifies this`position
      ensures r == Document(input, fits) && position == r.Position() <= |input|
      ensures forall v :: r == Ok(v, |input|) <==> Derives(input, v, fits)
      ensures r.Err? <==> forall v :: !Derives(input, v, fits)
    {
      r := ParseDocument();
      forall v
        ensures r == Ok(v, |input|) <==> Derives(input, v, fits)
      {
        AcceptsExactlyTheGrammar(input, v, fits);
      }
      RejectsExactlyTheRest(input, fits);
    }

    method ParseDocument() returns (r: Scan<Json>)
      requires position == 0
      modifies this`position
      ensures r == Document(input, fits) && position == r.Position() <= |input|
    {
      var value :- ParseValue(0);
      SkipWhitespace();
      if position != |input| {
        return Err(position, "unexpected content after the JSON value");
      }
      r := Ok(value, position);
    }

    method SkipWhitespace()
      requires position <= |input|
      modifies this`position
      ensures position == SkipWs(input, old(position))
    {
      while position < |input| && IsWs(input[position])
        invariant old(position) <= position <= |input|
        invariant SkipWs(input, position) == SkipWs(input, old(position))
      {
        position := position + 1;
      }
    }

    method Consume(expected: char) returns (found: bool)
      requires position <= |input|
      modifies this`position
      ensures var j := SkipWs(input, old(position));
              && found == (j < |input| && input[j] == expected)
              && position == (if found then j + 1 else j)
      ensures !found ==> SkipWs(input, position) == position
    {
      SkipWhitespace();
      SkipTwice(input, old(position));
      if position < |input| && input[position] == expected {
        position := position + 1;
        return true;
      }
      return false;
    }

    method Expect(expected: char) returns (r: Scan<()>)
      requires position <= |input|
      modifies this`position
      ensures var j := SkipWs(input, old(position));
              && r == (if j < |input| && input[j] == expected then Ok((), j + 1) else Err(j, Expected(expected)))
              && position == r.Position()
    {
      var found := Consume(expected);
      if !found {
        return Err(position, Expected(expected));
      }
      r := Ok((), position);
    }

    method ParseValue(depth: nat) returns (r: Scan<Json>)
      requires position <= |input|
      modifies this`position
      ensures r == ValueAt(input, old(position), depth, fits) && position == r.Position()
      decreases |input| - position, 2
    {
      hide MembersAt, ItemsAt, NumberEnd, EscapeAt;
      SkipWhitespace();
      if depth > MAX_DEPTH {
        return Err(position, "maximum nesting depth exceeded");
      }
      if position >= |input| {
        return Err(position, "expected a JSON value");
      }
      var c := input[position];
      if c == '{' {
        r := ParseObject(depth + 1);
      } else if c == '[' {
        r := ParseArray(depth + 1);
      } else if c == '"' {
        var text :- ParseString();
        r := Ok(Str(text), position);
      } else if c == 't' {
        r := ParseLiteral("true", Bool(true));
      } else if c == 'f' {
        r := ParseLiteral("false", Bool(false));
      } else if c == 'n' {
        r := ParseLiteral("null", Null);
      } else if c == '-' || IsDigit(c) {
        r := ParseNumber();
      } else {
        r := Err(position, "unexpected character");
      }
    }

    method ParseObject(depth: nat) returns (r: Scan<Json>)
      requires position <= |input|
      modifies this`position
      ensures r == ObjectAt(input, old(position), depth, fits) && position == r.Position()
      decreases |input| - position, 1
    {
      hide MembersAt, SkipWs, Expected;
      var _ :- Expect('{');
      var done := Consume('}');
      if done {
        return Ok(Object(map[]), position);
      }
      r := ParseMembers(depth);
    }

    /** One round of the loop of the object parser. */
    lemma OneMember(i: nat, depth: nat, acc: map<string, Json>)
      requires i <= |input|
      ensures var j, r := SkipWs(input, i), MembersAt(input, i, depth, acc, fits);
              if j >= |input| || input[j] != '"' then r == Err(j, "expected an object property name")
              else var key := String(input, j); if key.Err? then r == Err(key.at, key.why)
              else var c := SkipWs(input, key.next); if c >= |input| || input[c] != ':' then r == Err(c, Expected(':'))
              else var v := ValueAt(input, c + 1, depth, fits); if v.Err? then r == v
              else if key.value in acc then r == Err(v.next, "duplicate object property: " + key.value)
              else var e := SkipWs(input, v.next);
                   r == if e < |input| && input[e] == '}' then Ok(Object(acc[key.value := v.value]), e + 1)
                        else if e < |input| && input[e] == ',' then MembersAt(input, e + 1, depth, acc[key.value := v.value], fits)
                        else Err(e, Expected(','))
    {
      hide ValueAt, SkipWs, String, Expected;
    }

    /** The loop of the object parser. */
    method ParseMembers(depth: nat) returns (r: Scan<Json>)
      requires position <= |input|
      modifies this`position
      ensures r == MembersAt(input, old(position), depth, map[], fits) && position == r.Position()
      decreases |input| - position, 3
    {
      hide MembersAt, ValueAt, SkipWs, String, Expected;
      var members: map<string, Json> := map[];
      while true
        invariant old(position) <= position <= |input|
        invariant MembersAt(input, position, depth, members, fits) == MembersAt(input, old(position), depth, map[], fits)
        decreases |input| - position
      {
        OneMember(position, depth, members);
        SkipWhitespace();
        if position >= |input| || input[position] != '"' {
          return Err(position, "expected an object property name");
        }
        var key :- ParseString();
        var _ :- Expect(':');
        var value :- ParseValue(depth);
        if key in members {
          return Err(position, "duplicate object property: " + key);
        }
        members := members[key := value];
        var done := Consume('}');
        if done {
          return Ok(Object(members), position);
        }
        var _ :- Expect(',');
      }
    }

    method ParseArray(depth: nat) returns (r: Scan<Json>)
      requires position <= |input|
      modifies this`position
      ensures r == ArrayAt(input, old(position), depth, fits) && position == r.Position()
      decreases |input| - position, 1
    {
      hide ValueAt, SkipWs, Expected;
      var _ :- Expect('[');
      var items: seq<Json> := [];
      var done := Consume(']');
      if done {
        return Ok(Array(items), position);
      }
      ghost var first := position;
      while true
        invariant old(position) < first <= position <= |input|
        invariant ItemsAt(input, position, depth, items, fits) == ItemsAt(input, first, depth, [], fits)
        decreases |input| - position
      {
        var value :- ParseValue(depth);
        items := items + [value];
        done := Consume(']');
        if done {
          return Ok(Array(items), position);
        }
        var _ :- Expect(',');
      }
    }

    method ParseHexQuad() returns (r: Scan<nat>)
      requires position <= |input|
      modifies this`position
      ensures r == HexQuad(input, old(position)) && position == r.Position()
    {
      hide IsHex4, Hex4;
      if position + 4 > |input| {
        return Err(position, "incomplete Unicode escape");
      }
      var value: nat := 0;
      ghost var start := position;
      for index := 0 to 4
        invariant position == start + index
        invariant HexLoop(input, position, 4 - index, value) == HexLoop(input, start, 4, 0)
      {
        var character := input[position];
        position := position + 1;
        value := value * 16;
        if '0' <= character <= '9' {
          value := value + (character as int - '0' as int);
        } else if 'a' <= character <= 'f' {
          value := value + (character as int - 'a' as int + 10);
        } else if 'A' <= character <= 'F' {
          value := value + (character as int - 'A' as int + 10);
        } else {
          return Err(position, "invalid Unicode escape");
        }
      }
      r := Ok(value, position);
    }

    method ParseString() returns (r: Scan<string>)
      requires position <= |input|
      modifies this`position
      ensures r == String(input, old(position)) && position == r.Position()
    {
      hide HexQuad, Utf8;
      if position >= |input| || input[position] != '"' {
        return Err(position, "expected a string");
      }
      position := position + 1;
      var result := "";
      ghost var start := position;
      while position < |input|
        invariant start <= position <= |input|
        invariant StringLoop(input, position, result) == StringLoop(input, start, "")
      {
        var character := input[position];
        position := position + 1;
        if character == '"' {
          return Ok(result, position);
        }
        if character as int < 0x20 {
          return Err(position, "unescaped control character in string");
        }
        if character != '\\' {
          result := result + [character];
          continue;
        }
        if position >= |input| {
          return Err(position, "incomplete string escape");
        }
        result :- ParseEscape(result);
      }
      r := Err(position, "unterminated string");
    }

    /** The switch on the character after a backslash. */
    method ParseEscape(result: string) returns (r: Scan<string>)
      requires position < |input|
      modifies this`position
      ensures var e := EscapeAt(input, old(position));
              r == (if e.Ok? then Ok(result + e.value, e.next) else e) && position == r.Position()
    {
      hide HexQuad, Utf8, IsHex4, Hex4;
      var escaped := input[position];
      position := position + 1;
      if escaped == 'u' {
        var codepoint :- ParseHexQuad();
        if 0xD800 <= codepoint <= 0xDBFF {
          if position + 2 > |input| || input[position] != '\\' || input[position + 1] != 'u' {
            return Err(position, "high surrogate is not followed by a low surrogate");
          }
          position := position + 2;
          var low :- ParseHexQuad();
          if low < 0xDC00 || low > 0xDFFF {
            return Err(position, "invalid low surrogate");
          }
          codepoint := 0x10000 + (codepoint - 0xD800) * 1024 + (low - 0xDC00);
        } else if 0xDC00 <= codepoint <= 0xDFFF {
          return Err(position, "unexpected low surrogate");
        }
        var grown := AppendUtf8(result, codepoint);
        return Ok(grown, position);
      }
      if !IsShort(escaped) {
        return Err(position, "invalid string escape");
      }
      r := Ok(result + [Unescape(escaped)], position);
    }

    /** Moves past a run of digits. */
    method SkipDigits()
      requires position <= |input|
      modifies this`position
      ensures position == Digits(input, old(position))
    {
      while position < |input| && IsDigit(input[position])
        invariant old(position) <= position <= |input|
        invariant Digits(input, position) == Digits(input, old(position))
      {
        position := position + 1;
      }
    }

    /** The integer part of a number. */
    method ParseWhole() returns (r: Scan<()>)
      requires position < |input|
      modifies this`position
      ensures r == WholePart(input, old(position)) && position == r.Position()
    {
      if input[position] == '0' {
        position := position + 1;
        if position < |input| && IsDigit(input[position]) {
          return Err(position, "leading zero in number");
        }
      } else if '1' <= input[position] <= '9' {
        SkipDigits();
      } else {
        return Err(position, "invalid number");
      }
      r := Ok((), position);
    }

    /** The fraction of a number, if there is one. */
    method ParseFraction() returns (r: Scan<()>)
      requires position <= |input|
      modifies this`position
      ensures r == FracPart(input, old(position)) && position == r.Position()
    {
      if position < |input| && input[position] == '.' {
        position := position + 1;
        if position >= |input| || !IsDigit(input[position]) {
          return Err(position, "invalid fractional number");
        }
        SkipDigits();
      }
      r := Ok((), position);
    }

    /** The exponent of a number, if there is one. */
    method ParseExponent() returns (r: Scan<()>)
      requires position <= |input|
      modifies this`position
      ensures r == ExpPart(input, old(position)) && position == r.Position()
    {
      if position < |input| && (input[position] == 'e' || input[position] == 'E') {
        position := position + 1;
        if position < |input| && (input[position] == '+' || input[position] == '-') {
          position := position + 1;
        }
        if position >= |input| || !IsDigit(input[position]) {
          return Err(position, "invalid number exponent");
        }
        SkipDigits();
      }
      r := Ok((), position);
    }

    method ParseNumber() returns (r: Scan<Json>)
      requires position < |input|
      modifies this`position
      ensures r == NumberAt(input, old(position), fits) && position == r.Position()
    {
      hide WholePart, FracPart, ExpPart;
      var start := position;
      if input[position] == '-' {
        position := position + 1;
      }
      if position >= |input| {
        return Err(position, "incomplete number");
      }
      var _ :- ParseWhole();
      var _ :- ParseFraction();
      var _ :- ParseExponent();
      var lexeme := input[start..position];
      if !fits(lexeme) {
        return Err(position, "number is outside the supported range");
      }
      r := Ok(Number(lexeme), position);
    }

    method ParseLiteral(literal: string, value: Json) returns (r: Scan<Json>)
      requires position < |input| && |literal| > 0
      modifies this`position
      ensures r == Literal(input, old(position), literal, value) && position == r.Position()
    {
      if !(position + |literal| <= |input| && input[position..position + |literal|] == literal) {
        return Err(position, "invalid literal");
      }
      position := position + |literal|;
      r := Ok(value, position);
    }
  }
}
