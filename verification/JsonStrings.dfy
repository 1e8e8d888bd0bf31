/** Strings: the scanner accepts exactly the strings of section 7 of RFC 8259 with paired surrogate
    escapes, and decodes them. */
module JsonStrings {
  import opened Wrappers
  import opened Text
  import opened Unicode
  import opened JsonGrammar
  import opened JsonScanner

  lemma CharsCons(k: Chr, ks: seq<Chr>)
    requires WfChr(k) && WfChars(ks)
    ensures WfChars([k] + ks)
    ensures CharsText([k] + ks) == ChrText(k) + CharsText(ks)
    ensures CharsBytes([k] + ks) == ChrBytes(k) + CharsBytes(ks)
  {
    assert ([k] + ks)[1..] == ks;
  }

  /** Scanning one item from its text. */
  lemma OneChr(s: string, i: nat, acc: string, k: Chr)
    requires WfChr(k) && At(s, i, ChrText(k))
    ensures StringLoop(s, i, acc) == StringLoop(s, i + |ChrText(k)|, acc + ChrBytes(k))
  {
    match k
    case Raw(c) =>
      assert s[i] == s[i..i + 1][0];
    case Short(e) =>
      assert s[i] == s[i..i + 2][0] && s[i + 1] == s[i..i + 2][1];
    case Unit(h) =>
      UnitAt(s, i, h);
    case Pair(hi, lo) =>
      AtConcat(s, i, "\\u" + hi, "\\u" + lo);
      UnitAt(s, i, hi);
      UnitAt(s, i + 6, lo);
  }

  lemma UnitAt(s: string, i: nat, h: string)
    requires IsHex4(h) && At(s, i, "\\u" + h)
    ensures s[i] == '\\' && s[i + 1] == 'u' && HexQuad(s, i + 2) == Ok(Hex4(h), i + 6)
  {
    AtConcat(s, i, "\\u", h);
    assert s[i] == s[i..i + 2][0] && s[i + 1] == s[i..i + 2][1];
    assert s[i + 2..i + 6] == h;
  }

  lemma {:induction false} StringComplete(s: string, i: nat, acc: string, ks: seq<Chr>)
    requires WfChars(ks) && At(s, i, CharsText(ks) + "\"")
    ensures StringLoop(s, i, acc) == Ok(acc + CharsBytes(ks), i + |CharsText(ks)| + 1)
    decreases |ks|
  {
    hide At, EscapeAt, ChrText, ChrBytes, WfChr;
    AtConcat(s, i, CharsText(ks), "\"");
    if |ks| == 0 {
      AtHead(s, i, "\"");
      assert acc + CharsBytes(ks) == acc;
    } else {
      var k, rest := ks[0], ks[1..];
      assert CharsText(ks) + "\"" == ChrText(k) + (CharsText(rest) + "\"");
      AtConcat(s, i, ChrText(k), CharsText(rest) + "\"");
      OneChr(s, i, acc, k);
      StringComplete(s, i + |ChrText(k)|, acc + ChrBytes(k), rest);
      assert acc + ChrBytes(k) + CharsBytes(rest) == acc + CharsBytes(ks);
    }
  }

  /** The item an accepted escape was derived from. */
  lemma EscapeSound(s: string, i: nat) returns (k: Chr)
    requires i + 1 < |s| && s[i] == '\\' && EscapeAt(s, i + 1).Ok?
    ensures WfChr(k) && At(s, i, ChrText(k))
    ensures EscapeAt(s, i + 1) == Ok(ChrBytes(k), i + |ChrText(k)|)
  {
    if s[i + 1] == 'u' {
      var h := s[i + 2..i + 6];
      assert s[i..i + 6] == "\\u" + h;
      if IsHigh(Hex4(h)) {
        var lo := s[i + 8..i + 12];
        assert s[i..i + 12] == "\\u" + h + ("\\u" + lo);
        k := Pair(h, lo);
      } else {
        k := Unit(h);
      }
    } else {
      assert s[i..i + 2] == ['\\', s[i + 1]];
      k := Short(s[i + 1]);
    }
  }

  lemma RawSound(s: string, i: nat) returns (k: Chr)
    requires i < |s| && IsRaw(s[i])
    ensures WfChr(k) && At(s, i, ChrText(k)) && k == Raw(s[i])
  {
    k := Raw(s[i]);
    assert s[i..i + 1] == [s[i]];
  }

  lemma StringJoin(s: string, i: nat, acc: string, k: Chr, rest: seq<Chr>)
    requires WfChr(k) && WfChars(rest)
    requires At(s, i, ChrText(k)) && At(s, i + |ChrText(k)|, CharsText(rest) + "\"")
    ensures WfChars([k] + rest) && At(s, i, CharsText([k] + rest) + "\"")
    ensures |CharsText([k] + rest)| == |ChrText(k)| + |CharsText(rest)|
    ensures acc + ChrBytes(k) + CharsBytes(rest) == acc + CharsBytes([k] + rest)
  {
    CharsCons(k, rest);
    AtConcat(s, i, ChrText(k), CharsText(rest) + "\"");
    assert ChrText(k) + (CharsText(rest) + "\"") == CharsText([k] + rest) + "\"";
  }

  lemma {:induction false} StringSound(s: string, i: nat, acc: string) returns (ks: seq<Chr>)
    requires i <= |s| && StringLoop(s, i, acc).Ok?
    ensures WfChars(ks) && At(s, i, CharsText(ks) + "\"")
    ensures StringLoop(s, i, acc) == Ok(acc + CharsBytes(ks), i + |CharsText(ks)| + 1)
    decreases |s| - i
  {
    hide EscapeAt, ChrText, ChrBytes, WfChr;
    if s[i] == '"' {
      ks := [];
      assert s[i..i + 1] == "" + "\"";
      assert acc + CharsBytes(ks) == acc;
    } else {
      var k: Chr;
      if s[i] == '\\' {
        k := EscapeSound(s, i);
      } else {
        k := RawSound(s, i);
      }
      OneChr(s, i, acc, k);
      var rest := StringSound(s, i + |ChrText(k)|, acc + ChrBytes(k));
      ks := [k] + rest;
      StringJoin(s, i, acc, k, rest);
    }
  }

  /** From the opening quote. */
  lemma QuotedComplete(s: string, i: nat, ks: seq<Chr>)
    requires WfChars(ks) && At(s, i, StringText(ks))
    ensures String(s, i) == Ok(CharsBytes(ks), i + |StringText(ks)|)
  {
    hide StringLoop, CharsText, CharsBytes;
    AtConcat(s, i, "\"", CharsText(ks) + "\"");
    AtHead(s, i, "\"");
    StringComplete(s, i + 1, "", ks);
    assert "" + CharsBytes(ks) == CharsBytes(ks);
  }

  lemma QuotedSound(s: string, i: nat) returns (ks: seq<Chr>)
    requires i <= |s| && String(s, i).Ok?
    ensures WfChars(ks) && At(s, i, StringText(ks))
    ensures String(s, i) == Ok(CharsBytes(ks), i + |StringText(ks)|)
  {
    hide StringLoop, CharsText, CharsBytes;
    ks := StringSound(s, i + 1, "");
    assert s[i..i + 1] == "\"";
    AtConcat(s, i, "\"", CharsText(ks) + "\"");
    assert "" + CharsBytes(ks) == CharsBytes(ks);
  }
}
