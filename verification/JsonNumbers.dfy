/** Numbers: the scanner stops exactly at the end of a number of section 6 of RFC 8259. */
module JsonNumbers {
  import opened Wrappers
  import opened Text
  import opened JsonGrammar
  import opened JsonScanner

  /** No number can be continued at `k`. */
  predicate Stops(s: string, k: nat) {
    k < |s| ==> !IsDigit(s[k]) && s[k] != '.' && s[k] != 'e' && s[k] != 'E'
  }

  lemma {:induction false} DigitsComplete(s: string, i: nat, t: string)
    requires At(s, i, t) && AllDigits(t)
    requires i + |t| < |s| ==> !IsDigit(s[i + |t|])
    ensures Digits(s, i) == i + |t|
    decreases |t|
  {
    if |t| > 0 {
      assert s[i] == s[i..i + |t|][0] == t[0];
      assert s[i + 1..i + |t|] == s[i..i + |t|][1..] == t[1..];
      DigitsComplete(s, i + 1, t[1..]);
    }
  }

  lemma ExpComplete(s: string, i: nat, x: Option<Exponent>)
    requires x.Some? ==> WfExponent(x.value)
    requires At(s, i, ExpText(x)) && Stops(s, i + |ExpText(x)|)
    ensures ExpPart(s, i) == Ok((), i + |ExpText(x)|)
  {
    if x.Some? {
      var Exponent(e, sign, digits) := x.value;
      AtConcat(s, i, [e], sign + digits);
      AtConcat(s, i + 1, sign, digits);
      assert s[i] == s[i..i + 1][0];
      var j := i + 1 + |sign|;
      assert s[j] == s[j..j + |digits|][0];
      if |sign| > 0 {
        assert s[i + 1] == s[i + 1..i + 2][0];
      }
      DigitsComplete(s, j, digits);
    }
  }

  lemma FracComplete(s: string, i: nat, f: Option<string>)
    requires f.Some? ==> |f.value| > 0 && AllDigits(f.value)
    requires At(s, i, FracText(f))
    requires i + |FracText(f)| < |s| ==> !IsDigit(s[i + |FracText(f)|]) && s[i + |FracText(f)|] != '.'
    ensures FracPart(s, i) == Ok((), i + |FracText(f)|)
  {
    if f.Some? {
      AtConcat(s, i, ".", f.value);
      assert s[i] == s[i..i + 1][0];
      assert s[i + 1] == s[i + 1..i + 1 + |f.value|][0];
      DigitsComplete(s, i + 1, f.value);
    }
  }

  lemma WholeComplete(s: string, i: nat, w: string)
    requires WfWhole(w)
    requires At(s, i, w) && (i + |w| < |s| ==> !IsDigit(s[i + |w|]))
    ensures WholePart(s, i) == Ok((), i + |w|)
  {
    assert s[i] == s[i..i + |w|][0];
    if w[0] != '0' {
      DigitsComplete(s, i, w);
    }
  }

  /** The first character of the fraction and exponent, if any, is no digit. */
  lemma TailStart(s: string, i: nat, n: Num)
    requires WfNum(n) && At(s, i, FracText(n.frac) + ExpText(n.exp))
    requires Stops(s, i + |FracText(n.frac) + ExpText(n.exp)|)
    ensures i < |s| ==> !IsDigit(s[i])
    ensures i + |FracText(n.frac)| < |s| ==> !IsDigit(s[i + |FracText(n.frac)|]) && s[i + |FracText(n.frac)|] != '.'
  {
    AtConcat(s, i, FracText(n.frac), ExpText(n.exp));
    var j := i + |FracText(n.frac)|;
    if n.exp.Some? {
      assert s[j] == s[j..j + |ExpText(n.exp)|][0];
    }
    if n.frac.Some? {
      assert s[i] == s[i..i + |FracText(n.frac)|][0];
    }
  }

  lemma TailComplete(s: string, i: nat, n: Num)
    requires WfNum(n) && At(s, i, FracText(n.frac) + ExpText(n.exp))
    requires Stops(s, i + |FracText(n.frac) + ExpText(n.exp)|)
    ensures FracPart(s, i) == Ok((), i + |FracText(n.frac)|)
    ensures ExpPart(s, i + |FracText(n.frac)|) == Ok((), i + |FracText(n.frac)| + |ExpText(n.exp)|)
    ensures i < |s| ==> !IsDigit(s[i])
  {
    TailStart(s, i, n);
    AtConcat(s, i, FracText(n.frac), ExpText(n.exp));
    FracComplete(s, i, n.frac);
    ExpComplete(s, i + |FracText(n.frac)|, n.exp);
  }

  function SignLength(n: Num): nat {
    if n.minus then 1 else 0
  }

  function TailText(n: Num): string {
    FracText(n.frac) + ExpText(n.exp)
  }

  lemma NumTextParts(n: Num)
    requires WfNum(n)
    ensures NumText(n) == (if n.minus then "-" else "") + (n.whole + TailText(n)) && |n.whole| > 0 && IsDigit(n.whole[0])
  {
  }

  lemma NumTextSplit(s: string, i: nat, n: Num)
    requires WfNum(n) && At(s, i, NumText(n))
    ensures i < |s| && (n.minus <==> s[i] == '-')
    ensures At(s, i + SignLength(n), n.whole) && IsDigit(s[i + SignLength(n)])
    ensures At(s, i + SignLength(n) + |n.whole|, TailText(n))
    ensures |NumText(n)| == SignLength(n) + |n.whole| + |TailText(n)|
  {
    var sign := if n.minus then "-" else "";
    NumTextParts(n);
    hide At, NumText, TailText, WfNum;
    AtConcat(s, i, sign, n.whole + TailText(n));
    var j := i + |sign|;
    AtConcat(s, j, n.whole, TailText(n));
    AtHead(s, j, n.whole);
    if n.minus {
      AtHead(s, i, sign);
    }
  }

  lemma NumberComplete(s: string, i: nat, n: Num)
    requires WfNum(n) && At(s, i, NumText(n)) && Stops(s, i + |NumText(n)|)
    ensures NumberEnd(s, i) == Ok((), i + |NumText(n)|)
    ensures s[i] == '-' || IsDigit(s[i])
  {
    NumTextSplit(s, i, n);
    PartsComplete(s, i, i + SignLength(n), n);
  }

  lemma PartsComplete(s: string, i: nat, j: nat, n: Num)
    requires WfNum(n) && i < |s| && j == (if s[i] == '-' then i + 1 else i) < |s|
    requires At(s, j, n.whole) && At(s, j + |n.whole|, TailText(n)) && Stops(s, j + |n.whole| + |TailText(n)|)
    ensures NumberEnd(s, i) == Ok((), j + |n.whole| + |TailText(n)|)
  {
    var k := j + |n.whole|;
    assert |TailText(n)| == |FracText(n.frac)| + |ExpText(n.exp)|;
    hide At, Stops, WholePart, FracPart, ExpPart, NumberEnd, WfWhole, WfExponent, FracText, ExpText, AllDigits;
    TailComplete(s, k, n);
    WholeComplete(s, j, n.whole);
    PartsMakeNumber(s, i, j, k, k + |FracText(n.frac)|, k + |TailText(n)|);
  }

  lemma PartsMakeNumber(s: string, i: nat, j: nat, k: nat, m: nat, end: nat)
    requires i < |s| && j == (if s[i] == '-' then i + 1 else i) < |s|
    requires WholePart(s, j) == Ok((), k) && k <= |s| && FracPart(s, k) == Ok((), m) && m <= |s|
    requires ExpPart(s, m) == Ok((), end)
    ensures NumberEnd(s, i) == Ok((), end)
  {
  }

  lemma SplitThree(s: string, i: nat, j: nat, k: nat)
    requires i < j <= k <= |s|
    ensures s[i..k] == [s[i]] + (s[i + 1..j] + s[j..k])
  {
  }

  lemma ExpSound(s: string, i: nat) returns (x: Option<Exponent>)
    requires i <= |s| && ExpPart(s, i).Ok?
    ensures x.Some? ==> WfExponent(x.value)
    ensures At(s, i, ExpText(x)) && ExpPart(s, i).next == i + |ExpText(x)|
  {
    x := None;
    if i < |s| && (s[i] == 'e' || s[i] == 'E') {
      var j := if i + 1 < |s| && (s[i + 1] == '+' || s[i + 1] == '-') then i + 2 else i + 1;
      var k := Digits(s, j);
      RunIsDigits(s, j);
      assert j < k;
      x := Some(Exponent(s[i], s[i + 1..j], s[j..k]));
      SplitThree(s, i, j, k);
    }
  }

  lemma FracSound(s: string, i: nat) returns (f: Option<string>)
    requires i <= |s| && FracPart(s, i).Ok?
    ensures f.Some? ==> |f.value| > 0 && AllDigits(f.value)
    ensures At(s, i, FracText(f)) && FracPart(s, i).next == i + |FracText(f)|
  {
    f := None;
    if i < |s| && s[i] == '.' {
      var k := Digits(s, i + 1);
      RunIsDigits(s, i + 1);
      assert i + 1 < k;
      f := Some(s[i + 1..k]);
      assert s[i..k] == "." + s[i + 1..k];
    }
  }

  lemma WholeSound(s: string, i: nat) returns (w: string)
    requires i < |s| && WholePart(s, i).Ok?
    ensures WfWhole(w)
    ensures At(s, i, w) && WholePart(s, i).next == i + |w|
  {
    RunIsDigits(s, i);
    w := s[i..WholePart(s, i).next];
  }

  lemma TailSound(s: string, i: nat) returns (frac: Option<string>, exp: Option<Exponent>)
    requires i <= |s| && FracPart(s, i).Ok? && ExpPart(s, FracPart(s, i).next).Ok?
    ensures (frac.Some? ==> |frac.value| > 0 && AllDigits(frac.value)) && (exp.Some? ==> WfExponent(exp.value))
    ensures At(s, i, FracText(frac) + ExpText(exp))
    ensures ExpPart(s, FracPart(s, i).next).next == i + |FracText(frac) + ExpText(exp)|
  {
    var m := FracPart(s, i).next;
    frac := FracSound(s, i);
    exp := ExpSound(s, m);
    TextsJoin(s, i, FracText(frac), ExpText(exp));
  }

  lemma TextsJoin(s: string, i: nat, a: string, b: string)
    requires At(s, i, a) && At(s, i + |a|, b)
    ensures At(s, i, a + b) && |a + b| == |a| + |b|
  {
    AtConcat(s, i, a, b);
  }

  lemma NumberSound(s: string, i: nat) returns (n: Num)
    requires i < |s| && NumberEnd(s, i).Ok?
    ensures WfNum(n) && At(s, i, NumText(n)) && NumberEnd(s, i).next == i + |NumText(n)|
  {
    hide WholePart, FracPart, ExpPart, At, WfWhole, AllDigits, WfExponent, FracText, ExpText;
    var sign := if s[i] == '-' then "-" else "";
    var j := i + |sign|;
    var whole := WholeSound(s, j);
    var frac, exp := TailSound(s, WholePart(s, j).next);
    n := Num(s[i] == '-', whole, frac, exp);
    NumTextAt(s, i, n);
  }

  lemma NumTextAt(s: string, i: nat, n: Num)
    requires i < |s| && n.minus == (s[i] == '-')
    requires At(s, i + (if n.minus then 1 else 0), n.whole)
    requires At(s, i + (if n.minus then 1 else 0) + |n.whole|, FracText(n.frac) + ExpText(n.exp))
    ensures At(s, i, NumText(n))
  {
    hide FracText, ExpText;
    var sign := if n.minus then "-" else "";
    assert At(s, i, sign);
    hide At;
    AtConcat(s, i + |sign|, n.whole, FracText(n.frac) + ExpText(n.exp));
    AtConcat(s, i, sign, n.whole + (FracText(n.frac) + ExpText(n.exp)));
  }
}
