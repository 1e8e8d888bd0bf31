/** The UTF-8 encoder of src/task_plan.cpp and the surrogate arithmetic beside it, against the
    decoders of RFC 3629 (section 3) and RFC 2781 (section 2.2). */
module Unicode {
  /** A Unicode scalar value: a code point that is no surrogate. */
  predicate IsScalar(cp: nat) {
    cp <= 0x10FFFF && !(0xD800 <= cp <= 0xDFFF)
  }

  function Byte(n: nat): (c: char)
    requires n < 256
    ensures c as int == n
  {
    n as char
  }

  /** The bytes the encoder appends. Shifts and masks are division and remainder by powers of two;
      every `|` joins disjoint bits, so it is a sum. */
  function Utf8(cp: nat): (r: string)
    requires cp <= 0x10FFFF
    ensures 1 <= |r| <= 4
  {
    if cp <= 0x7F then [Byte(cp)]
    else if cp <= 0x7FF then [Byte(0xC0 + cp / 64), Byte(0x80 + cp % 64)]
    else if cp <= 0xFFFF then [Byte(0xE0 + cp / 4096), Byte(0x80 + cp / 64 % 64), Byte(0x80 + cp % 64)]
    else [Byte(0xF0 + cp / 262144), Byte(0x80 + cp / 4096 % 64), Byte(0x80 + cp / 64 % 64), Byte(0x80 + cp % 64)]
  }

  /** The shifts, masks and ors of the 32-bit code, branch by branch, are the quotients, remainders
      and sums above. */
  lemma BitsAreSums(cp: bv32)
    requires cp <= 0x10FFFF
    ensures 0x80 | (cp & 0x3F) == 0x80 + cp % 64
    ensures 0x80 | ((cp >> 6) & 0x3F) == 0x80 + cp / 64 % 64
    ensures 0x80 | ((cp >> 12) & 0x3F) == 0x80 + cp / 4096 % 64
    ensures cp <= 0x7FF ==> 0xC0 | (cp >> 6) == 0xC0 + cp / 64
    ensures cp <= 0xFFFF ==> 0xE0 | (cp >> 12) == 0xE0 + cp / 4096
    ensures 0xF0 | (cp >> 18) == 0xF0 + cp / 262144
  {
  }

  /** The UTF8-tail rule of RFC 3629, section 4. */
  predicate IsTail(c: char) {
    0x80 <= c as int <= 0xBF
  }

  /** The UTF8-char rule of RFC 3629, section 4: the table of well-formed sequences. */
  predicate WellFormed(b: string) {
    || (|b| == 1 && b[0] as int <= 0x7F)
    || (|b| == 2 && 0xC2 <= b[0] as int <= 0xDF && IsTail(b[1]))
    || (|b| == 3 && IsTail(b[1]) && IsTail(b[2]) && 0xE0 <= b[0] as int <= 0xEF
        && (b[0] as int == 0xE0 ==> 0xA0 <= b[1] as int) && (b[0] as int == 0xED ==> b[1] as int <= 0x9F))
    || (|b| == 4 && IsTail(b[1]) && IsTail(b[2]) && IsTail(b[3]) && 0xF0 <= b[0] as int <= 0xF4
        && (b[0] as int == 0xF0 ==> 0x90 <= b[1] as int) && (b[0] as int == 0xF4 ==> b[1] as int <= 0x8F))
  }

  /** A lead byte announcing `|b|` bytes followed by that many tails less one; overlong forms,
      surrogates and values above 0x10FFFF are all let through. */
  predicate Lax(b: string) {
    || (|b| == 1 && b[0] as int <= 0x7F)
    || (|b| == 2 && 0xC0 <= b[0] as int <= 0xDF && IsTail(b[1]))
    || (|b| == 3 && 0xE0 <= b[0] as int <= 0xEF && IsTail(b[1]) && IsTail(b[2]))
    || (|b| == 4 && 0xF0 <= b[0] as int <= 0xF7 && IsTail(b[1]) && IsTail(b[2]) && IsTail(b[3]))
  }

  /** The payload bits of a sequence, as section 3 of RFC 3629 lays them out. */
  function Payload(b: string): nat
    requires Lax(b)
  {
    if |b| == 1 then b[0] as int
    else if |b| == 2 then (b[0] as int - 0xC0) * 64 + (b[1] as int - 0x80)
    else if |b| == 3 then (b[0] as int - 0xE0) * 4096 + (b[1] as int - 0x80) * 64 + (b[2] as int - 0x80)
    else (b[0] as int - 0xF0) * 262144 + (b[1] as int - 0x80) * 4096 + (b[2] as int - 0x80) * 64 + (b[3] as int - 0x80)
  }

  lemma EncodeShort(cp: nat)
    requires cp <= 0x7FF
    ensures WellFormed(Utf8(cp)) && Lax(Utf8(cp)) && Payload(Utf8(cp)) == cp
  {
  }

  lemma EncodeThree(cp: nat)
    requires 0x7FF < cp <= 0xFFFF && IsScalar(cp)
    ensures WellFormed(Utf8(cp)) && Lax(Utf8(cp)) && Payload(Utf8(cp)) == cp
  {
    assert cp == cp / 4096 * 4096 + cp / 64 % 64 * 64 + cp % 64;
  }

  lemma EncodeFour(cp: nat)
    requires 0xFFFF < cp <= 0x10FFFF
    ensures WellFormed(Utf8(cp)) && Lax(Utf8(cp)) && Payload(Utf8(cp)) == cp
  {
    Sextets(cp);
  }

  lemma Sextets(cp: nat)
    ensures cp == cp / 262144 * 262144 + cp / 4096 % 64 * 4096 + cp / 64 % 64 * 64 + cp % 64
  {
    assert cp / 64 / 64 == cp / 4096 && cp / 4096 / 64 == cp / 262144;
  }

  /** Every scalar value is encoded as one well-formed sequence that carries it. */
  lemma EncodeThenDecode(cp: nat)
    requires IsScalar(cp)
    ensures WellFormed(Utf8(cp)) && Lax(Utf8(cp)) && Payload(Utf8(cp)) == cp
  {
    hide WellFormed, Lax, Payload, Utf8;
    if cp <= 0x7FF {
      EncodeShort(cp);
    } else if cp <= 0xFFFF {
      EncodeThree(cp);
    } else {
      EncodeFour(cp);
    }
  }

  lemma DecodeShort(b: string)
    requires WellFormed(b) && |b| <= 2
    ensures Lax(b) && IsScalar(Payload(b)) && Utf8(Payload(b)) == b
  {
  }

  lemma DecodeThree(b: string)
    requires WellFormed(b) && |b| == 3
    ensures Lax(b) && IsScalar(Payload(b)) && Utf8(Payload(b)) == b
  {
    assert Payload(b) / 64 == (b[0] as int - 0xE0) * 64 + (b[1] as int - 0x80);
  }

  lemma DecodeFour(b: string)
    requires WellFormed(b) && |b| == 4
    ensures Lax(b) && IsScalar(Payload(b)) && Utf8(Payload(b)) == b
  {
    var cp := Payload(b);
    assert cp / 64 == (b[0] as int - 0xF0) * 4096 + (b[1] as int - 0x80) * 64 + (b[2] as int - 0x80);
    assert cp / 4096 == (b[0] as int - 0xF0) * 64 + (b[1] as int - 0x80);
  }

  /** Every well-formed sequence is the encoder's output for the scalar value it carries. */
  lemma DecodeThenEncode(b: string)
    requires WellFormed(b)
    ensures Lax(b) && IsScalar(Payload(b)) && Utf8(Payload(b)) == b
  {
    hide Payload, Utf8, IsScalar;
    if |b| <= 2 {
      DecodeShort(b);
    } else if |b| == 3 {
      DecodeThree(b);
    } else {
      DecodeFour(b);
    }
  }

  /** No lead-and-tails sequence that carries `cp` is shorter than the encoder's, and the encoder's
      is the only one of its length. */
  lemma ShortestForm(b: string)
    requires Lax(b) && Payload(b) <= 0x10FFFF
    ensures |Utf8(Payload(b))| <= |b|
    ensures |Utf8(Payload(b))| == |b| && IsScalar(Payload(b)) ==> Utf8(Payload(b)) == b
  {
    var cp := Payload(b);
    if |Utf8(cp)| == |b| && IsScalar(cp) {
      MinimalIsWellFormed(b);
      DecodeThenEncode(b);
    }
  }

  lemma MinimalIsWellFormed(b: string)
    requires Lax(b) && IsScalar(Payload(b))
    requires |b| == (if Payload(b) <= 0x7F then 1 else if Payload(b) <= 0x7FF then 2 else if Payload(b) <= 0xFFFF then 3 else 4)
    ensures WellFormed(b)
  {
  }

  // ----- whole texts

  predicate AllScalar(cps: seq<nat>) {
    forall k :: 0 <= k < |cps| ==> IsScalar(cps[k])
  }

  function EncodeAll(cps: seq<nat>): string
    requires AllScalar(cps)
  {
    if |cps| == 0 then "" else Utf8(cps[0]) + EncodeAll(cps[1..])
  }

  /** How many bytes the lead byte announces; 0 for a byte that cannot lead. */
  function LeadLength(c: char): (n: nat)
    ensures n <= 4
  {
    var b := c as int;
    if b <= 0x7F then 1 else if 0xC2 <= b <= 0xDF then 2 else if 0xE0 <= b <= 0xEF then 3
    else if 0xF0 <= b <= 0xF4 then 4 else 0
  }

  /** A strict left-to-right decoder of UTF-8 text, one well-formed sequence after the other. */
  function DecodeAll(b: string): (r: seq<nat>)
    requires IsUtf8(b)
    ensures AllScalar(r)
  {
    if |b| == 0 then []
    else
      var n := LeadLength(b[0]);
      DecodeThenEncode(b[..n]);
      [Payload(b[..n])] + DecodeAll(b[n..])
  }

  predicate IsUtf8(b: string) {
    |b| == 0 ||
    var n := LeadLength(b[0]);
    0 < n <= |b| && WellFormed(b[..n]) && IsUtf8(b[n..])
  }

  lemma {:induction false} EncodeAllDecodes(cps: seq<nat>)
    requires AllScalar(cps)
    ensures IsUtf8(EncodeAll(cps)) && DecodeAll(EncodeAll(cps)) == cps
  {
    if |cps| > 0 {
      EncodeThenDecode(cps[0]);
      EncodeAllDecodes(cps[1..]);
      var head, b := Utf8(cps[0]), EncodeAll(cps);
      assert b[0] == head[0] && LeadLength(b[0]) == |head|;
      assert b[..|head|] == head && b[|head|..] == EncodeAll(cps[1..]);
      assert cps == [cps[0]] + cps[1..];
    }
  }

  lemma EncodeAllCons(cp: nat, rest: seq<nat>)
    requires IsScalar(cp) && AllScalar(rest)
    ensures AllScalar([cp] + rest) && EncodeAll([cp] + rest) == Utf8(cp) + EncodeAll(rest)
  {
    assert ([cp] + rest)[1..] == rest;
  }

  lemma {:induction false} DecodeAllEncodes(b: string)
    requires IsUtf8(b)
    ensures EncodeAll(DecodeAll(b)) == b
  {
    if |b| > 0 {
      var n := LeadLength(b[0]);
      var head, tail := b[..n], b[n..];
      DecodeAllEncodes(tail);
      assert Utf8(Payload(head)) == head by { DecodeThenEncode(head); }
      EncodeAllCons(Payload(head), DecodeAll(tail));
      assert b == head + tail;
    }
  }

  // ----- surrogate pairs

  predicate IsHigh(u: nat) {
    0xD800 <= u <= 0xDBFF
  }

  predicate IsLow(u: nat) {
    0xDC00 <= u <= 0xDFFF
  }

  /** The parser's sum for a pair of escapes. */
  function Combine(high: nat, low: nat): (cp: nat)
    requires IsHigh(high) && IsLow(low)
    ensures 0x10000 <= cp <= 0x10FFFF && IsScalar(cp)
  {
    0x10000 + (high - 0xD800) * 1024 + (low - 0xDC00)
  }

  /** The encoder of RFC 2781, section 2.1: U' = U - 0x10000, ten bits to each half. */
  function Split(cp: nat): (p: (nat, nat))
    requires 0x10000 <= cp <= 0x10FFFF
    ensures IsHigh(p.0) && IsLow(p.1)
  {
    (0xD800 + (cp - 0x10000) / 1024, 0xDC00 + (cp - 0x10000) % 1024)
  }

  /** The sum is a bijection from pairs onto the supplementary code points, and RFC 2781's split is
      its inverse on both sides. */
  lemma SurrogateBijection(high: nat, low: nat, cp: nat)
    ensures IsHigh(high) && IsLow(low) ==> Split(Combine(high, low)) == (high, low)
    ensures 0x10000 <= cp <= 0x10FFFF ==> Combine(Split(cp).0, Split(cp).1) == cp
  {
    if 0x10000 <= cp <= 0x10FFFF {
      assert (cp - 0x10000) / 1024 * 1024 + (cp - 0x10000) % 1024 == cp - 0x10000;
    }
  }
}
