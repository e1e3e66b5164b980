/** The numbers of JSON, by their grammar: which texts the scanner reads whole, and which of them are floats. */
module Numbers {
  import opened Wrappers
  import opened Collections
  import opened Text
  import opened Json
  import opened JsonRoundTrip

  predicate Digits(s: Str) {
    s != [] && forall i :: 0 <= i < |s| ==> IsDigit(s[i])
  }

  predicate IntegerPart(s: Str) {
    Digits(s) && (s[0] == 0x30 ==> |s| == 1)
  }

  predicate Fraction(s: Str) {
    s == [] || (s[0] == 0x2E && Digits(s[1..]))
  }

  predicate Exponent(s: Str) {
    s == []
    || (s[0] in {0x65, 0x45} && (Digits(s[1..]) || (|s| >= 2 && s[1] in {0x2B, 0x2D} && Digits(s[2..]))))
  }

  /** A number by the grammar of section 6 of RFC 8259. */
  ghost predicate NumberForm(t: Str, sign: Str, whole: Str, frac: Str, exp: Str) {
    && t == sign + (whole + (frac + exp))
    && sign in {[], [0x2D]} && IntegerPart(whole) && Fraction(frac) && Exponent(exp)
  }

  lemma ExponentLength(exp: Str)
    requires Exponent(exp)
    ensures ExpLength(exp) == |exp|
  {
    if exp != [] {
      if Digits(exp[1..]) {
        assert IsDigit(exp[1..][0]);
        DigitRunOfDigits(exp[1..]);
      } else {
        DigitRunOfDigits(exp[2..]);
      }
    }
  }

  lemma FractionLength(frac: Str, exp: Str)
    requires Fraction(frac) && Exponent(exp)
    ensures FracLength(frac + exp) == |frac| && (frac + exp)[|frac|..] == exp
  {
    if frac == [] {
      assert frac + exp == exp;
    } else {
      assert (frac + exp)[1..] == frac[1..] + exp;
      assert IsDigit(frac[1..][0]);
      DigitRunAppend(frac[1..], exp);
      DigitRunOfDigits(frac[1..]);
    }
  }

  lemma WholeLength(whole: Str, rest: Str)
    requires IntegerPart(whole) && (rest == [] || !IsDigit(rest[0]))
    ensures IntPart(whole + rest) == whole && (whole + rest)[|whole|..] == rest
  {
    DigitRunAppend(whole, rest);
    DigitRunOfDigits(whole);
  }

  lemma WholeEnd(t: Str, sign: Str, whole: Str, rest: Str)
    requires t == sign + (whole + rest) && sign in {[], [0x2D]} && IntegerPart(whole)
    requires rest == [] || !IsDigit(rest[0])
    ensures SignLength(t) == |sign| && IntPart(t[|sign|..]) == whole
    ensures IntEnd(t) == |sign| + |whole| && t[IntEnd(t)..] == rest
  {
    assert IsDigit(whole[0]);
    assert t[0] == if sign == [] then whole[0] else 0x2D;
    TailOf(sign, whole + rest);
    WholeLength(whole, rest);
    Associates(sign, whole, rest);
    TailOf(sign + whole, rest);
  }

  lemma NumberEnds(t: Str, frac: Str, exp: Str)
    requires t[IntEnd(t)..] == frac + exp && Fraction(frac) && Exponent(exp)
    ensures NumberEnd(t) == |t|
  {
    FractionLength(frac, exp);
    assert t[FracEnd(t)..] == t[IntEnd(t)..][|frac|..];
    ExponentLength(exp);
  }

  /** Every such text is read whole: as a float if it has a fraction or an exponent. */
  lemma NumberIsRead(t: Str, sign: Str, whole: Str, frac: Str, exp: Str)
    requires NumberForm(t, sign, whole, frac, exp)
    ensures var n := DigitsValue(whole);
            ScanNumber(t) == Some((if frac + exp != [] then JFloat(t) else JInt(if sign == [] then n else -n), |t|))
  {
    NotDigit(frac, exp);
    WholeEnd(t, sign, whole, frac + exp);
    NumberEnds(t, frac, exp);
    assert t[..|t|] == t;
  }

  lemma NotDigit(frac: Str, exp: Str)
    requires Fraction(frac) && Exponent(exp)
    ensures frac + exp == [] || !IsDigit((frac + exp)[0])
  {
  }

  lemma Parted(t: Str, i: nat, j: nat)
    requires i <= j <= |t|
    ensures t[i..j] + t[j..] == t[i..] && t[i..j] == t[i..][..j - i]
  {
  }

  lemma NumberParts(t: Str) returns (sign: Str, whole: Str, frac: Str, exp: Str)
    requires ScanNumber(t).Some? && NumberEnd(t) == |t|
    ensures NumberForm(t, sign, whole, frac, exp) && |frac + exp| == |t| - IntEnd(t)
  {
    var k, i, j := SignLength(t), IntEnd(t), FracEnd(t);
    sign, whole, frac, exp := t[..k], t[k..i], t[i..j], t[j..];
    assert sign == t[0..k] && t[0..] == t;
    Parted(t, 0, k);
    Parted(t, k, i);
    Parted(t, i, j);
    assert sign == if k == 0 then [] else [0x2D];
    assert IntegerPart(whole) by { WholeIs(t[k..]); }
    assert Fraction(frac) by { FractionIs(t[i..]); }
    ExponentIs(exp);
  }

  lemma WholeIs(t: Str)
    requires IntPart(t) != []
    ensures IntegerPart(IntPart(t)) && IntPart(t) == t[..|IntPart(t)|]
  {
  }

  lemma FractionIs(t: Str)
    ensures Fraction(t[..FracLength(t)])
  {
    var frac := t[..FracLength(t)];
    if frac != [] { assert frac[1..] == DigitRun(t[1..]); }
  }

  lemma ExponentIs(t: Str)
    requires ExpLength(t) == |t|
    ensures Exponent(t)
  {
    if t != [] {
      var k := if t[1] == MINUS || t[1] == 0x2B then 2 else 1;
      assert t[k..] == DigitRun(t[k..]);
    }
  }

  /** The texts that can stand for a float: numbers with a fraction or an exponent, and the three that are not finite. */
  lemma FloatTextIff(token: Str)
    ensures IsFloatToken(token) <==>
              token in {Lit("NaN"), Lit("Infinity"), Lit("-Infinity")}
              || exists sign, whole, frac, exp :: NumberForm(token, sign, whole, frac, exp) && frac + exp != []
  {
    assert token + [] == token;
    if token in {NAN, INFINITY, MINUS_INFINITY} {
      ScanAtomOfLiteral(token, []);
    } else if IsFloatToken(token) {
      LiteralHeads();
      var sign, whole, frac, exp := NumberParts(token);
    } else if sign, whole, frac, exp :| NumberForm(token, sign, whole, frac, exp) && frac + exp != [] {
      NumberIsRead(token, sign, whole, frac, exp);
      NumberHead(token);
    }
  }

  /** A number has no leading zeros: after a zero the integer part is over. */
  lemma NoLeadingZero(d: Char, rest: Str)
    requires IsDigit(d)
    ensures ScanNumber([0x30, d] + rest) == Some((JInt(0), 1)) && ScanNumber([0x2D, 0x30, d] + rest) == Some((JInt(0), 2))
  {
    var t, u := [0x30, d] + rest, [0x2D, 0x30, d] + rest;
    assert u[1..] == t && t[..1] == [0x30] && [0x30][..0] == [];
    assert DigitsValue([0x30]) == DigitsValue([0x30][..0]) * 10 + 0;
  }
}
