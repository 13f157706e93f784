/**
  Decimal texts taken apart: what the sign in front, the letter e with the digits behind
  it, and an underscore among the digits do to the number that is read.
*/
module DecimalTexts {
  import opened Options
  import opened Decimals

  /** A sign, a mantissa, and perhaps a letter e with what stands behind it. */
  predicate Tail(tail: string) {
    tail == [] || tail[0] == 'e' || tail[0] == 'E'
  }

  predicate Sign(sign: string) {
    sign == "" || sign == "+" || sign == "-"
  }

  /** The mantissa of a text put together that way is the one it was put together from. */
  lemma PartsOf(sign: string, m: string, tail: string)
    requires Sign(sign) && Spelled(m) && Tail(tail)
    ensures var text := sign + m + tail;
      && SignLength(text) == |sign| && MantissaEnd(text, |sign|) == |sign + m| && Mantissa(text) == m
      && (text != [] ==> (text[0] == '-' <==> sign == "-"))
  {
    var text := sign + m + tail;
    assert sign == "" && m != [] ==> text[0] == m[0];
    forall k | |sign| <= k < |sign + m| ensures text[k] != 'e' && text[k] != 'E' {
      assert text[k] == m[k - |sign|];
    }
    assert MantissaEnd(text, |sign|) >= |sign + m|;
    assert tail != [] ==> text[|sign + m|] == tail[0];
    assert text[|sign|..|sign + m|] == m;
  }

  // ---- the exponent -------------------------------------------------------------------------

  /** The text behind the mantissa: a letter, a sign, digits. */
  function ExponentText(c: char, sign: string, digits: string): string {
    [c] + sign + digits
  }

  function Power(sign: string, k: int): int {
    if sign == "-" then -k else k
  }

  lemma ExponentTextIs(sign: string, digits: string)
    requires Sign(sign) && digits != [] && AllDigits(digits)
    ensures ExponentSign(sign + digits) == |sign| && (sign + digits)[|sign|..] == digits
    ensures IsExponent(sign + digits) <==> DigitsValue(digits) <= MAX_EXPONENT_TEXT
    ensures ExponentValue(sign + digits) == Power(sign, DigitsValue(digits))
  {
    hide DigitsValue;
    var rest := sign + digits;
    assert sign == "" ==> rest[0] == digits[0] && IsDigit(digits[0]);
    assert rest[|sign|..] == digits;
    forall i | |sign| <= i < |rest| ensures IsDigit(rest[i]) {
      assert rest[i] == digits[i - |sign|];
    }
  }

  lemma ExponentOf(sign: string, m: string, c: char, expSign: string, digits: string)
    requires Sign(sign) && Spelled(m) && (c == 'e' || c == 'E')
    requires Sign(expSign) && digits != [] && AllDigits(digits)
    ensures var k := DigitsValue(digits);
      Exponent(sign + m + ExponentText(c, expSign, digits)) ==
        if k > MAX_EXPONENT_TEXT then None else Some(Power(expSign, k))
  {
    hide DigitsValue, IsExponent, ExponentValue, Mantissa, Sign, AllDigits;
    var tail := ExponentText(c, expSign, digits);
    PartsOf(sign, m, tail);
    assert (sign + m + tail)[|sign + m| + 1..] == expSign + digits;
    ExponentTextIs(expSign, digits);
  }

  /** 10^k times the number, or a 10^k-th of it, by cross-multiplication. */
  predicate Scaled(d: Decimal, n: nat, f: nat, k: nat, down: bool) {
    if down then d.coeff * (Pow10(f) * Pow10(k)) == n * Pow10(d.scale)
    else d.coeff * Pow10(f) == n * (Pow10(d.scale) * Pow10(k))
  }

  /** A mantissa with digits behind the letter e denotes its number times that power of
      ten, and with a minus sign in front of them divided by it; the text is accepted if
      and only if the result fits, and no power over 4096 is. */
  lemma ExponentScales(sign: string, m: string, c: char, expSign: string, digits: string)
    requires Sign(sign) && IsMantissa(m) && (c == 'e' || c == 'E')
    requires Sign(expSign) && digits != [] && AllDigits(digits)
    ensures var k := DigitsValue(digits);
      var n, f := DigitsValue(m), Fraction(m);
      var shift := if expSign == "-" then f + k else f - k;
      var r := Parse(sign + m + ExponentText(c, expSign, digits));
      && (r.Some? <==> k <= MAX_EXPONENT_TEXT && shift <= MAX_SCALE && n * Pow10(Appended(shift)) < Pow10(PRECISION))
      && (r.Some? ==> Scaled(r.value, n, f, k, expSign == "-") && (r.value.negative <==> sign == "-" && n > 0))
  {
    hide Pow10, DigitsValue, Fraction, Significant, Exponent, Mantissa, Finish;
    var text := sign + m + ExponentText(c, expSign, digits);
    ExponentOf(sign, m, c, expSign, digits);
    PartsOf(sign, m, ExponentText(c, expSign, digits));
    var k := DigitsValue(digits);
    if k <= MAX_EXPONENT_TEXT {
      AcceptedIffItFits(text);
      if Parse(text).Some? {
        ParsedIsExact(text);
        ScaledIs(Parse(text).value, DigitsValue(m), Fraction(m), k, expSign == "-");
      }
    }
  }

  lemma ScaledIs(d: Decimal, n: nat, f: nat, k: nat, down: bool)
    requires Equals(d, n, f, if down then Power("-", k) else Power("", k))
    ensures Scaled(d, n, f, k, down)
  {
    hide Pow10;
    PowersAtZero();
  }

  /** The same for an exponent written by str. */
  lemma PrintedExponentScales(sign: string, m: string, c: char, expSign: string, k: nat)
    requires Sign(sign) && IsMantissa(m) && (c == 'e' || c == 'E') && Sign(expSign) && k <= MAX_EXPONENT_TEXT
    ensures var n, f := DigitsValue(m), Fraction(m);
      var shift := if expSign == "-" then f + k else f - k;
      var r := Parse(sign + m + ExponentText(c, expSign, Str(k)));
      && (r.Some? <==> shift <= MAX_SCALE && n * Pow10(Appended(shift)) < Pow10(PRECISION))
      && (r.Some? ==> Scaled(r.value, n, f, k, expSign == "-") && (r.value.negative <==> sign == "-" && n > 0))
  {
    hide Pow10, Str, DigitsValue, Fraction, Parse, IsMantissa, Scaled;
    StrIs(k);
    ExponentScales(sign, m, c, expSign, Str(k));
  }

  // ---- signs and underscores -------------------------------------------------------------------

  /** The whole of beans_parse, by the three parts of a text. */
  lemma ParseParts(sign: string, m: string, tail: string)
    requires Sign(sign) && Spelled(m) && Tail(tail)
    ensures var e := Exponent(sign + m + tail);
      Parse(sign + m + tail) ==
        if !IsMantissa(m) || e.None? || Significant(m) > PRECISION then None
        else Finish(sign == "-", DigitsValue(m), Significant(m), Fraction(m) - e.value)
    ensures tail == [] ==> Exponent(sign + m + tail) == Some(0)
    ensures tail != [] ==> Exponent(sign + m + tail) == if IsExponent(tail[1..]) then Some(ExponentValue(tail[1..])) else None
  {
    hide Pow10, DigitsValue, Fraction, Significant, Finish, IsExponent, ExponentValue;
    var text := sign + m + tail;
    PartsOf(sign, m, tail);
    assert tail != [] ==> text[|sign + m| + 1..] == tail[1..];
  }

  /** The sign in front decides the sign of the result and nothing else. */
  lemma SignOnlySigns(m: string, tail: string)
    requires Spelled(m) && Tail(tail)
    ensures Parse("+" + m + tail) == Parse(m + tail)
    ensures var plain, minus := Parse(m + tail), Parse("-" + m + tail);
      && (plain.Some? <==> minus.Some?)
      && (plain.Some? ==> !plain.value.negative && minus.value == plain.value.(negative := plain.value.coeff > 0))
  {
    hide Pow10, DigitsValue, Fraction, Significant, IsExponent, ExponentValue, Exponent, IsMantissa, Parse;
    assert "" + m + tail == m + tail;
    ParseParts("", m, tail);
    ParseParts("+", m, tail);
    ParseParts("-", m, tail);
    var e := Exponent(m + tail);
    if e.Some? {
      FinishSigned(DigitsValue(m), Significant(m), Fraction(m) - e.value);
    }
  }

  lemma FinishSigned(digits: nat, sig: nat, shift: int)
    ensures var plain, minus := Finish(false, digits, sig, shift), Finish(true, digits, sig, shift);
      && (plain.Some? <==> minus.Some?)
      && (plain.Some? ==> !plain.value.negative && minus.value == plain.value.(negative := plain.value.coeff > 0))
  {
    hide Pow10;
    if digits > 0 && shift < 0 {
      MulLe(1, Pow10(-shift), digits);
    }
  }

  /** An underscore among the digits changes no count. */
  lemma {:induction false} UnderscoreCounts(a: string, b: string)
    ensures var with, without := a + "_" + b, a + b;
      && DigitsValue(with) == DigitsValue(without) && Fraction(with) == Fraction(without)
      && Significant(with) == Significant(without) && Dots(with) == Dots(without)
    decreases |b|
  {
    var with, without := a + "_" + b, a + b;
    if b == [] {
      assert with[..|with| - 1] == a && without == a;
    } else {
      var n := |b| - 1;
      assert with[..|with| - 1] == a + "_" + b[..n] && with[|with| - 1] == b[n];
      assert without[..|without| - 1] == a + b[..n] && without[|without| - 1] == b[n];
      UnderscoreCounts(a, b[..n]);
    }
  }

  lemma UnderscoreSpells(a: string, b: string)
    ensures Spelled(a + "_" + b) <==> Spelled(a + b)
    ensures HasDigit(a + "_" + b) <==> HasDigit(a + b)
  {
    var with, without := a + "_" + b, a + b;
    forall i | 0 <= i < |without| ensures without[i] == with[if i < |a| then i else i + 1] {
    }
    forall i | 0 <= i < |with| && i != |a| ensures with[i] == without[if i < |a| then i else i - 1] {
    }
  }

  lemma UnderscoreMantissa(a: string, b: string)
    ensures IsMantissa(a + "_" + b) <==> IsMantissa(a + b)
  {
    hide DigitsValue, Dots;
    UnderscoreCounts(a, b);
    UnderscoreSpells(a, b);
  }

  /** So it changes nothing that is read. */
  lemma UnderscoreMeansNothing(sign: string, a: string, b: string, tail: string)
    requires Sign(sign) && Spelled(a) && Spelled(b) && Tail(tail)
    ensures Parse(sign + (a + "_" + b) + tail) == Parse(sign + (a + b) + tail)
  {
    hide Pow10, DigitsValue, Fraction, Significant, Dots, Finish, IsExponent, ExponentValue, Exponent, Parse, IsMantissa;
    assert Spelled(a + b);
    UnderscoreSpells(a, b);
    UnderscoreCounts(a, b);
    UnderscoreMantissa(a, b);
    ParseParts(sign, a + "_" + b, tail);
    ParseParts(sign, a + b, tail);
  }
}
