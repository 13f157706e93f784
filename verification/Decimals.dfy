/**
  The decimal texts of the conformance suite: parsing into sign, coefficient and
  scale, printing, and the value a text denotes.  Digits are the ASCII ones.
*/
module Decimals {
  import opened Options

  const PRECISION: nat := 38
  const MAX_SCALE: nat := 65535
  const MAX_EXPONENT_TEXT: nat := 4096

  /** The number (-1)^negative * coeff * 10^-scale. */
  datatype Decimal = Decimal(negative: bool, coeff: nat, scale: nat)

  function Pow10(n: nat): (r: nat)
    ensures r > 0
  {
    if n == 0 then 1 else 10 * Pow10(n - 1)
  }

  // ---- what a text denotes ------------------------------------------------------------

  predicate IsDigit(c: char) {
    '0' <= c <= '9'
  }

  function DigitOf(c: char): nat
    requires IsDigit(c)
  {
    c as int - '0' as int
  }

  predicate IsSign(c: char) {
    c == '+' || c == '-'
  }

  /** The digits of a text as one number, whatever stands between them. */
  function DigitsValue(m: string): nat {
    if m == [] then 0
    else
      var rest, c := m[..|m| - 1], m[|m| - 1];
      if IsDigit(c) then 10 * DigitsValue(rest) + DigitOf(c) else DigitsValue(rest)
  }

  function Dots(m: string): nat {
    if m == [] then 0 else Dots(m[..|m| - 1]) + if m[|m| - 1] == '.' then 1 else 0
  }

  /** The digits behind the dot. */
  function Fraction(m: string): nat {
    if m == [] then 0
    else
      var rest := m[..|m| - 1];
      Fraction(rest) + if IsDigit(m[|m| - 1]) && Dots(rest) > 0 then 1 else 0
  }

  /** The digits from the first that is not zero. */
  function Significant(m: string): nat {
    if m == [] then 0
    else
      var rest, c := m[..|m| - 1], m[|m| - 1];
      Significant(rest) + if IsDigit(c) && (c != '0' || DigitsValue(rest) > 0) then 1 else 0
  }

  predicate HasDigit(m: string) {
    exists i :: 0 <= i < |m| && IsDigit(m[i])
  }

  predicate IsMantissa(m: string) {
    HasDigit(m) && Dots(m) <= 1 && forall i :: 0 <= i < |m| ==> IsDigit(m[i]) || m[i] == '_' || m[i] == '.'
  }

  function ExponentSign(e: string): nat {
    if e != [] && IsSign(e[0]) then 1 else 0
  }

  /** The text behind an e. */
  predicate IsExponent(e: string) {
    var j := ExponentSign(e);
    && j < |e|
    && (forall i :: j <= i < |e| ==> IsDigit(e[i]))
    && DigitsValue(e[j..]) <= MAX_EXPONENT_TEXT
  }

  function ExponentValue(e: string): int {
    var j := ExponentSign(e);
    var magnitude: int := DigitsValue(e[j..]);
    if j == 1 && e[0] == '-' then -magnitude else magnitude
  }

  function SignLength(text: string): nat {
    if text != [] && IsSign(text[0]) then 1 else 0
  }

  /** The first e from i on, or the end. */
  function MantissaEnd(text: string, i: nat): (r: nat)
    requires i <= |text|
    ensures i <= r <= |text|
    ensures r < |text| ==> text[r] == 'e' || text[r] == 'E'
    ensures forall k :: i <= k < r ==> text[k] != 'e' && text[k] != 'E'
    decreases |text| - i
  {
    if i == |text| || text[i] == 'e' || text[i] == 'E' then i else MantissaEnd(text, i + 1)
  }

  function Mantissa(text: string): string {
    text[SignLength(text)..MantissaEnd(text, SignLength(text))]
  }

  /** The exponent of a text, zero when it has none, None when it is malformed. */
  function Exponent(text: string): Option<int> {
    var end := MantissaEnd(text, SignLength(text));
    if end == |text| then Some(0)
    else if IsExponent(text[end + 1..]) then Some(ExponentValue(text[end + 1..]))
    else None
  }

  /** The decimal a number takes: digits * 10^(exponent - fraction). */
  function Finish(negative: bool, digits: nat, significant: nat, shift: int): Option<Decimal> {
    if digits == 0 then
      var scale := if shift < 0 then 0 else shift;
      if scale > MAX_SCALE then None else Some(Decimal(false, 0, scale))
    else if shift < 0 then
      if -shift > PRECISION || significant + -shift > PRECISION then None
      else if digits * Pow10(-shift) >= Pow10(PRECISION) then None
      else Some(Decimal(negative, digits * Pow10(-shift), 0))
    else if shift > MAX_SCALE || digits >= Pow10(PRECISION) then None
    else Some(Decimal(negative, digits, shift))
  }

  function Parse(text: string): Option<Decimal> {
    var m, e := Mantissa(text), Exponent(text);
    if !IsMantissa(m) || e.None? || Significant(m) > PRECISION then None
    else Finish(text[0] == '-', DigitsValue(m), Significant(m), Fraction(m) - e.value)
  }

  // ---- steps of the scan ------------------------------------------------------------------

  lemma {:induction false} DigitsGrow(m: string, n: nat)
    requires n <= |m|
    ensures DigitsValue(m[..n]) <= DigitsValue(m) && Significant(m[..n]) <= Significant(m) && Dots(m[..n]) <= Dots(m)
    decreases |m| - n
  {
    if n < |m| {
      DigitsGrow(m[..|m| - 1], n);
      assert m[..|m| - 1][..n] == m[..n];
    } else {
      assert m[..n] == m;
    }
  }

  lemma Snoc(text: string, start: nat, i: nat)
    requires start <= i < |text|
    ensures var m, n := text[start..i], text[start..i + 1];
      n[..|n| - 1] == m && n[|n| - 1] == text[i] && n == m + [text[i]]
  {
  }

  lemma Slice(s: string, j: nat, k: nat)
    requires j <= k <= |s|
    ensures s[j..][..k - j] == s[j..k] && s[j..|s|] == s[j..]
  {
  }

  /** The exponent loop. */
  method ParseExponent(rest: string) returns (r: Option<int>)
    ensures r == if IsExponent(rest) then Some(ExponentValue(rest)) else None
  {
    hide Significant, Dots, Fraction;
    var j := 0;
    if j < |rest| && IsSign(rest[j]) {
      j := j + 1;
    }
    if j >= |rest| || !IsDigit(rest[j]) {
      return None;
    }
    var magnitude: int := 0;
    var k := j;
    assert rest[j..j] == [];
    while k < |rest| && IsDigit(rest[k])
      invariant j <= k <= |rest|
      invariant forall i :: j <= i < k ==> IsDigit(rest[i])
      invariant magnitude == DigitsValue(rest[j..k]) && magnitude <= MAX_EXPONENT_TEXT
    {
      Snoc(rest, j, k);
      magnitude := magnitude * 10 + DigitOf(rest[k]);
      if magnitude > MAX_EXPONENT_TEXT {
        DigitsGrow(rest[j..], k + 1 - j);
        Slice(rest, j, k + 1);
        return None;
      }
      k := k + 1;
    }
    if k != |rest| {
      return None;
    }
    Slice(rest, j, k);
    return Some(if rest[..j] == "-" then -magnitude else magnitude);
  }

  /** What the scan knows about the mantissa so far. */
  predicate Scanned(m: string, coeff: nat, fractional: nat, significant: nat, seenDigit: bool, seenNonzero: bool, dot: bool) {
    && coeff == DigitsValue(m) && fractional == Fraction(m) && significant == Significant(m)
    && seenDigit == HasDigit(m) && seenNonzero == (DigitsValue(m) > 0)
    && Dots(m) == (if dot then 1 else 0) && significant <= PRECISION
    && Spelled(m)
  }

  predicate Spelled(m: string) {
    forall i :: 0 <= i < |m| ==> IsDigit(m[i]) || m[i] == '_' || m[i] == '.'
  }

  lemma ScanNothing()
    ensures Scanned([], 0, 0, 0, false, false, false)
  {
  }

  lemma ScanMark(m: string, c: char, coeff: nat, fractional: nat, significant: nat, seenDigit: bool, seenNonzero: bool, dot: bool)
    requires Scanned(m, coeff, fractional, significant, seenDigit, seenNonzero, dot) && (c == '_' || (c == '.' && !dot))
    ensures Scanned(m + [c], coeff, fractional, significant, seenDigit, seenNonzero, dot || c == '.')
  {
    assert (m + [c])[..|m|] == m;
    assert seenDigit ==> HasDigit(m + [c]) by {
      if i :| 0 <= i < |m| && IsDigit(m[i]) {
        assert IsDigit((m + [c])[i]);
      }
    }
    assert HasDigit(m + [c]) ==> HasDigit(m) by {
      if i :| 0 <= i < |m + [c]| && IsDigit((m + [c])[i]) {
        assert IsDigit(m[i]);
      }
    }
  }

  /** A digit: a leading zero counts for the fraction only. */
  lemma ScanDigit(m: string, c: char, coeff: nat, fractional: nat, significant: nat, seenDigit: bool, seenNonzero: bool, dot: bool)
    requires Scanned(m, coeff, fractional, significant, seenDigit, seenNonzero, dot) && IsDigit(c)
    ensures var n := fractional + if dot then 1 else 0;
      if !seenNonzero && c == '0' then Scanned(m + [c], coeff, n, significant, true, seenNonzero, dot)
      else
        && Significant(m + [c]) == significant + 1
        && (significant + 1 <= PRECISION ==>
             Scanned(m + [c], coeff * 10 + DigitOf(c), n, significant + 1, true, true, dot))
  {
    assert (m + [c])[..|m|] == m;
    assert IsDigit((m + [c])[|m|]);
  }

  /** What ends the scan without a result leaves the text without a meaning. */
  lemma Rejects(text: string, i: nat)
    requires var start := SignLength(text);
      start <= i < MantissaEnd(text, start)
    ensures var p := text[SignLength(text)..i + 1];
      (!Spelled(p) || Dots(p) > 1 || Significant(p) > PRECISION) ==> Parse(text) == None
  {
    var start := SignLength(text);
    var end := MantissaEnd(text, start);
    var m, p := text[start..end], text[start..i + 1];
    DigitsGrow(m, i + 1 - start);
    assert m[..i + 1 - start] == p;
    if !Spelled(p) {
      var k :| 0 <= k < |p| && !(IsDigit(p[k]) || p[k] == '_' || p[k] == '.');
      assert m[k] == p[k];
    }
  }

  /** The scan is over: the mantissa is known, and its exponent decides. */
  lemma Accepts(text: string, coeff: nat, fractional: nat, significant: nat, seenDigit: bool, seenNonzero: bool, dot: bool)
    requires Scanned(Mantissa(text), coeff, fractional, significant, seenDigit, seenNonzero, dot)
    ensures Parse(text) ==
      if !seenDigit || Exponent(text).None? then None
      else Finish(text[0] == '-', coeff, significant, fractional - Exponent(text).value)
  {
  }

  lemma BadEnd(m: string, c: char)
    ensures !IsDigit(c) && c != '_' && c != '.' ==> !Spelled(m + [c])
    ensures c == '.' ==> Dots(m + [c]) == Dots(m) + 1
  {
    assert (m + [c])[|m|] == c && (m + [c])[..|m|] == m;
  }

  /** beans_parse: one pass over the text. */
  method BeansParse(text: string) returns (r: Option<Decimal>)
    ensures r == Parse(text)
  {
    hide Parse, DigitsValue, Fraction, Significant, Dots, HasDigit, Spelled, Finish, IsExponent, ExponentValue;
    if text == [] {
      Empty();
      return None;
    }
    var i := 0;
    var negative := false;
    if IsSign(text[0]) {
      negative := text[0] == '-';
      i := 1;
    }
    ghost var start := i;
    ghost var end := MantissaEnd(text, start);
    var coeff: nat, fractional: nat, significant: nat := 0, 0, 0;
    var exponent := 0;
    var seenDigit, seenNonzero, dot := false, false, false;
    ScanNothing();
    ghost var m := "";
    while i < |text|
      invariant start <= i <= end && MantissaEnd(text, i) == end && exponent == 0
      invariant m == text[start..i] && Scanned(m, coeff, fractional, significant, seenDigit, seenNonzero, dot)
      decreases |text| - i
    {
      var c := text[i];
      if c == 'e' || c == 'E' {
        Accepts(text, coeff, fractional, significant, seenDigit, seenNonzero, dot);
        if !seenDigit {
          return None;
        }
        var e := ParseExponent(text[i + 1..]);
        if e.None? {
          return None;
        }
        exponent := e.value;
        break;
      }
      Rejects(text, i);
      BadEnd(m, c);
      Snoc(text, start, i);
      if c == '_' {
        ScanMark(m, c, coeff, fractional, significant, seenDigit, seenNonzero, dot);
      } else if c == '.' {
        if dot {
          return None;
        }
        ScanMark(m, c, coeff, fractional, significant, seenDigit, seenNonzero, dot);
        dot := true;
      } else if !IsDigit(c) {
        return None;
      } else {
        ScanDigit(m, c, coeff, fractional, significant, seenDigit, seenNonzero, dot);
        seenDigit := true;
        if dot {
          fractional := fractional + 1;
        }
        if seenNonzero || c != '0' {
          seenNonzero := true;
          significant := significant + 1;
          if significant > PRECISION {
            return None;
          }
          coeff := coeff * 10 + DigitOf(c);
        }
      }
      m := m + [c];
      i := i + 1;
    }
    Accepts(text, coeff, fractional, significant, seenDigit, seenNonzero, dot);
    if !seenDigit {
      return None;
    }
    r := Scale(negative, coeff, significant, seenNonzero, fractional - exponent);
  }

  lemma Empty()
    ensures Parse([]) == None
  {
  }

  /** The end of beans_parse. */
  method Scale(negative: bool, coeff0: nat, significant: nat, seenNonzero: bool, scale0: int) returns (r: Option<Decimal>)
    requires seenNonzero == (coeff0 > 0)
    ensures r == Finish(negative, coeff0, significant, scale0)
  {
    var coeff, scale := coeff0, scale0;
    if !seenNonzero {
      if scale < 0 {
        scale := 0;
      }
      if scale > MAX_SCALE {
        return None;
      }
      return Some(Decimal(false, 0, scale));
    }
    if scale < 0 {
      var append := -scale;
      if append > PRECISION || significant + append > PRECISION {
        return None;
      }
      coeff := coeff * Pow10(append);
      scale := 0;
    }
    if scale > MAX_SCALE || coeff >= Pow10(PRECISION) {
      return None;
    }
    return Some(Decimal(negative, coeff, scale));
  }

  // ---- what is accepted -----------------------------------------------------------------------

  lemma {:induction false} Pow10Sum(m: nat, n: nat)
    ensures Pow10(m + n) == Pow10(m) * Pow10(n)
  {
    if m > 0 {
      Pow10Sum(m - 1, n);
      TenTimes(Pow10(m - 1), Pow10(n));
    }
  }

  lemma TenTimes(a: nat, b: nat)
    ensures 10 * (a * b) == 10 * a * b
  {
  }

  lemma {:induction false} Pow10Grows(m: nat, n: nat)
    requires m <= n
    ensures Pow10(m) <= Pow10(n)
  {
    if m < n {
      Pow10Grows(m, n - 1);
    }
  }

  /** A number has as many digits as are significant. */
  lemma {:induction false} SignificantDigits(m: string)
    ensures if DigitsValue(m) == 0 then Significant(m) == 0
            else Significant(m) > 0 && Pow10(Significant(m) - 1) <= DigitsValue(m) < Pow10(Significant(m))
  {
    if m != [] {
      var rest := m[..|m| - 1];
      SignificantDigits(rest);
      if IsDigit(m[|m| - 1]) && DigitsValue(rest) == 0 {
        assert Pow10(0) == 1 && Pow10(1) == 10;
      }
    }
  }

  /** The scale of a decimal cannot be negative: the missing zeros are appended. */
  function Appended(shift: int): nat {
    if shift < 0 then -shift else 0
  }

  /** Too many digits, appended zeros included, is too large a number. */
  lemma ManyDigitsAreLarge(digits: nat, sig: nat, append: nat)
    requires sig > 0 && Pow10(sig - 1) <= digits && sig + append > PRECISION
    ensures digits * Pow10(append) >= Pow10(PRECISION)
  {
    Pow10Sum(sig - 1, append);
    MulLe(Pow10(sig - 1), digits, Pow10(append));
    Pow10Grows(PRECISION, sig - 1 + append);
  }

  /** A text is accepted exactly when it is well formed and its value fits: fewer
      than 10^38 units and no more than 65535 places. */
  lemma AcceptedIffItFits(text: string)
    requires IsMantissa(Mantissa(text)) && Exponent(text).Some?
    ensures var digits := DigitsValue(Mantissa(text));
      var shift := Fraction(Mantissa(text)) - Exponent(text).value;
      Parse(text).Some? <==> shift <= MAX_SCALE && digits * Pow10(Appended(shift)) < Pow10(PRECISION)
  {
    hide Pow10, Significant, DigitsValue, Fraction, Dots;
    var m := Mantissa(text);
    SignificantDigits(m);
    FinishedIffItFits(text[0] == '-', DigitsValue(m), Significant(m), Fraction(m) - Exponent(text).value);
  }

  lemma FinishedIffItFits(negative: bool, digits: nat, sig: nat, shift: int)
    requires if digits == 0 then sig == 0 else sig > 0 && Pow10(sig - 1) <= digits
    ensures sig <= PRECISION && Finish(negative, digits, sig, shift).Some?
      <==> shift <= MAX_SCALE && digits * Pow10(Appended(shift)) < Pow10(PRECISION)
  {
    hide Pow10;
    var append := Appended(shift);
    PowersAtZero();
    if digits == 0 {
      assert digits * Pow10(append) == 0;
    } else if sig + append > PRECISION {
      ManyDigitsAreLarge(digits, sig, append);
    } else if append == 0 {
      assert digits * Pow10(append) == digits;
    }
  }

  lemma PowersAtZero()
    ensures Pow10(0) == 1
  {
  }

  lemma MulLe(a: nat, b: nat, c: nat)
    requires a <= b
    ensures a * c <= b * c
  {
    assert (b - a) * c >= 0;
  }

  /** In canonical form: in bounds, and zero without a sign. */
  predicate Canonical(d: Decimal) {
    d.coeff < Pow10(PRECISION) && d.scale <= MAX_SCALE && (d.negative ==> d.coeff > 0)
  }

  lemma ParsedIsCanonical(text: string)
    requires Parse(text).Some?
    ensures Canonical(Parse(text).value)
  {
    hide Pow10, Significant, DigitsValue, Fraction, Exponent, Finish;
    var m := Mantissa(text);
    FinishedIsCanonical(text[0] == '-', DigitsValue(m), Significant(m), Fraction(m) - Exponent(text).value);
  }

  lemma FinishedIsCanonical(negative: bool, digits: nat, sig: nat, shift: int)
    ensures var d := Finish(negative, digits, sig, shift); d.Some? ==> Canonical(d.value)
  {
    hide Pow10;
    if digits > 0 && shift < 0 {
      MulLe(1, Pow10(-shift), digits);
    }
  }

  /** d is the rational number digits * 10^(e - f), by cross-multiplication. */
  predicate Equals(d: Decimal, digits: nat, f: nat, e: int) {
    var up, down := if e > 0 then e as nat else 0, if e < 0 then -e as nat else 0;
    d.coeff * (Pow10(f) * Pow10(down)) == digits * (Pow10(d.scale) * Pow10(up))
  }

  /** An accepted text is read as exactly the number it spells. */
  lemma ParsedIsExact(text: string)
    requires Parse(text).Some?
    ensures var d := Parse(text).value;
      && Equals(d, DigitsValue(Mantissa(text)), Fraction(Mantissa(text)), Exponent(text).value)
      && (d.negative <==> text[0] == '-' && DigitsValue(Mantissa(text)) > 0)
  {
    var m := Mantissa(text);
    FinishedIsExact(text[0] == '-', DigitsValue(m), Significant(m), Fraction(m), Exponent(text).value);
  }

  lemma FinishedIsExact(negative: bool, digits: nat, sig: nat, f: nat, e: int)
    requires Finish(negative, digits, sig, f - e).Some?
    ensures var d := Finish(negative, digits, sig, f - e).value;
      Equals(d, digits, f, e) && (d.negative <==> negative && digits > 0)
  {
    hide Pow10;
    var d := Finish(negative, digits, sig, f - e).value;
    var up: nat, down: nat := if e > 0 then e else 0, if e < 0 then -e else 0;
    PowersAtZero();
    Pow10Sum(f, down);
    Pow10Sum(d.scale, up);
    if digits > 0 {
      if f < e {
        Pow10Sum(e - f, f);
        MulAssoc(digits, Pow10(e - f), Pow10(f));
      } else {
        assert f + down == d.scale + up;
      }
    }
  }

  lemma MulAssoc(a: int, b: int, c: int)
    ensures a * b * c == a * (b * c)
  {
  }

  // ---- printing ------------------------------------------------------------------------------------

  function Digit(n: nat): (c: char)
    requires n < 10
    ensures IsDigit(c) && DigitOf(c) == n
  {
    '0' + n as char
  }

  /** str of a natural number. */
  function Str(n: nat): (s: string)
    ensures s != []
  {
    if n < 10 then [Digit(n)] else Str(n / 10) + [Digit(n % 10)]
  }

  function Zeros(n: nat): (s: string)
    ensures |s| == n
  {
    if n == 0 then [] else ['0'] + Zeros(n - 1)
  }

  /** At least one digit more than there are places. */
  function Padded(d: Decimal): (digits: string)
    ensures |digits| > d.scale
  {
    var short := Str(d.coeff);
    if |short| <= d.scale then Zeros(d.scale + 1 - |short|) + short else short
  }

  /** beans_render: plain positional text. */
  function Render(d: Decimal): string {
    var digits := Padded(d);
    var text := if d.scale > 0 then digits[..|digits| - d.scale] + "." + digits[|digits| - d.scale..] else digits;
    (if d.negative && d.coeff != 0 then "-" else "") + text
  }

  predicate AllDigits(s: string) {
    forall i :: 0 <= i < |s| ==> IsDigit(s[i])
  }

  lemma {:induction false} StrIs(n: nat)
    ensures AllDigits(Str(n)) && DigitsValue(Str(n)) == n
  {
    if n < 10 {
      assert Str(n)[..0] == [] && DigitsValue([]) == 0;
    } else {
      StrIs(n / 10);
      var s := Str(n / 10);
      assert (s + [Digit(n % 10)])[..|s|] == s;
    }
  }

  lemma {:induction false} ZerosAre(n: nat)
    ensures AllDigits(Zeros(n)) && forall i :: 0 <= i < n ==> Zeros(n)[i] == '0'
  {
    if n > 0 {
      ZerosAre(n - 1);
    }
  }

  /** Zeros in front change no value. */
  lemma {:induction false} PaddedValue(n: nat, s: string)
    ensures DigitsValue(Zeros(n) + s) == DigitsValue(s)
    decreases |s|, n
  {
    var t := Zeros(n) + s;
    if s == [] {
      assert t == Zeros(n);
      ZeroValue(n);
    } else {
      assert t[..|t| - 1] == Zeros(n) + s[..|s| - 1];
      PaddedValue(n, s[..|s| - 1]);
    }
  }

  lemma {:induction false} ZeroValue(n: nat)
    ensures DigitsValue(Zeros(n)) == 0
  {
    if n > 0 {
      ZerosAre(n);
      ZeroValue(n - 1);
      ZerosAre(n - 1);
      assert Zeros(n)[..n - 1] == Zeros(n - 1);
    }
  }

  /** Digits with a dot among them. */
  lemma {:induction false} DottedIs(whole: string, part: string)
    requires AllDigits(whole) && AllDigits(part)
    ensures var m := whole + "." + part;
      && DigitsValue(m) == DigitsValue(whole + part) && Dots(m) == 1 && Fraction(m) == |part|
    decreases |part|
  {
    var m := whole + "." + part;
    if part == [] {
      assert m[..|m| - 1] == whole && m[|m| - 1] == '.' && whole + part == whole;
      PlainIs(whole);
    } else {
      var p := part[..|part| - 1];
      assert m[..|m| - 1] == whole + "." + p && m[|m| - 1] == part[|p|];
      var t := whole + part;
      assert t[..|t| - 1] == whole + p && t[|t| - 1] == part[|p|];
      assert IsDigit(part[|p|]);
      DottedIs(whole, p);
    }
  }

  lemma {:induction false} PlainIs(s: string)
    requires AllDigits(s)
    ensures Dots(s) == 0 && Fraction(s) == 0
  {
    if s != [] {
      assert IsDigit(s[|s| - 1]);
      PlainIs(s[..|s| - 1]);
    }
  }

  /** The text of a number has no more significant digits than fit. */
  lemma SignificanceFits(m: string)
    requires DigitsValue(m) < Pow10(PRECISION)
    ensures Significant(m) <= PRECISION
  {
    hide Pow10;
    SignificantDigits(m);
    if Significant(m) > PRECISION {
      Pow10Grows(PRECISION, Significant(m) - 1);
    }
  }

  /** A mantissa of digits and perhaps one dot, behind an optional minus, is a whole text. */
  lemma PlainText(text: string, negative: bool, m: string)
    requires text == (if negative then "-" else "") + m && IsMantissa(m) && !IsSign(m[0])
    requires forall i :: 0 <= i < |m| ==> IsDigit(m[i]) || m[i] == '.'
    ensures Mantissa(text) == m && Exponent(text) == Some(0) && (text[0] == '-' <==> negative)
  {
    var start := SignLength(text);
    assert start == if negative then 1 else 0;
    var end := MantissaEnd(text, start);
    forall k | start <= k < |text| ensures text[k] != 'e' && text[k] != 'E' {
      assert text[k] == m[k - start];
    }
    assert text[start..] == m;
  }

  /** The digits beans_render writes, and where it puts the dot. */
  lemma RenderedMantissa(d: Decimal) returns (m: string)
    ensures Render(d) == (if d.negative && d.coeff != 0 then "-" else "") + m
    ensures IsMantissa(m) && !IsSign(m[0]) && forall i :: 0 <= i < |m| ==> IsDigit(m[i]) || m[i] == '.'
    ensures DigitsValue(m) == d.coeff && Fraction(m) == d.scale
  {
    hide Padded, Pow10, Dots, Significant;
    var digits := Padded(d);
    PaddedIs(d);
    if d.scale > 0 {
      var whole, part := digits[..|digits| - d.scale], digits[|digits| - d.scale..];
      assert whole + part == digits;
      m := whole + "." + part;
      DottedIs(whole, part);
    } else {
      m := digits;
      PlainIs(m);
    }
    assert IsDigit(m[0]);
  }

  lemma PaddedIs(d: Decimal)
    ensures AllDigits(Padded(d)) && DigitsValue(Padded(d)) == d.coeff
  {
    var short := Str(d.coeff);
    StrIs(d.coeff);
    if |short| <= d.scale {
      ZerosAre(d.scale + 1 - |short|);
      PaddedValue(d.scale + 1 - |short|, short);
    }
  }

  /** Reading what was printed gives the same decimal back. */
  lemma RoundTrip(d: Decimal)
    requires Canonical(d)
    ensures Parse(Render(d)) == Some(d)
  {
    hide Pow10, Str, Zeros, Render, DigitsValue, Significant, Fraction, Mantissa, Exponent;
    var m := RenderedMantissa(d);
    PlainText(Render(d), d.negative && d.coeff != 0, m);
    SignificanceFits(m);
    PowersAtZero();
  }

  // ---- the arbitrary-precision side -------------------------------------------------------------------

  /** to_beans of a finite decimal with these digits and this exponent. */
  function ToBeans(negative: bool, digits: nat, exponent: int): Option<Decimal> {
    if exponent > PRECISION then None
    else
      var coeff := if exponent > 0 then digits * Pow10(exponent) else digits;
      var scale := if exponent > 0 then 0 else -exponent;
      if scale > MAX_SCALE || coeff >= Pow10(PRECISION) then None
      else Some(Decimal(negative && digits != 0, coeff, scale))
  }

  /** The two sides agree on every value, but for a zero with an exponent over 38,
      which reading accepts and converting refuses. */
  lemma ToBeansAgrees(negative: bool, digits: nat, sig: nat, exponent: int)
    requires if digits == 0 then sig == 0 else sig > 0 && Pow10(sig - 1) <= digits
    ensures ToBeans(negative, digits, exponent) == (if sig > PRECISION then None else Finish(negative, digits, sig, -exponent))
      <==> !(digits == 0 && exponent > PRECISION)
  {
    hide Pow10;
    var append := Appended(-exponent);
    PowersAtZero();
    OnePower();
    if digits > 0 && sig + append > PRECISION {
      ManyDigitsAreLarge(digits, sig, append);
      assert append == 0 ==> digits * Pow10(append) == digits;
    }
  }

  lemma OnePower()
    ensures 0 < Pow10(PRECISION)
  {
  }
}
