/**
  What the scalar operators compute.  A result is the value of its type congruent to the
  integer result; wrapping after every step of sums and products is wrapping once.
*/
module EvaluatorScalars {
  import opened Options
  import opened Evaluator
  import Words

  // ---- the types ------------------------------------------------------------------------

  function Least(t: IntType): int {
    match t
    case I8 => -128
    case I16 => -32768
    case I32 => -2147483648
    case I64 => -9223372036854775808
    case _ => 0
  }

  function Greatest(t: IntType): int {
    match t
    case I8 => 127
    case I16 => 32767
    case I32 => 2147483647
    case I64 => 9223372036854775807
    case U8 => 255
    case U16 => 65535
    case U32 => 4294967295
    case U64 => 18446744073709551615
  }

  predicate InRange(t: IntType, x: int) {
    Least(t) <= x <= Greatest(t)
  }

  /** How many values the type has. */
  function Size(t: IntType): (n: nat)
    ensures n > 0
  {
    Greatest(t) - Least(t) + 1
  }

  /** v and k whole turns through the values of the type. */
  function Turned(t: IntType, v: int, k: int): int {
    v + k * Size(t)
  }

  /** x is the value of the type that v wraps to. */
  ghost predicate Wraps(t: IntType, x: int, v: int) {
    InRange(t, x) && exists k :: x == Turned(t, v, k)
  }

  lemma Powers()
    ensures Words.Pow2(8) == 256 && Words.Pow2(7) == 128
    ensures Words.Pow2(16) == 65536 && Words.Pow2(15) == 32768
    ensures Words.Pow2(32) == 4294967296 && Words.Pow2(31) == 2147483648
    ensures Words.Pow2(64) == 18446744073709551616 && Words.Pow2(63) == 9223372036854775808
  {
    hide Words.Pow2;
    Words.Pow2Small();
    Words.Pow2Values();
    Words.Pow2Sum(8, 8);
    Words.Pow2Sum(1, 7);
    Words.Pow2Sum(1, 15);
    Words.Pow2Sum(1, 31);
    Words.Pow2Sum(1, 63);
  }

  lemma NormIs(t: IntType, v: int)
    ensures var low := v % Size(t);
      NormInt(t, v) == if low > Greatest(t) then low - Size(t) else low
  {
    hide Words.Pow2;
    Powers();
  }

  /** norm_int gives the one value of the type congruent to its argument. */
  lemma NormIff(t: IntType, v: int, x: int)
    ensures NormInt(t, v) == x <==> Wraps(t, x, v)
  {
    hide NormInt, Size;
    NormWraps(t, v);
    if Wraps(t, x, v) {
      OneValue(t, x, NormInt(t, v), v);
    }
  }

  lemma NormWraps(t: IntType, v: int)
    ensures Wraps(t, NormInt(t, v), v)
  {
    hide NormInt, Size, Least, Greatest;
    NormIs(t, v);
    Spans(t);
    var n := Size(t);
    var q := v / n;
    assert v == n * q + v % n;
    Comm(n, q);
    Distribute(-q, -1, n);
    assert Turned(t, v, -q) == v % n;
    assert Turned(t, v, -q - 1) == v % n - n;
  }

  lemma Spans(t: IntType)
    ensures Greatest(t) == Least(t) + Size(t) - 1 && Least(t) <= 0 <= Greatest(t)
  {
  }

  lemma Comm(a: int, b: int)
    ensures a * b == b * a && -b * a == -(b * a)
  {
  }

  lemma Distribute(a: int, b: int, n: int)
    ensures (a + b) * n == a * n + b * n
  {
  }

  /** A number wraps to one value. */
  lemma OneValue(t: IntType, x: int, y: int, v: int)
    requires Wraps(t, x, v) && Wraps(t, y, v)
    ensures x == y
  {
    hide Size, Least, Greatest;
    Spans(t);
    var k :| x == Turned(t, v, k);
    var l :| y == Turned(t, v, l);
    Distribute(k - l, l, Size(t));
    Near(k - l, Size(t));
  }

  lemma Near(d: int, n: nat)
    ensures d >= 1 ==> d * n >= n
    ensures d <= -1 ==> d * n + n <= 0
  {
    if d > 0 {
      assert (d - 1) * n >= 0;
    } else if d < 0 {
      assert (-d - 1) * n >= 0;
    }
  }

  // ---- the operators ---------------------------------------------------------------------

  lemma RingOperators(t: IntType, a: int, b: int, x: int)
    ensures Arith(Add, t, a, b) == Some(VInt(x)) <==> Wraps(t, x, a + b)
    ensures Arith(Sub, t, a, b) == Some(VInt(x)) <==> Wraps(t, x, a - b)
    ensures Arith(Mul, t, a, b) == Some(VInt(x)) <==> Wraps(t, x, a * b)
    ensures UnaryValue(Neg, t, VInt(a)) == Some(VInt(x)) <==> Wraps(t, x, -a)
  {
    hide NormInt, Wraps;
    NormIff(t, a + b, x);
    NormIff(t, a - b, x);
    NormIff(t, a * b, x);
    NormIff(t, -a, x);
  }

  /** The complement is the value that makes -1 with the operand. */
  lemma ComplementIs(t: IntType, a: int, x: int)
    ensures UnaryValue(Flip, t, VInt(a)) == Some(VInt(x)) <==> Wraps(t, x, -1 - a)
  {
    hide NormInt, Wraps;
    NormIff(t, -a - 1, x);
  }

  /** q is a / b without its fraction, and r what is left, with the sign of a. */
  predicate Truncates(a: int, b: int, q: int, r: int) {
    a == q * b + r && Abs(r) < Abs(b) && (r == 0 || (r < 0 <==> a < 0))
  }

  lemma TruncatedOnce(a: int, b: int, q: int, r: int)
    requires b != 0 && Truncates(a, b, q, r)
    ensures Quot(a, b) == q && a - Quot(a, b) * b == r
  {
    Negated(q, b);
    if a >= 0 && b > 0 {
      Words.DivUnique(a, b, q, r);
    } else if a >= 0 {
      Words.DivUnique(a, -b, -q, r);
    } else if b > 0 {
      Words.DivUnique(-a, b, -q, -r);
    } else {
      Words.DivUnique(-a, -b, q, -r);
    }
  }

  lemma Negated(a: int, b: int)
    ensures -a * -b == a * b && -a * b == -(a * b) && a * -b == -(a * b)
  {
  }

  lemma TruncatedFrom(a: int, b: int, k: int, m: int)
    requires b != 0 && k >= 0 && 0 <= m < Abs(b) && Abs(a) == k * Abs(b) + m
    ensures var q := if (a < 0) != (b < 0) then -k else k;
      Truncates(a, b, q, a - q * b)
  {
    Negated(k, b);
  }

  lemma Truncated(a: int, b: int)
    requires b != 0
    ensures Truncates(a, b, Quot(a, b), a - Quot(a, b) * b)
  {
    var k, m := Split(Abs(a), Abs(b));
    QuotientIs(a, b, k);
    TruncatedFrom(a, b, k, m);
  }

  lemma QuotientIs(a: int, b: int, k: int)
    requires b != 0 && k == Abs(a) / Abs(b)
    ensures Quot(a, b) == if (a < 0) != (b < 0) then -k else k
  {
  }

  lemma Split(a: int, p: nat) returns (k: int, m: int)
    requires p > 0
    ensures k == a / p && m == a % p
    ensures a == k * p + m && 0 <= m < p && (a >= 0 ==> k >= 0)
  {
    k, m := a / p, a % p;
    Comm(p, k);
    Grows(k, p);
  }

  /** Division drops the fraction and the remainder has the sign of the dividend; both
      refuse a divisor of zero. */
  lemma Division(t: IntType, a: int, b: int, q: int, r: int, x: int)
    requires Truncates(a, b, q, r)
    ensures b != 0
    ensures Arith(Div, t, a, b) == Some(VInt(x)) <==> Wraps(t, x, q)
    ensures Arith(Mod, t, a, b) == Some(VInt(x)) <==> Wraps(t, x, r)
  {
    hide NormInt, Wraps;
    TruncatedOnce(a, b, q, r);
    NormIff(t, q, x);
    NormIff(t, r, x);
  }

  /** Every nonzero divisor has a quotient. */
  lemma DivisionFails(t: IntType, a: int, b: int)
    ensures b == 0 <==> Arith(Div, t, a, b) == None
    ensures b == 0 <==> Arith(Mod, t, a, b) == None
    ensures b != 0 ==> exists q, r :: Truncates(a, b, q, r)
  {
    if b != 0 {
      Truncated(a, b);
    }
  }

  /** Shifts count modulo the width; to the left is multiplication, to the right is
      division rounded down. */
  lemma Shifts(t: IntType, a: int, b: int, x: int)
    requires InRange(t, a)
    ensures var n := b % Bits(t);
      && 0 <= n < Bits(t)
      && (Arith(Shl, t, a, b) == Some(VInt(x)) <==> Wraps(t, x, a * Words.Pow2(n)))
      && (Arith(Shr, t, a, b) == Some(VInt(x)) <==> x * Words.Pow2(n) <= a < (x + 1) * Words.Pow2(n))
  {
    hide NormInt, Wraps, Words.Pow2;
    var n := b % Bits(t);
    var p := Words.Pow2(n);
    NormIff(t, a * p, x);
    Unshifted(t, a);
    NormIff(t, a / p, a / p);
    QuotientInRange(t, a, p);
    RoundedDown(a, p, x);
  }

  /** A value of an unsigned type is its own bit pattern. */
  lemma Unshifted(t: IntType, a: int)
    requires InRange(t, a)
    ensures (if Signed(t) then a else a % Words.Pow2(Bits(t))) == a
  {
    hide Words.Pow2;
    Powers();
  }

  lemma QuotientInRange(t: IntType, a: int, p: nat)
    requires InRange(t, a) && p > 0
    ensures Wraps(t, a / p, a / p)
  {
    hide Least, Greatest, Wraps;
    Spans(t);
    Smaller(a, p, a / p, a % p);
    WrapsToItself(t, a / p);
  }

  lemma WrapsToItself(t: IntType, x: int)
    requires InRange(t, x)
    ensures Wraps(t, x, x)
  {
    assert Turned(t, x, 0) == x;
  }

  lemma Smaller(a: int, p: nat, q: int, r: int)
    requires p > 0 && q == a / p && r == a % p
    ensures if a >= 0 then 0 <= q <= a else a <= q < 0
  {
    var k, m := Split(a, p);
    Grows(q, p);
    Grows(q + 1, p);
    Distribute(q, 1, p);
  }

  lemma Grows(q: int, p: int)
    requires p >= 1
    ensures if q >= 0 then q * p >= q else q * p <= q
  {
    assert q * p == q + q * (p - 1);
    if q >= 0 {
      assert q * (p - 1) >= 0;
    } else {
      assert -q * (p - 1) >= 0;
    }
  }

  lemma RoundedDown(a: int, p: nat, x: int)
    requires p > 0
    ensures a / p == x <==> x * p <= a < (x + 1) * p
  {
    assert a == p * (a / p) + a % p;
    Comm(p, a / p);
    Distribute(x, 1, p);
    if x * p <= a < (x + 1) * p {
      Words.DivUnique(a, p, x, a - x * p);
    }
  }

  lemma Comparisons(t: IntType, a: int, b: int)
    ensures Arith(Eq, t, a, b) == Some(VBool(a == b)) && Arith(Ne, t, a, b) == Some(VBool(!(a == b)))
    ensures Arith(Lt, t, a, b) == Some(VBool(a < b)) && Arith(Ge, t, a, b) == Some(VBool(!(a < b)))
    ensures Arith(Gt, t, a, b) == Some(VBool(b < a)) && Arith(Le, t, a, b) == Some(VBool(!(b < a)))
  {
  }

  /** A cast wraps to the type cast to, whatever the type cast from. */
  lemma CastWraps(p: Program, e: Expr, t: IntType, env: Env, st: St, x: int)
    requires Eval(p, e, env, st).Ok? && Eval(p, e, env, st).v.VInt?
    ensures var r := Eval(p, e, env, st);
      Eval(p, Cast(e, t), env, st) == Ok(VInt(x), r.st) <==> Wraps(t, x, r.v.i)
  {
    hide NormInt, Wraps;
    NormIff(t, Eval(p, e, env, st).v.i, x);
  }

  // ---- sums and products ----------------------------------------------------------------------

  lemma WrapsSum(t: IntType, x: int, v: int, y: int, w: int, z: int)
    requires Wraps(t, x, v) && Wraps(t, y, w)
    ensures Wraps(t, z, x + y) ==> Wraps(t, z, v + w)
    ensures Wraps(t, z, x - y) ==> Wraps(t, z, v - w)
  {
    hide Size, InRange;
    var i :| x == Turned(t, v, i);
    var j :| y == Turned(t, w, j);
    var n := Size(t);
    if Wraps(t, z, x + y) {
      var k :| z == Turned(t, x + y, k);
      Distribute(i, j, n);
      Distribute(i + j, k, n);
      assert z == Turned(t, v + w, i + j + k);
    }
    if Wraps(t, z, x - y) {
      var k :| z == Turned(t, x - y, k);
      Distribute(i, -j, n);
      Distribute(i - j, k, n);
      Negated(j, n);
      assert z == Turned(t, v - w, i - j + k);
    }
  }

  lemma WrapsProduct(t: IntType, x: int, v: int, y: int, w: int, z: int)
    requires Wraps(t, x, v) && Wraps(t, y, w) && Wraps(t, z, x * y)
    ensures Wraps(t, z, v * w)
  {
    hide Size, InRange;
    var i :| x == Turned(t, v, i);
    var j :| y == Turned(t, w, j);
    var k :| z == Turned(t, x * y, k);
    ProductTurned(x, v, i, y, w, j, z, k, Size(t));
    assert z == Turned(t, v * w, i * w + v * j + i * (j * Size(t)) + k);
  }

  lemma ProductTurned(x: int, v: int, i: int, y: int, w: int, j: int, z: int, k: int, n: int)
    requires x == v + i * n && y == w + j * n && z == x * y + k * n
    ensures z == v * w + (i * w + v * j + i * (j * n) + k) * n
  {
    Turns(v, i, w, j, n);
    Distribute(i * w + v * j + i * (j * n), k, n);
  }

  lemma Turns(v: int, i: int, w: int, j: int, n: int)
    ensures (v + i * n) * (w + j * n) == v * w + (i * w + v * j + i * (j * n)) * n
  {
    Distribute(v, i * n, w + j * n);
    Expand(v, w, j * n);
    Expand(i * n, w, j * n);
    Distribute(i * w + v * j, i * (j * n), n);
    Distribute(i * w, v * j, n);
    Swapped(i, n, w);
    Swapped(v, j, n);
    Swapped(i, n, j * n);
  }

  lemma Expand(a: int, b: int, c: int)
    ensures a * (b + c) == a * b + a * c
  {
  }

  lemma Swapped(a: int, b: int, c: int)
    ensures a * b * c == a * c * b && a * b * c == a * (b * c)
  {
  }

  /** A sum or product of literals, with nothing but this type in it. */
  predicate Polynomial(e: Expr, t: IntType) {
    match e
    case IntLit(u, _) => u == t
    case Paren(inner) => Polynomial(inner, t)
    case Unary(op, x, u) => op.Neg? && u == t && Polynomial(x, t)
    case Binary(op, l, r, u) => (op.Add? || op.Sub? || op.Mul?) && u == t && Polynomial(l, t) && Polynomial(r, t)
    case _ => false
  }

  /** Its value over the integers. */
  function IntegerValue(e: Expr): int {
    match e
    case IntLit(_, v) => v
    case Paren(inner) => IntegerValue(inner)
    case Unary(_, x, _) => -IntegerValue(x)
    case Binary(op, l, r, _) =>
      if op.Add? then IntegerValue(l) + IntegerValue(r) else if op.Sub? then IntegerValue(l) - IntegerValue(r) else IntegerValue(l) * IntegerValue(r)
    case _ => 0
  }

  /** Evaluating it wraps at every step and still gives the integer value, wrapped once. */
  lemma {:induction false} WrappingOnceIsEnough(p: Program, e: Expr, t: IntType, env: Env, st: St)
    requires Polynomial(e, t)
    ensures Eval(p, e, env, st) == Ok(VInt(NormInt(t, IntegerValue(e))), st)
    decreases e, 1
  {
    hide NormInt, Wraps;
    match e
    case IntLit(_, _) =>
    case Paren(inner) => WrappingOnceIsEnough(p, inner, t, env, st);
    case Unary(_, x, _) =>
      WrappingOnceIsEnough(p, x, t, env, st);
      var y := NormInt(t, IntegerValue(x));
      NormWraps(t, IntegerValue(x));
      NormWraps(t, -y);
      Spans(t);
      WrapsToItself(t, 0);
      WrapsSum(t, 0, 0, y, IntegerValue(x), NormInt(t, -y));
      NormIff(t, -IntegerValue(x), NormInt(t, -y));
    case Binary(_, _, _, _) => WrappingBoth(p, e, t, env, st);
    case _ =>
  }

  lemma {:induction false} WrappingBoth(p: Program, e: Expr, t: IntType, env: Env, st: St)
    requires Polynomial(e, t) && e.Binary?
    ensures Eval(p, e, env, st) == Ok(VInt(NormInt(t, IntegerValue(e))), st)
    decreases e, 0
  {
    hide NormInt, Wraps;
    WrappingOnceIsEnough(p, e.l, t, env, st);
    WrappingOnceIsEnough(p, e.r, t, env, st);
    var v, w := IntegerValue(e.l), IntegerValue(e.r);
    var x, y := NormInt(t, v), NormInt(t, w);
    NormWraps(t, v);
    NormWraps(t, w);
    if e.bop.Mul? {
      NormWraps(t, x * y);
      WrapsProduct(t, x, v, y, w, NormInt(t, x * y));
      NormIff(t, v * w, NormInt(t, x * y));
    } else if e.bop.Add? {
      NormWraps(t, x + y);
      WrapsSum(t, x, v, y, w, NormInt(t, x + y));
      NormIff(t, v + w, NormInt(t, x + y));
    } else {
      NormWraps(t, x - y);
      WrapsSum(t, x, v, y, w, NormInt(t, x - y));
      NormIff(t, v - w, NormInt(t, x - y));
    }
  }
}
