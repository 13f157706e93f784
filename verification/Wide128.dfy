/**
  The 128-bit helpers a wasm build brings along: shifts, product and quotient put
  together from 64-bit halves.
*/
module Wide128 {
  import opened Words

  // ---- halves ---------------------------------------------------------------------

  function Lo(v: U128): U64 {
    v % B64
  }

  function Hi(v: U128): (r: U64) {
    DivLess(v, B64, B64);
    v / B64
  }

  function Joined(hi: U64, lo: U64): U128 {
    MulLess(hi, B64, B64);
    hi * B64 + lo
  }

  lemma HalvesJoin(v: U128)
    ensures Joined(Hi(v), Lo(v)) == v
  {
  }

  // ---- 64-bit operations, which drop what does not fit ---------------------------------

  function Shl64(x: U64, k: nat): U64 {
    x * Pow2(k) % B64
  }

  function Shr64(x: U64, k: nat): (r: U64) {
    ShrBound(x, k);
    x / Pow2(k)
  }

  lemma ShrBound(x: nat, k: nat)
    ensures 0 <= x / Pow2(k) <= x
  {
    DivBelow(x, Pow2(k));
  }

  /** The two's complement value of a word. */
  function Signed64(x: U64): int {
    if x < B64 / 2 then x else x - B64
  }

  /** The arithmetic shift of a signed word, as an unsigned one. */
  function Sar64(x: U64, k: nat): U64 {
    Signed64(x) / Pow2(k) % B64
  }

  function Or64(a: U64, b: U64): (r: U64) {
    Pow2Values();
    OrBound(a, b, 64);
    Or(a, b)
  }

  lemma {:induction false} OrBound(a: nat, b: nat, k: nat)
    requires a < Pow2(k) && b < Pow2(k)
    ensures Or(a, b) < Pow2(k)
  {
    if k > 0 && (a > 0 || b > 0) {
      OrBound(a / 2, b / 2, k - 1);
    }
  }

  /** The two's complement value of a wide word, and back. */
  function Signed(v: U128): I128 {
    if v < B127 then v else v - B128
  }

  function Unsigned(v: int): U128 {
    v % B128
  }

  lemma SignedIsUnsigned(v: U128)
    ensures Unsigned(Signed(v)) == v
  {
    if v >= B127 {
      DivUnique(v - B128, B128, -1, v);
    }
  }

  // ---- shifts -----------------------------------------------------------------------------

  /** __ashlti3 */
  function ShiftLeft(v: U128, n: int): U128 {
    if n <= 0 then v
    else if n >= 128 then 0
    else if n >= 64 then Joined(Shl64(Lo(v), n - 64), 0)
    else Joined(Or64(Shl64(Hi(v), n), Shr64(Lo(v), 64 - n)), Shl64(Lo(v), n))
  }

  /** __lshrti3 */
  function ShiftRight(v: U128, n: int): U128 {
    if n <= 0 then v
    else if n >= 128 then 0
    else if n >= 64 then Joined(0, Shr64(Hi(v), n - 64))
    else Joined(Shr64(Hi(v), n), Or64(Shr64(Lo(v), n), Shl64(Hi(v), 64 - n)))
  }

  /** __ashrti3 */
  function ShiftRightSigned(v: U128, n: int): U128 {
    var hi := Hi(v);
    if n <= 0 then v
    else if n >= 128 then Joined(Sar64(hi, 63), Sar64(hi, 63))
    else if n >= 64 then Joined(Sar64(hi, 63), Sar64(hi, n - 64))
    else Joined(Sar64(hi, n), Or64(Shr64(Lo(v), n), Shl64(hi, 64 - n)))
  }

  /** A power of two splits 2^64. */
  lemma Powers(n: nat)
    requires n <= 64
    ensures Pow2(n) * Pow2(64 - n) == B64
  {
    hide Pow2;
    Pow2Sum(n, 64 - n);
    Pow2Values();
  }

  /** Shifting a word left: what falls off the top is its quotient, and what stays
      is a multiple of the power. */
  lemma ShlParts(x: U64, n: nat)
    requires n <= 64
    ensures var p, q := Pow2(n), Pow2(64 - n);
      && x * p == (x / q) * B64 + (x % q) * p
      && Shl64(x, n) == (x % q) * p && x * p / B64 == x / q
      && Shl64(x, n) <= B64 - p && x / q < p
  {
    Powers(n);
    Times(x, Pow2(n), Pow2(64 - n), B64);
  }

  lemma Times(x: nat, p: nat, q: nat, m: nat)
    requires p > 0 && q > 0 && p * q == m && x < m
    ensures x * p == (x / q) * m + (x % q) * p
    ensures x * p % m == (x % q) * p && x * p / m == x / q
    ensures (x % q) * p <= m - p && x / q < p
  {
    var t, r := x / q, x % q;
    DivMod(x, q);
    SplitTimes(t, q, r, p);
    MulLess(r, q, p);
    Comm(p, q);
    MulNat(r, p);
    DivUnique(x * p, m, t, r * p);
    DivLess(x, q, p);
  }

  lemma MultipleMod(k: nat, p: nat)
    requires p > 0
    ensures k * p % p == 0
  {
    DivUnique(k * p, p, k, 0);
  }

  /** The left shift multiplies by a power of two and drops what exceeds the word. */
  lemma ShiftLeftIsTimes(v: U128, n: nat)
    ensures ShiftLeft(v, n) == v * Pow2(n) % B128
  {
    if n >= 128 {
      LeftAll(v, n);
    } else if n >= 64 {
      LeftFar(v, n);
    } else if n > 0 {
      LeftNear(v, n);
    } else {
      assert v * Pow2(0) == v;
    }
  }

  lemma LeftAll(v: U128, n: nat)
    requires n >= 128
    ensures v * Pow2(n) % B128 == 0
  {
    hide Pow2;
    var p := Pow2(n - 128);
    Pow2Values();
    Pow2Sum(n - 128, 128);
    Assoc(v, p, B128);
    MultipleMod(v * p, B128);
  }

  lemma LeftFar(v: U128, n: nat)
    requires 64 <= n < 128
    ensures ShiftLeft(v, n) == v * Pow2(n) % B128
  {
    hide Pow2;
    Pow2Sum(n - 64, 64);
    Pow2Values();
    FarTimes(Hi(v), Lo(v), Pow2(n - 64), B64);
  }

  lemma FarTimes(hi: nat, lo: nat, p: nat, m: nat)
    requires m > 0
    ensures (hi * m + lo) * (p * m) % (m * m) == lo * p % m * m
  {
    var a, b := lo * p / m, lo * p % m;
    DivMod(lo * p, m);
    calc {
      (hi * m + lo) * (p * m);
      { Assoc(hi * m + lo, p, m); Distribute(hi * m, lo, p); }
      (hi * m * p + lo * p) * m;
      { Assoc(hi, m, p); Comm(m, p); Assoc(hi, p, m); Comm(m, a); }
      (hi * p * m + (a * m + b)) * m;
      { Distribute(hi * p, a, m); }
      ((hi * p + a) * m + b) * m;
      { Distribute((hi * p + a) * m, b, m); Assoc(hi * p + a, m, m); }
      b * m + (hi * p + a) * (m * m);
    }
    MulLess(b, m, m);
    MulNat(b, m);
    DivUnique((hi * m + lo) * (p * m), m * m, hi * p + a, b * m);
  }

  lemma LeftNear(v: U128, n: nat)
    requires 0 < n < 64
    ensures ShiftLeft(v, n) == v * Pow2(n) % B128
  {
    hide Pow2;
    var hi, lo := Hi(v), Lo(v);
    ShlParts(hi, n);
    ShlParts(lo, n);
    MultipleMod(hi % Pow2(64 - n), Pow2(n));
    OrDisjoint(Shl64(hi, n), Shr64(lo, 64 - n), n);
    NearTimes(hi, lo, Pow2(n), B64, Shr64(lo, 64 - n), Shl64(lo, n));
  }

  lemma NearTimes(hi: nat, lo: nat, p: nat, m: nat, carry: nat, low: nat)
    requires p > 0 && m > 0 && lo * p == carry * m + low && low < m && hi * p % m + carry < m
    ensures (hi * m + lo) * p % (m * m) == (hi * p % m + carry) * m + low
  {
    var over, up := hi * p / m, hi * p % m;
    DivMod(hi * p, m);
    calc {
      (hi * m + lo) * p;
      { Distribute(hi * m, lo, p); Assoc(hi, m, p); Comm(m, p); Assoc(hi, p, m); Comm(m, over); }
      (over * m + up) * m + (carry * m + low);
      { Distribute(over * m, up, m); Assoc(over, m, m); }
      over * (m * m) + (up * m + carry * m + low);
      { Distribute(up, carry, m); }
      over * (m * m) + ((up + carry) * m + low);
    }
    MulLess(up + carry, m, m);
    MulNat(up + carry, m);
    DivUnique((hi * m + lo) * p, m * m, over, (up + carry) * m + low);
  }

  /** The right shift divides by a power of two. */
  lemma ShiftRightIsDiv(v: U128, n: nat)
    ensures ShiftRight(v, n) == v / Pow2(n)
  {
    if n >= 128 {
      BigPower(n);
      DivUnique(v, Pow2(n), 0, v);
    } else if n >= 64 {
      RightFar(v, n);
    } else if n > 0 {
      RightNear(Hi(v), v, n);
    }
  }

  lemma BigPower(n: nat)
    requires n >= 128
    ensures Pow2(n) >= B128
  {
    hide Pow2;
    Pow2Values();
    Pow2Sum(128, n - 128);
    MulMono(B128, 1, Pow2(n - 128));
  }

  lemma RightFar(v: U128, n: nat)
    requires 64 <= n < 128
    ensures ShiftRight(v, n) == v / Pow2(n)
  {
    hide Pow2;
    var hi, lo := Hi(v), Lo(v);
    FloorFar(hi, lo, n - 64);
    Pow2Sum(n - 64, 64);
    Pow2Values();
  }

  /** Dividing by 2^64 and more sees the high half only. */
  lemma FloorFar(hi: int, lo: nat, k: nat)
    requires lo < B64
    ensures (hi * B64 + lo) / (Pow2(k) * B64) == hi / Pow2(k)
  {
    FarFloor(hi, lo, Pow2(k), B64);
  }

  lemma FarFloor(hi: int, lo: nat, p: nat, m: nat)
    requires p > 0 && lo < m
    ensures p * m > 0 && (hi * m + lo) / (p * m) == hi / p
  {
    var q, r := hi / p, hi % p;
    DivMod(hi, p);
    MulLess(r, p, m);
    MulNat(r, m);
    MulAtLeast(p, m);
    Comm(p, q);
    Distribute(q * p, r, m);
    Assoc(q, p, m);
    DivUnique(hi * m + lo, p * m, q, r * m + lo);
  }

  /** Dividing by less: the low bits of the high half come down, whatever its sign. */
  lemma FloorNear(hi: int, lo: nat, n: nat)
    requires 0 < n < 64 && lo < B64
    ensures var p := Pow2(n);
      var low := hi % p * Pow2(64 - n) + lo / p;
      && (hi * B64 + lo) / p == hi / p * B64 + low && 0 <= low < B64
  {
    Powers(n);
    NearFloor(hi, lo, Pow2(n), Pow2(64 - n), B64);
  }

  lemma NearFloor(hi: int, lo: nat, p: nat, q: nat, m: nat)
    requires p > 0 && q > 0 && p * q == m && lo < m
    ensures var low := hi % p * q + lo / p;
      (hi * m + lo) / p == hi / p * m + low && 0 <= low < m
  {
    var t, r := hi / p, hi % p;
    var u, w := lo / p, lo % p;
    DivMod(hi, p);
    DivMod(lo, p);
    NearSum(t, r, u, w, p, q, m, hi, lo);
    NearQuotient(hi * m + lo, t * m + (r * q + u), p, w);
    DivLess(lo, p, q);
    NearBound(r, p, q, u, m);
  }

  lemma NearBound(r: nat, p: nat, q: nat, u: nat, m: nat)
    requires r < p && u < q && p * q == m
    ensures 0 <= r * q + u < m
  {
    MulLess(r, p, q);
    MulNat(r, q);
  }

  lemma NearQuotient(a: int, k: int, p: nat, w: nat)
    requires p > 0 && a == k * p + w && w < p
    ensures a / p == k
  {
    DivUnique(a, p, k, w);
  }

  lemma NearSum(t: int, r: int, u: int, w: int, p: int, q: int, m: int, hi: int, lo: int)
    requires p * q == m && hi == p * t + r && lo == p * u + w
    ensures hi * m + lo == (t * m + (r * q + u)) * p + w
  {
    SplitTimes(t, p, r, m);
    Comm(m, p);
    Assoc(t, m, p);
    Comm(p, q);
    Assoc(r, q, p);
    Comm(p, u);
    Distribute(r * q, u, p);
    Distribute(t * m, r * q + u, p);
  }

  /** The low half the near right shifts build. */
  lemma RightLow(hi: int, v: U128, n: nat)
    requires 0 < n < 64 && hi % B64 == Hi(v)
    ensures Or64(Shr64(Lo(v), n), Shl64(Hi(v), 64 - n)) == hi % Pow2(n) * Pow2(64 - n) + Lo(v) / Pow2(n)
  {
    var p, q := Pow2(n), Pow2(64 - n);
    Powers(n);
    ShlParts(Hi(v), 64 - n);
    DivLess(Lo(v), p, q);
    SameLow(hi, n);
    MultipleMod(Hi(v) % p, q);
    OrComm(Shr64(Lo(v), n), Shl64(Hi(v), 64 - n));
    OrDisjoint(Shl64(Hi(v), 64 - n), Shr64(Lo(v), n), 64 - n);
  }

  /** Reducing modulo 2^64 first keeps the low bits. */
  lemma SameLow(x: int, n: nat)
    requires n <= 64
    ensures x % B64 % Pow2(n) == x % Pow2(n)
  {
    Powers(n);
    ModMod(x, Pow2(n), Pow2(64 - n), B64);
  }

  lemma ModMod(x: int, p: nat, q: nat, m: nat)
    requires p > 0 && m > 0 && p * q == m
    ensures x % m % p == x % p
  {
    var t := x / m;
    DivMod(x, m);
    Comm(m, t);
    Comm(p, q);
    Assoc(t, q, p);
    ModShift(x % m, t * q, p);
  }

  lemma RightNear(hi: U64, v: U128, n: nat)
    requires 0 < n < 64 && hi == Hi(v)
    ensures ShiftRight(v, n) == v / Pow2(n)
  {
    assert hi % B64 == hi;
    FloorNear(hi, Lo(v), n);
    RightLow(hi, v, n);
  }

  /** The arithmetic shift divides the signed value, rounding down; over-long shifts
      leave only the sign. */
  lemma ShiftRightSignedIsFloor(v: U128, n: nat)
    ensures ShiftRightSigned(v, n) == Unsigned(Signed(v) / Pow2(n))
  {
    if n >= 128 {
      SignOnly(v, n);
    } else if n >= 64 {
      SignedFar(v, n);
    } else if n > 0 {
      SignedNear(v, n);
    } else {
      assert Signed(v) / Pow2(0) == Signed(v);
      SignedIsUnsigned(v);
    }
  }

  lemma SignedFar(v: U128, n: nat)
    requires 64 <= n < 128
    ensures ShiftRightSigned(v, n) == Unsigned(Signed(v) / Pow2(n))
  {
    hide Pow2;
    var hi, k := Signed64(Hi(v)), n - 64;
    SignedHalves(v);
    SignWord(Hi(v));
    FloorFar(hi, Lo(v), k);
    Pow2Sum(k, 64);
    assert Pow2(n) == Pow2(k) * B64 by {
      Pow2Values();
    }
    FloorBounds(hi, k);
    JoinSigned(hi / Pow2(k));
  }

  lemma SignedNear(v: U128, n: nat)
    requires 0 < n < 64
    ensures ShiftRightSigned(v, n) == Unsigned(Signed(v) / Pow2(n))
  {
    hide Pow2;
    var hi := Signed64(Hi(v));
    SignedHalves(v);
    FloorNear(hi, Lo(v), n);
    DivUnique(hi, B64, if hi < 0 then -1 else 0, Hi(v));
    RightLow(hi, v, n);
    JoinUnsigned(hi / Pow2(n), hi % Pow2(n) * Pow2(64 - n) + Lo(v) / Pow2(n));
  }

  lemma SignedHalves(v: U128)
    ensures Signed(v) == Signed64(Hi(v)) * B64 + Lo(v)
  {
    HalvesJoin(v);
  }

  /** The sign word of a half is all zeros or all ones. */
  lemma SignWord(x: U64)
    ensures Sar64(x, 63) == if Signed64(x) < 0 then B64 - 1 else 0
  {
    Pow2Values();
    Pow2Sum(1, 63);
    var s := Signed64(x);
    assert Pow2(63) == B64 / 2;
    DivUnique(s, B64 / 2, if s < 0 then -1 else 0, if s < 0 then s + B64 / 2 else s);
    DivUnique(-1, B64, -1, B64 - 1);
  }

  lemma FloorBounds(s: int, k: nat)
    requires -(B64 / 2) <= s < B64 / 2
    ensures -(B64 / 2) <= s / Pow2(k) < B64 / 2 && (s / Pow2(k) < 0 <==> s < 0)
  {
    FloorInside(s, Pow2(k), B64 / 2);
  }

  lemma FloorInside(s: int, p: nat, m: int)
    requires p > 0 && -m <= s < m
    ensures -m <= s / p < m && (s / p < 0 <==> s < 0)
  {
    var q := s / p;
    DivMod(s, p);
    if q >= 0 {
      MulMono(q, 1, p);
      Comm(q, p);
    } else {
      var k := -q - 1;
      MulMono(k, 1, p);
      Distribute(-q, -1, p);
      NegTimes(q, p);
      Comm(q, p);
    }
  }

  /** A signed word, extended by its sign. */
  lemma JoinSigned(t: int)
    requires -(B64 / 2) <= t < B64 / 2
    ensures Joined(if t < 0 then B64 - 1 else 0, t % B64) == Unsigned(t)
  {
    if t < 0 {
      DivUnique(t, B64, -1, t + B64);
      DivUnique(t, B128, -1, t + B128);
    }
  }

  lemma JoinUnsigned(t: int, low: nat)
    requires low < B64
    ensures Joined(t % B64, low) == Unsigned(t * B64 + low)
  {
    var q, r := t / B64, t % B64;
    assert t == B64 * q + r;
    MulLess(r, B64, B64);
    DivUnique(t * B64 + low, B128, q, r * B64 + low);
  }

  lemma SignOnly(v: U128, n: nat)
    requires n >= 128
    ensures ShiftRightSigned(v, n) == Unsigned(Signed(v) / Pow2(n))
  {
    hide Pow2;
    var s := Signed(v);
    SignedHalves(v);
    SignWord(Hi(v));
    Pow2Values();
    Pow2Sum(128, n - 128);
    MulMono(B128, 1, Pow2(n - 128));
    DivUnique(s, Pow2(n), if s < 0 then -1 else 0, if s < 0 then s + Pow2(n) else s);
    DivUnique(-1, B128, -1, B128 - 1);
  }

  // ---- the product --------------------------------------------------------------------------

  function Mul64(a: U64, b: U64): U64 {
    a * b % B64
  }

  function Add64(a: U64, b: U64): U64 {
    (a + b) % B64
  }

  function Low32(x: U64): U64 {
    x % B32
  }

  /** The low halves' product, from four products of 32-bit pieces. */
  function LowProduct(x: U64, y: U64): (U64, U64) {
    var al, ah, bl, bh := Low32(x), Shr64(x, 32), Low32(y), Shr64(y, 32);
    var p0, p1, p2, p3 := Mul64(al, bl), Mul64(al, bh), Mul64(ah, bl), Mul64(ah, bh);
    var middle := Add64(Add64(Shr64(p0, 32), Low32(p1)), Low32(p2));
    (Add64(Add64(Add64(p3, Shr64(p1, 32)), Shr64(p2, 32)), Shr64(middle, 32)), Or64(Low32(p0), Shl64(middle, 32)))
  }

  /** __multi3, on the words of its arguments. */
  function Product(x: U128, y: U128): U128 {
    var p := LowProduct(Lo(x), Lo(y));
    Joined(Add64(Add64(p.0, Mul64(Lo(x), Hi(y))), Mul64(Hi(x), Lo(y))), p.1)
  }

  lemma PieceProduct(a: nat, b: nat, m: nat)
    requires a < m && b < m
    ensures 0 <= a * b <= (m - 1) * (m - 1)
  {
    MulMono(a, b, m - 1);
    MulMono(m - 1, a, m - 1);
    Comm(a, m - 1);
    MulNat(a, b);
  }

  lemma Halves32(x: U64)
    ensures Shr64(x, 32) == x / B32 < B32 && x == x / B32 * B32 + x % B32
  {
    hide Pow2;
    Pow2Values();
    DivLess(x, B32, B32);
  }

  /** Four products make the whole one. */
  lemma FourProducts(al: int, ah: int, bl: int, bh: int, m: int)
    ensures (ah * m + al) * (bh * m + bl) == ah * bh * (m * m) + (al * bh + ah * bl) * m + al * bl
  {
    calc {
      (ah * m + al) * (bh * m + bl);
      { Distribute(ah * m, al, bh * m + bl); Comm(ah * m, bh * m + bl); Comm(al, bh * m + bl); }
      (bh * m + bl) * (ah * m) + (bh * m + bl) * al;
      { Distribute(bh * m, bl, ah * m); Distribute(bh * m, bl, al); }
      bh * m * (ah * m) + bl * (ah * m) + (bh * m * al + bl * al);
      { Squares(bh, ah, m); Assoc(bl, ah, m); Comm(bl, ah); SwapLast(bh, m, al); Comm(bl, al); }
      ah * bh * (m * m) + ah * bl * m + (al * bh * m + al * bl);
      { Distribute(al * bh, ah * bl, m); }
      ah * bh * (m * m) + (al * bh + ah * bl) * m + al * bl;
    }
  }

  lemma Squares(b: int, a: int, m: int)
    ensures b * m * (a * m) == a * b * (m * m)
  {
    Assoc(b * m, a, m);
    SwapLast(b, m, a);
    Assoc(a * b, m, m);
  }

  lemma SwapLast(b: int, m: int, a: int)
    ensures b * m * a == a * b * m
  {
    Comm(b * m, a);
    Assoc(a, b, m);
  }

  /** Carrying the middle column neither loses nor adds anything. */
  lemma Carried(p0: nat, p1: nat, p2: nat, p3: nat, m: nat)
    requires m > 0
    ensures var middle := p0 / m + p1 % m + p2 % m;
      (p3 + p1 / m + p2 / m + middle / m) * (m * m) + (p0 % m + middle % m * m)
      == p3 * (m * m) + (p1 + p2) * m + p0
  {
    var middle := p0 / m + p1 % m + p2 % m;
    var q0, q1, q2, q := p0 / m, p1 / m, p2 / m, middle / m;
    DivMod(p0, m); DivMod(p1, m); DivMod(p2, m); DivMod(middle, m);
    calc {
      (p3 + q1 + q2 + q) * (m * m) + (p0 % m + middle % m * m);
      { Distribute(p3, q1 + q2 + q, m * m); Assoc(q1 + q2 + q, m, m); }
      p3 * (m * m) + (q1 + q2 + q) * m * m + (p0 % m + middle % m * m);
      { Distribute((q1 + q2 + q) * m, middle % m, m); }
      p3 * (m * m) + ((q1 + q2 + q) * m + middle % m) * m + p0 % m;
      { Distribute(q1 + q2, q, m); Distribute(q1, q2, m); Comm(q, m); Comm(q1, m); Comm(q2, m); }
      p3 * (m * m) + (p1 + p2 + q0) * m + p0 % m;
      { Distribute(p1 + p2, q0, m); Comm(q0, m); }
      p3 * (m * m) + (p1 + p2) * m + p0;
    }
  }

  /** No word overflows on the way. */
  lemma LowProductIs(x: U64, y: U64)
    ensures var p := LowProduct(x, y); p.0 * B64 + p.1 == x * y
  {
    hide Shr64, Or64, Shl64, Add64;
    Halves32(x);
    Halves32(y);
    var al, ah, bl, bh := Low32(x), Shr64(x, 32), Low32(y), Shr64(y, 32);
    SmallProduct(al, bl);
    SmallProduct(al, bh);
    SmallProduct(ah, bl);
    SmallProduct(ah, bh);
    FourProducts(al, ah, bl, bh, B32);
    PieceProduct(x, y, B64);
    ColumnSums(Mul64(al, bl), Mul64(al, bh), Mul64(ah, bl), Mul64(ah, bh), x * y);
  }

  lemma SmallProduct(a: U64, b: U64)
    requires a < B32 && b < B32
    ensures Mul64(a, b) == a * b
  {
    PieceProduct(a, b, B32);
  }

  /** The columns of the low product, as words. */
  lemma ColumnSums(p0: U64, p1: U64, p2: U64, p3: U64, product: nat)
    requires product == p3 * (B32 * B32) + (p1 + p2) * B32 + p0 && product <= (B64 - 1) * (B64 - 1)
    ensures var middle := Add64(Add64(Shr64(p0, 32), Low32(p1)), Low32(p2));
      var high := Add64(Add64(Add64(p3, Shr64(p1, 32)), Shr64(p2, 32)), Shr64(middle, 32));
      high * B64 + Or64(Low32(p0), Shl64(middle, 32)) == product
  {
    hide Shr64, Or64, Shl64, Add64, Low32;
    var middle := Add64(Add64(Shr64(p0, 32), Low32(p1)), Low32(p2));
    MiddleColumn(p0, p1, p2);
    Carried(p0, p1, p2, p3, B32);
    LowColumn(p0, middle);
    var high := p3 + p1 / B32 + p2 / B32 + middle / B32;
    var low := p0 % B32 + middle % B32 * B32;
    QuotientFits(high, low, product, B64);
    HighColumn(p1, p2, p3, middle);
  }

  lemma QuotientFits(high: nat, low: nat, product: nat, m: int)
    requires m > 0 && high * m + low == product && product <= (m - 1) * (m - 1)
    ensures high < m
  {
    assert (m - 1) * (m - 1) == m * m - 2 * m + 1;
    Comm(m, high);
    if high >= m {
      MulMono(m, m, high);
    }
  }

  lemma MiddleColumn(p0: U64, p1: U64, p2: U64)
    ensures Add64(Add64(Shr64(p0, 32), Low32(p1)), Low32(p2)) == p0 / B32 + p1 % B32 + p2 % B32
  {
    hide Shr64;
    Halves32(p0);
  }

  lemma HighColumn(p1: U64, p2: U64, p3: U64, middle: U64)
    requires p3 + p1 / B32 + p2 / B32 + middle / B32 < B64
    ensures Add64(Add64(Add64(p3, Shr64(p1, 32)), Shr64(p2, 32)), Shr64(middle, 32))
      == p3 + p1 / B32 + p2 / B32 + middle / B32
  {
    hide Shr64, Add64;
    Halves32(p1);
    Halves32(p2);
    Halves32(middle);
    SumFits(p3, p1 / B32, p2 / B32, middle / B32);
  }

  /** A sum that fits is not cut off on the way. */
  lemma SumFits(a: U64, b: U64, c: U64, d: U64)
    requires a + b + c + d < B64
    ensures Add64(Add64(Add64(a, b), c), d) == a + b + c + d
  {
    SmallAdd(a, b);
    SmallAdd(a + b, c);
    SmallAdd(a + b + c, d);
  }

  lemma SmallAdd(a: U64, b: U64)
    requires a + b < B64
    ensures Add64(a, b) == a + b
  {
  }

  lemma LowColumn(p0: U64, middle: U64)
    ensures Or64(Low32(p0), Shl64(middle, 32)) == p0 % B32 + middle % B32 * B32
  {
    hide Pow2, Or;
    Pow2Values();
    ShlParts(middle, 32);
    MultipleMod(middle % B32, B32);
    OrComm(p0 % B32, middle % B32 * B32);
    OrDisjoint(middle % B32 * B32, p0 % B32, 32);
  }

  /** The product of the halves is the product modulo 2^128. */
  lemma ProductIsTimes(x: U128, y: U128)
    ensures Product(x, y) == x * y % B128
  {
    hide LowProduct, Mul64, Add64;
    var p := LowProduct(Lo(x), Lo(y));
    LowProductIs(Lo(x), Lo(y));
    CrossTerms(Hi(x), Lo(x), Hi(y), Lo(y), p.0, p.1, B64);
    CrossWords(p.0, Lo(x), Hi(x), Lo(y), Hi(y));
  }

  lemma CrossWords(high: U64, xl: U64, xh: U64, yl: U64, yh: U64)
    ensures Add64(Add64(high, Mul64(xl, yh)), Mul64(xh, yl)) == (high + xl * yh + xh * yl) % B64
  {
    var a, b := xl * yh, xh * yl;
    ThreeMod(high, a, b, B64);
  }

  lemma ThreeMod(h: int, a: int, b: int, m: nat)
    requires m > 0 && 0 <= h < m
    ensures ((h + a % m) % m + b % m) % m == (h + a + b) % m
  {
    DivUnique(h, m, 0, h);
    SumMod(h, a, m);
    var x := h + a;
    SumMod(x, b, m);
    assert (h + a % m) % m == x % m;
  }

  lemma SumMod(a: int, b: int, m: nat)
    requires m > 0
    ensures (a % m + b % m) % m == (a + b) % m
  {
    var q, r := a / m, b / m;
    DivMod(a, m);
    DivMod(b, m);
    Comm(m, q);
    Comm(m, r);
    Distribute(q, r, m);
    ModShift(a % m + b % m, q + r, m);
  }

  /** The cross terms reach only the high half, and the last term neither. */
  lemma CrossTerms(xh: nat, xl: nat, yh: nat, yl: nat, high: nat, low: nat, m: nat)
    requires high * m + low == xl * yl && low < m
    ensures (high + xl * yh + xh * yl) % m * m + low == (xh * m + xl) * (yh * m + yl) % (m * m)
  {
    var cross := xl * yh + xh * yl;
    var sum := high + cross;
    var q, r := sum / m, sum % m;
    DivMod(sum, m);
    FourProducts(xl, xh, yl, yh, m);
    calc {
      (xh * m + xl) * (yh * m + yl);
      xh * yh * (m * m) + cross * m + (high * m + low);
      { Distribute(high, cross, m); }
      xh * yh * (m * m) + sum * m + low;
      { Comm(m, q); Distribute(q * m, r, m); Assoc(q, m, m); }
      xh * yh * (m * m) + q * (m * m) + r * m + low;
      { Distribute(xh * yh, q, m * m); }
      (xh * yh + q) * (m * m) + (r * m + low);
    }
    MulLess(r, m, m);
    MulNat(r, m);
    DivUnique((xh * m + xl) * (yh * m + yl), m * m, xh * yh + q, r * m + low);
  }

  /** On signed arguments the word is that of the signed product. */
  lemma SignedProduct(a: I128, b: I128)
    ensures Product(Unsigned(a), Unsigned(b)) == Unsigned(a * b)
  {
    var x, y := Unsigned(a), Unsigned(b);
    ProductIsTimes(x, y);
    ProductMod(a, b, B128);
  }

  lemma ProductMod(a: int, b: int, m: nat)
    requires m > 0
    ensures a % m * (b % m) % m == a * b % m
  {
    var q, r, s, t := a / m, a % m, b / m, b % m;
    DivMod(a, m);
    DivMod(b, m);
    SplitTimes(q, m, r, b);
    Comm(b, m);
    Assoc(q, b, m);
    ModShift(r * b, q * b, m);
    Comm(r, m * s + t);
    SplitTimes(s, m, t, r);
    Comm(r, m);
    Assoc(s, r, m);
    Comm(t, r);
    ModShift(r * t, s * r, m);
  }

  // ---- the quotient ---------------------------------------------------------------------------

  datatype Division = Divided(quotient: U128, rest: U128) | Exits(code: int)

  lemma DivDiv(a: nat, p: nat, q: nat)
    requires p > 0 && q > 0
    ensures p * q > 0 && a / p / q == a / (p * q)
  {
    var t, r := a / p, a % p;
    var u, w := t / q, t % q;
    DivMod(a, p);
    DivMod(t, q);
    MulAtLeast(p, q);
    Assoc(p, q, u);
    MulLess(w, q, p);
    MulNat(p, w);
    calc {
      a;
      p * (q * u + w) + r;
      { Comm(p, q * u + w); Distribute(q * u, w, p); Comm(q * u, p); Comm(w, p); Assoc(p, q, u); }
      p * q * u + (p * w + r);
      { Comm(p * q, u); }
      u * (p * q) + (p * w + r);
    }
    DivUnique(a, p * q, u, p * w + r);
  }

  /** Bit b of a wide word, read from the half that holds it. */
  function Bit(n: U128, b: nat): U64
    requires b < 128
  {
    var word := if b >= 64 then Hi(n) else Lo(n);
    Shr64(word, if b >= 64 then b - 64 else b) % 2
  }

  lemma BitIs(n: U128, b: nat)
    requires b < 128
    ensures Bit(n, b) == n / Pow2(b) % 2
  {
    hide Pow2;
    if b >= 64 {
      BitHigh(n, b);
    } else if b > 0 {
      BitLow(n, b);
    } else {
      Pow2Zero();
      ModShift(Lo(n), Hi(n) * (B64 / 2), 2);
    }
  }

  lemma BitHigh(n: U128, b: nat)
    requires 64 <= b < 128
    ensures Hi(n) / Pow2(b - 64) == n / Pow2(b)
  {
    hide Pow2;
    Pow2Sum(64, b - 64);
    Pow2Values();
    DivDiv(n, B64, Pow2(b - 64));
  }

  lemma BitLow(n: U128, b: nat)
    requires 0 < b < 64
    ensures Lo(n) / Pow2(b) % 2 == n / Pow2(b) % 2
  {
    hide Pow2, Hi, Lo;
    var hi, lo := Hi(n), Lo(n);
    WordHalves(n);
    FloorNear(hi, lo, b);
    HalfPower(b);
    EvenAbove(n / Pow2(b), hi / Pow2(b), hi % Pow2(b), Pow2(64 - b), Pow2(63 - b), lo / Pow2(b));
  }

  lemma WordHalves(n: U128)
    ensures n == Hi(n) * B64 + Lo(n)
  {
  }

  lemma HalfPower(b: nat)
    requires b < 64
    ensures Pow2(64 - b) == 2 * Pow2(63 - b)
  {
  }

  /** What lies above the low bit is even. */
  lemma EvenAbove(x: int, high: int, middle: int, q: int, p: int, low: int)
    requires x == high * B64 + (middle * q + low) && q == 2 * p
    ensures x % 2 == low % 2
  {
    EvenTimes(middle, p);
    ModShift(low, high * (B64 / 2) + middle * p, 2);
  }

  lemma Pow2Zero()
    ensures Pow2(0) == 1
  {
  }

  lemma EvenTimes(a: int, b: int)
    ensures a * (2 * b) == a * b * 2
  {
  }

  /** One more bit of the numerator. */
  lemma NextBit(n: U128, b: nat)
    requires b < 128
    ensures n / Pow2(b) == 2 * (n / Pow2(b + 1)) + Bit(n, b)
  {
    BitIs(n, b);
    DivDiv(n, Pow2(b), 2);
  }

  /** The remainder fits in 127 bits before it is doubled, whatever the denominator. */
  lemma RestIsSmall(n: U128, b: nat, q: nat, d: nat, rest: nat)
    requires b < 128 && n / Pow2(b + 1) == q * d + rest
    ensures rest < B127
  {
    hide Pow2;
    Pow2Small();
    Pow2Sum(1, b);
    MulMono(2, 1, Pow2(b));
    Pow2Values();
    MulNat(q, d);
    DivHalf(n, Pow2(b + 1));
  }

  lemma DivHalf(n: U128, p: nat)
    requires p >= 2
    ensures n / p < B127
  {
    var q := n / p;
    DivMod(n, p);
    MulMono(q, 2, p);
    Comm(q, p);
  }

  lemma Begin(n: U128)
    ensures n / Pow2(128) == 0
  {
    hide Pow2;
    Pow2Values();
  }

  /** The shift drops no bit, and the next bit of the numerator lands on a zero. */
  lemma Doubled(rest: U128, bit: nat)
    requires rest < B127 && bit < 2
    ensures ShiftLeft(rest, 1) == 2 * rest && Or(2 * rest, bit) == 2 * rest + bit
  {
    hide Pow2, ShiftLeft, Or;
    Pow2Small();
    ShiftLeftIsTimes(rest, 1);
    OrDisjoint(2 * rest, bit, 1);
  }

  /** The quotient gains a bit below those it has. */
  lemma GainBit(quotient: U128, q: nat, b: nat, n: U128, d: nat, rest: nat)
    requires b < 128 && quotient == q * Pow2(b + 1) && d > 0
    requires n / Pow2(b) == (2 * q + 1) * d + rest
    ensures ShiftLeft(1, b) == Pow2(b) < B128
    ensures Or(quotient, Pow2(b)) == (2 * q + 1) * Pow2(b) < B128
  {
    hide Pow2, ShiftLeft, Or;
    var p := Pow2(b);
    OneShifted(b);
    Pow2Sum(1, b);
    Pow2Small();
    MultipleMod(q, 2 * p);
    OrDisjoint(quotient, p, b + 1);
    Twice(q, p);
    Comm(q, 2 * p);
    Comm(q, p);
    Distribute(2 * q, 1, p);
    QuotientBound(2 * q + 1, p, n, d, rest);
  }

  /** The new quotient is at most the numerator. */
  lemma QuotientBound(k: nat, p: nat, n: nat, d: nat, rest: nat)
    requires p > 0 && d > 0 && n / p == k * d + rest
    ensures k * p <= n
  {
    MulMono(k, 1, d);
    DivMod(n, p);
    MulMono(p, k, n / p);
    Comm(p, k);
  }

  lemma OneShifted(b: nat)
    requires b < 128
    ensures ShiftLeft(1, b) == Pow2(b) < B128
  {
    hide Pow2, ShiftLeft;
    Pow2Sum(b, 128 - b);
    Pow2Values();
    Pow2Sum(1, 127 - b);
    Pow2Small();
    var p := Pow2(b);
    MulMono(p, 2, Pow2(128 - b)) by {
      MulMono(2, 1, Pow2(127 - b));
    }
    ShiftLeftIsTimes(1, b);
    DivUnique(p, B128, 0, p);
  }

  /** One round: the invariant of the division, one bit further down. */
  lemma RoundSum(n: U128, b: nat, q: nat, d: nat, rest: U128)
    requires b < 128 && n / Pow2(b + 1) == q * d + rest
    ensures rest < B127 && Bit(n, b) < 2 && Or(ShiftLeft(rest, 1), Bit(n, b)) == 2 * rest + Bit(n, b)
    ensures n / Pow2(b) == 2 * q * d + (2 * rest + Bit(n, b))
    ensures n / Pow2(b) == (2 * q + 1) * d + (2 * rest + Bit(n, b) - d)
    ensures q * Pow2(b + 1) == 2 * q * Pow2(b)
  {
    hide Pow2, Bit, Or, ShiftLeft;
    RestIsSmall(n, b, q, d, rest);
    BitIsBit(n, b);
    Doubled(rest, Bit(n, b));
    NextBit(n, b);
    Assoc(2, q, d);
    Pow2Sum(1, b);
    Pow2Small();
    Assoc(q, 2, Pow2(b));
    Distribute(2 * q, 1, d);
  }

  lemma BitIsBit(n: U128, b: nat)
    requires b < 128
    ensures Bit(n, b) < 2
  {
  }

  /** The bits above b are divided: their quotient is in place, their remainder small. */
  ghost predicate Partial(n: U128, d: nat, b: nat, quotient: U128, rest: nat) {
    && rest < d
    && exists q: nat :: quotient == q * Pow2(b) && n / Pow2(b) == q * d + rest
  }

  lemma NothingDivided(n: U128, d: nat)
    requires d > 0
    ensures Partial(n, d, 128, 0, 0)
  {
    hide Pow2;
    Begin(n);
    assert 0 == 0 * Pow2(128) && n / Pow2(128) == 0 * d + 0;
  }

  lemma AllDivided(n: U128, d: nat, quotient: U128, rest: nat)
    requires Partial(n, d, 0, quotient, rest)
    ensures n == quotient * d + rest
  {
    Pow2Zero();
    var q: nat :| quotient == q * Pow2(0) && n / Pow2(0) == q * d + rest;
    assert q == quotient;
  }

  /** One round of the loop. */
  lemma OneBit(n: U128, d: nat, b: nat, quotient: U128, rest: U128)
    requires b < 128 && Partial(n, d, b + 1, quotient, rest)
    ensures var twice := Or(ShiftLeft(rest, 1), Bit(n, b));
      && rest < B127 && twice < B128
      && (twice < d ==> Partial(n, d, b, quotient, twice))
      && (twice >= d ==>
           && Or(quotient, ShiftLeft(1, b)) < B128
           && Partial(n, d, b, Or(quotient, ShiftLeft(1, b)), twice - d))
  {
    hide Pow2, Bit, Or, ShiftLeft;
    var q: nat :| quotient == q * Pow2(b + 1) && n / Pow2(b + 1) == q * d + rest;
    RoundSum(n, b, q, d, rest);
    var twice := 2 * rest + Bit(n, b);
    if twice >= d {
      GainBit(quotient, q, b, n, d, twice - d);
    }
  }

  /** udivmod128: shift and subtract, bit by bit. */
  method UDivMod(numerator: U128, denominator: U128) returns (r: Division)
    ensures denominator == 0 ==> r == Exits(72)
    ensures denominator != 0 ==>
      && r.Divided?
      && numerator == r.quotient * denominator + r.rest
      && r.rest < denominator
  {
    hide Pow2, Bit, Or, ShiftLeft, Partial;
    if denominator == 0 {
      return Exits(72);
    }
    var quotient: U128 := 0;
    var rest: U128 := 0;
    NothingDivided(numerator, denominator);
    for bit := 128 downto 0
      invariant rest < denominator && Partial(numerator, denominator, bit, quotient, rest)
    {
      OneBit(numerator, denominator, bit, quotient, rest);
      rest := ShiftLeft(rest, 1);
      rest := Or(rest, Bit(numerator, bit));
      if rest >= denominator {
        rest := rest - denominator;
        quotient := Or(quotient, ShiftLeft(1, bit));
      }
      RestBelow(numerator, denominator, bit, quotient, rest);
    }
    AllDivided(numerator, denominator, quotient, rest);
    return Divided(quotient, rest);
  }

  lemma RestBelow(n: U128, d: nat, b: nat, quotient: U128, rest: nat)
    requires Partial(n, d, b, quotient, rest)
    ensures rest < d
  {
  }

  // ---- signed division ------------------------------------------------------------------------

  /** The quotient truncated toward zero and the remainder with the dividend's sign. */
  function TruncQuotient(a: int, b: int): int
    requires b != 0
  {
    if (a < 0) != (b < 0) then -(Magnitude(a) / Magnitude(b)) else Magnitude(a) / Magnitude(b)
  }

  function TruncRemainder(a: int, b: int): int
    requires b != 0
  {
    if a < 0 then -(Magnitude(a) % Magnitude(b)) else Magnitude(a) % Magnitude(b)
  }

  function Magnitude(a: int): nat {
    if a < 0 then Minus(a) else a
  }

  lemma TruncLaw(a: int, b: int)
    requires b != 0
    ensures a == TruncQuotient(a, b) * b + TruncRemainder(a, b)
    ensures Magnitude(TruncRemainder(a, b)) < Magnitude(b)
    ensures TruncRemainder(a, b) == 0 || (TruncRemainder(a, b) < 0 <==> a < 0)
  {
    var q := Magnitude(a) / Magnitude(b);
    DivMod(Magnitude(a), Magnitude(b));
    Comm(q, Magnitude(b));
    NegTimes(q, b);
    NegTimes(q, Magnitude(b));
  }

  datatype Signed128 = Value(v: I128) | Trap(code: int)

  function Minus(x: int): int {
    -x
  }

  /** 0 - x on the unsigned word. */
  function Negated(x: U128): U128 {
    Unsigned(Minus(x))
  }

  lemma MagnitudeWord(a: I128)
    ensures (if a < 0 then Negated(Unsigned(a)) else Unsigned(a)) == Magnitude(a)
  {
    if a < 0 {
      DivUnique(a, B128, -1, a + B128);
      DivUnique(Minus(a + B128), B128, -1, Minus(a));
    } else {
      DivUnique(a, B128, 0, a);
    }
  }

  /** __divti3; the one quotient that does not fit wraps around. */
  method DivSigned(a: I128, b: I128) returns (r: Signed128)
    ensures b == 0 ==> r == Trap(72)
    ensures b != 0 ==> r == Value(Signed(Unsigned(TruncQuotient(a, b))))
  {
    var ua := if a < 0 then Negated(Unsigned(a)) else Unsigned(a);
    var ub := if b < 0 then Negated(Unsigned(b)) else Unsigned(b);
    var negative := (a < 0) != (b < 0);
    MagnitudeWord(a);
    MagnitudeWord(b);
    var d := UDivMod(ua, ub);
    if d.Exits? {
      return Trap(d.code);
    }
    var q := d.quotient;
    DivUnique(ua, ub, q, d.rest);
    NegateWord(q);
    r := Value(if negative then Signed(Unsigned(Minus(Signed(q)))) else Signed(q));
    DivUnique(q, B128, 0, q);
  }

  lemma NegateWord(q: U128)
    ensures Unsigned(Minus(Signed(q))) == Unsigned(Minus(q))
  {
    if q >= B127 {
      ModShift(Minus(q), 1, B128);
    }
  }

  /** __modti3 */
  method ModSigned(a: I128, b: I128) returns (r: Signed128)
    ensures b == 0 ==> r == Trap(72)
    ensures b != 0 ==> r == Value(TruncRemainder(a, b))
  {
    var ua := if a < 0 then Negated(Unsigned(a)) else Unsigned(a);
    var ub := if b < 0 then Negated(Unsigned(b)) else Unsigned(b);
    MagnitudeWord(a);
    MagnitudeWord(b);
    var d := UDivMod(ua, ub);
    if d.Exits? {
      return Trap(d.code);
    }
    var rest := d.rest;
    DivUnique(ua, ub, d.quotient, rest);
    if a < 0 {
      NegateWord(rest);
      SmallSigned(Minus(rest));
      return Value(Signed(Unsigned(Minus(Signed(rest)))));
    }
    SmallSigned(rest);
    DivUnique(rest, B128, 0, rest);
    return Value(Signed(rest));
  }

  lemma SmallSigned(x: int)
    requires -B127 <= x < B127
    ensures Signed(Unsigned(x)) == x
  {
    DivUnique(x, B128, if x < 0 then -1 else 0, if x < 0 then x + B128 else x);
  }

  /** The quotient is exact but for the most negative value divided by -1. */
  lemma QuotientFitsUnlessLeast(a: I128, b: I128)
    requires b != 0
    ensures Signed(Unsigned(TruncQuotient(a, b))) == TruncQuotient(a, b) <==> !(a == -B127 && b == -1)
  {
    var q := Magnitude(a) / Magnitude(b);
    DivMod(Magnitude(a), Magnitude(b));
    DivBelow(Magnitude(a), Magnitude(b));
    if a == -B127 && b == -1 {
      assert q == B127;
      DivUnique(B127, B128, 0, B127);
    } else if Magnitude(b) >= 2 {
      MulMono(q, 2, Magnitude(b));
      Comm(q, Magnitude(b));
      SmallSigned(TruncQuotient(a, b));
    } else {
      SmallSigned(TruncQuotient(a, b));
    }
  }

  /** Quotient times divisor plus remainder is the dividend, as words, in every case. */
  lemma DivisionLaw(a: I128, b: I128)
    requires b != 0
    ensures Unsigned(Signed(Unsigned(TruncQuotient(a, b))) * b + TruncRemainder(a, b)) == Unsigned(a)
  {
    TruncLaw(a, b);
    if a == -B127 && b == -1 {
      QuotientFitsUnlessLeast(a, b);
      assert TruncQuotient(a, b) == B127 && TruncRemainder(a, b) == 0;
      DivUnique(B127, B128, 0, B127);
      ModShift(-B127, 1, B128);
    } else {
      QuotientFitsUnlessLeast(a, b);
    }
  }

  /** What the source negates: the truncated magnitude, converted to a signed word.  The
      negation leaves the signed range exactly when the least value is divided by 1. */
  lemma NegationOverflowsIff(a: I128, b: I128)
    requires b != 0
    ensures (a < 0) != (b < 0) && Signed(Magnitude(a) / Magnitude(b)) == -B127 <==> a == -B127 && b == 1
  {
  }

  /** There the word that wraps around is the quotient all the same. */
  lemma OverflowIsHarmless()
    ensures Signed(Magnitude(-B127) / Magnitude(1)) == -B127 && Minus(-B127) >= B127
    ensures Signed(Unsigned(Minus(Signed(Magnitude(-B127) / Magnitude(1))))) == TruncQuotient(-B127, 1) == -B127
  {
  }

  /** At -1 nothing is negated: the magnitude itself does not fit and is converted. */
  lemma ConversionWrapsIff(a: I128, b: I128)
    requires b != 0
    ensures (a < 0) == (b < 0) && Magnitude(a) / Magnitude(b) >= B127 <==> a == -B127 && b == -1
  {
  }

  /** __modti3 never negates the least value. */
  lemma RemainderNegates(a: I128, b: I128)
    requires b != 0
    ensures Magnitude(a) % Magnitude(b) < B127
  {
  }
}
