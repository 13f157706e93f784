/** Machine words as naturals below a power of two, and the arithmetic they need. */
module Words {
  const B32: int := 0x1_0000_0000
  const B64: int := 0x1_0000_0000_0000_0000
  const B127: int := 0x8000_0000_0000_0000_0000_0000_0000_0000
  const B128: int := 0x1_0000_0000_0000_0000_0000_0000_0000_0000

  type U64 = x: nat | x < B64
  type U128 = x: nat | x < B128
  type I128 = x: int | -B127 <= x < B127

  function Pow2(n: nat): (r: nat)
    ensures r > 0
  {
    if n == 0 then 1 else 2 * Pow2(n - 1)
  }

  lemma {:induction false} Pow2Sum(m: nat, n: nat)
    ensures Pow2(m + n) == Pow2(m) * Pow2(n)
  {
    if m > 0 {
      Pow2Sum(m - 1, n);
      Twice(Pow2(m - 1), Pow2(n));
    }
  }

  lemma Twice(a: nat, b: nat)
    ensures 2 * (a * b) == (2 * a) * b
  {
  }

  lemma Pow2Small()
    ensures Pow2(1) == 2 && Pow2(4) == 16 && Pow2(8) == 256
  {
    assert Pow2(2) == 4;
    Pow2Sum(2, 2);
    Pow2Sum(4, 4);
  }

  lemma Pow2Values()
    ensures Pow2(32) == B32 && Pow2(64) == B64 && Pow2(127) == B127 && Pow2(128) == B128
  {
    hide Pow2;
    Pow2Small();
    Pow2Sum(8, 8);
    Pow2Sum(16, 16);
    Pow2Sum(32, 32);
    Pow2Sum(64, 64);
    Pow2Sum(1, 127);
  }

  // ---- division ---------------------------------------------------------------------

  lemma DivUnique(a: int, b: int, q: int, r: int)
    requires b > 0 && a == q * b + r && 0 <= r < b
    ensures a / b == q && a % b == r
  {
    var q', r' := a / b, a % b;
    assert a == b * q' + r';
    assert (q - q') * b == r' - r;
    SmallMultiple(q - q', b);
  }

  lemma MulAtLeast(k: int, b: int)
    requires k >= 1 && b > 0
    ensures k * b >= b
  {
    assert k * b == (k - 1) * b + b;
    MulNat(k - 1, b);
  }

  /** The only multiple of b within b of zero is zero. */
  lemma SmallMultiple(k: int, b: int)
    requires b > 0 && -b < k * b < b
    ensures k == 0
  {
    if k > 0 {
      MulAtLeast(k, b);
    } else if k < 0 {
      MulAtLeast(-k, b);
      NegTimes(k, b);
    }
  }

  lemma NegTimes(k: int, b: int)
    ensures (-k) * b == -(k * b)
  {
  }

  lemma MulNat(a: int, b: int)
    requires a >= 0 && b >= 0
    ensures a * b >= 0
  {
  }

  lemma MulLess(a: int, b: int, p: int)
    requires 0 <= a < b && p > 0
    ensures a * p <= b * p - p
  {
    assert (b - 1 - a) * p >= 0 by {
      MulNat(b - 1 - a, p);
    }
    assert (b - 1 - a) * p == b * p - p - a * p;
  }

  lemma ModShift(a: int, k: int, m: int)
    requires m > 0
    ensures (a + k * m) % m == a % m
  {
    var q, r := a / m, a % m;
    assert a == m * q + r;
    assert a + k * m == (q + k) * m + r;
    DivUnique(a + k * m, m, q + k, r);
  }

  /** The quotient by a product of powers stays below the other factor. */
  lemma DivLess(a: nat, p: nat, q: nat)
    requires p > 0 && q > 0 && a < p * q
    ensures a / p < q
  {
    var t := a / p;
    assert p * t <= a;
    if t >= q {
      MulMono(p, q, t);
    }
  }

  lemma MulMono(p: nat, a: nat, b: nat)
    requires a <= b
    ensures p * a <= p * b
  {
    assert p * (b - a) >= 0;
    assert p * (b - a) == p * b - p * a;
  }

  lemma DivMod(a: int, b: int)
    requires b > 0
    ensures a == b * (a / b) + a % b && 0 <= a % b < b
  {
  }

  lemma DivBelow(a: nat, b: nat)
    requires b > 0
    ensures 0 <= a / b <= a
  {
    DivMod(a, b);
    MulMono(a / b, 1, b);
    Comm(a / b, b);
  }

  lemma Comm(a: int, b: int)
    ensures a * b == b * a
  {
  }

  lemma Assoc(a: int, b: int, c: int)
    ensures a * (b * c) == a * b * c
  {
  }

  lemma Distribute(a: int, b: int, c: int)
    ensures (a + b) * c == a * c + b * c
  {
  }

  /** A word of q*t + r, times p, where p*q is the modulus. */
  lemma SplitTimes(t: int, q: int, r: int, p: int)
    ensures (q * t + r) * p == t * (p * q) + r * p
  {
    Distribute(q * t, r, p);
    Comm(q, t);
    Assoc(t, q, p);
    Comm(q, p);
  }

  // ---- bitwise or -------------------------------------------------------------------

  function Or(a: nat, b: nat): nat
    decreases a + b
  {
    if a == 0 && b == 0 then 0
    else (if a % 2 == 1 || b % 2 == 1 then 1 else 0) + 2 * Or(a / 2, b / 2)
  }

  lemma {:induction false} OrComm(a: nat, b: nat)
    ensures Or(a, b) == Or(b, a)
    decreases a + b
  {
    if a > 0 || b > 0 {
      OrComm(a / 2, b / 2);
    }
  }

  lemma {:induction false} OrZero(a: nat)
    ensures Or(a, 0) == a
  {
    if a > 0 {
      OrZero(a / 2);
    }
  }

  /** On words whose bits do not meet, or is addition. */
  lemma {:induction false} OrDisjoint(a: nat, b: nat, k: nat)
    requires a % Pow2(k) == 0 && b < Pow2(k)
    ensures Or(a, b) == a + b
    decreases k
  {
    if k == 0 {
      OrZero(a);
    } else {
      var p := Pow2(k - 1);
      var t := a / Pow2(k);
      assert a == Pow2(k) * t;
      assert Pow2(k) == 2 * p;
      assert a == 2 * (p * t) by {
        Twice(p, t);
      }
      assert a / 2 == p * t;
      DivUnique(p * t, p, t, 0);
      OrDisjoint(a / 2, b / 2, k - 1);
    }
  }
}
