/** Facts about powers of two, division and rounding that several modules use. */
module Numbers {

  /** One more than the largest 64-bit word. */
  const TOP := 0x1_0000_0000_0000_0000

  function Pow2(k: nat): (r: nat)
    ensures 0 < r
  {
    if k == 0 then 1 else 2 * Pow2(k - 1)
  }

  lemma {:induction false} Pow2Monotone(a: nat, b: nat)
    requires a <= b
    ensures Pow2(a) <= Pow2(b)
  {
    if a < b {
      Pow2Monotone(a, b - 1);
    }
  }

  lemma {:induction false} Pow2Of64()
    ensures Pow2(64) == TOP
  {
    Pow2Adds(8, 8);
    Pow2Adds(16, 16);
    Pow2Adds(32, 32);
    assert Pow2(8) == 256 by { assert Pow2(4) == 16; }
  }

  lemma {:induction false} Pow2Adds(a: nat, b: nat)
    ensures Pow2(a + b) == Pow2(a) * Pow2(b)
  {
    if a > 0 {
      Pow2Adds(a - 1, b);
    }
  }

  function RoundUp(a: nat, align: nat): nat {
    if align == 0 then a else (a + (align - 1)) / align * align
  }

  lemma {:induction false} RoundUpAbove(a: nat, align: nat)
    ensures a <= RoundUp(a, align)
    ensures align != 0 ==> RoundUp(a, align) % align == 0
  {
    if align != 0 {
      var x := a + (align - 1);
      assert x == align * (x / align) + x % align;
      assert x / align * align == align * (x / align);
      MultipleMod(x / align, align);
    }
  }

  /** `RoundUp` gives the least multiple that is not below its argument. */
  lemma {:induction false} RoundUpLeast(a: nat, align: nat, m: nat)
    requires 0 < align && a <= m && m % align == 0
    ensures RoundUp(a, align) <= m
  {
    var x, k := a + (align - 1), m / align;
    assert m == align * k;
    assert x == align * (x / align) + x % align;
    assert align * (k + 1) == m + align;
    MulCancel(align, x / align, k + 1);
    MulMonotone(align, x / align, k);
    assert x / align * align == align * (x / align);
  }

  lemma {:induction false} MulMonotone(m: nat, a: nat, b: nat)
    requires a <= b
    ensures m * a <= m * b
  {
  }

  lemma {:induction false} MulCancel(m: nat, a: nat, b: nat)
    requires m * a < m * b
    ensures a < b
  {
  }

  lemma {:induction false} MultipleMod(k: nat, m: nat)
    requires 0 < m
    ensures (k * m) % m == 0
  {
    if k > 0 {
      MultipleMod(k - 1, m);
      assert k * m == (k - 1) * m + m;
      ModPlus((k - 1) * m, m);
    }
  }

  lemma {:induction false} ModPlus(a: nat, m: nat)
    requires 0 < m
    ensures (a + m) % m == a % m
  {
    var q, r := a / m, a % m;
    assert a + m == m * (q + 1) + r;
    DivUnique(a + m, m, q + 1, r);
  }

  lemma {:induction false} DivUnique(a: nat, m: nat, q: nat, r: nat)
    requires 0 < m && a == m * q + r && r < m
    ensures a / m == q && a % m == r
  {
    var d: int := a / m - q;
    assert d > 0 ==> m * d >= m;
    assert d < 0 ==> m * d <= 0 - m;
    assert a == m * (a / m) + a % m;
    assert m * d == m * (a / m) - m * q;
  }

  /** Multiples of `m` are closed under sum, difference and taking factors. */
  lemma {:induction false} MultipleSum(a: nat, b: nat, m: nat)
    requires 0 < m && a % m == 0 && b % m == 0
    ensures (a + b) % m == 0 && (b <= a ==> (a - b) % m == 0)
  {
    var x, y := a / m, b / m;
    assert a == m * x && b == m * y;
    assert a + b == m * (x + y);
    DivUnique(a + b, m, x + y, 0);
    if b <= a {
      assert y <= x by { assert m * y <= m * x; MulOrder(m, y, x); }
      assert a - b == m * (x - y);
      DivUnique(a - b, m, x - y, 0);
    }
  }

  lemma {:induction false} MulOrder(m: nat, a: nat, b: nat)
    requires 0 < m && m * a <= m * b
    ensures a <= b
  {
    if b < a {
      MulMonotone(m, b + 1, a);
    }
  }

  lemma {:induction false} MultipleFactor(a: nat, c: nat, m: nat)
    requires 0 < c && 0 < m && 0 < c * m && a % (c * m) == 0
    ensures a % m == 0
  {
    var q := a / (c * m);
    assert a == (c * m) * q;
    assert a == m * (c * q);
    DivUnique(a, m, c * q, 0);
  }

  lemma {:induction false} MultipleAtLeast(a: nat, m: nat)
    requires 0 < m && a % m == 0 && 0 < a
    ensures m <= a
  {
    if a < m {
      DivUnique(a, m, 0, a);
    }
  }
}
