/** 64-bit division for 32-bit targets (div64.c): shift and subtract, and its signed form. */
module Div64 {
  import opened Common

  const WORD: nat := 0x1_0000_0000_0000_0000
  const MIN: int := -0x8000_0000_0000_0000
  const MAX: int := 0x7fff_ffff_ffff_ffff

  datatype Divided = Divided(quot: int, rem: int)

  lemma {:induction false} PowAbove(k: nat)
    requires k <= 64
    ensures Pow2(64) == WORD && Pow2(k) <= WORD
    decreases 64 - k
  {
    assert Pow2(8) == 0x100;
    assert Pow2(16) == 0x1_0000 by { assert Pow2(12) == 0x1000; }
    assert Pow2(24) == 0x100_0000 by { assert Pow2(20) == 0x10_0000; }
    assert Pow2(32) == 0x1_0000_0000 by { assert Pow2(28) == 0x1000_0000; }
    assert Pow2(40) == 0x100_0000_0000 by { assert Pow2(36) == 0x10_0000_0000; }
    assert Pow2(48) == 0x1_0000_0000_0000 by { assert Pow2(44) == 0x1000_0000_0000; }
    assert Pow2(56) == 0x100_0000_0000_0000 by { assert Pow2(52) == 0x10_0000_0000_0000; }
    assert Pow2(64) == WORD by { assert Pow2(60) == 0x1000_0000_0000_0000; }
    if k < 64 {
      PowAbove(k + 1);
    }
  }

  /** d * q, by a name of its own: the loop uses only how it doubles. */
  ghost function Product(d: nat, q: nat): nat { d * q }

  /** n >> k */
  function Top(n: nat, k: nat): nat {
    if k == 0 then n else Top(n, k - 1) / 2
  }

  lemma {:induction false} TopBelow(n: nat, k: nat, m: nat)
    requires n < Pow2(k + m)
    ensures Top(n, k) < Pow2(m)
    decreases k
  {
    if k > 0 {
      TopBelow(n, k - 1, m + 1);
    }
  }

  lemma Doubled(d: nat, q: nat)
    ensures Product(d, 2 * q) == 2 * Product(d, q) && Product(d, 2 * q + 1) == 2 * Product(d, q) + d
  {
  }

  lemma HalfPlace(q: nat, k: nat)
    ensures Product(2 * q, Pow2(k)) == Product(q, Pow2(k + 1))
    ensures Product(2 * q + 1, Pow2(k)) == Product(q, Pow2(k + 1)) + Pow2(k)
  {
    var p := Pow2(k);
    assert q * (2 * p) == (2 * q) * p;
    assert (2 * q + 1) * p == (2 * q) * p + p;
  }

  /**
   div_u64: the quotient and remainder, for divisors above 2^63 too; a divisor of 0 gives all
   ones and the dividend.  The partial remainder shifted by one never leaves 64 bits, and the
   bits set in the quotient are clear before, so that `or` is addition.
  */
  method DivU64(n: nat, d: nat) returns (quot: nat, rem: nat)
    requires n < WORD && d < WORD
    ensures quot < WORD && rem < WORD
    ensures d > 0 ==> n == Product(d, quot) + rem && rem < d
    ensures d == 0 ==> quot == WORD - 1 && rem == n
  {
    hide Pow2, Product, Top;
    quot, rem := 0, 0;
    ghost var high: nat := 0;
    var k: nat := 64;
    Start(n, d);
    while k > 0
      invariant 0 <= k <= 64 && quot == Product(high, Pow2(k)) && rem <= Top(n, k) && quot + Pow2(k) <= WORD
      invariant d > 0 ==> Top(n, k) == Product(d, high) + rem && rem < d
      invariant d == 0 ==> rem == Top(n, k) && quot + Pow2(k) == WORD
    {
      var i: nat := k - 1;
      BitStep(n, i);
      var bit := Top(n, i) % 2;
      assert 2 * rem + bit < WORD;
      rem := (2 * rem) % WORD;
      rem := rem + bit;
      Doubled(d, high);
      HalfPlace(high, i);
      if rem >= d {
        rem := rem - d;
        quot := quot + Pow2(i);
        high := 2 * high + 1;
      } else {
        high := 2 * high;
      }
      k := i;
    }
    LastStep(n, d, high);
  }

  lemma Start(n: nat, d: nat)
    requires n < WORD
    ensures Pow2(64) == WORD && Top(n, 64) == 0 && Product(d, 0) == 0 && Product(0, Pow2(64)) == 0
  {
    PowAbove(64);
    TopBelow(n, 64, 0);
  }

  lemma LastStep(n: nat, d: nat, high: nat)
    ensures Pow2(0) == 1 && Top(n, 0) == n && Product(high, Pow2(0)) == high && Product(d, high) == d * high
  {
  }

  lemma BitStep(n: nat, i: nat)
    requires n < WORD && i < 64
    ensures Top(n, i) == 2 * Top(n, i + 1) + Top(n, i) % 2 && Top(n, i) < WORD && Pow2(i + 1) == 2 * Pow2(i)
  {
    PowAbove(64 - i);
    TopBelow(n, i, 64 - i);
  }

  ghost predicate Euclidean(n: int, d: int, v: Divided) {
    n == d * v.quot + v.rem && 0 <= v.rem < if d < 0 then -d else d
  }

  /**
   div_64: Euclidean division, the remainder never negative; None is the division by zero it
   lets the machine report.  (C's own operators truncate toward zero instead.)
  */
  method Div(n: int, d: int) returns (r: Option<Divided>)
    requires MIN < n <= MAX && MIN < d <= MAX
    ensures r.None? <==> d == 0
    ensures r.Some? ==> Euclidean(n, d, r.value) && MIN < r.value.quot <= MAX
    decreases d < 0, n < 0
  {
    if d == 0 {
      return None;
    }
    if d < 0 {
      r := Div(n, -d);
      Negated(n, -d, r.value);
      return Some(Divided(-r.value.quot, r.value.rem));
    }
    if n < 0 {
      r := Div(-n, d);
      Below(n, d, r.value);
      if r.value.rem == 0 {
        return Some(Divided(-r.value.quot, 0));
      }
      return Some(Divided(-r.value.quot - 1, d - r.value.rem));
    }
    var quot, rem := DivU64(n, d);
    Bounded(n, d, quot, rem);
    return Some(Divided(quot, rem));
  }

  lemma Negated(n: int, d: int, v: Divided)
    requires d != 0 && Euclidean(n, d, v)
    ensures Euclidean(n, -d, Divided(-v.quot, v.rem))
  {
    assert (-d) * (-v.quot) == d * v.quot;
  }

  lemma Below(n: int, d: int, v: Divided)
    requires d > 0 && n < 0 && Euclidean(-n, d, v) && -n <= MAX
    ensures v.rem == 0 ==> Euclidean(n, d, Divided(-v.quot, 0))
    ensures v.rem != 0 ==> Euclidean(n, d, Divided(-v.quot - 1, d - v.rem))
    ensures 0 <= v.quot <= MAX && (v.rem != 0 ==> v.quot < MAX)
  {
    Opposite(d, v.quot);
    AtLeast(d, v.quot);
  }

  lemma Opposite(d: int, q: int)
    ensures d * (-q) == -(d * q) && d * (-q - 1) == -(d * q) - d
  {
  }

  lemma AtLeast(d: int, q: int)
    requires d > 0
    ensures if q < 0 then d * q <= -d else d * q >= q
  {
    if q < 0 {
      assert d * (-q - 1) >= 0;
      Opposite(d, q);
    } else {
      assert (d - 1) * q >= 0;
    }
  }

  lemma Bounded(n: nat, d: nat, q: nat, r: nat)
    requires d > 0 && n == d * q + r
    ensures q <= n
  {
    assert d * q == (d - 1) * q + q;
    assert (d - 1) * q >= 0;
  }

  /** The results are the only ones: the law determines quotient and remainder. */
  lemma EuclideanUnique(n: int, d: int, v: Divided, w: Divided)
    requires d != 0 && Euclidean(n, d, v) && Euclidean(n, d, w)
    ensures v == w
  {
    if d < 0 {
      Negated(n, d, v);
      Negated(n, d, w);
      UniqueAbove(n, -d, Divided(-v.quot, v.rem), Divided(-w.quot, w.rem));
    } else {
      UniqueAbove(n, d, v, w);
    }
  }

  lemma UniqueAbove(n: int, d: int, v: Divided, w: Divided)
    requires d > 0 && Euclidean(n, d, v) && Euclidean(n, d, w)
    ensures v == w
  {
    var k := v.quot - w.quot;
    assert k * d == w.rem - v.rem by { assert k * d == d * v.quot - d * w.quot; }
    assert k >= 1 ==> (k - 1) * d >= 0;
    assert k <= -1 ==> (-k - 1) * d >= 0;
  }
}
