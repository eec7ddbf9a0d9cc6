/** Bit operations on unbounded naturals, digit by digit, and what the masks used by
    the runtime and by the arena mean arithmetically. */
module Bits {

  function Pow2(k: nat): (p: nat)
    ensures p > 0
  {
    if k == 0 then 1 else 2 * Pow2(k - 1)
  }

  /** Bitwise conjunction: of the low digits, then of the remaining digits. */
  function And(a: nat, b: nat): nat {
    if a == 0 || b == 0 then 0
    else (if a % 2 == 1 && b % 2 == 1 then 1 else 0) + 2 * And(a / 2, b / 2)
  }

  ghost predicate IsPow2(a: nat) {
    exists k: nat :: a == Pow2(k)
  }

  lemma {:induction false} AndSelf(a: nat)
    ensures And(a, a) == a
  {
    if a > 0 {
      AndSelf(a / 2);
    }
  }

  lemma AndOdd(a: nat, h: nat)
    requires a > 0 && h > 0
    ensures And(a, 2 * h - 1) == a % 2 + 2 * And(a / 2, h - 1)
  {
    assert (2 * h - 1) / 2 == h - 1 && (2 * h - 1) % 2 == 1;
  }

  lemma AndLowMaskStep(a: nat, h: nat)
    requires a > 0 && h > 0 && And(a / 2, h - 1) == (a / 2) % h
    ensures And(a, 2 * h - 1) == a % (2 * h)
  {
    AndOdd(a, h);
    ModDouble(a, h);
  }

  /** Masking with 2^k - 1 is the remainder modulo 2^k. */
  lemma {:induction false} AndLowMask(a: nat, k: nat)
    ensures And(a, Pow2(k) - 1) == a % Pow2(k)
  {
    if k == 0 {
      assert a % 1 == 0;
    } else if a == 0 {
      ModUnique(0, Pow2(k), 0, 0);
    } else {
      AndLowMask(a / 2, k - 1);
      AndLowMaskStep(a, Pow2(k - 1));
    }
  }

  lemma ModDouble(a: nat, h: nat)
    requires h > 0
    ensures a % (2 * h) == a % 2 + 2 * ((a / 2) % h)
  {
    var q, r := (a / 2) / h, (a / 2) % h;
    Division(a / 2, h);
    assert a == 2 * (h * q + r) + a % 2;
    assert 2 * (h * q) == (2 * h) * q;
    ModUnique(a, 2 * h, q, a % 2 + 2 * r);
  }

  lemma Division(a: int, m: int)
    requires m > 0
    ensures a == m * (a / m) + a % m
  {
  }

  lemma Distribute(m: int, p: int, q: int)
    ensures m * (p - q) == m * p - m * q
  {
  }

  lemma ProductGrows(m: int, d: int)
    requires m > 0 && d >= 1
    ensures m * d >= m
  {
  }

  lemma ModUnique(a: int, m: int, q: int, r: int)
    requires m > 0 && 0 <= r < m && a == m * q + r
    ensures a % m == r && a / m == q
  {
    var q', r' := a / m, a % m;
    assert a == m * q' + r' by { Division(a, m); }
    Distribute(m, q, q');
    Distribute(m, q', q);
    if q > q' {
      ProductGrows(m, q - q');
    } else if q < q' {
      ProductGrows(m, q' - q);
    }
  }

  /** The test of the arena: a & (a - 1) vanishes exactly on the powers of two. */
  lemma {:induction false} PowerOfTwoTest(a: nat)
    requires a > 0
    ensures And(a, a - 1) == 0 <==> IsPow2(a)
  {
    var b := a / 2;
    if a % 2 == 1 {
      assert (a - 1) / 2 == b;
      AndSelf(b);
      assert And(a, a - 1) == 2 * b;
      if a == 1 {
        assert Pow2(0) == a;
      } else {
        OddIsNotPow2(a);
      }
    } else {
      assert (a - 1) / 2 == b - 1 && (a - 1) % 2 == 1;
      PowerOfTwoTest(b);
      HalfPow2(b);
    }
  }

  lemma OddIsNotPow2(a: nat)
    requires a > 1 && a % 2 == 1
    ensures !IsPow2(a)
  {
    forall k: nat
      ensures a != Pow2(k)
    {
      if k > 0 {
        assert Pow2(k) == 2 * Pow2(k - 1);
      }
    }
  }

  lemma HalfPow2(b: nat)
    requires b > 0
    ensures IsPow2(2 * b) <==> IsPow2(b)
  {
    if IsPow2(b) {
      var k: nat :| b == Pow2(k);
      assert Pow2(k + 1) == 2 * b;
    }
    if IsPow2(2 * b) {
      var k: nat :| 2 * b == Pow2(k);
      assert k > 0;
      assert Pow2(k - 1) == b;
    }
  }

  lemma {:induction false} Pow2Monotone(j: nat, k: nat)
    requires j <= k
    ensures Pow2(j) <= Pow2(k)
    decreases k - j
  {
    if j < k {
      Pow2Monotone(j + 1, k);
    }
  }

  /** The powers that appear as literals. */
  lemma Pow2Values()
    ensures Pow2(1) == 2 && Pow2(3) == 8 && Pow2(8) == 0x100
    ensures Pow2(32) == 0x1_0000_0000
    ensures Pow2(63) == 0x8000_0000_0000_0000 && Pow2(64) == 0x1_0000_0000_0000_0000
  {
    assert Pow2(4) == 0x10;
    Pow2Add(4, 4);
    Pow2Add(8, 8);
    Pow2Add(16, 16);
    Pow2Add(32, 32);
    assert Pow2(64) == 2 * Pow2(63);
  }

  lemma {:induction false} Pow2Add(j: nat, k: nat)
    ensures Pow2(j + k) == Pow2(j) * Pow2(k)
  {
    if j > 0 {
      Pow2Add(j - 1, k);
      assert Pow2(j + k) == 2 * Pow2(j - 1 + k);
    }
  }
}
