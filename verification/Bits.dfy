/** Bitwise operators on natural numbers, and the facts that turn masks and shifts
    by powers of two into remainders and sums. */
module Bits {

  function Pow2(k: nat): (p: nat)
    ensures p >= 1
  {
    if k == 0 then 1 else 2 * Pow2(k - 1)
  }

  function And(a: nat, b: nat): nat {
    if a == 0 || b == 0 then 0 else (if a % 2 == 1 && b % 2 == 1 then 1 else 0) + 2 * And(a / 2, b / 2)
  }

  function Or(a: nat, b: nat): nat
    decreases a + b
  {
    if a == 0 then b else if b == 0 then a
    else (if a % 2 == 1 || b % 2 == 1 then 1 else 0) + 2 * Or(a / 2, b / 2)
  }

  function Xor(a: nat, b: nat): nat
    decreases a + b
  {
    if a == 0 && b == 0 then 0
    else (if a % 2 != b % 2 then 1 else 0) + 2 * Xor(a / 2, b / 2)
  }

  lemma MulBound(d: int, n: int)
    requires n >= 0
    ensures d >= 1 ==> d * n >= n
    ensures d <= -1 ==> d * n <= -n
  {}

  lemma ModUnique(x: int, n: nat, q: int, r: nat)
    requires n > 0 && r < n && x == q * n + r
    ensures x % n == r && x / n == q
  {
    var d := x / n - q;
    assert d * n == r - x % n;
    MulBound(d, n);
  }

  lemma HalveMod(x: nat, p: nat)
    requires p > 0
    ensures x % (2 * p) == x % 2 + 2 * ((x / 2) % p)
  {
    var q, r := (x / 2) / p, (x / 2) % p;
    assert x == q * (2 * p) + (2 * r + x % 2);
    ModUnique(x, 2 * p, q, 2 * r + x % 2);
  }

  lemma AndOfHalves(x: nat, p: nat, y: nat, q: nat)
    requires p < 2 && q < 2
    ensures And(2 * x + p, 2 * y + q) == (if p == 1 && q == 1 then 1 else 0) + 2 * And(x, y)
  {
    assert (2 * x + p) / 2 == x && (2 * y + q) / 2 == y;
  }

  /** Masking with 2^k - 1 is the remainder modulo 2^k. */
  lemma {:induction false} AndMask(x: nat, k: nat)
    ensures And(x, Pow2(k) - 1) == x % Pow2(k)
    decreases k
  {
    if k == 0 {
    } else {
      var p := Pow2(k - 1);
      AndMask(x / 2, k - 1);
      AndOfHalves(x / 2, x % 2, p - 1, 1);
      HalveMod(x, p);
      assert Pow2(k) == 2 * p;
      hide And, Pow2;
    }
  }

  /** A single bit tests the upper half of the range below it. */
  lemma {:induction false} AndTopBit(x: nat, k: nat)
    requires x < 2 * Pow2(k)
    ensures And(x, Pow2(k)) == if x >= Pow2(k) then Pow2(k) else 0
    decreases k
  {
    if k == 0 {
    } else {
      AndTopBit(x / 2, k - 1);
    }
  }

  lemma OrDouble(a: nat, c: nat)
    ensures Or(a, 2 * c) == a % 2 + 2 * Or(a / 2, c)
  {}

  function DoubledTimes(b: nat, k: nat): nat {
    if k == 0 then b else 2 * DoubledTimes(b, k - 1)
  }

  lemma DoubleProduct(b: nat, p: nat)
    ensures b * (2 * p) == 2 * (b * p)
  {}

  lemma {:induction false} ShiftIsProduct(b: nat, k: nat)
    ensures DoubledTimes(b, k) == b * Pow2(k)
    decreases k
  {
    if k == 0 {
    } else {
      ShiftIsProduct(b, k - 1);
      DoubleProduct(b, Pow2(k - 1));
      hide Pow2;
    }
  }

  lemma {:induction false} OrAboveShift(a: nat, b: nat, k: nat)
    requires a < Pow2(k)
    ensures Or(a, DoubledTimes(b, k)) == a + DoubledTimes(b, k)
    decreases k
  {
    if k == 0 {
    } else {
      OrAboveShift(a / 2, b, k - 1);
      OrDouble(a, DoubledTimes(b, k - 1));
    }
  }

  /** Or of two values that occupy different bits is their sum. */
  lemma OrShifted(a: nat, b: nat, k: nat)
    requires a < Pow2(k)
    ensures Or(a, b * Pow2(k)) == a + b * Pow2(k)
  {
    ShiftIsProduct(b, k);
    OrAboveShift(a, b, k);
  }

  lemma {:induction false} OrCommutes(a: nat, b: nat)
    ensures Or(a, b) == Or(b, a)
    decreases a + b
  {
    if a != 0 && b != 0 {
      OrCommutes(a / 2, b / 2);
    }
  }

  lemma {:induction false} AndSelf(a: nat)
    ensures And(a, a) == a
  {
    if a != 0 {
      AndSelf(a / 2);
    }
  }

  lemma {:induction false} XorBound(a: nat, b: nat, k: nat)
    requires a < Pow2(k) && b < Pow2(k)
    ensures Xor(a, b) < Pow2(k)
    decreases k
  {
    if k == 0 {
    } else {
      XorBound(a / 2, b / 2, k - 1);
    }
  }

  lemma {:induction false} XorInvolutive(a: nat, b: nat)
    ensures Xor(Xor(a, b), b) == a
    decreases a + b
  {
    if a != 0 || b != 0 {
      XorInvolutive(a / 2, b / 2);
      var x := Xor(a, b);
      assert x / 2 == Xor(a / 2, b / 2);
      assert x % 2 == if a % 2 != b % 2 then 1 else 0;
    }
  }

  function Bit(x: nat, k: nat): nat {
    x / Pow2(k) % 2
  }

  lemma BitOfHalf(x: nat, k: nat)
    requires k >= 1
    ensures Bit(x, k) == Bit(x / 2, k - 1)
  {
    var p := Pow2(k - 1);
    var q, r := (x / 2) / p, (x / 2) % p;
    assert x == q * (2 * p) + (2 * r + x % 2);
    ModUnique(x, 2 * p, q, 2 * r + x % 2);
  }

  lemma BitZero(x: nat)
    ensures Bit(x, 0) == x % 2
  {}

  lemma BitRange(x: nat, k: nat)
    ensures Bit(x, k) == 0 || Bit(x, k) == 1
  {}

  /** Exclusive or, bit by bit. */
  lemma {:induction false} XorBits(a: nat, b: nat, k: nat)
    ensures Bit(Xor(a, b), k) == 1 <==> Bit(a, k) != Bit(b, k)
    decreases k
  {
    var x := Xor(a, b);
    assert x / 2 == Xor(a / 2, b / 2) && x % 2 == if a % 2 != b % 2 then 1 else 0;
    hide Xor, Bit;
    BitRange(a, k);
    BitRange(b, k);
    if k == 0 {
      BitZero(x);
      BitZero(a);
      BitZero(b);
    } else {
      BitOfHalf(x, k);
      BitOfHalf(a, k);
      BitOfHalf(b, k);
      XorBits(a / 2, b / 2, k - 1);
    }
  }

  /** A number is determined by its bits. */
  lemma {:induction false} BitsDetermine(a: nat, b: nat, n: nat)
    requires a < Pow2(n) && b < Pow2(n)
    requires forall k: nat :: k < n ==> Bit(a, k) == Bit(b, k)
    ensures a == b
    decreases n
  {
    if n == 0 {
    } else {
      assert Bit(a, 0) == Bit(b, 0);
      BitZero(a);
      BitZero(b);
      forall k: nat | k < n - 1 ensures Bit(a / 2, k) == Bit(b / 2, k) {
        BitOfHalf(a, k + 1);
        BitOfHalf(b, k + 1);
        assert Bit(a, k + 1) == Bit(b, k + 1);
      }
      hide Bit;
      BitsDetermine(a / 2, b / 2, n - 1);
    }
  }

  lemma HalvePow2(n: nat)
    requires n >= 2
    ensures (exists k: nat :: n == Pow2(k)) <==> n % 2 == 0 && exists k: nat :: n / 2 == Pow2(k)
  {
    if k: nat :| n == Pow2(k) {
      assert n / 2 == Pow2(k - 1);
    }
    if n % 2 == 0 {
      if k: nat :| n / 2 == Pow2(k) {
        assert n == Pow2(k + 1);
      }
    }
  }

  lemma HalveTest(n: nat)
    requires n >= 2
    ensures And(n, n - 1) == if n % 2 == 0 then 2 * And(n / 2, n / 2 - 1) else 2 * (n / 2)
  {
    hide And;
    var m := n / 2;
    AndSelf(m);
    if n == 2 * m {
      AndOfHalves(m, 0, m - 1, 1);
    } else {
      AndOfHalves(m, 1, m, 0);
    }
  }

  /** The compile-time test (n & (n - 1)) == 0 accepts exactly the powers of two. */
  lemma {:induction false} PowerOfTwoTest(n: nat)
    requires n >= 1
    ensures And(n, n - 1) == 0 <==> exists k: nat :: n == Pow2(k)
  {
    if n == 1 {
      assert Pow2(0) == 1;
    } else {
      HalveTest(n);
      HalvePow2(n);
      hide And, Pow2;
      if n % 2 == 0 {
        PowerOfTwoTest(n / 2);
      }
    }
  }
}
