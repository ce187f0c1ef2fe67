/** Unsigned 32-bit words and the bitwise operators, defined bit by bit on natural numbers. */
module Bits {
  import opened Arithmetic

  const TWO_32: nat := 0x1_0000_0000

  type Word = x: nat | x < 0x1_0000_0000

  /** The value a `uint32_t` holds after an arithmetic operation. */
  function U32(x: int): Word {
    x % 0x1_0000_0000
  }

  function And(a: nat, b: nat): nat {
    if a == 0 || b == 0 then 0
    else (if a % 2 == 1 && b % 2 == 1 then 1 else 0) + 2 * And(a / 2, b / 2)
  }

  function Xor(a: nat, b: nat): nat {
    if a == 0 then b
    else if b == 0 then a
    else (if a % 2 != b % 2 then 1 else 0) + 2 * Xor(a / 2, b / 2)
  }

  /** Exclusive or of two 32-bit words. */
  function Xor32(a: Word, b: Word): Word {
    Pow2Values();
    XorBound(a, b, 32);
    Xor(a, b)
  }

  lemma {:induction false} XorBound(a: nat, b: nat, k: nat)
    requires a < Pow2(k) && b < Pow2(k)
    ensures Xor(a, b) < Pow2(k)
  {
    if k > 0 {
      XorBound(a / 2, b / 2, k - 1);
    }
  }

  function Pow2(n: nat): (r: nat)
    ensures r > 0
  {
    if n == 0 then 1 else 2 * Pow2(n - 1)
  }

  /** The powers the 32-bit masks are made of. */
  lemma Pow2Values()
    ensures Pow2(1) == 2 && Pow2(8) == 256 && Pow2(23) == 0x80_0000
    ensures Pow2(31) == 0x8000_0000 && Pow2(32) == TWO_32
  {
    assert Pow2(4) == 16;
    Pow2Sum(4, 4);
    Pow2Sum(8, 8);
    Pow2Sum(16, 4);
    Pow2Sum(20, 3);
    Pow2Sum(23, 8);
  }

  lemma Halves(m: nat)
    ensures (2 * m) % 2 == 0 && (2 * m) / 2 == m && (2 * m + 1) % 2 == 1 && (2 * m + 1) / 2 == m
  {
  }

  lemma AndDoubled(a: nat, m: nat)
    ensures And(a, 2 * m) == 2 * And(a / 2, m)
  {
    Halves(m);
  }

  lemma AndOdd(a: nat, m: nat)
    ensures And(a, 2 * m + 1) == a % 2 + 2 * And(a / 2, m)
  {
    Halves(m);
  }

  lemma {:induction false} AndLowMask(a: nat, k: nat)
    ensures And(a, Pow2(k) - 1) == a % Pow2(k)
  {
    if k > 0 {
      var p := Pow2(k - 1);
      AndOdd(a, p - 1);
      AndLowMask(a / 2, k - 1);
      ModTwice(a, p);
      assert Pow2(k) - 1 == 2 * (p - 1) + 1;
    }
  }

  /** Masking with `m << k` reads the field of `a` above bit `k`. */
  lemma {:induction false} AndShifted(a: nat, m: nat, k: nat, mask: nat, field: nat)
    requires mask == Pow2(k) * m && field == a / Pow2(k)
    ensures And(a, mask) == Pow2(k) * And(field, m)
  {
    if k > 0 {
      var p := Pow2(k - 1);
      ModTwice(a, p);
      MulAssoc(2, p, m);
      AndShifted(a / 2, m, k - 1, p * m, field);
      AndDoubled(a, p * m);
      MulAssoc(2, p, And(field, m));
    }
  }

  lemma XorDoubled(a: nat, m: nat)
    ensures Xor(a, 2 * m) == a % 2 + 2 * Xor(a / 2, m)
  {
    Halves(m);
  }

  lemma XorOdd(a: nat, m: nat)
    ensures Xor(a, 2 * m + 1) == (1 - a % 2) + 2 * Xor(a / 2, m)
  {
    Halves(m);
  }

  lemma {:induction false} XorTop(a: nat, k: nat)
    requires a < Pow2(k)
    ensures Xor(a, Pow2(k)) == a + Pow2(k)
  {
    if k > 0 {
      var p := Pow2(k - 1);
      XorDoubled(a, p);
      XorTop(a / 2, k - 1);
    }
  }

  lemma {:induction false} XorOnes(a: nat, k: nat)
    requires a < Pow2(k)
    ensures Xor(a, Pow2(k) - 1) == Pow2(k) - 1 - a
  {
    if k > 0 {
      var p := Pow2(k - 1);
      XorOdd(a, p - 1);
      XorOnes(a / 2, k - 1);
      assert Pow2(k) - 1 == 2 * (p - 1) + 1 && a == a / 2 * 2 + a % 2;
    }
  }

  lemma {:induction false} Pow2Sum(a: nat, b: nat)
    ensures Pow2(a + b) == Pow2(a) * Pow2(b)
  {
    if a > 0 {
      Pow2Sum(a - 1, b);
      MulAssoc(2, Pow2(a - 1), Pow2(b));
    }
  }

  lemma {:induction false} Pow2Grows(a: nat, b: nat)
    requires a <= b
    ensures Pow2(a) <= Pow2(b)
  {
    if a < b {
      Pow2Grows(a, b - 1);
    }
  }
}
