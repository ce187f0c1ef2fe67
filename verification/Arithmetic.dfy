/** Small facts about products, quotients and remainders used by the address and partition proofs. */
module Arithmetic {
  lemma MulAssoc(a: int, b: int, c: int)
    ensures (a * b) * c == a * (b * c)
  {
  }

  lemma MulDistributes(a: int, b: int, c: int)
    ensures (a + b) * c == a * c + b * c
    ensures c * (a + b) == c * a + c * b
  {
  }

  lemma MulOrder(d: int, x: int, y: int)
    requires d >= 0 && x <= y
    ensures d * x <= d * y && x * d <= y * d
  {
    assert d * y - d * x == d * (y - x);
  }

  lemma SmallMultiple(d: int, k: int)
    requires d > 0 && -d < d * k < d
    ensures k == 0
  {
    if k > 0 {
      MulOrder(d, 1, k);
    } else if k < 0 {
      MulOrder(d, k, -1);
    }
  }

  lemma DivModUnique(a: int, d: int, q: int, r: int)
    requires d > 0 && 0 <= r < d && a == d * q + r
    ensures a / d == q && a % d == r
  {
    var q', r' := a / d, a % d;
    assert d * (q - q') == r' - r;
    SmallMultiple(d, q - q');
  }

  /** Division of naturals as repeated subtraction: the quotient of C's and Python's integer division. */
  function Quotient(a: nat, d: nat): nat
    requires d > 0
  {
    if a < d then 0 else 1 + Quotient(a - d, d)
  }

  lemma {:induction false} QuotientIsDivision(a: nat, d: nat)
    requires d > 0
    ensures Quotient(a, d) == a / d
  {
    if a >= d {
      QuotientIsDivision(a - d, d);
      DivModUnique(a, d, (a - d) / d + 1, (a - d) % d);
    } else {
      DivModUnique(a, d, 0, a);
    }
  }

  lemma RemainderIsMod(a: nat, d: nat)
    requires d > 0
    ensures Remainder(a, d) == a % d
  {
    Divided(a, d);
    AtIsProduct(Quotient(a, d), d);
    DivModUnique(a, d, Quotient(a, d), Remainder(a, d));
  }

  lemma {:induction false} QuotientOrder(a: nat, b: nat, d: nat)
    requires d > 0 && a <= b
    ensures Quotient(a, d) <= Quotient(b, d)
  {
    if a >= d {
      QuotientOrder(a - d, b - d, d);
    }
  }

  lemma {:induction false} QuotientExact(k: nat, d: nat)
    requires d > 0
    ensures Quotient(k * d, d) == k
  {
    if k > 0 {
      QuotientExact(k - 1, d);
      MulDistributes(k - 1, 1, d);
    }
  }

  /** The remainder that goes with Quotient. */
  function Remainder(a: nat, d: nat): (r: nat)
    requires d > 0
    ensures r < d
  {
    if a < d then a else Remainder(a - d, d)
  }

  /** Where item `c` starts when every item takes `size` units. */
  function At(c: nat, size: nat): nat {
    if c == 0 then 0 else At(c - 1, size) + size
  }

  lemma {:induction false} AtIsProduct(c: nat, size: nat)
    ensures At(c, size) == c * size
  {
    if c > 0 {
      AtIsProduct(c - 1, size);
      MulDistributes(c - 1, 1, size);
    }
  }

  lemma {:induction false} AtGrows(b: nat, c: nat, size: nat)
    requires b <= c
    ensures At(b, size) <= At(c, size)
    ensures b < c ==> At(b, size) + size <= At(c, size)
  {
    if b < c {
      AtGrows(b, c - 1, size);
    }
  }

  lemma {:induction false} QuotientShift(a: nat, k: nat, d: nat)
    requires d > 0
    ensures Quotient(At(k, d) + a, d) == k + Quotient(a, d)
    ensures Remainder(At(k, d) + a, d) == Remainder(a, d)
  {
    if k > 0 {
      QuotientShift(a, k - 1, d);
    }
  }

  lemma {:induction false} AtSum(a: nat, b: nat, size: nat)
    ensures At(a + b, size) == At(a, size) + At(b, size)
  {
    if b > 0 {
      AtSum(a, b - 1, size);
    }
  }

  lemma {:induction false} AtNested(n: nat, b: nat, size: nat)
    ensures At(n, At(b, size)) == At(At(n, b), size)
  {
    if n > 0 {
      AtNested(n - 1, b, size);
      AtSum(At(n - 1, b), b, size);
    }
  }

  /** The division theorem. */
  lemma {:induction false} Divided(a: nat, d: nat)
    requires d > 0
    ensures a == At(Quotient(a, d), d) + Remainder(a, d)
  {
    if a >= d {
      Divided(a - d, d);
    }
  }

  lemma ModTwice(a: nat, p: nat)
    requires p > 0
    ensures a % (2 * p) == a % 2 + 2 * ((a / 2) % p)
    ensures (a / 2) / p == a / (2 * p)
  {
    var q, r := (a / 2) / p, (a / 2) % p;
    MulAssoc(2, p, q);
    DivModUnique(a, 2 * p, q, 2 * r + a % 2);
  }
}
