/**
 * Binary32 encodings: the decoding of section 3.4 of IEEE 754-2019 and the sign-magnitude
 * key that the score kernels compare instead of the value.
 */
module Fp32 {
  import opened Bits

  const EXPONENT_MASK: Word := 0x7f80_0000
  const MAGNITUDE_MASK: Word := 0x7fff_ffff
  const SIGN_MASK: Word := 0x8000_0000

  predicate Finite(bits: Word) {
    And(bits, EXPONENT_MASK) != EXPONENT_MASK
  }

  /** Both zeros are compared as +0. */
  function Canonical(bits: Word): Word {
    if And(bits, MAGNITUDE_MASK) == 0 then 0 else bits
  }

  /** The unsigned key of a finite encoding. */
  function OrderedKey(bits: Word): Word {
    var canonical := Canonical(bits);
    if And(canonical, SIGN_MASK) != 0 then Xor32(canonical, 0xffff_ffff) else Xor32(canonical, SIGN_MASK)
  }

  // ----- Section 3.4: sign, biased exponent and trailing significand fields.

  function SignBit(bits: Word): nat { bits / 0x8000_0000 }

  function BiasedExponent(bits: Word): nat { (bits / 0x80_0000) % 256 }

  function TrailingSignificand(bits: Word): nat { bits % 0x80_0000 }

  /** Two to an integer power. */
  function Exp2(n: int): (r: real)
    ensures r > 0.0
    decreases if n < 0 then -n else n
  {
    if n == 0 then 1.0
    else if n > 0 then 2.0 * Exp2(n - 1)
    else Exp2(n + 1) / 2.0
  }

  /** A number in the form (-1)^sign * 2^q * c with an integer significand c. */
  datatype Decoded = Decoded(sign: nat, q: int, c: nat)

  /** Subnormals share the exponent of the least normals; normals have an explicit leading bit in c. */
  function Decode(bits: Word): Decoded {
    if BiasedExponent(bits) == 0 then Decoded(SignBit(bits), 1 - 127 - 23, TrailingSignificand(bits))
    else Decoded(SignBit(bits), BiasedExponent(bits) - 127 - 23, 0x80_0000 + TrailingSignificand(bits))
  }

  function MagnitudeValue(d: Decoded): real {
    Exp2(d.q) * (d.c as real)
  }

  function DecodedValue(d: Decoded): real {
    if d.sign == 0 then MagnitudeValue(d) else -MagnitudeValue(d)
  }

  /** The real number a binary32 encoding represents; meaningful for finite ones. */
  function Value(bits: Word): real {
    DecodedValue(Decode(bits))
  }

  lemma FiniteByExponent(bits: Word)
    ensures Finite(bits) <==> BiasedExponent(bits) != 255
  {
    var field := bits / 0x80_0000;
    Pow2Values();
    AndShifted(bits, 255, 23, EXPONENT_MASK, field);
    AndLowMask(field, 8);
    assert And(bits, EXPONENT_MASK) == 0x80_0000 * (field % 256);
  }

  lemma MagnitudeMask(bits: Word)
    ensures And(bits, MAGNITUDE_MASK) == 0 <==> bits == 0 || bits == 0x8000_0000
  {
    Pow2Values();
    AndLowMask(bits, 31);
    ZeroMagnitude(bits);
  }

  lemma ZeroMagnitude(bits: Word)
    ensures bits % 0x8000_0000 == 0 <==> bits == 0 || bits == 0x8000_0000
  {
  }

  lemma SignMask(bits: Word)
    ensures And(bits, SIGN_MASK) == 0 <==> bits < 0x8000_0000
  {
    var sign := bits / 0x8000_0000;
    Pow2Values();
    AndShifted(bits, 1, 31, SIGN_MASK, sign);
    AndLowMask(sign, 1);
  }

  /** The key written with integer arithmetic only. */
  lemma KeyArithmetic(bits: Word)
    ensures bits < 0x8000_0000 ==> OrderedKey(bits) == bits + 0x8000_0000
    ensures bits == 0x8000_0000 ==> OrderedKey(bits) == 0x8000_0000
    ensures bits > 0x8000_0000 ==> OrderedKey(bits) == 0xffff_ffff - bits
  {
    MagnitudeMask(bits);
    SignMask(Canonical(bits));
    Pow2Values();
    if Canonical(bits) < 0x8000_0000 {
      XorTop(Canonical(bits), 31);
    } else {
      XorOnes(Canonical(bits), 32);
    }
  }

  // ----- Values grow with the low 31 bits of the encoding.

  lemma {:induction false} Exp2Grows(m: int, n: int)
    requires m <= n
    ensures Exp2(m) <= Exp2(n)
    decreases n - m
  {
    if m < n {
      Exp2Grows(m, n - 1);
      Exp2Step(n - 1);
    }
  }

  lemma Exp2Step(n: int)
    ensures Exp2(n + 1) == 2.0 * Exp2(n)
  {
  }

  lemma ScaleOrder(scale: real, x: real, y: real)
    requires scale > 0.0
    ensures x < y <==> scale * x < scale * y
    ensures x <= y <==> scale * x <= scale * y
  {
    var d := y - x;
    assert scale * y - scale * x == scale * d;
    assert d > 0.0 ==> scale * d > 0.0;
    assert d < 0.0 ==> scale * d < 0.0;
  }

  /** Every larger exponent has a leading significand bit, so binades do not overlap. */
  predicate Normalised(d: Decoded, least: int) {
    least <= d.q && d.c < 0x100_0000 && (d.q > least ==> 0x80_0000 <= d.c)
  }

  lemma BinadesDisjoint(low: real, high: real, x: real, y: real)
    requires 0.0 < low && 2.0 * low <= high && x < 16777216.0 && 8388608.0 <= y
    ensures low * x < high * y
  {
    ScaleOrder(low, x, 16777216.0);
    ScaleOrder(high, 8388608.0, y);
  }

  lemma MagnitudesOrdered(x: Decoded, y: Decoded, least: int)
    requires Normalised(x, least) && Normalised(y, least)
    requires x.q < y.q || (x.q == y.q && x.c < y.c)
    ensures MagnitudeValue(x) < MagnitudeValue(y)
  {
    if x.q < y.q {
      Exp2Grows(x.q + 1, y.q);
      Exp2Step(x.q);
      BinadesDisjoint(Exp2(x.q), Exp2(y.q), x.c as real, y.c as real);
    } else {
      ScaleOrder(Exp2(x.q), x.c as real, y.c as real);
    }
  }

  lemma MagnitudeSign(x: Decoded)
    ensures MagnitudeValue(x) >= 0.0 && (MagnitudeValue(x) == 0.0 <==> x.c == 0)
  {
    ScaleOrder(Exp2(x.q), 0.0, x.c as real);
  }

  /** The low 31 bits of an encoding. */
  function Magnitude(bits: Word): nat { bits % 0x8000_0000 }

  lemma FieldsOfMagnitude(bits: Word)
    ensures Magnitude(bits) == BiasedExponent(bits) * 0x80_0000 + TrailingSignificand(bits)
    ensures bits == SignBit(bits) * 0x8000_0000 + Magnitude(bits)
  {
  }

  lemma DecodeOrder(a: Word, b: Word)
    ensures Normalised(Decode(a), -149) && Normalised(Decode(b), -149)
    ensures Decode(a).c == 0 <==> Magnitude(a) == 0
    ensures Magnitude(a) == Magnitude(b) ==> Decode(a).q == Decode(b).q && Decode(a).c == Decode(b).c
    ensures Magnitude(a) < Magnitude(b) ==> (Decode(a).q, Decode(a).c) != (Decode(b).q, Decode(b).c)
    ensures Magnitude(a) < Magnitude(b) ==>
              Decode(a).q < Decode(b).q || (Decode(a).q == Decode(b).q && Decode(a).c < Decode(b).c)
  {
    FieldsOfMagnitude(a);
    FieldsOfMagnitude(b);
  }

  function SignedMagnitude(bits: Word): int {
    var magnitude: int := Magnitude(bits);
    if SignBit(bits) == 0 then magnitude else -magnitude
  }

  lemma MagnitudesCompared(x: Decoded, y: Decoded)
    requires Normalised(x, -149) && Normalised(y, -149)
    requires (x.q, x.c) == (y.q, y.c) || x.q < y.q || (x.q == y.q && x.c < y.c)
    ensures MagnitudeValue(x) < MagnitudeValue(y) <==> (x.q, x.c) != (y.q, y.c)
    ensures MagnitudeValue(x) <= MagnitudeValue(y)
  {
    if (x.q, x.c) != (y.q, y.c) {
      MagnitudesOrdered(x, y, -149);
    }
  }

  lemma MagnitudesFollowBits(a: Word, b: Word)
    ensures Magnitude(a) <= Magnitude(b) ==> MagnitudeValue(Decode(a)) <= MagnitudeValue(Decode(b))
    ensures Magnitude(a) < Magnitude(b) ==> MagnitudeValue(Decode(a)) < MagnitudeValue(Decode(b))
    ensures MagnitudeValue(Decode(a)) >= 0.0
    ensures MagnitudeValue(Decode(a)) == 0.0 <==> Magnitude(a) == 0
  {
    DecodeOrder(a, b);
    MagnitudeSign(Decode(a));
    if Magnitude(a) <= Magnitude(b) {
      MagnitudesCompared(Decode(a), Decode(b));
    }
  }

  /** The order of values, read off the sign and the low 31 bits. */
  lemma ValuesOrdered(a: Word, b: Word)
    ensures Value(a) < Value(b) <==> SignedMagnitude(a) < SignedMagnitude(b)
    ensures Value(a) == Value(b) <==> SignedMagnitude(a) == SignedMagnitude(b)
  {
    MagnitudesFollowBits(a, b);
    MagnitudesFollowBits(b, a);
  }

  lemma KeysOrdered(a: Word, b: Word)
    ensures OrderedKey(a) < OrderedKey(b) <==> SignedMagnitude(a) < SignedMagnitude(b)
    ensures OrderedKey(a) == OrderedKey(b) <==> SignedMagnitude(a) == SignedMagnitude(b)
  {
    KeyBySignedMagnitude(a);
    KeyBySignedMagnitude(b);
  }

  lemma KeyBySignedMagnitude(bits: Word)
    ensures OrderedKey(bits) ==
            if SignedMagnitude(bits) < 0 then 0x7fff_ffff + SignedMagnitude(bits)
            else 0x8000_0000 + SignedMagnitude(bits)
  {
    KeyArithmetic(bits);
    FieldsOfMagnitude(bits);
  }

  /**
   * The key is an order isomorphism from finite encodings to their values (section 5.11 of
   * IEEE 754-2019 compares values, so the two zeros are equal).
   */
  lemma KeyOrdersValues(a: Word, b: Word)
    requires Finite(a) && Finite(b)
    ensures OrderedKey(a) < OrderedKey(b) <==> Value(a) < Value(b)
    ensures OrderedKey(a) == OrderedKey(b) <==> Value(a) == Value(b)
  {
    KeysOrdered(a, b);
    ValuesOrdered(a, b);
  }

  /** Zero is the only value with two encodings. */
  lemma KeyIdentifiesEncoding(a: Word, b: Word)
    requires OrderedKey(a) == OrderedKey(b)
    ensures a == b || {a, b} == {0, 0x8000_0000}
  {
    KeyArithmetic(a);
    KeyArithmetic(b);
  }
}
