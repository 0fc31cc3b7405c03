/** The fixed-point arithmetic of SNACC: wrapping 32-bit sums with an overflow
    check after the fact, against exact sums that saturate. */
module FixedPoint {

  const INT_MAX: int := 0x7FFF_FFFF
  const INT_MIN: int := -0x8000_0000
  const RANGE: int := 0x1_0000_0000

  predicate Int32(x: int) { INT_MIN <= x <= INT_MAX }

  predicate Int16(x: int) { -0x8000 <= x <= 0x7FFF }

  /** Two's complement reading of the low 32 bits. */
  function Wrap(x: int): (r: int)
    ensures Int32(r) && (r - x) % RANGE == 0
  {
    (x - INT_MIN) % RANGE + INT_MIN
  }

  function Unsigned(x: int): (u: nat)
    requires Int32(x)
    ensures u < RANGE && Wrap(u) == x
  {
    x % RANGE
  }

  function Clamp(x: int): (r: int)
    ensures Int32(r)
  {
    if x > INT_MAX then INT_MAX else if x < INT_MIN then INT_MIN else x
  }

  /** Fixed16 from a stored half word, and from a stored byte. */
  function HalfToFixed16(raw: nat): (r: int)
    ensures Int16(r)
  {
    (raw + 0x8000) % 0x1_0000 - 0x8000
  }

  function ByteToFixed16(raw: nat): (r: int)
    ensures Int16(r)
  {
    HalfToFixed16((raw % 0x100) * 0x100)
  }

  /** operator+ on Fixed32. */
  function Plus(l: int, r: int): (s: int)
    requires Int32(l) && Int32(r)
    ensures Int32(s)
  {
    var sum := Wrap(l + r);
    if l > 0 && r > 0 && sum < 0 then INT_MAX
    else if l < 0 && r < 0 && sum > 0 then INT_MIN
    else sum
  }

  /** The check finds every overflow but one: two copies of the most negative
      number wrap to exactly zero, which neither test catches. */
  lemma PlusSaturatesIff(l: int, r: int)
    requires Int32(l) && Int32(r)
    ensures Plus(l, r) == Clamp(l + r) <==> !(l == INT_MIN && r == INT_MIN)
    ensures l == INT_MIN && r == INT_MIN ==> Plus(l, r) == 0
  {
    var sum := Wrap(l + r);
    if l + r > INT_MAX {
      assert sum == l + r - RANGE;
    } else if l + r < INT_MIN {
      assert sum == l + r + RANGE;
    } else {
      assert sum == l + r;
    }
  }

  /** operator* on Fixed16: the product is exact and stays far from the edge. */
  function Times(a: int, b: int): (p: int)
    requires Int16(a) && Int16(b)
    ensures -0x4000_0000 <= p <= 0x4000_0000
  {
    ProductBound(a, b);
    a * b
  }

  lemma MulMonotone(a: int, b: int, c: int)
    requires 0 <= a && b <= c
    ensures a * b <= a * c
  {
    assert a * (c - b) >= 0;
  }

  lemma ProductBound(a: int, b: int)
    requires Int16(a) && Int16(b)
    ensures -0x4000_0000 <= a * b <= 0x4000_0000
  {
    var m := if a >= 0 then a else -a;
    MulMonotone(m, b, 0x8000);
    MulMonotone(m, -b, 0x8000);
    assert a * b == m * b || a * b == -(m * b);
    assert m * -b == -(m * b);
  }

  /** Adding a product is therefore always a true saturating addition. */
  lemma MacSaturates(acc: int, a: int, b: int)
    requires Int32(acc) && Int16(a) && Int16(b)
    ensures Plus(acc, Times(a, b)) == Clamp(acc + a * b)
  {
    PlusSaturatesIff(acc, Times(a, b));
  }

  // ---- register format ----

  /** SignedClipMostSignificant4Bits on the 32 bits of a number: the five top
      bits are compared with 00000 and 11111. */
  function Clip(before: nat): (after: nat)
    requires before < RANGE
    ensures after < RANGE
  {
    var top := before / 0x800_0000;
    if top == 0 || top == 0x1F then (before * 16) % RANGE
    else if before >= 0x8000_0000 then 0x8000_0000
    else 0x7FFF_FFFF
  }

  function ToRegister(x: int): (r: nat)
    requires Int32(x)
    ensures r < RANGE
  {
    Clip(Unsigned(x))
  }

  /** An arithmetic shift to the right by four. */
  function FromRegister(r: nat): (x: int)
    requires r < RANGE
    ensures Int32(x)
  {
    Wrap(r) / 16
  }

  /** Writing a number to a register multiplies it by 16 and saturates. */
  lemma ToRegisterClamps(x: int)
    requires Int32(x)
    ensures Wrap(ToRegister(x)) == Clamp(16 * x)
  {
    var u := Unsigned(x);
    if x >= 0 {
      assert u == x;
    } else {
      assert u == x + RANGE;
    }
    if 0 <= x < 0x800_0000 {
      assert u / 0x800_0000 == 0;
    } else if -0x800_0000 <= x < 0 {
      assert u / 0x800_0000 == 0x1F;
      assert u * 16 == 16 * x + 16 * RANGE;
      assert (u * 16) % RANGE == 16 * x + RANGE;
    } else {
      assert u / 0x800_0000 != 0 && u / 0x800_0000 != 0x1F;
    }
  }

  lemma WrapKeepsLow(r: nat)
    requires r < RANGE
    ensures Wrap(r) == (if r < 0x8000_0000 then r else r - RANGE) && Wrap(r) % 16 == r % 16
  {
  }

  /** A register that is read and written back loses its four low bits and
      nothing else. */
  lemma RegisterRoundTrip(r: nat)
    requires r < RANGE
    ensures ToRegister(FromRegister(r)) == r - r % 16
  {
    var x := FromRegister(r);
    assert 16 * x == Wrap(r) - Wrap(r) % 16;
    WrapKeepsLow(r);
    ToRegisterClamps(x);
    assert Clamp(16 * x) == 16 * x;
    assert ToRegister(x) == Unsigned(Wrap(ToRegister(x)));
  }

  /** The other way round nothing is lost while the number fits 28 bits. */
  lemma NumberRoundTripIff(x: int)
    requires Int32(x)
    ensures FromRegister(ToRegister(x)) == x <==> -0x800_0000 <= x < 0x800_0000
  {
    ToRegisterClamps(x);
  }
}
