/** The 32 by 32 bit multiplication that the simulator falls back on when the
    host has no 64-bit integers, against the product itself. */
module Multiply {
  import opened Isa

  const P: nat := 0x1_0000
  const P2: nat := 0x1_0000_0000
  const P4: nat := 0x1_0000_0000_0000_0000

  /** Assignment to a uint16. */
  function U16(v: int): (r: nat)
    ensures r < P && (0 <= v < P ==> r == v)
  {
    v % P
  }

  /** Assignment to a uint32. */
  function U32(v: int): (r: nat)
    ensures r < P2 && (0 <= v < P2 ==> r == v) && (v == P2 ==> r == 0)
  {
    v % P2
  }

  /** ~v on a uint32. */
  function Complement(v: nat): (r: nat)
    requires v < P2
    ensures r < P2
  {
    P2 - 1 - v
  }

  predicate TopBit(v: nat) { v >= 0x8000_0000 }

  lemma Monotone(a: nat, b: nat, c: nat)
    requires a <= b
    ensures a * c <= b * c
  {
    assert b * c - a * c == (b - a) * c;
  }

  lemma PartialBound(u: nat, v: nat)
    requires u < P && v < P
    ensures 0 <= u * v <= 0xFFFE_0001
  {
    Monotone(u, 0xFFFF, v);
  }

  /** The four partial products add up to the product. */
  lemma Expand(w: nat, x: nat, y: nat, z: nat)
    ensures (w * P + x) * (y * P + z) == (y * w) * P2 + (z * w + y * x) * P + z * x
  {
  }

  /** The digits of the schoolbook sum, given the four partial products. */
  lemma Digits(zx: nat, zw: nat, yx: nat, yw: nat, product: nat)
    requires zx <= 0xFFFE_0001 && zw <= 0xFFFE_0001 && yx <= 0xFFFE_0001 && yw <= 0xFFFE_0001
    requires product == yw * P2 + (zw + yx) * P + zx && product < P4
    ensures var c, b, a := zx % P, (zw + zx / P) % P, (zw + zx / P) / P;
            var f, e, d := yx % P, (yw + yx / P) % P, (yw + yx / P) / P;
            var h := (b + f) % P;
            var s := a + e + (b + f) / P;
            && a < P && d < P && d + s / P < P
            && ((d + s / P) * P + s % P) * P2 + (h * P + c) == product
  {
  }

  lemma ProductBound(n: nat, m: nat)
    requires n < P2 && m < P2
    ensures 0 <= n * m < P4
  {
    Monotone(n, 0xFFFF_FFFF, m);
  }

  lemma Split(n: nat)
    requires n < P2
    ensures n / P < P && n % P < P && n == (n / P) * P + n % P
  {
  }

  /** mult64: the partial products are read as unsigned. */
  method Mult64(n: nat, m: nat) returns (hi: nat, lo: nat)
    requires n < P2 && m < P2
    ensures hi < P2 && lo < P2 && hi * P2 + lo == n * m
  {
    hide U16;
    Split(n);
    Split(m);
    var w, x := U16(n / P), U16(n % P);
    var y, z := U16(m / P), U16(m % P);
    PartialBound(z, x);
    PartialBound(z, w);
    PartialBound(y, x);
    PartialBound(y, w);
    Expand(w, x, y, z);
    ProductBound(n, m);
    hi, lo := Combine(z * x, z * w, y * x, y * w, n * m);
  }

  /** The column sums of the schoolbook scheme. */
  method Combine(zx: nat, zw: nat, yx: nat, yw: nat, ghost product: nat) returns (hi: nat, lo: nat)
    requires zx <= 0xFFFE_0001 && zw <= 0xFFFE_0001 && yx <= 0xFFFE_0001 && yw <= 0xFFFE_0001
    requires product == yw * P2 + (zw + yx) * P + zx && product < P4
    ensures hi < P2 && lo < P2 && hi * P2 + lo == product
  {
    hide U16;
    Digits(zx, zw, yx, yw, product);
    var c := U16(zx % P);
    var b := U16((zw + zx / P) % P);
    var a := U16((zw + zx / P) / P);
    var f := U16(yx % P);
    var e := U16((yw + yx / P) % P);
    var d := U16((yw + yx / P) / P);
    var h := U16((b + f) % P);
    var g := U16(((a + e) + (b + f) / P) % P);
    var i := U16(d + ((a + e) + (b + f) / P) / P);
    hi := i * P + g;
    lo := h * P + c;
  }

  /** Two's-complement negation of a double word, half by half. */
  method Negate(hi0: nat, lo0: nat) returns (hi: nat, lo: nat)
    requires hi0 < P2 && lo0 < P2
    ensures hi < P2 && lo < P2
    ensures lo == (if lo0 == 0 then 0 else P2 - lo0)
    ensures hi == if lo0 == 0 then (if hi0 == 0 then 0 else P2 - hi0) else P2 - 1 - hi0
  {
    hide U32;
    hi := Complement(hi0);
    lo := Complement(lo0);
    if TopBit(lo) {
      lo := U32(lo + 1);
      if !TopBit(lo) {
        hi := U32(hi + 1);
      }
    } else {
      lo := U32(lo + 1);
    }
  }

  /** mult64s: multiply the magnitudes, then negate the product if the signs differ. */
  method Mult64s(n: int, m: int) returns (hi: nat, lo: nat)
    requires -0x8000_0000 <= n < 0x8000_0000 && -0x8000_0000 <= m < 0x8000_0000
    ensures hi < P2 && lo < P2 && hi * P2 + lo == (n * m) % P4
  {
    hide U32;
    var resultSign := (n < 0) != (m < 0);
    var nAbs := if n < 0 then U32(-n) else n;
    var mAbs := if m < 0 then U32(-m) else m;
    hi, lo := Mult64(nAbs, mAbs);
    Magnitudes(n, m);
    ghost var q := n * m;
    if resultSign {
      ghost var hi0, lo0 := hi, lo;
      hi, lo := Negate(hi, lo);
      NegatedHalves(hi0, lo0, hi, lo, q);
    } else {
      PositiveHalves(hi, lo, q);
    }
  }

  lemma PositiveHalves(hi: nat, lo: nat, product: int)
    requires hi < P2 && lo < P2 && hi * P2 + lo == product
    ensures hi * P2 + lo == product % P4
  {
  }

  lemma Magnitudes(n: int, m: int)
    ensures var a, b := if n < 0 then -n else n, if m < 0 then -m else m;
            a * b == if (n < 0) != (m < 0) then -(n * m) else n * m
  {
  }

  lemma NegatedHalves(hi0: nat, lo0: nat, hi: nat, lo: nat, product: int)
    requires hi0 < P2 && lo0 < P2 && hi < P2 && lo < P2
    requires hi0 * P2 + lo0 == -product
    requires lo == (if lo0 == 0 then 0 else P2 - lo0)
    requires hi == if lo0 == 0 then (if hi0 == 0 then 0 else P2 - hi0) else P2 - 1 - hi0
    ensures hi * P2 + lo == product % P4
  {
  }

  lemma HalfValues(q: int, hi: nat, lo: nat)
    requires hi < P2 && lo < P2 && hi * P2 + lo == q % P4
    ensures (q / P2) % P2 == hi && q % P2 == lo
  {
    var k := q / P4;
    assert q == (k * P2 + hi) * P2 + lo;
    assert q / P2 == k * P2 + hi;
  }

  /** The halves are what the 64-bit path leaves in HI and LO. */
  lemma HalvesOf(q: int, hi: nat, lo: nat)
    requires hi < P2 && lo < P2 && hi * P2 + lo == q % P4
    ensures hi as Word == ToWord(q / P2) && lo as Word == ToWord(q)
  {
    HalfValues(q, hi, lo);
  }

  /** The fallback leaves in HI and LO what MULT leaves there. */
  method MultiplySigned(i: Word, a: Word, b: Word) returns (hi: Word, lo: Word)
    requires Opcode(i) == OP_SPECIAL && Funct(i) == 24
    ensures hi == HiValue(i, a, b) && lo == LoValue(i, a, b)
  {
    var h, l := Mult64s(SignedValue(a), SignedValue(b));
    HalvesOf(SignedValue(a) * SignedValue(b), h, l);
    hi, lo := h as Word, l as Word;
  }

  method MultiplyUnsigned(i: Word, a: Word, b: Word) returns (hi: Word, lo: Word)
    requires Opcode(i) == OP_SPECIAL && Funct(i) == 25
    ensures hi == HiValue(i, a, b) && lo == LoValue(i, a, b)
  {
    var h, l := Mult64(a as int, b as int);
    ProductBound(a as int, b as int);
    HalvesOf((a as int) * (b as int), h, l);
    hi, lo := h as Word, l as Word;
  }
}
