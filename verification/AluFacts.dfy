/** What the shifts, the overflow tests and the signed comparison of the execute
    stage amount to. */
module AluFacts {
  import opened Isa

  lemma OnesLow(s: bv6)
    requires 1 <= s < 32
    ensures AllOnes(32 - s) == 0xFFFFFFFF >> s
  {
  }

  lemma OnesHigh(s: bv6)
    requires 1 <= s < 32
    ensures AllOnes(s) << (32 - s) == 0xFFFFFFFF << (32 - s)
  {
  }

  lemma KeptLow(a: Word, s: bv6)
    requires 1 <= s < 32
    ensures (a >> s) & (0xFFFFFFFF >> s) == a >> s
  {
  }

  lemma FillAway(a: Word, s: bv6)
    requires 1 <= s < 32
    ensures ((a >> s) | ((0xFFFFFFFF as Word) << (32 - s))) & (0xFFFFFFFF >> s) == a >> s
  {
  }

  lemma FillTwice(x: Word, y: Word)
    ensures (x | y) | y == x | y
  {
  }

  lemma FillIsComplement(a: Word, s: bv6)
    requires 1 <= s < 32
    ensures (a >> s) | ((0xFFFFFFFF as Word) << (32 - s)) == !((!a) >> s)
  {
  }

  lemma NoShift(a: Word, s: bv6)
    requires s == 0
    ensures a >> s == a && !((!a) >> s) == a
  {
  }

  /** The mask undoes what the host's arithmetic shift fills in: a logical shift. */
  lemma LogicalShift(a: Word, b: Word)
    ensures ShiftRightLogical(a, b) == a >> Amount(b)
  {
    hide AllOnes, Negative;
    var s := Amount(b);
    if s == 0 {
      NoShift(a, s);
    } else {
      OnesLow(s);
      OnesHigh(s);
      KeptLow(a, s);
      FillAway(a, s);
    }
  }

  lemma NothingFilled(x: Word)
    ensures x | 0 == x
  {
  }

  function Filled(a: Word, s: bv6): Word
    requires s < 32
  {
    (a >> s) | ((0xFFFFFFFF as Word) << (32 - s))
  }

  /** The code's sra, once the amount is known not to be zero. */
  lemma ArithmeticCode(a: Word, b: Word)
    requires Amount(b) != 0
    ensures ShiftRightArithmetic(a, b) == if Negative(a) then Filled(a, Amount(b)) else a >> Amount(b)
  {
    hide AllOnes;
    var s := Amount(b);
    OnesHigh(s);
    if Negative(a) {
      FillTwice(a >> s, (0xFFFFFFFF as Word) << (32 - s));
    } else {
      NothingFilled(a >> s);
    }
  }

  /** Filling the sign in twice does no harm: a negative word is shifted as the
      complement of its complement, another one logically. */
  lemma ArithmeticShift(a: Word, b: Word)
    ensures ShiftRightArithmetic(a, b) == if Negative(a) then Complemented(a, Amount(b)) else a >> Amount(b)
  {
    hide Complemented, Filled, Negative;
    if Amount(b) == 0 {
      NoShift(a, Amount(b));
      NoComplement(a);
    } else {
      hide ShiftRightArithmetic;
      ArithmeticCode(a, b);
      FilledIs(a, Amount(b));
    }
  }

  function Complemented(a: Word, s: bv6): Word
    requires s < 32
  {
    !((!a) >> s)
  }

  lemma NoComplement(a: Word)
    ensures Complemented(a, 0) == a
  {
  }

  lemma FilledIs(a: Word, s: bv6)
    requires 1 <= s < 32
    ensures Filled(a, s) == Complemented(a, s)
  {
    FillIsComplement(a, s);
  }

  // ---- overflow ----

  /** A word with a sign of its own, as a number of 33 bits. */
  function Ext(a: Word, negative: bool): bv33 { if negative then (a as bv33) | 0x1_0000_0000 else a as bv33 }

  /** The value of a word in two's complement. */
  function Wide(a: Word): bv33 { Ext(a, Negative(a)) }

  lemma NegativeIs(a: Word)
    ensures Negative(a) <==> a >= 0x80000000
  {
  }

  lemma ExtDiffer(a: Word)
    ensures Ext(a, true) != Ext(a, false)
  {
  }

  function Add(x: bv33, y: bv33): bv33 { x + y }

  lemma SumPositive(a: Word, b: Word)
    requires a < 0x80000000 && b < 0x80000000
    ensures Add(a as bv33, b as bv33) == (a + b) as bv33
  {
  }

  lemma SumNegative(a: Word, b: Word)
    requires a >= 0x80000000 && b >= 0x80000000
    ensures Add((a as bv33) | 0x1_0000_0000, (b as bv33) | 0x1_0000_0000) == ((a + b) as bv33) | 0x1_0000_0000
  {
  }

  lemma SumMixedLow(a: Word, b: Word)
    requires a < 0x80000000 && b >= 0x80000000 && a + b >= 0x80000000
    ensures Add(a as bv33, (b as bv33) | 0x1_0000_0000) == ((a + b) as bv33) | 0x1_0000_0000
  {
  }

  lemma SumMixedHigh(a: Word, b: Word)
    requires a < 0x80000000 && b >= 0x80000000 && a + b < 0x80000000
    ensures Add(a as bv33, (b as bv33) | 0x1_0000_0000) == (a + b) as bv33
  {
  }

  lemma PositiveSum(a: Word, b: Word)
    requires !Negative(a) && !Negative(b)
    ensures Add(Wide(a), Wide(b)) == Ext(a + b, false)
  {
    hide Add;
    NegativeIs(a);
    NegativeIs(b);
    SumPositive(a, b);
  }

  lemma NegativeSum(a: Word, b: Word)
    requires Negative(a) && Negative(b)
    ensures Add(Wide(a), Wide(b)) == Ext(a + b, true)
  {
    hide Add;
    NegativeIs(a);
    NegativeIs(b);
    SumNegative(a, b);
  }

  lemma SumMixed(a: Word, b: Word)
    requires !Negative(a) && Negative(b)
    ensures Add(Wide(a), Wide(b)) == Ext(a + b, Negative(a + b))
  {
    hide Add, Negative;
    NegativeIs(a);
    NegativeIs(b);
    NegativeIs(a + b);
    if Negative(a + b) {
      SumMixedLow(a, b);
    } else {
      SumMixedHigh(a, b);
    }
  }

  lemma Commute(x: bv33, y: bv33, a: Word, b: Word)
    ensures Add(x, y) == Add(y, x) && a + b == b + a
  {
  }

  /** The exact sum of two words is the wrapped one with the right sign. */
  lemma ExactSum(a: Word, b: Word)
    ensures Add(Wide(a), Wide(b)) == Ext(a + b, if Negative(a) == Negative(b) then Negative(a) else Negative(a + b))
  {
    hide Negative, Add, Wide, Ext;
    if Negative(a) && Negative(b) {
      NegativeSum(a, b);
    } else if !Negative(a) && !Negative(b) {
      PositiveSum(a, b);
    } else if Negative(b) {
      SumMixed(a, b);
    } else {
      SumMixed(b, a);
      Commute(Wide(a), Wide(b), a, b);
    }
  }

  /** ADD and ADDI trap exactly when the exact sum does not fit a word. */
  lemma AddOverflowIff(a: Word, b: Word)
    ensures AddOverflows(a, b) <==> Add(Wide(a), Wide(b)) != Wide(Sum(a, b))
  {
    hide Negative, Ext, Add;
    ExactSum(a, b);
    ExtDiffer(a + b);
  }

  lemma Restore(a: Word, b: Word)
    ensures a - b + b == a
  {
  }

  lemma SumRestores(a: Word, b: Word)
    ensures Sum(a - b, b) == a
  {
  }

  lemma SubAsAdd(a: Word, b: Word)
    ensures SubOverflows(a, b) <==> AddOverflows(a - b, b)
  {
    hide Negative;
    Restore(a, b);
  }

  /** SUB traps exactly when the wrapped difference is not the exact one. */
  lemma SubOverflowIff(a: Word, b: Word)
    ensures SubOverflows(a, b) <==> Add(Wide(a - b), Wide(b)) != Wide(a)
  {
    hide Negative, Wide, Add, SubOverflows, AddOverflows, Sum;
    SumRestores(a, b);
    SubAsAdd(a, b);
    AddOverflowIff(a - b, b);
  }

  /** The comparison of SLT is by sign first, and by size among equal signs. */
  lemma SignedLessIff(a: Word, b: Word)
    ensures SignedLess(a, b) <==> if Negative(a) == Negative(b) then a < b else Negative(a)
  {
  }
}
