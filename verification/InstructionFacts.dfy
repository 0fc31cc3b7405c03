/** What one step of the reference leaves behind, instruction by instruction, in
    the terms of the MIPS I manual: named fields of the instruction word, bits
    of registers, exact sums and bytes in memory. */
module InstructionFacts {
  import opened Isa
  import opened Sequential
  import opened AluFacts

  // ---- the instruction word ----

  function Layout(op: Word, rs: Word, rt: Word, rd: Word, sh: Word, fn: Word): Word {
    op * 0x400_0000 + rs * 0x20_0000 + rt * 0x1_0000 + rd * 0x800 + sh * 0x40 + fn
  }

  lemma FieldBits(op: Word, rs: Word, rt: Word, rd: Word, sh: Word, fn: Word)
    requires op < 64 && rs < 32 && rt < 32 && rd < 32 && sh < 32 && fn < 64
    ensures var i := Layout(op, rs, rt, rd, sh, fn);
            && (i >> 26) & 0x3F == op && (i >> 21) & 0x1F == rs && (i >> 16) & 0x1F == rt && (i >> 11) & 0x1F == rd
            && (i >> 6) & 0x1F == sh && i & 0x3F == fn
  {
  }

  /** Where the fields are. */
  lemma Fields(op: Word, rs: Word, rt: Word, rd: Word, sh: Word, fn: Word)
    requires op < 64 && rs < 32 && rt < 32 && rd < 32 && sh < 32 && fn < 64
    ensures var i := Layout(op, rs, rt, rd, sh, fn);
            && Opcode(i) == op && Rs(i) == rs as int && Rt(i) == rt as int && Rd(i) == rd as int
            && Shamt(i) == sh && Funct(i) == fn && RtField(i) == rt
  {
    hide Layout;
    FieldBits(op, rs, rt, rd, sh, fn);
  }

  predicate Bit(w: Word, k: bv6)
    requires k < 32
  {
    (w >> k) & 1 == 1
  }

  lemma PlainImmed(i: Word, k: bv6)
    requires k < 32
    ensures Bit(Immed(i), k) <==> k < 16 && Bit(i, k)
  {
  }

  lemma PositiveImmed(i: Word, k: bv6)
    requires k < 32 && i & 0x8000 == 0
    ensures Bit(i & 0xFFFF, k) <==> Bit(i, if k < 15 then k else 15)
  {
  }

  lemma NegativeImmed(i: Word, k: bv6)
    requires k < 32 && i & 0x8000 != 0
    ensures Bit((i & 0xFFFF) | 0xFFFF0000, k) <==> Bit(i, if k < 15 then k else 15)
  {
  }

  /** The immediate operand: 16 bits, filled up with zeros or with their sign. */
  lemma Immediates(i: Word, k: bv6)
    requires k < 32
    ensures Bit(Immed(i), k) <==> k < 16 && Bit(i, k)
    ensures Bit(SignedImmed(i), k) <==> Bit(i, if k < 15 then k else 15)
  {
    hide Bit, Immed;
    PlainImmed(i, k);
    if i & 0x8000 != 0 { NegativeImmed(i, k); } else { PositiveImmed(i, k); }
  }

  function Rightward(a: Word, n: bv6): Word
    requires n < 32
  {
    a >> n
  }

  lemma BitBoth(a: Word, b: Word, k: bv6)
    requires k < 32
    ensures Bit(Both(a, b), k) <==> Bit(a, k) && Bit(b, k)
  {
  }

  lemma BitEither(a: Word, b: Word, k: bv6)
    requires k < 32
    ensures Bit(Either(a, b), k) <==> Bit(a, k) || Bit(b, k)
  {
  }

  lemma BitInverse(a: Word, k: bv6)
    requires k < 32
    ensures Bit(Inverse(a), k) <==> !Bit(a, k)
  {
  }

  lemma DifferingIs(a: Word, b: Word)
    ensures Differing(a, b) == Both(Either(a, b), Inverse(Both(a, b)))
  {
  }

  lemma BitDiffering(a: Word, b: Word, k: bv6)
    requires k < 32
    ensures Bit(Differing(a, b), k) <==> Bit(a, k) != Bit(b, k)
  {
    hide Bit, Both, Either, Inverse, Differing;
    DifferingIs(a, b);
    BitEither(a, b, k);
    BitBoth(a, b, k);
    BitInverse(Both(a, b), k);
    BitBoth(Either(a, b), Inverse(Both(a, b)), k);
  }

  lemma BitLeft(a: Word, n: bv6, k: bv6)
    requires k < 32 && n < 32
    ensures Bit(Leftward(a, n), k) <==> k >= n && Bit(a, k - n)
  {
  }

  lemma BitRight(a: Word, n: bv6, k: bv6)
    requires k < 32 && n < 32
    ensures Bit(Rightward(a, n), k) <==> k + n < 32 && Bit(a, k + n)
  {
  }

  lemma BitSign(a: Word)
    ensures Bit(a, 31) <==> Negative(a)
  {
  }

  // ---- results ----

  /** Equal in every bit to what the two words give by a rule on bits. */
  ghost predicate And(v: Word, a: Word, b: Word) { forall k: bv6 :: k < 32 ==> (Bit(v, k) <==> Bit(a, k) && Bit(b, k)) }

  ghost predicate Or(v: Word, a: Word, b: Word) { forall k: bv6 :: k < 32 ==> (Bit(v, k) <==> Bit(a, k) || Bit(b, k)) }

  ghost predicate Xor(v: Word, a: Word, b: Word) { forall k: bv6 :: k < 32 ==> (Bit(v, k) <==> Bit(a, k) != Bit(b, k)) }

  ghost predicate Nor(v: Word, a: Word, b: Word) { forall k: bv6 :: k < 32 ==> (Bit(v, k) <==> !Bit(a, k) && !Bit(b, k)) }

  ghost predicate Left(v: Word, a: Word, n: bv6)
    requires n < 32
  {
    forall k: bv6 :: k < 32 ==> (Bit(v, k) <==> k >= n && Bit(a, k - n))
  }

  ghost predicate Right(v: Word, a: Word, n: bv6)
    requires n < 32
  {
    forall k: bv6 :: k < 32 ==> (Bit(v, k) <==> k + n < 32 && Bit(a, k + n))
  }

  ghost predicate RightSigned(v: Word, a: Word, n: bv6)
    requires n < 32
  {
    forall k: bv6 :: k < 32 ==> (Bit(v, k) <==> Bit(a, if k + n < 32 then k + n else 31))
  }

  function Lower(x: bv33): Word { (x & 0xFFFF_FFFF) as Word }

  /** The exact sum, and its low 32 bits. */
  predicate IsSum(v: Word, a: Word, b: Word) { Wide(v) == Add(Wide(a), Wide(b)) }

  predicate IsLowSum(v: Word, a: Word, b: Word) { v == Lower(Add(Wide(a), Wide(b))) }

  predicate SignedBelow(a: Word, b: Word) { if (a >= 0x8000_0000) == (b >= 0x8000_0000) then a < b else a >= 0x8000_0000 }

  /** The manual's three-operand instructions. */
  ghost predicate RegisterResult(fn: Word, v: Word, a: Word, b: Word) {
    && (fn == 32 ==> IsSum(v, a, b))
    && (fn == 33 ==> IsLowSum(v, a, b))
    && (fn == 34 ==> IsSum(a, v, b))
    && (fn == 35 ==> IsLowSum(a, v, b))
    && (fn == 36 ==> And(v, a, b))
    && (fn == 37 ==> Or(v, a, b))
    && (fn == 38 ==> Xor(v, a, b))
    && (fn == 39 ==> Nor(v, a, b))
    && (fn == 42 ==> v == if SignedBelow(a, b) then 1 else 0)
    && (fn == 43 ==> v == if a < b then 1 else 0)
  }

  lemma LowerExt(v: Word, negative: bool)
    ensures Lower(Ext(v, negative)) == v
  {
  }

  lemma SumIs(a: Word, b: Word)
    ensures IsLowSum(Sum(a, b), a, b)
    ensures !AddOverflows(a, b) ==> IsSum(Sum(a, b), a, b)
  {
    hide Negative, Ext, Add, Wide, AddOverflows, Lower;
    ExactSum(a, b);
    LowerExt(a + b, true);
    LowerExt(a + b, false);
    AddOverflowIff(a, b);
  }

  lemma Restored(a: Word, b: Word)
    ensures Sum(Difference(a, b), b) == a
    ensures SubOverflows(a, b) <==> Add(Wide(Difference(a, b)), Wide(b)) != Wide(a)
  {
    hide Negative, Wide, Add, SubOverflows;
    Restore(a, b);
    SubOverflowIff(a, b);
  }

  lemma DifferenceIs(a: Word, b: Word)
    ensures IsLowSum(a, Difference(a, b), b)
    ensures !SubOverflows(a, b) ==> IsSum(a, Difference(a, b), b)
  {
    hide Negative, Wide, Add, SubOverflows, Difference, Lower, AddOverflows;
    SumIs(Difference(a, b), b);
    Restored(a, b);
  }

  lemma LogicIs(a: Word, b: Word)
    ensures And(Both(a, b), a, b) && Or(Either(a, b), a, b) && Xor(Differing(a, b), a, b) && Nor(Inverse(Either(a, b)), a, b)
  {
    hide Bit, Both, Either, Differing, Inverse;
    forall k: bv6 | k < 32
      ensures Bit(Both(a, b), k) <==> Bit(a, k) && Bit(b, k)
      ensures Bit(Either(a, b), k) <==> Bit(a, k) || Bit(b, k)
      ensures Bit(Differing(a, b), k) <==> Bit(a, k) != Bit(b, k)
      ensures Bit(Inverse(Either(a, b)), k) <==> !Bit(a, k) && !Bit(b, k)
    {
      BitBoth(a, b, k);
      BitEither(a, b, k);
      BitDiffering(a, b, k);
      BitInverse(Either(a, b), k);
    }
  }

  lemma LeftIs(a: Word, b: Word)
    ensures Left(ShiftLeft(a, b), a, Amount(b))
  {
    hide Bit, Leftward, Amount;
    forall k: bv6 | k < 32
      ensures Bit(ShiftLeft(a, b), k) <==> k >= Amount(b) && Bit(a, k - Amount(b))
    {
      BitLeft(a, Amount(b), k);
    }
  }

  lemma RightIs(a: Word, b: Word)
    ensures Right(ShiftRightLogical(a, b), a, Amount(b))
  {
    hide Bit, Rightward, ShiftRightLogical, Amount;
    LogicalRightward(a, b);
    forall k: bv6 | k < 32
      ensures Bit(ShiftRightLogical(a, b), k) <==> k + Amount(b) < 32 && Bit(a, k + Amount(b))
    {
      BitRight(a, Amount(b), k);
    }
  }

  lemma LogicalRightward(a: Word, b: Word)
    ensures ShiftRightLogical(a, b) == Rightward(a, Amount(b))
  {
    hide ShiftRightLogical;
    LogicalShift(a, b);
  }

  lemma AsRightward(a: Word, n: bv6)
    requires n < 32
    ensures a >> n == Rightward(a, n)
  {
  }

  lemma AsInverse(a: Word, n: bv6)
    requires n < 32
    ensures Complemented(a, n) == Inverse(Rightward(Inverse(a), n))
  {
  }

  lemma PlainBits(v: Word, a: Word, n: bv6)
    requires n < 32 && v == Rightward(a, n) && !Bit(a, 31)
    ensures RightSigned(v, a, n)
  {
    hide Bit, Rightward;
    forall k: bv6 | k < 32
      ensures Bit(v, k) <==> Bit(a, if k + n < 32 then k + n else 31)
    {
      BitRight(a, n, k);
    }
  }

  lemma FillBits(v: Word, a: Word, n: bv6)
    requires n < 32 && v == Inverse(Rightward(Inverse(a), n)) && Bit(a, 31)
    ensures RightSigned(v, a, n)
  {
    hide Bit, Rightward, Inverse;
    forall k: bv6 | k < 32
      ensures Bit(v, k) <==> Bit(a, if k + n < 32 then k + n else 31)
    {
      BitRight(Inverse(a), n, k);
      BitInverse(Rightward(Inverse(a), n), k);
      if k + n < 32 { BitInverse(a, k + n); }
    }
  }

  lemma PlainShift(a: Word, b: Word)
    requires !Negative(a)
    ensures ShiftRightArithmetic(a, b) == Rightward(a, Amount(b))
  {
    hide ShiftRightArithmetic, Amount, Complemented, Negative;
    ArithmeticShift(a, b);
  }

  lemma FilledShift(a: Word, b: Word)
    requires Negative(a)
    ensures ShiftRightArithmetic(a, b) == Inverse(Rightward(Inverse(a), Amount(b)))
  {
    hide ShiftRightArithmetic, Amount, Complemented, Negative, Inverse, Rightward;
    ArithmeticShift(a, b);
    AsInverse(a, Amount(b));
  }

  lemma RightSignedIs(a: Word, b: Word)
    ensures RightSigned(ShiftRightArithmetic(a, b), a, Amount(b))
  {
    hide Bit, Rightward, Inverse, ShiftRightArithmetic, Amount, Negative, RightSigned;
    BitSign(a);
    if Negative(a) {
      FilledShift(a, b);
      FillBits(ShiftRightArithmetic(a, b), a, Amount(b));
    } else {
      PlainShift(a, b);
      PlainBits(ShiftRightArithmetic(a, b), a, Amount(b));
    }
  }

  lemma LessIs(a: Word, b: Word)
    ensures SignedLess(a, b) <==> SignedBelow(a, b)
  {
  }

  // ---- what a step leaves ----

  /** An instruction that does not trap, in a machine with a zero register. */
  predicate Runs(env: Env, s: Arch) { |s.regs| == 32 && s.regs[0] == 0 && !Traps(env, s) }

  /** Register r gets v; register 0 gets nothing. */
  predicate Writes(s: Arch, t: Arch, r: nat, v: Word)
    requires |s.regs| == 32
  {
    t.regs == if 0 < r < 32 then s.regs[r := v] else s.regs
  }

  /** On to the next instruction. */
  predicate Onward(s: Arch, t: Arch) { t.pc == s.npc && t.npc == s.npc + 4 && !t.inSlot && t.epc == s.epc }

  /** Memory, HI and LO are as before. */
  predicate OnlyRegisters(s: Arch, t: Arch) { t.mem == s.mem && t.hi == s.hi && t.lo == s.lo }

  predicate IsAlu(i: Word) {
    8 <= Opcode(i) <= 15
    || (Opcode(i) == OP_SPECIAL
        && (Funct(i) == 0 || 2 <= Funct(i) <= 4 || 6 <= Funct(i) <= 7 || 32 <= Funct(i) <= 39 || Funct(i) == 42 || Funct(i) == 43))
  }

  lemma AluKinds(i: Word)
    requires IsAlu(i)
    ensures !IsLoad(i) && !IsStore(i) && !IsMulDiv(i) && forall a, b :: !Taken(i, a, b)
  {
    hide Opcode, Funct, RtField;
  }

  /** All that an arithmetic instruction does besides its result. */
  lemma AluStep(env: Env, s: Arch)
    requires Runs(env, s) && IsAlu(Instr(env, s))
    ensures var t := Step(env, s);
            && Onward(s, t) && OnlyRegisters(s, t)
            && Writes(s, t, DestinationField(Instr(env, s)), Result(env, s))
  {
    hide Opcode, Funct, DestinationField, IsLoad, IsStore, IsMulDiv, Taken, Result, Instr, Traps, IsAlu;
    AluKinds(Instr(env, s));
  }

  lemma RegisterFormReads(i: Word)
    requires Opcode(i) == OP_SPECIAL && (32 <= Funct(i) <= 39 || Funct(i) == 42 || Funct(i) == 43)
    ensures FirstSource(i) == Rs(i) && SecondSource(i) == Rt(i) && DestinationField(i) == Rd(i) && IsAlu(i)
  {
    hide Opcode, Funct, Rs, Rt, Rd, RtField;
  }

  lemma RegisterFormResult(i: Word, a: Word, b: Word, old_: Word, hi: Word, lo: Word)
    requires Opcode(i) == OP_SPECIAL && (32 <= Funct(i) <= 39 || Funct(i) == 42 || Funct(i) == 43) && !ExecRaises(i, a, b)
    ensures RegisterResult(Funct(i), ExecResult(i, a, b, old_, hi, lo), a, b)
  {
    hide Opcode, Funct, AddOverflows, SubOverflows, SignedLess, ShiftLeft, ShiftRightLogical, ShiftRightArithmetic,
         IsSum, IsLowSum, And, Or, Xor, Nor, SignedBelow, Both, Either, Differing, Inverse, Difference, Sum;
    SumIs(a, b);
    DifferenceIs(a, b);
    LogicIs(a, b);
    LessIs(a, b);
  }

  /** ADD, ADDU, SUB, SUBU, AND, OR, XOR, NOR, SLT and SLTU. */
  lemma RegisterForm(env: Env, s: Arch)
    requires Runs(env, s)
    requires var i := Instr(env, s); Opcode(i) == OP_SPECIAL && (32 <= Funct(i) <= 39 || Funct(i) == 42 || Funct(i) == 43)
    ensures var i, t := Instr(env, s), Step(env, s);
            && Onward(s, t) && OnlyRegisters(s, t)
            && exists v :: Writes(s, t, Rd(i), v) && RegisterResult(Funct(i), v, s.regs[Rs(i)], s.regs[Rt(i)])
  {
    hide Opcode, Funct, Rs, Rt, Rd, FirstSource, SecondSource, DestinationField, ExecResult, ExecRaises, RegisterResult, Instr,
         FetchFault, IsReserved, MemFault, IsAlu, Step, Onward, Writes;
    var i := Instr(env, s);
    RegisterFormReads(i);
    AluStep(env, s);
    RegisterFormResult(i, s.regs[Rs(i)], s.regs[Rt(i)], LinkValue(i, s.pc), s.hi, s.lo);
  }

  // ---- immediate operands ----

  /** The manual's instructions with an immediate operand: d is the immediate
      with its sign, z without. */
  ghost predicate ImmediateResult(op: Word, v: Word, a: Word, d: Word, z: Word) {
    && (op == 8 ==> IsSum(v, a, d))
    && (op == 9 ==> IsLowSum(v, a, d))
    && (op == 10 ==> v == if SignedBelow(a, d) then 1 else 0)
    && (op == 11 ==> v == if a < d then 1 else 0)
    && (op == 12 ==> And(v, a, z))
    && (op == 13 ==> Or(v, a, z))
    && (op == 14 ==> Xor(v, a, z))
    && (op == 15 ==> Left(v, z, 16))
  }

  lemma UpperIs(z: Word)
    ensures Left(Upper(z), z, 16)
  {
    hide Bit, Leftward;
    assert Upper(z) == Leftward(z, 16) by { UpperLeft(z); }
    hide Upper;
    forall k: bv6 | k < 32
      ensures Bit(Upper(z), k) <==> k >= 16 && Bit(z, k - 16)
    {
      BitLeft(z, 16, k);
    }
  }

  lemma UpperLeft(z: Word)
    ensures Upper(z) == Leftward(z, 16)
  {
  }

  lemma ImmediateFormReads(i: Word)
    requires 8 <= Opcode(i) <= 15
    ensures Opcode(i) < 15 ==> FirstSource(i) == Rs(i)
    ensures SecondSource(i) == NONE_REG && DestinationField(i) == Rt(i) && IsAlu(i)
    ensures InlineOperand(i) == if Opcode(i) < 12 then SignedImmed(i) else Immed(i)
  {
    hide Opcode, Funct, Rs, Rt, Rd, RtField, SignedImmed, Immed, ShamtValue;
  }

  lemma ImmediateFormResult(i: Word, a: Word, b: Word, d: Word, z: Word, old_: Word, hi: Word, lo: Word)
    requires 8 <= Opcode(i) <= 15 && !ExecRaises(i, a, b) && b == if Opcode(i) < 12 then d else z
    ensures ImmediateResult(Opcode(i), ExecResult(i, a, b, old_, hi, lo), a, d, z)
  {
    hide Opcode, Funct, AddOverflows, SubOverflows, SignedLess, ExecResult, ExecRaises,
         IsSum, IsLowSum, And, Or, Xor, SignedBelow, Both, Either, Differing, Sum, Upper, Left;
    if Opcode(i) < 12 {
      SignedImmediate(i, a, b, old_, hi, lo);
      SumIs(a, b);
      LessIs(a, b);
    } else {
      PlainImmediate(i, a, b, old_, hi, lo);
      LogicIs(a, b);
      UpperIs(b);
    }
  }

  lemma SignedImmediate(i: Word, a: Word, b: Word, old_: Word, hi: Word, lo: Word)
    requires 8 <= Opcode(i) < 12 && !ExecRaises(i, a, b)
    ensures var v := ExecResult(i, a, b, old_, hi, lo);
            v == if Opcode(i) < 10 then Sum(a, b) else if (if Opcode(i) == 10 then SignedLess(a, b) else a < b) then 1 else 0
    ensures Opcode(i) == 8 ==> !AddOverflows(a, b)
  {
    hide Opcode, Funct, AddOverflows, SubOverflows, SignedLess, Sum;
  }

  lemma PlainImmediate(i: Word, a: Word, b: Word, old_: Word, hi: Word, lo: Word)
    requires 12 <= Opcode(i) <= 15 && !ExecRaises(i, a, b)
    ensures var v := ExecResult(i, a, b, old_, hi, lo);
            v == if Opcode(i) == 12 then Both(a, b) else if Opcode(i) == 13 then Either(a, b)
                 else if Opcode(i) == 14 then Differing(a, b) else Upper(b)
  {
    hide Opcode, Funct, ExecRaises, Both, Either, Differing, Upper;
  }

  /** ADDI, ADDIU, SLTI, SLTIU, ANDI, ORI, XORI and LUI. */
  lemma ImmediateForm(env: Env, s: Arch)
    requires Runs(env, s) && 8 <= Opcode(Instr(env, s)) <= 15
    ensures var i, t := Instr(env, s), Step(env, s);
            && Onward(s, t) && OnlyRegisters(s, t)
            && exists v :: Writes(s, t, Rt(i), v) && ImmediateResult(Opcode(i), v, s.regs[Rs(i)], SignedImmed(i), Immed(i))
  {
    hide Opcode, Funct, Rs, Rt, Rd, FirstSource, SecondSource, DestinationField, ExecResult, ExecRaises, ImmediateResult, Instr,
         FetchFault, IsReserved, MemFault, IsAlu, Step, Onward, Writes, InlineOperand, SignedImmed, Immed;
    var i := Instr(env, s);
    ImmediateFormReads(i);
    AluStep(env, s);
    var a := if Opcode(i) < 15 then s.regs[Rs(i)] else OperandA(env, s);
    ImmediateFormResult(i, a, InlineOperand(i), SignedImmed(i), Immed(i), LinkValue(i, s.pc), s.hi, s.lo);
    ImmediateUpper(Opcode(i), Result(env, s), a, s.regs[Rs(i)], SignedImmed(i), Immed(i));
  }

  lemma ImmediateUpper(op: Word, v: Word, a: Word, a': Word, d: Word, z: Word)
    requires ImmediateResult(op, v, a, d, z) && (op == 15 || a == a')
    ensures ImmediateResult(op, v, a', d, z)
  {
    hide IsSum, IsLowSum, And, Or, Xor, SignedBelow, Left;
  }

  // ---- shifts ----

  ghost predicate ShiftResult(fn: Word, v: Word, a: Word, n: bv6)
    requires n < 32
  {
    && (fn == 0 || fn == 4 ==> Left(v, a, n))
    && (fn == 2 || fn == 6 ==> Right(v, a, n))
    && (fn == 3 || fn == 7 ==> RightSigned(v, a, n))
  }

  predicate IsShift(i: Word) { Opcode(i) == OP_SPECIAL && (Funct(i) == 0 || 2 <= Funct(i) <= 4 || 6 <= Funct(i) <= 7) }

  lemma ShiftFormReads(i: Word)
    requires IsShift(i)
    ensures FirstSource(i) == Rt(i) && DestinationField(i) == Rd(i) && IsAlu(i) && !IsTrappingAdd(i) && !IsTrappingSub(i)
    ensures Funct(i) >= 4 ==> SecondSource(i) == Rs(i)
    ensures Funct(i) < 4 ==> SecondSource(i) == NONE_REG && InlineOperand(i) == Shamt(i)
  {
    hide Opcode, Funct, Rs, Rt, Rd, RtField, Shamt, ImmValue;
  }

  lemma ShiftFormResult(i: Word, a: Word, b: Word, old_: Word, hi: Word, lo: Word)
    requires IsShift(i) && !ExecRaises(i, a, b)
    ensures ShiftResult(Funct(i), ExecResult(i, a, b, old_, hi, lo), a, Amount(b))
  {
    hide Opcode, Funct, ExecRaises, ShiftLeft, ShiftRightLogical, ShiftRightArithmetic, Left, Right, RightSigned, Amount;
    LeftIs(a, b);
    RightIs(a, b);
    RightSignedIs(a, b);
  }

  /** SLL, SRL, SRA by a constant, SLLV, SRLV, SRAV by the low five bits of rs. */
  lemma ShiftForm(env: Env, s: Arch)
    requires Runs(env, s) && IsShift(Instr(env, s))
    ensures var i, t := Instr(env, s), Step(env, s);
            var n := Amount(if Funct(i) < 4 then Shamt(i) else s.regs[Rs(i)]);
            && Onward(s, t) && OnlyRegisters(s, t)
            && exists v :: Writes(s, t, Rd(i), v) && ShiftResult(Funct(i), v, s.regs[Rt(i)], n)
  {
    hide Opcode, Funct, Rs, Rt, Rd, FirstSource, SecondSource, DestinationField, ExecResult, ExecRaises, ShiftResult, Instr,
         FetchFault, IsReserved, MemFault, IsAlu, Step, Onward, Writes, InlineOperand, Shamt, IsShift, Amount, OnlyRegisters;
    var i := Instr(env, s);
    ShiftFormReads(i);
    AluStep(env, s);
    FewFuncts(i);
    ShiftFormResult(i, s.regs[Rt(i)], OperandB(env, s), LinkValue(i, s.pc), s.hi, s.lo);
  }

  lemma FewFuncts(i: Word)
    requires IsShift(i)
    ensures Funct(i) < 4 || Funct(i) >= 4
  {
  }
}
