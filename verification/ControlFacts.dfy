/** HI and LO, control transfers and exceptions, in the terms of the MIPS I manual. */
module ControlFacts {
  import opened Isa
  import opened Sequential
  import Pipeline
  import opened AluFacts
  import opened InstructionFacts
  import Multiply

  // ---- HI and LO ----

  const P32: int := 0x1_0000_0000

  /** The number a word stands for in two's complement. */
  function TwosComplement(w: Word): int { if w < 0x8000_0000 then w as int else (w as int) - P32 }

  lemma SignedIs(w: Word)
    ensures SignedValue(w) == TwosComplement(w)
  {
    hide Negative;
    NegativeIs(w);
  }

  /** h and l are the halves of p, counted modulo 2^64. */
  predicate Halves(h: nat, l: nat, p: int) { h < P32 && l < P32 && h * P32 + l == p % (P32 * P32) }

  /** The quotient is cut off towards zero: the remainder has the sign of the dividend. */
  predicate Quotient(q: int, r: int, a: int, b: int) {
    && a == q * b + r
    && (if b < 0 then -b else b) > (if r < 0 then -r else r)
    && (r == 0 || (r < 0 <==> a < 0))
  }

  lemma HalvesAre(h: nat, l: nat, p: int)
    requires Halves(h, l, p)
    ensures ToWord(p / P32) == h as Word && ToWord(p) == l as Word
  {
    hide ToWord;
    Multiply.HalvesOf(p, h, l);
  }

  /** There is one quotient and one remainder. */
  lemma QuotientIs(q: int, r: int, a: int, b: int)
    requires b != 0 && Quotient(q, r, a, b)
    ensures q == TruncDiv(a, b) && r == TruncMod(a, b)
  {
    TruncDivIs(a, b);
    SameQuotient(q, r, TruncDiv(a, b), TruncMod(a, b), a, b);
  }

  lemma TruncDivIs(a: int, b: int)
    requires b != 0
    ensures Quotient(TruncDiv(a, b), TruncMod(a, b), a, b)
  {
  }

  lemma SameQuotient(q: int, r: int, q': int, r': int, a: int, b: int)
    requires b != 0 && Quotient(q, r, a, b) && Quotient(q', r', a, b)
    ensures q == q' && r == r'
  {
    var d := q - q';
    assert d * b == r' - r;
    if d > 0 { assert (d - 1) * b == d * b - b; Large(d, b); }
    if d < 0 { assert (-d) * b == r - r'; Large(-d, b); }
  }

  lemma Large(d: int, b: int)
    requires d > 0
    ensures b > 0 ==> d * b >= b
    ensures b < 0 ==> d * b <= b
  {
    assert d * b == (d - 1) * b + b;
    if b > 0 { assert (d - 1) * b >= 0; } else if b < 0 { assert (d - 1) * b <= 0; }
  }

  predicate IsMoveFrom(i: Word) { Opcode(i) == OP_SPECIAL && (Funct(i) == 16 || Funct(i) == 18) }

  lemma MoveFromReads(i: Word)
    requires IsMoveFrom(i)
    ensures DestinationField(i) == Rd(i) && !IsLoad(i) && !IsStore(i) && !WritesHi(i) && !WritesLo(i)
    ensures forall a, b :: !Taken(i, a, b) && !ExecRaises(i, a, b)
  {
    hide Opcode, Funct, Rd, RtField, AddOverflows, SubOverflows;
  }

  lemma MoveFromResult(i: Word, a: Word, b: Word, old_: Word, hi: Word, lo: Word)
    requires IsMoveFrom(i) && !ExecRaises(i, a, b)
    ensures ExecResult(i, a, b, old_, hi, lo) == if Funct(i) == 16 then hi else lo
  {
    hide Opcode, Funct, ExecRaises;
  }

  /** MFHI and MFLO. */
  lemma MoveFromForm(env: Env, s: Arch)
    requires Runs(env, s) && IsMoveFrom(Instr(env, s))
    ensures var i, t := Instr(env, s), Step(env, s);
            && Onward(s, t) && OnlyRegisters(s, t) && Writes(s, t, Rd(i), if Funct(i) == 16 then s.hi else s.lo)
  {
    hide Opcode, Funct, Rd, DestinationField, IsLoad, IsStore, WritesHi, WritesLo, Taken, ExecRaises, ExecResult, Instr, IsMoveFrom,
         Traps, OperandA, OperandB, LinkValue;
    var i := Instr(env, s);
    MoveFromReads(i);
    MoveFromResult(i, OperandA(env, s), OperandB(env, s), LinkValue(i, s.pc), s.hi, s.lo);
  }

  predicate IsHiLoWriter(i: Word) { Opcode(i) == OP_SPECIAL && (Funct(i) == 17 || Funct(i) == 19 || 24 <= Funct(i) <= 27) }

  lemma HiLoWriterReads(i: Word)
    requires IsHiLoWriter(i)
    ensures DestinationField(i) == NONE_REG && !IsLoad(i) && !IsStore(i)
    ensures WritesHi(i) <==> Funct(i) != 19
    ensures WritesLo(i) <==> Funct(i) != 17
    ensures Funct(i) >= 24 ==> FirstSource(i) == Rs(i) && SecondSource(i) == Rt(i)
    ensures Funct(i) < 24 ==> FirstSource(i) == Rd(i)
    ensures forall a, b :: !Taken(i, a, b)
  {
    hide Opcode, Funct, Rs, Rt, Rd, RtField;
  }

  ghost predicate AreHalves(h: Word, l: Word, p: int) {
    forall x: nat, y: nat :: Halves(x, y, p) ==> h == x as Word && l == y as Word
  }

  lemma AreHalvesOf(p: int)
    ensures AreHalves(ToWord(p / P32), ToWord(p), p)
  {
    hide ToWord;
    forall x: nat, y: nat | Halves(x, y, p)
      ensures ToWord(p / P32) == x as Word && ToWord(p) == y as Word
    {
      HalvesAre(x, y, p);
    }
  }

  /** What the manual says of HI and LO after fn on a and b. */
  ghost predicate HiLoResult(fn: Word, h: Word, l: Word, a: Word, b: Word) {
    && (fn == 24 ==> AreHalves(h, l, TwosComplement(a) * TwosComplement(b)))
    && (fn == 25 ==> AreHalves(h, l, (a as int) * (b as int)))
    && (fn == 26 && b != 0 ==> forall q, r :: Quotient(q, r, TwosComplement(a), TwosComplement(b)) ==> l == ToWord(q) && h == ToWord(r))
    && (fn == 27 && b != 0 ==> forall q, r :: Quotient(q, r, a as int, b as int) ==> l == ToWord(q) && h == ToWord(r))
  }

  lemma NonZero(b: Word)
    requires b != 0
    ensures b as int != 0 && TwosComplement(b) != 0
  {
  }

  lemma ProductIs(i: Word, a: Word, b: Word)
    requires Funct(i) == 24 || Funct(i) == 25
    ensures HiLoResult(Funct(i), HiValue(i, a, b), LoValue(i, a, b), a, b)
  {
    hide Funct, ToWord, SignedValue, TwosComplement, AreHalves;
    SignedIs(a);
    SignedIs(b);
    AreHalvesOf(if Funct(i) == 24 then TwosComplement(a) * TwosComplement(b) else (a as int) * (b as int));
  }

  lemma DivisionIs(i: Word, a: Word, b: Word)
    requires Funct(i) == 26 || Funct(i) == 27
    ensures HiLoResult(Funct(i), HiValue(i, a, b), LoValue(i, a, b), a, b)
  {
    hide Funct, ToWord, SignedValue, TwosComplement, Quotient, TruncDiv, TruncMod;
    SignedIs(a);
    SignedIs(b);
    var x, y := if Funct(i) == 26 then TwosComplement(a) else a as int, if Funct(i) == 26 then TwosComplement(b) else b as int;
    if b != 0 {
      NonZero(b);
      forall q, r | Quotient(q, r, x, y)
        ensures LoValue(i, a, b) == ToWord(q) && HiValue(i, a, b) == ToWord(r)
      {
        QuotientIs(q, r, x, y);
      }
    }
  }

  /** MTHI, MTLO, MULT, MULTU, DIV and DIVU; there is a quotient, by TruncDivIs. */
  lemma HiLoForm(env: Env, s: Arch)
    requires Runs(env, s) && IsHiLoWriter(Instr(env, s))
    ensures var i, t := Instr(env, s), Step(env, s);
            && Onward(s, t) && t.regs == s.regs && t.mem == s.mem
            && (Funct(i) == 17 ==> t.hi == s.regs[Rd(i)] && t.lo == s.lo)
            && (Funct(i) == 19 ==> t.lo == s.regs[Rd(i)] && t.hi == s.hi)
            && HiLoResult(Funct(i), t.hi, t.lo, s.regs[Rs(i)], s.regs[Rt(i)])
  {
    hide Opcode, Rs, Rt, Rd, FirstSource, SecondSource, DestinationField, IsLoad, IsStore, WritesHi, WritesLo, Taken, Instr, Traps,
         HiLoResult, IsMulDiv, Value;
    var i := Instr(env, s);
    HiLoWriterReads(i);
    if Funct(i) == 24 || Funct(i) == 25 {
      hide HiValue, LoValue, Funct;
      ProductIs(i, s.regs[Rs(i)], s.regs[Rt(i)]);
    } else if Funct(i) == 26 || Funct(i) == 27 {
      hide HiValue, LoValue, Funct;
      DivisionIs(i, s.regs[Rs(i)], s.regs[Rt(i)]);
    } else {
      MoveToResult(i, OperandA(env, s), OperandB(env, s));
      NoHiLoResult(Funct(i), NextHi(env, s), NextLo(env, s), s.regs[Rs(i)], s.regs[Rt(i)]);
      hide HiValue, LoValue, Funct;
    }
  }

  lemma MoveToResult(i: Word, a: Word, b: Word)
    ensures Funct(i) == 17 ==> HiValue(i, a, b) == a
    ensures Funct(i) == 19 ==> LoValue(i, a, b) == a
  {
    hide Funct, ToWord, SignedValue;
  }

  lemma NoHiLoResult(fn: Word, h: Word, l: Word, a: Word, b: Word)
    requires fn == 17 || fn == 19
    ensures HiLoResult(fn, h, l, a, b)
  {
  }

  // ---- control transfers ----

  predicate IsBranch(i: Word) {
    4 <= Opcode(i) <= 7
    || (Opcode(i) == OP_BCOND && (RtField(i) == 0 || RtField(i) == 1 || RtField(i) == 16 || RtField(i) == 17))
  }

  /** BEQ, BNE, BLEZ, BGTZ, BLTZ or BLTZAL, BGEZ or BGEZAL. */
  predicate Condition(i: Word, a: Word, b: Word) {
    if Opcode(i) == 4 then a == b
    else if Opcode(i) == 5 then a != b
    else if Opcode(i) == 6 then a == 0 || a >= 0x8000_0000
    else if Opcode(i) == 7 then 0 < a < 0x8000_0000
    else if RtField(i) == 0 || RtField(i) == 16 then a >= 0x8000_0000
    else a < 0x8000_0000
  }

  /** Relative to the delay slot, in words. */
  function BranchTarget(i: Word, pc: Word): Word { pc + 4 + (SignedImmed(i) << 2) }

  /** Past the delay slot. */
  function Return(pc: Word): Word { pc + 8 }

  lemma LinkIs(i: Word, pc: Word)
    ensures LinkValue(i, pc) == if IsLink(i) then Return(pc) else 0
  {
    hide IsLink;
  }

  /** What a transfer does, in the terms of the reference's parts. */
  lemma TransferStep(env: Env, s: Arch)
    requires Runs(env, s)
    requires var i := Instr(env, s); !IsLoad(i) && !IsStore(i) && !WritesHi(i) && !WritesLo(i)
    ensures var t := Step(env, s);
            && OnlyRegisters(s, t) && t.epc == s.epc && t.pc == s.npc && t.inSlot == TakesBranch(env, s) && t.npc == NextNpc(env, s)
            && Writes(s, t, DestinationField(Instr(env, s)), Result(env, s))
  {
    hide IsLoad, IsStore, WritesHi, WritesLo, Instr, Traps, TakesBranch, NextNpc, Result, DestinationField;
  }

  predicate IsBltzal(i: Word) { Opcode(i) == OP_BCOND && RtField(i) == 16 }

  predicate Links(i: Word) { Opcode(i) == OP_BCOND && (RtField(i) == 16 || RtField(i) == 17) }

  lemma BranchReads(i: Word)
    requires IsBranch(i)
    ensures FirstSource(i) == Rs(i) && !IsLoad(i) && !IsStore(i) && !WritesHi(i) && !WritesLo(i)
    ensures Opcode(i) == 4 || Opcode(i) == 5 ==> SecondSource(i) == Rt(i)
    ensures DestinationField(i) == (if Links(i) then RA_REG else NONE_REG) && (Links(i) <==> IsLink(i))
    ensures ImmValue(i) == SignedImmed(i)
  {
    hide Opcode, Funct, Rs, Rt, Rd, RtField, SignedImmed, Immed;
  }

  lemma BranchTaken(i: Word, a: Word, b: Word)
    requires IsBranch(i)
    ensures Taken(i, a, b) <==> Condition(i, a, b)
  {
    hide Opcode, RtField, Funct, Negative;
    NegativeIs(a);
  }

  lemma BranchNext(i: Word, pc: Word, a: Word)
    requires IsBranch(i)
    ensures Following(RedirectPc(i, pc, a, ImmValue(i))) == if IsBltzal(i) then Following(BranchTarget(i, pc)) else BranchTarget(i, pc)
  {
    hide Opcode, RtField, Funct, SignedImmed, ImmValue, Following, FromSlot, FromBranch, JoinLess4, Region, Preceding, JumpTarg,
         BranchTarget;
    BranchReads(i);
    BranchSums(i, pc);
  }

  lemma BranchSums(i: Word, pc: Word)
    ensures Following(FromBranch(pc, SignedImmed(i))) == BranchTarget(i, pc)
    ensures Following(FromSlot(pc, SignedImmed(i))) == Following(BranchTarget(i, pc))
  {
    hide SignedImmed;
  }

  lemma BranchResult(i: Word, a: Word, b: Word, old_: Word, hi: Word, lo: Word)
    requires IsBranch(i)
    ensures ExecResult(i, a, b, old_, hi, lo) == old_
  {
    hide Opcode, Funct, RtField, AddOverflows, SubOverflows;
  }

  /** The branches; BLTZAL goes one instruction further than it should. */
  lemma BranchForm(env: Env, s: Arch)
    requires Runs(env, s) && IsBranch(Instr(env, s))
    ensures var i, t := Instr(env, s), Step(env, s);
            var taken := Condition(i, s.regs[Rs(i)], s.regs[Rt(i)]);
            && OnlyRegisters(s, t) && t.epc == s.epc && t.pc == s.npc && t.inSlot == taken
            && t.npc == (if !taken then Following(s.npc) else if IsBltzal(i) then Following(BranchTarget(i, s.pc)) else BranchTarget(i, s.pc))
            && Writes(s, t, if Links(i) then 31 else NONE_REG, Return(s.pc))
  {
    hide Opcode, Rs, Rt, RtField, FirstSource, SecondSource, DestinationField, IsLoad, IsStore, WritesHi, WritesLo, Taken, Instr, Traps,
         ExecResult, RedirectPc, ImmValue, BranchTarget, IsBranch, Links, IsBltzal, IsLink, InlineOperand, Step, Following, LinkValue, Return,
         Condition, OnlyRegisters;
    var i := Instr(env, s);
    BranchReads(i);
    TransferStep(env, s);
    LinkIs(i, s.pc);
    BranchTaken(i, s.regs[Rs(i)], OperandB(env, s));
    SameCondition(i, s.regs[Rs(i)], OperandB(env, s), s.regs[Rt(i)]);
    BranchNext(i, s.pc, s.regs[Rs(i)]);
    BranchResult(i, s.regs[Rs(i)], OperandB(env, s), LinkValue(i, s.pc), s.hi, s.lo);
  }

  lemma SameCondition(i: Word, a: Word, b: Word, b': Word)
    requires IsBranch(i) && (Opcode(i) == 4 || Opcode(i) == 5 ==> b == b')
    ensures Condition(i, a, b) <==> Condition(i, a, b')
  {
    hide Opcode, RtField;
  }

  // ---- jumps ----

  predicate IsJump(i: Word) {
    Opcode(i) == OP_J || Opcode(i) == OP_JAL || (Opcode(i) == OP_SPECIAL && (Funct(i) == FUNCT_JR || Funct(i) == FUNCT_JALR))
  }

  function Index(i: Word): Word { i & 0x03FF_FFFF }

  /** The word index within the region of the delay slot. */
  function JumpTarget(i: Word, pc: Word): Word { ((pc + 4) & 0xF000_0000) | (Index(i) << 2) }

  predicate IsJr(i: Word) { Opcode(i) == OP_SPECIAL && Funct(i) == FUNCT_JR }

  lemma JumpReads(i: Word)
    requires IsJump(i)
    ensures IsJr(i) ==> FirstSource(i) == Rs(i)
    ensures !IsLoad(i) && !IsStore(i) && !WritesHi(i) && !WritesLo(i) && forall a, b :: Taken(i, a, b)
    ensures IsLink(i) <==> !IsJr(i) && Opcode(i) != OP_J
    ensures DestinationField(i) == if IsLink(i) then RA_REG else NONE_REG
  {
    hide Opcode, Funct, Rs, Rt, Rd, RtField;
  }

  lemma JumpSum(region: Word, index: Word)
    requires region & 0x0FFF_FFFF == 0 && index & 0x03FF_FFFF == index && (index != 0 || region == 0)
    ensures Following(JoinLess4(region, index)) == region | (index << 2)
  {
  }

  lemma JumpParts(i: Word, pc: Word)
    ensures Region(pc) & 0x0FFF_FFFF == 0 && JumpTarg(i) & 0x03FF_FFFF == JumpTarg(i)
    ensures JumpTarget(i, pc) == Region(pc) | (JumpTarg(i) << 2)
  {
  }

  lemma IndexNext(i: Word, pc: Word)
    requires Index(i) != 0 || Region(pc) == 0
    ensures Following(JoinLess4(Region(pc), JumpTarg(i))) == JumpTarget(i, pc)
  {
    hide JoinLess4, Following, JumpTarg, Region, JumpTarget, Index;
    JumpParts(i, pc);
    IndexIs(i);
    JumpSum(Region(pc), JumpTarg(i));
  }

  lemma JumpNext(i: Word, pc: Word, a: Word)
    requires IsJump(i)
    ensures IsJr(i) ==> Following(RedirectPc(i, pc, a, ImmValue(i))) == a
    ensures !IsJr(i) && (Index(i) != 0 || Region(pc) == 0) ==>
              Following(RedirectPc(i, pc, a, ImmValue(i))) == JumpTarget(i, pc)
  {
    hide Opcode, RtField, Funct, ImmValue, Following, FromSlot, FromBranch, JoinLess4, Region, Preceding, JumpTarget, JumpTarg, Index;
    StepBack(a);
    if Index(i) != 0 || Region(pc) == 0 { IndexNext(i, pc); }
  }

  lemma IndexIs(i: Word)
    ensures JumpTarg(i) == Index(i)
  {
  }

  lemma StepBack(a: Word)
    ensures Following(Preceding(a)) == a
  {
  }

  lemma JumpResult(i: Word, a: Word, b: Word, old_: Word, hi: Word, lo: Word)
    requires IsJump(i)
    ensures ExecResult(i, a, b, old_, hi, lo) == old_
  {
    hide Opcode, Funct, RtField, AddOverflows, SubOverflows;
  }

  /** J, JAL, JR and JALR, which goes by its index bits as JAL does; a zero index
      in another region than the first is the subject of JumpTargetIff. */
  lemma JumpForm(env: Env, s: Arch)
    requires Runs(env, s) && IsJump(Instr(env, s))
    ensures var i, t := Instr(env, s), Step(env, s);
            && OnlyRegisters(s, t) && t.epc == s.epc && t.pc == s.npc && t.inSlot
            && (IsJr(i) ==> t.npc == s.regs[Rs(i)])
            && (!IsJr(i) && (Index(i) != 0 || Region(s.pc) == 0) ==> t.npc == JumpTarget(i, s.pc))
            && Writes(s, t, if IsJr(i) || Opcode(i) == OP_J then NONE_REG else 31, Return(s.pc))
  {
    hide Opcode, Rs, Rt, RtField, Funct, FirstSource, SecondSource, DestinationField, IsLoad, IsStore, WritesHi, WritesLo, Taken, Instr,
         Traps, ExecResult, RedirectPc, ImmValue, JumpTarget, IsJump, IsLink, InlineOperand, IsJr, OperandB, Following, Step, LinkValue,
         Return, Index, Region, OnlyRegisters;
    var i := Instr(env, s);
    JumpReads(i);
    TransferStep(env, s);
    LinkIs(i, s.pc);
    JumpNext(i, s.pc, OperandA(env, s));
    JumpResult(i, OperandA(env, s), OperandB(env, s), LinkValue(i, s.pc), s.hi, s.lo);
  }

  /** The region is that of the delay slot. */
  lemma RegionIs(pc: Word)
    ensures Region(pc) == Following(pc) & 0xF000_0000 && Following(pc) == pc + 4
  {
  }

  // ---- exceptions ----

  /** The encodings that the machine implements. */
  predicate Implemented(i: Word) {
    var op, fn, rt := Opcode(i), Funct(i), RtField(i);
    if op == 0 then
      fn == 0 || fn == 2 || fn == 3 || fn == 4 || 6 <= fn <= 9 || fn == 12 || fn == 13 || 16 <= fn <= 19 || 24 <= fn <= 27
      || 32 <= fn <= 39 || fn == 42 || fn == 43
    else if op == 47 then rt == 1 || rt == 4 || rt == 5 || rt == 9 || 17 <= rt
    else op <= 19 || 32 <= op <= 38 || 40 <= op <= 43 || op == 46 || 48 <= op <= 51 || 56 <= op <= 59
  }

  lemma FieldRanges(i: Word)
    ensures Opcode(i) < 64 && Funct(i) < 64 && RtField(i) < 32
  {
  }

  lemma ImplementedIff(i: Word)
    ensures !IsReserved(i) <==> Implemented(i)
  {
    hide Opcode, Funct, RtField;
    FieldRanges(i);
  }

  /** No word is the exact sum, or difference. */
  ghost predicate NoSum(a: Word, b: Word) { forall v: Word :: !IsSum(v, a, b) }

  ghost predicate NoDifference(a: Word, b: Word) { forall v: Word :: !IsSum(a, v, b) }

  lemma OnlySum(v: Word, a: Word, b: Word)
    requires IsSum(v, a, b)
    ensures v == Sum(a, b)
  {
    hide Wide, Add, Sum, Lower, Ext;
    SumIs(a, b);
    WideLower(v);
  }

  lemma WideLower(v: Word)
    ensures Lower(Wide(v)) == v
  {
    hide Ext, Lower, Negative;
    LowerExt(v, Negative(v));
  }

  lemma NoSumIff(a: Word, b: Word)
    ensures NoSum(a, b) <==> AddOverflows(a, b)
  {
    hide Wide, Add, Sum, AddOverflows;
    AddOverflowIff(a, b);
    if AddOverflows(a, b) {
      forall v: Word | IsSum(v, a, b)
        ensures false
      {
        OnlySum(v, a, b);
      }
    } else {
      assert IsSum(Sum(a, b), a, b);
    }
  }

  lemma CancelDifference(v: Word, b: Word)
    ensures Difference(v + b, b) == v
  {
  }

  lemma Cancel(v: Word, b: Word)
    ensures Difference(Sum(v, b), b) == v
  {
    hide Difference;
    CancelDifference(v, b);
  }

  lemma NoDifferenceIff(a: Word, b: Word)
    ensures NoDifference(a, b) <==> SubOverflows(a, b)
  {
    hide Wide, Add, Sum, SubOverflows, Difference;
    Restored(a, b);
    if SubOverflows(a, b) {
      forall v: Word | IsSum(a, v, b)
        ensures false
      {
        OnlySum(a, v, b);
        Cancel(v, b);
      }
    } else {
      assert IsSum(a, Difference(a, b), b);
    }
  }

  function Address(s: Arch, i: Word): Word { Sum(Reg(s.regs, Rs(i)), SignedImmed(i)) }

  /** SYSCALL and BREAK, an overflow, or a load or store for a missing coprocessor
      (the table is one short there: LWC3 and SWC0 are missing, SWC2 included). */
  ghost predicate Raises(s: Arch, i: Word)
    requires |s.regs| == 32
  {
    var op, fn := Opcode(i), Funct(i);
    || (op == 0 && (fn == 12 || fn == 13))
    || (op == 0 && fn == 32 && NoSum(s.regs[Rs(i)], s.regs[Rt(i)]))
    || (op == 0 && fn == 34 && NoDifference(s.regs[Rs(i)], s.regs[Rt(i)]))
    || (op == 8 && NoSum(s.regs[Rs(i)], SignedImmed(i)))
    || 48 <= op <= 50 || op == 56 || op == 57
  }

  /** Halfwords at even addresses, words at multiples of 4. */
  predicate Misaligned(s: Arch, i: Word) {
    var op := Opcode(i);
    || ((op == 33 || op == 37 || op == 41) && Address(s, i) & 1 != 0)
    || ((op == 35 || op == 43) && Address(s, i) & 3 != 0)
  }

  lemma RaisesIff(env: Env, s: Arch)
    requires |s.regs| == 32 && Implemented(Instr(env, s))
    ensures ExecRaises(Instr(env, s), OperandA(env, s), OperandB(env, s)) <==> Raises(s, Instr(env, s))
  {
    hide Opcode, Funct, RtField, Rs, Rt, FirstSource, SecondSource, Instr, AddOverflows, SubOverflows, NoSum, NoDifference, SignedImmed,
         InlineOperand;
    var i := Instr(env, s);
    if Opcode(i) == 0 && (Funct(i) == 32 || Funct(i) == 34) {
      RegisterFormReads(i);
      NoSumIff(s.regs[Rs(i)], s.regs[Rt(i)]);
      NoDifferenceIff(s.regs[Rs(i)], s.regs[Rt(i)]);
    } else if Opcode(i) == 8 {
      ImmediateFormReads(i);
      NoSumIff(s.regs[Rs(i)], SignedImmed(i));
    }
  }

  lemma AccessReads(i: Word)
    requires 32 <= Opcode(i) <= 38 || 40 <= Opcode(i) <= 43 || Opcode(i) == 46
    ensures FirstSource(i) == Rs(i) && SecondSource(i) == NONE_REG && InlineOperand(i) == SignedImmed(i)
    ensures forall a, b :: !ExecRaises(i, a, b) && !Taken(i, a, b)
    ensures forall a, b, old_, hi, lo :: ExecResult(i, a, b, old_, hi, lo) == Sum(a, b)
    ensures !WritesHi(i) && !WritesLo(i)
  {
    hide Opcode, Funct, RtField, Rs, Rt, SignedImmed, AddOverflows, SubOverflows, Sum;
  }

  lemma AccessAddress(env: Env, s: Arch)
    requires var i := Instr(env, s); |s.regs| == 32 && (32 <= Opcode(i) <= 38 || 40 <= Opcode(i) <= 43 || Opcode(i) == 46)
    ensures Result(env, s) == Address(s, Instr(env, s))
  {
    hide Opcode, Rs, FirstSource, SecondSource, Instr, Sum, SignedImmed, InlineOperand, ExecResult, LinkValue;
    AccessReads(Instr(env, s));
  }

  lemma MisalignedIff(env: Env, s: Arch)
    requires |s.regs| == 32
    ensures MemFault(Instr(env, s), Result(env, s)) <==> Misaligned(s, Instr(env, s))
  {
    hide Opcode, Instr, Result, Address;
    var i := Instr(env, s);
    if 32 <= Opcode(i) <= 38 || 40 <= Opcode(i) <= 43 { AccessAddress(env, s); }
  }

  /** Exactly when the reference, and so the pipeline, takes an exception. */
  lemma TrapsIff(env: Env, s: Arch)
    requires |s.regs| == 32
    ensures var i := env.prog(s.pc);
            Traps(env, s) <==> s.pc & 3 != 0 || !Implemented(i) || Raises(s, i) || Misaligned(s, i)
  {
    hide IsReserved, Implemented, ExecRaises, Raises, MemFault, Misaligned, Result, OperandA, OperandB;
    ImplementedIff(Instr(env, s));
    MisalignedIff(env, s);
    if Implemented(Instr(env, s)) { RaisesIff(env, s); }
  }

  /** The entry to the handler: EPC is the address to restart from, that of the branch
      when a delay slot traps; registers and memory are untouched. */
  lemma TrapForm(env: Env, s: Arch)
    requires Traps(env, s)
    ensures var t := NextArch(env, s);
            && t.pc == env.vector && t.npc == env.vector + 4 && !t.inSlot && t.epc == (if s.inSlot then s.pc - 4 else s.pc)
            && t.regs == s.regs && t.mem == s.mem
  {
    hide Traps, TrapHi, TrapLo;
  }

  // ---- what the execute stage leaves beside the result ----

  /** The instruction in EX occupies the HI/LO unit for as many cycles as its kind
      takes; every other one leaves the count alone. */
  lemma BusyCycles(m: Pipeline.Machine)
    ensures var i := Pipeline.At(m.recs, m.ex).instr;
            Pipeline.Execute(m).mulDivRemain ==
              if i >> 26 != 0 then m.mulDivRemain
              else if i & 0x3F == 0x18 || i & 0x3F == 0x19 then 3 // MULT, MULTU
              else if i & 0x3F == 0x1A || i & 0x3F == 0x1B then 9 // DIV, DIVU
              else if i & 0x3F == 0x11 || i & 0x3F == 0x13 then 2 // MTHI, MTLO
              else if i & 0x3F == 0x10 || i & 0x3F == 0x12 then 0 // MFHI, MFLO
              else m.mulDivRemain
  {
    hide WritesHi, WritesLo, HiValue, LoValue, ExecRaises, ExecResult;
    TopSix(Pipeline.At(m.recs, m.ex).instr);
  }

  lemma TopSix(i: Word)
    ensures Opcode(i) == i >> 26
  {
  }

  /** The exception that the record in EX picks up: its own before the one a data
      access has left pending. */
  lemma RaisedCode(m: Pipeline.Machine)
    ensures var r := Pipeline.At(m.recs, m.ex);
            var raised := ExecRaises(r.instr, Pipeline.Deref(m.recs, m.reg, r.aluSrcA), Pipeline.Deref(m.recs, m.reg, r.aluSrcB));
            Pipeline.ExecRec(m).excBuf == r.excBuf +
              if !raised then (if m.excPending then [AdEL] else [])
              else if r.instr >> 26 >= 0x30 then [CpU]
              else if r.instr >> 26 == 0 && r.instr & 0x3F == 0xC then [Sys] // SYSCALL
              else if r.instr >> 26 == 0 && r.instr & 0x3F == 0xD then [Bp] // BREAK
              else [Ov]
  {
    hide AddOverflows, SubOverflows;
    TopSix(Pipeline.At(m.recs, m.ex).instr);
  }
}
