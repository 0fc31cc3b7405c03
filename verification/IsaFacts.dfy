/** The instruction semantics of the simulator against the MIPS I manual: where
    they agree, and exactly where they do not. */
module IsaFacts {
  import opened Isa
  import opened Sequential

  // ---- control transfer ----

  /** The address at which fetching goes on after the delay slot. */
  function Target(i: Word, pc: Word, a: Word): Word { Following(RedirectPc(i, pc, a, ImmValue(i))) }

  /** J and JAL: the 26-bit word index within the 256 MB region of the delay slot. */
  function JoinRegion(region: Word, index: Word): Word { region | (index << 2) }

  function ManualJump(i: Word, pc: Word): Word { JoinRegion(Region(pc), JumpTarg(i)) }

  /** As coded: the 4 that the step adds back is subtracted from the index alone. */
  function CodedJoin(region: Word, index: Word): Word { Following(JoinLess4(region, index)) }

  /** Branches: relative to the delay slot. */
  function ManualBranch(i: Word, pc: Word): Word { FromSlot(pc, SignedImmed(i)) }

  function PastSlot(pc: Word, d: Word): Word { FromSlot(pc, d) + 4 }

  lemma JumpBits(region: Word, index: Word)
    requires region & 0x0FFFFFFF == 0 && index & 0x03FFFFFF == index
    ensures CodedJoin(region, index) == JoinRegion(region, index) <==> index != 0 || region == 0
  {
  }

  lemma RegionBits(pc: Word)
    ensures Region(pc) & 0x0FFFFFFF == 0
  {
  }

  lemma IndexBits(i: Word)
    ensures JumpTarg(i) & 0x03FFFFFF == JumpTarg(i)
  {
  }

  lemma JumpRedirect(i: Word, pc: Word, a: Word)
    requires Opcode(i) == OP_J || Opcode(i) == OP_JAL
    ensures Target(i, pc, a) == CodedJoin(Region(pc), JumpTarg(i))
  {
    hide ImmValue, Opcode, Following, JumpTarg, JoinLess4, Region, FromSlot, FromBranch, Preceding, RtField, Funct;
  }

  /** J and JAL reach the manual's target unless the index is 0, where the
      subtraction borrows from the region bits: then only region 0 is right. */
  lemma JumpTargetIff(i: Word, pc: Word, a: Word)
    requires Opcode(i) == OP_J || Opcode(i) == OP_JAL
    ensures Target(i, pc, a) == ManualJump(i, pc) <==> JumpTarg(i) != 0 || Region(pc) == 0
  {
    hide Opcode, Target, Region, JumpTarg, JoinRegion, CodedJoin;
    JumpRedirect(i, pc, a);
    RegionBits(pc);
    IndexBits(i);
    JumpBits(Region(pc), JumpTarg(i));
  }

  /** A register jump goes where the register points. */
  lemma RegisterJump(i: Word, pc: Word, a: Word)
    requires Opcode(i) == OP_SPECIAL && Funct(i) == FUNCT_JR
    ensures Target(i, pc, a) == a
  {
    hide ImmValue, Opcode, RtField, Funct, Following, FromSlot, FromBranch, JoinLess4, Region, Preceding, JumpTarg;
    StepUndone(a);
  }

  lemma StepUndone(a: Word)
    ensures Following(Preceding(a)) == a
  {
  }

  predicate IsBranch(i: Word) {
    4 <= Opcode(i) <= 7
    || (Opcode(i) == OP_BCOND && (RtField(i) == BCOND_BLTZ || RtField(i) == BCOND_BGEZ
                                  || RtField(i) == BCOND_BLTZAL || RtField(i) == BCOND_BGEZAL))
  }

  predicate IsBltzal(i: Word) { Opcode(i) == OP_BCOND && RtField(i) == BCOND_BLTZAL }

  lemma BranchRedirect(i: Word, pc: Word, a: Word)
    requires IsBranch(i)
    ensures RedirectPc(i, pc, a, ImmValue(i)) ==
              if IsBltzal(i) then FromSlot(pc, SignedImmed(i)) else FromBranch(pc, SignedImmed(i))
  {
    hide ImmValue, Opcode, RtField, SignedImmed, FromSlot, FromBranch, JoinLess4, Region, Preceding, JumpTarg, Funct;
    BranchImmediate(i);
  }

  lemma NearOffset(pc: Word, d: Word)
    ensures Following(FromBranch(pc, d)) == FromSlot(pc, d)
  {
  }

  lemma FarOffset(pc: Word, d: Word)
    ensures Following(FromSlot(pc, d)) == PastSlot(pc, d)
    ensures PastSlot(pc, d) != FromSlot(pc, d)
  {
  }

  /** Every branch reaches the manual's target except BLTZAL, which lands one
      instruction further. */
  lemma BranchTargetIff(i: Word, pc: Word, a: Word)
    requires IsBranch(i)
    ensures Target(i, pc, a) == ManualBranch(i, pc) <==> !IsBltzal(i)
    ensures IsBltzal(i) ==> Target(i, pc, a) == PastSlot(pc, SignedImmed(i))
  {
    hide ImmValue, SignedImmed, RedirectPc, IsBltzal, IsBranch, Following, FromBranch, FromSlot, PastSlot;
    BranchRedirect(i, pc, a);
    NearOffset(pc, SignedImmed(i));
    FarOffset(pc, SignedImmed(i));
  }

  lemma BranchImmediate(i: Word)
    requires IsBranch(i)
    ensures ImmValue(i) == SignedImmed(i)
  {
  }

  lemma JalrIndex(i: Word)
    requires Funct(i) == FUNCT_JALR
    ensures JumpTarg(i) != 0
  {
  }

  lemma JalrRedirect(i: Word, pc: Word, a: Word)
    requires Opcode(i) == OP_SPECIAL && Funct(i) == FUNCT_JALR
    ensures Target(i, pc, a) == CodedJoin(Region(pc), JumpTarg(i))
  {
    hide ImmValue, Opcode, Following, JumpTarg, Funct, JoinLess4, Region, FromSlot, FromBranch, Preceding, RtField;
  }

  /** JALR is dispatched to the jump-and-link routine: it jumps by its own index
      bits, so it goes where its register points if and only if those bits say
      the same. */
  lemma JalrTarget(i: Word, pc: Word, a: Word)
    requires Opcode(i) == OP_SPECIAL && Funct(i) == FUNCT_JALR
    ensures Target(i, pc, a) == ManualJump(i, pc)
    ensures Target(i, pc, a) == a <==> a == ManualJump(i, pc)
  {
    hide Opcode, Target, Region, JumpTarg, Funct, JoinRegion, CodedJoin;
    JalrRedirect(i, pc, a);
    JalrIndex(i);
    RegionBits(pc);
    IndexBits(i);
    JumpBits(Region(pc), JumpTarg(i));
  }

  /** The link of JALR always goes to register 31, the manual's default for rd. */
  lemma JalrLinkIff(i: Word)
    requires Opcode(i) == OP_SPECIAL && Funct(i) == FUNCT_JALR
    ensures Destination(i) == Rd(i) <==> Rd(i) == RA_REG
  {
    hide Rd, Rt, Rs;
  }

  /** MTHI and MTLO read the register named by the rd field, which the manual
      requires to be 0; rs would be right. */
  lemma MoveToHiLoSource(i: Word)
    requires Opcode(i) == OP_SPECIAL && (Funct(i) == 17 || Funct(i) == 19)
    ensures FirstSource(i) == Rs(i) <==> Rd(i) == Rs(i)
  {
    hide Rs, Rd, Rt;
  }

  lemma MoveToHiLoReads(i: Word)
    requires Opcode(i) == OP_SPECIAL && (Funct(i) == 17 || Funct(i) == 19)
    ensures FirstSource(i) == Rd(i) && IsMulDiv(i)
  {
    hide Rs, Rd, Rt;
  }

  /** HI or LO gets the manual's value if and only if the two registers agree;
      with rd 0, if and only if the register to be moved holds 0. */
  lemma MoveToHiLoIff(env: Env, s: Arch)
    requires Opcode(Instr(env, s)) == OP_SPECIAL && |s.regs| == 32 && s.regs[0] == 0
    ensures var i := Instr(env, s);
            && (Funct(i) == 17 ==> (NextHi(env, s) == Reg(s.regs, Rs(i)) <==> Reg(s.regs, Rd(i)) == Reg(s.regs, Rs(i))))
            && (Funct(i) == 19 ==> (NextLo(env, s) == Reg(s.regs, Rs(i)) <==> Reg(s.regs, Rd(i)) == Reg(s.regs, Rs(i))))
            && (Rd(i) == 0 && Funct(i) == 17 ==> NextHi(env, s) == 0)
            && (Rd(i) == 0 && Funct(i) == 19 ==> NextLo(env, s) == 0)
  {
    hide Opcode, Funct, Rs, Rd, FirstSource, SecondSource, IsMulDiv, Instr;
    var i := Instr(env, s);
    if Funct(i) == 17 || Funct(i) == 19 { MoveToHiLoReads(i); }
  }
}
