/** The reference: one instruction at a time, with one delay slot. */
module Sequential {
  import opened Isa

  /** What stays fixed during a run: the program (the word at each fetch
      address), the byte order and the exception vector in force. */
  datatype Env = Env(prog: Word -> Word, bigEndian: bool, vector: Word)

  /** Architectural state between two instructions.  `inSlot`: the next
      instruction is the delay slot of a taken transfer. */
  datatype Arch = Arch(pc: Word, npc: Word, inSlot: bool, regs: seq<Word>, hi: Word, lo: Word,
                       mem: Memory, epc: Word)

  function Reg(regs: seq<Word>, r: nat): Word { if r < |regs| then regs[r] else 0 }

  function Instr(env: Env, s: Arch): Word { env.prog(s.pc) }

  function OperandA(env: Env, s: Arch): Word { Reg(s.regs, FirstSource(Instr(env, s))) }

  /** The second operand when it is not a register. */
  function InlineOperand(i: Word): Word {
    if Opcode(i) == OP_SPECIAL then ShamtValue(i) else ImmValue(i)
  }

  function OperandB(env: Env, s: Arch): Word {
    var i := Instr(env, s);
    if SecondSource(i) != NONE_REG then Reg(s.regs, SecondSource(i)) else InlineOperand(i)
  }

  predicate FetchFault(s: Arch) { s.pc & 3 != 0 }

  predicate FrontFault(env: Env, s: Arch) { FetchFault(s) || IsReserved(Instr(env, s)) }

  predicate ExecTraps(env: Env, s: Arch) {
    FrontFault(env, s) || ExecRaises(Instr(env, s), OperandA(env, s), OperandB(env, s))
  }

  /** The execute-stage value: the ALU result, the effective address or the link. */
  function Result(env: Env, s: Arch): Word {
    var i := Instr(env, s);
    ExecResult(i, OperandA(env, s), OperandB(env, s), LinkValue(i, s.pc), s.hi, s.lo)
  }

  predicate Traps(env: Env, s: Arch) {
    ExecTraps(env, s) || MemFault(Instr(env, s), Result(env, s))
  }

  /** The value written to the destination register. */
  function Value(env: Env, s: Arch): Word {
    var i := Instr(env, s);
    if IsLoad(i) then LoadValue(env.bigEndian, i, s.mem, Result(env, s), Reg(s.regs, Destination(i)))
    else Result(env, s)
  }

  function WriteReg(regs: seq<Word>, r: nat, v: Word): (after: seq<Word>)
    ensures |after| == |regs|
  {
    if r < |regs| then regs[r := v] else regs
  }

  function NextRegs(env: Env, s: Arch): (after: seq<Word>)
    ensures |after| == |s.regs|
  {
    WriteReg(s.regs, Destination(Instr(env, s)), Value(env, s))
  }

  function NextMem(env: Env, s: Arch): Memory {
    var i := Instr(env, s);
    if IsStore(i) then StoreEffect(env.bigEndian, i, s.mem, Result(env, s), Reg(s.regs, Rt(i))) else s.mem
  }

  function NextHi(env: Env, s: Arch): Word {
    var i := Instr(env, s);
    if WritesHi(i) then HiValue(i, OperandA(env, s), OperandB(env, s)) else s.hi
  }

  function NextLo(env: Env, s: Arch): Word {
    var i := Instr(env, s);
    if WritesLo(i) then LoValue(i, OperandA(env, s), OperandB(env, s)) else s.lo
  }

  predicate TakesBranch(env: Env, s: Arch) { Taken(Instr(env, s), OperandA(env, s), OperandB(env, s)) }

  function NextNpc(env: Env, s: Arch): Word {
    var i := Instr(env, s);
    if TakesBranch(env, s) then Following(RedirectPc(i, s.pc, OperandA(env, s), ImmValue(i))) else Following(s.npc)
  }

  /** Address of the instruction to restart: the branch, for a delay slot. */
  function Epc(s: Arch): Word { if s.inSlot then s.pc - 4 else s.pc }

  function TrapEntry(env: Env, s: Arch): Arch {
    s.(pc := env.vector, npc := Following(env.vector), inSlot := false, epc := Epc(s))
  }

  /** One instruction, or the entry to the exception handler. */
  function Step(env: Env, s: Arch): (after: Arch)
    ensures |after.regs| == |s.regs|
  {
    if Traps(env, s) then TrapEntry(env, s)
    else Arch(s.npc, NextNpc(env, s), TakesBranch(env, s), NextRegs(env, s), NextHi(env, s), NextLo(env, s),
              NextMem(env, s), s.epc)
  }

  // ---- what a trap does not undo ----

  /** The state in which the instruction right behind a trapping one is executed:
      it is not stopped before the trap is taken.  A sum that has overflowed is
      never stored in its record, so its successor reads what was there before. */
  function Behind(env: Env, s: Arch): Arch {
    var i := Instr(env, s);
    Arch(s.npc, Following(s.npc), false,
         if FrontFault(env, s) || IsLoad(i) then s.regs else WriteReg(s.regs, Destination(i), Result(env, s)),
         s.hi, s.lo, s.mem, s.epc)
  }

  /** A faulting load keeps an instruction that needs its value out of EX. */
  predicate HeldBack(env: Env, s: Arch) {
    var d := Destination(Instr(env, s));
    var i := Instr(env, Behind(env, s));
    !FrontFault(env, s) && IsLoad(Instr(env, s)) && d != NONE_REG && (FirstSource(i) == d || SecondSource(i) == d)
  }

  /** Does the instruction behind a trapping one get as far as EX and do something there? */
  predicate Overtakes(env: Env, s: Arch) { !HeldBack(env, s) && !FrontFault(env, Behind(env, s)) }

  /** HI and LO when the trap of s is taken: its successor may have written them. */
  function TrapHi(env: Env, s: Arch): Word { if Overtakes(env, s) then NextHi(env, Behind(env, s)) else s.hi }

  function TrapLo(env: Env, s: Arch): Word { if Overtakes(env, s) then NextLo(env, Behind(env, s)) else s.lo }

  /** The reference with what the code really does to HI and LO at a trap. */
  function NextArch(env: Env, s: Arch): (after: Arch)
    ensures |after.regs| == |s.regs|
  {
    if Traps(env, s) then TrapEntry(env, s).(hi := TrapHi(env, s), lo := TrapLo(env, s)) else Step(env, s)
  }
}
