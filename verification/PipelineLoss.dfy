/** HI and LO at an exception: when they are kept, and a program that loses them. */
module PipelineLoss {
  import opened Isa
  import opened Sequential
  import opened Pipeline
  import opened PipelineInvariant
  import opened PipelineChecks
  import opened PipelineSettle
  import opened PipelineRefinement
  import opened PipelineTraps
  import opened PipelineShadow
  import opened PipelineRuns
  import opened PipelineProgress

  /** At a trap, HI and LO are kept if and only if the instruction behind the
      trapping one is kept out of EX, or does not write them, or writes the
      values they had.  Everything in the condition is architectural. */
  lemma KeptIff(env: Env, m: Machine, s: Arch, t: Tags, miss: bool)
    requires Inv(env, m, s, t) && Shadow(env, m, s, t) && TrapFires(Check(env, m, miss))
    ensures var v := ExcHandle(env, Check(env, m, miss));
            var b := Behind(env, s);
            && (ArchHi(v) == s.hi <==>
                  (Overtakes(env, s) && WritesHi(Instr(env, b)) ==>
                     HiValue(Instr(env, b), OperandA(env, b), OperandB(env, b)) == s.hi))
            && (ArchLo(v) == s.lo <==>
                  (Overtakes(env, s) && WritesLo(Instr(env, b)) ==>
                     LoValue(Instr(env, b), OperandA(env, b), OperandB(env, b)) == s.lo))
  {
    hide Inv, Ready, Check, TrapFires, Traps, At, WritesHi, WritesLo, HiValue, LoValue, ArchHi, ArchLo, ExcHandle, HiLoIdle, Placed,
         InId, InEx, CleanE, CleanD, S1, S2, OperandA, OperandB, Instr, Overtakes;
    var c := Check(env, m, miss);
    CheckKeepsW(m, t, miss);
    CheckStep(env, m, s, t, miss);
    TrapCause(env, c, s, AfterFetch(m, t, miss));
    CheckHiLo(env, m, miss);
    TrapFields(env, c, s, AfterFetch(m, t, miss));
  }

  // ---- the moment of the first step of a run ----

  predicate Emptied(t: Tags) { !t.w && !t.m && !t.e && !t.d }

  lemma TrapEmpties(env: Env, m: Machine, x: Sim, stall: Stall)
    requires Inv(env, m, x.s, x.t) && Steps(env, m, x, stall) && Traps(env, x.s)
    ensures Emptied(NextSim(env, m, x, stall).t)
  {
    hide Inv, Ready, Check, Stalls, DataHazard, PreDecode, TrapFires, ArchHi, ArchLo, AfterFetch, Traps;
    var c := Check(env, m, stall.fetchMiss);
    CheckKeepsW(m, x.t, stall.fetchMiss);
    CheckStep(env, m, x.s, x.t, stall.fetchMiss);
    TrapCause(env, c, x.s, AfterFetch(m, x.t, stall.fetchMiss));
  }

  /** If the first instruction of a run traps, then at some cycle of the run the
      pipeline is empty and stands where the reference does after the trap. */
  lemma {:induction false} FirstTrap(env: Env, m: Machine, x: Sim, stalls: seq<Stall>) returns (k: nat)
    requires Inv(env, m, x.s, x.t) && Shadow(env, m, x.s, x.t) && Traps(env, x.s) && |Path(env, m, x, stalls)| >= 2
    ensures k <= |stalls|
    ensures var y := EndSim(env, m, x, stalls[..k]); y.s == NextArch(env, x.s) && Emptied(y.t)
    decreases |stalls|
  {
    hide Inv, Shadow, Steps, NextSim, Cycle, NextArch, Traps;
    var next, m' := NextSim(env, m, x, stalls[0]), Cycle(env, m, stalls[0]);
    CycleStep(env, m, x, stalls[0]);
    ShadowStep(env, m, x, stalls[0]);
    CycleArch(env, m, x, stalls[0]);
    if Steps(env, m, x, stalls[0]) {
      k := 1;
      TrapEmpties(env, m, x, stalls[0]);
      assert stalls[..1][1..] == [];
    } else {
      var j := FirstTrap(env, m', next, stalls[1..]);
      k := j + 1;
      assert stalls[..k][1..] == stalls[1..][..j];
    }
  }

  lemma EmptyHiLo(env: Env, m: Machine, s: Arch, t: Tags)
    requires Inv(env, m, s, t) && Emptied(t)
    ensures ArchHi(m) == s.hi && ArchLo(m) == s.lo && m.epc == s.epc && m.reg == s.regs
  {
    hide Shape, Wiring, LateOk, HiLoIdle, ArchHi, ArchLo, WbOk, ExOk, FetchOk, MemOk, IdOk, Untouched, At, Traps, Step;
  }

  // ---- BREAK, then MULT ----

  const BREAK: Word := 0x0000_000D

  /** MULT of registers 1 and 2. */
  const MULT: Word := 0x0022_0018

  lemma BreakMult(env: Env, s: Arch)
    requires env.prog(s.pc) == BREAK && env.prog(s.npc) == MULT && s.pc & 3 == 0 && s.npc & 3 == 0 && |s.regs| == 32
    ensures Traps(env, s)
    ensures TrapHi(env, s) == HiValue(MULT, s.regs[1], s.regs[2])
    ensures TrapLo(env, s) == LoValue(MULT, s.regs[1], s.regs[2])
  {
    hide HiValue, LoValue;
  }

  lemma ResetAligned(reg: seq<Word>, hi: Word, lo: Word, mem: Memory, epc: Word)
    ensures var s := ResetState(reg, hi, lo, mem, epc);
            s.pc & 3 == 0 && s.npc & 3 == 0 && s.pc == RESET_VECTOR && s.npc == Following(RESET_VECTOR) && s.regs == reg
  {
  }

  /** BREAK followed by MULT at the reset vector: whatever HI and LO held, the
      handler of the break finds the product there. */
  lemma ProductAtHandler(env: Env, reg: seq<Word>, hi: Word, lo: Word, mem: Memory, epc: Word, stalls: seq<Stall>) returns (k: nat)
    requires |reg| == 32 && reg[0] == 0 && NoMisses(stalls) && |stalls| >= 140
    requires env.prog(RESET_VECTOR) == BREAK && env.prog(Following(RESET_VECTOR)) == MULT
    ensures k <= |stalls|
    ensures var v := Run(env, PowerOn(reg, hi, lo, mem, epc), stalls[..k]);
            && v.epc == RESET_VECTOR && v.reg == reg
            && ArchHi(v) == HiValue(MULT, reg[1], reg[2]) && ArchLo(v) == LoValue(MULT, reg[1], reg[2])
  {
    hide Inv, Shadow, PowerOn, ResetState, Run, Path, EndSim, IsPath, HiValue, LoValue, Traps, TrapHi, TrapLo;
    var m := PowerOn(reg, hi, lo, mem, epc);
    var s := ResetState(reg, hi, lo, mem, epc);
    var x := Sim(s, NO_TAGS);
    ResetInv(env, reg, hi, lo, mem, epc);
    ResetShadow(env, m, s);
    ResetAligned(reg, hi, lo, mem, epc);
    BreakMult(env, s);
    AfterReset(env, reg, hi, lo, mem, epc, stalls);
    k := FirstTrap(env, m, x, stalls);
    RunPath(env, m, x, stalls[..k]);
    var y := EndSim(env, m, x, stalls[..k]);
    EmptyHiLo(env, Run(env, m, stalls[..k]), y.s, y.t);
    ResetSlot(reg, hi, lo, mem, epc);
  }

  lemma ResetSlot(reg: seq<Word>, hi: Word, lo: Word, mem: Memory, epc: Word)
    ensures !ResetState(reg, hi, lo, mem, epc).inSlot
  {
  }

  lemma AfterReset(env: Env, reg: seq<Word>, hi: Word, lo: Word, mem: Memory, epc: Word, stalls: seq<Stall>)
    requires |reg| == 32 && reg[0] == 0 && NoMisses(stalls) && |stalls| >= 140
    ensures |Path(env, PowerOn(reg, hi, lo, mem, epc), Sim(ResetState(reg, hi, lo, mem, epc), NO_TAGS), stalls)| >= 2
  {
    hide Inv, Shadow, PowerOn, ResetState, Path, NoMisses;
    Progress(env, reg, hi, lo, mem, epc, [], stalls);
  }

  const LOSING := Env((a: Word) => if a == RESET_VECTOR then BREAK else MULT, false, 0xBFC0_0380)

  /** A run in which both are lost. */
  lemma HiLoLost(mem: Memory) returns (stalls: seq<Stall>)
    ensures var reg := seq(32, i => if i == 1 || i == 2 then 0x1_0000 else 0);
            var v := Run(LOSING, PowerOn(reg, 5, 7, mem, 0), stalls);
            v.epc == RESET_VECTOR && ArchHi(v) == 1 && ArchLo(v) == 0
  {
    hide PowerOn, Run, HiValue, LoValue, ArchHi, ArchLo;
    var reg: seq<Word> := seq(32, i => if i == 1 || i == 2 then 0x1_0000 else 0);
    var all := seq(140, i => NO_MISS);
    var k := ProductAtHandler(LOSING, reg, 5, 7, mem, 0, all);
    stalls := all[..k];
    SquareOf65536();
  }

  lemma SquareOf65536()
    ensures HiValue(MULT, 0x1_0000, 0x1_0000) == 1 && LoValue(MULT, 0x1_0000, 0x1_0000) == 0
  {
    hide TruncDiv, TruncMod, ToWord, SignedValue;
    MultFunct();
    Positive();
    Words();
  }

  lemma MultFunct()
    ensures Funct(MULT) == 24
  {
  }

  lemma Positive()
    ensures SignedValue(0x1_0000) == 0x1_0000
  {
  }

  lemma Words()
    ensures ToWord(1) == 1 && ToWord(0x1_0000_0000) == 0
  {
    assert 1 % 0x1_0000_0000 == 1 && 0x1_0000_0000 % 0x1_0000_0000 == 0;
    assert (1 as int) as Word == 1 && (0 as int) as Word == 0;
  }
}
