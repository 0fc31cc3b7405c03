/** The stages proper: from a Ready state with nothing to trap in WB, one move
    of the pipeline retires the instruction in WB and restores the invariant. */
module PipelineMove {
  import opened Isa
  import opened Sequential
  import opened Pipeline
  import opened PipelineInvariant
  import opened PipelineChecks

  // ---- what a record contributes to the register file ----

  predicate Elsewhere(p: PipelineRegs, before: seq<Word>, after: seq<Word>) {
    |after| == |before| && forall k :: 0 <= k < |before| && k != p.dst ==> after[k] == before[k]
  }

  predicate Newest(p: PipelineRegs, after: seq<Word>) {
    p.dst != NONE_REG ==> p.dst < |after| && after[p.dst] == Produced(p)
  }

  lemma StepRegs(env: Env, s: Arch, live: bool, p: PipelineRegs)
    requires |s.regs| == 32 && Clean(env, live, s)
    requires p.dst == if live then Destination(Instr(env, s)) else NONE_REG
    ensures Elsewhere(p, s.regs, After(env, live, s).regs)
    ensures (live && p.dst != NONE_REG ==> Produced(p) == Value(env, s)) ==> Newest(p, After(env, live, s).regs)
    ensures s.regs[0] == 0 ==> After(env, live, s).regs[0] == 0
  {
    hide Traps, Value, Produced, NextMem, NextHi, NextLo, NextNpc, TakesBranch, DestinationField;
  }

  lemma TrapRegs(env: Env, s: Arch)
    requires Traps(env, s)
    ensures After(env, true, s).mem == s.mem && After(env, true, s).hi == s.hi && After(env, true, s).lo == s.lo
  {
    hide Traps, Epc;
  }

  /** A record's write port delivers what the record has produced. */
  lemma PortDelivers(recs: Store, reg: seq<Word>, id: nat, p: PipelineRegs)
    requires Own(id, p) && p.dst != NONE_REG
    ensures Deref(recs, reg, p.wRegData) ==
              if p.memReadOp then At(recs, id).rMemData else At(recs, id).result
  {
    hide At;
  }

  lemma LateOperand(recs: Store, reg: seq<Word>, r: nat, id: nat)
    requires Own(id, At(recs, id)) && Newest(At(recs, id), reg) && |reg| == 32 && r <= NONE_REG
    ensures Deref(recs, reg, BindLate(r, At(recs, id))) == Reg(reg, r)
  {
    hide At, Produced, Own;
    if At(recs, id).dst != NONE_REG { PortDelivers(recs, reg, id, At(recs, id)); }
    else { NoPort(id, At(recs, id)); }
    ProducedIs(At(recs, id));
  }

  lemma NoPort(id: nat, p: PipelineRegs)
    requires Own(id, p) && p.dst == NONE_REG
    ensures p.wRegData == Null
  {
  }

  lemma ProducedIs(p: PipelineRegs)
    ensures Produced(p) == if p.memReadOp then p.rMemData else p.result
  {
  }

  // ---- write back ----

  lemma CommitPort(m: Machine)
    requires Own(m.wb, At(m.recs, m.wb)) && |m.reg| == 32
    ensures var w := At(m.recs, m.wb);
            Elsewhere(w, m.reg, CommittedRegs(m)) && Newest(w, CommittedRegs(m))
  {
    hide At;
  }

  lemma SameRegs(p: PipelineRegs, before: seq<Word>, x: seq<Word>, y: seq<Word>)
    requires |before| == 32 && Elsewhere(p, before, x) && Newest(p, x) && Elsewhere(p, before, y) && Newest(p, y)
    ensures x == y
  {
    hide Produced;
    assert forall k :: 0 <= k < |x| ==> x[k] == y[k];
  }

  lemma WbRecord(env: Env, w: PipelineRegs, s: Arch, live: bool)
    requires WbOk(env, w, s, live) && Clean(env, live, s)
    ensures w.dst == if live then Destination(Instr(env, s)) else NONE_REG
    ensures live && w.dst != NONE_REG ==> Produced(w) == Value(env, s)
  {
    hide Traps, Value, Produced, Destination, Instr;
  }

  /** Register write-back performs exactly the retiring instruction's write. */
  lemma CommitStep(env: Env, m: Machine, s: Arch, t: Tags)
    requires Ready(env, m, s, t) && CleanM(env, s, t)
    ensures var w := At(m.recs, m.wb);
            var u := S1(env, s, t).regs;
            && CommittedRegs(m) == u && |u| == 32 && u[0] == 0
            && Elsewhere(w, s.regs, u) && Newest(w, u)
  {
    hide Ready, At, CommittedRegs, Traps, Value, Own, Elsewhere, Newest, WbOk, Destination, Step, Produced;
    var w := At(m.recs, m.wb);
    ReadyWb(env, m, s, t);
    WbRecord(env, w, s, t.w);
    StepRegs(env, s, t.w, w);
    CommitPort(m);
    SameRegs(w, m.reg, CommittedRegs(m), S1(env, s, t).regs);
  }

  lemma ReadyWb(env: Env, m: Machine, s: Arch, t: Tags)
    requires Ready(env, m, s, t)
    ensures WbOk(env, At(m.recs, m.wb), s, t.w) && Own(m.wb, At(m.recs, m.wb))
    ensures m.reg == s.regs && |s.regs| == 32 && s.regs[0] == 0 && m.mem == S1(env, s, t).mem && m.epc == s.epc
    ensures !m.excPending && Shape(m) && LateOk(m) && HiLoIdle(m)
  {
    hide Separate, Allocated, LateOk, WbOk, ExOk, FetchOk, S1, S2, S3, CleanM, CleanE, CleanD, MemReady, IdReady, Own,
         Untouched, PointsInto, At, HiLoIdle, ArchHi, ArchLo;
  }

  // ---- memory ----

  /** A live record in MEM loads and stores what its instruction does. */
  lemma MemStage(env: Env, m: Machine, s: Arch)
    requires MemCore(env, At(m.recs, m.mm), At(m.recs, m.wb), s) && !Traps(env, s)
    requires m.reg == s.regs && m.mem == s.mem && |m.reg| == 32
    requires Own(m.wb, At(m.recs, m.wb)) && Newest(At(m.recs, m.wb), m.reg)
    ensures var r := MemRec(env, m);
            && (r.dst != NONE_REG ==> Produced(r) == Value(env, s))
    ensures IsStore(Instr(env, s)) ==>
              StoreEffect(env.bigEndian, Instr(env, s), m.mem, Result(env, s), Deref(m.recs, m.reg, At(m.recs, m.mm).wMemData))
                == NextMem(env, s)
  {
    hide At, LoadValue, StoreEffect, Traps, Result, Deref, Own, Newest, Destination, Instr, IsLoad, IsStore, IsPartialLoad, BindLate;
    var r := At(m.recs, m.mm);
    PartialOrPlain(env.bigEndian, r.instr, m.mem, r.result, Deref(m.recs, m.reg, r.lwrlPrev), Reg(s.regs, r.dst));
    LateOperand(m.recs, m.reg, Rt(r.instr), m.wb);
    LateOperand(m.recs, m.reg, r.dst, m.wb);
  }

  /** Only LWL and LWR look at the old register value. */
  lemma PartialOrPlain(bigEndian: bool, i: Word, mem: Memory, addr: Word, x: Word, y: Word)
    ensures !IsPartialLoad(i) ==> LoadValue(bigEndian, i, mem, addr, x) == LoadValue(bigEndian, i, mem, addr, y)
  {
    hide ByteAt, WordAt, LoadLeft, LoadRight, HalfLane;
  }

  /** What MemStep promises. */
  predicate MemDone(env: Env, m: Machine, s: Arch, live: bool) {
    var r := MemRec(env, m);
    var u := After(env, live, s);
    && WbOk(env, r, s, live)
    && MemAccess(env, m).mem == u.mem
    && (Clean(env, live, s) ==>
          !MemAccess(env, m).excPending && Elsewhere(r, s.regs, u.regs) && Newest(r, u.regs))
  }

  lemma MemBubble(env: Env, m: Machine, s: Arch)
    requires Quiet(At(m.recs, m.mm)) && At(m.recs, m.mm).excBuf == [] && !m.excPending
    requires m.reg == s.regs && m.mem == s.mem && |m.reg| == 32
    ensures MemDone(env, m, s, false)
  {
    hide At, MemData, IsLoad, IsStore, StoreEffect, Deref, MemFault, Traps, Produced;
    NopFacts();
  }

  lemma MemTrap(env: Env, m: Machine, s: Arch)
    requires Placed(At(m.recs, m.mm), s) && At(m.recs, m.mm).excBuf != [] && Traps(env, s)
    requires m.mem == s.mem
    ensures MemDone(env, m, s, true)
  {
    hide At, MemData, IsLoad, IsStore, StoreEffect, Deref, MemFault, Traps, Produced, Step;
    TrapRegs(env, s);
  }

  lemma PlacedAside(r: PipelineRegs, v: Word, s: Arch)
    ensures Placed(r.(rMemData := v), s) == Placed(r, s)
  {
  }

  lemma MemLiveStore(env: Env, m: Machine, s: Arch)
    requires Placed(At(m.recs, m.mm), s) && At(m.recs, m.mm).excBuf == [] && !Traps(env, s) && !m.excPending
    requires MemCore(env, At(m.recs, m.mm), At(m.recs, m.wb), s)
    requires m.reg == s.regs && m.mem == s.mem && |m.reg| == 32
    requires Own(m.wb, At(m.recs, m.wb)) && Newest(At(m.recs, m.wb), m.reg)
    ensures MemAccess(env, m).mem == After(env, true, s).mem && !MemAccess(env, m).excPending
  {
    hide At, MemData, IsLoad, IsStore, StoreEffect, Deref, MemFault, Traps, Produced, Step, Own, Newest,
         NextMem, Result, Value, Destination, BoundLate, Instr, Placed;
    TrapKinds(env, s);
    MemStage(env, m, s);
    NoStoreNoChange(env, s);
  }

  lemma MemLive(env: Env, m: Machine, s: Arch)
    requires Placed(At(m.recs, m.mm), s) && At(m.recs, m.mm).excBuf == [] && !Traps(env, s) && !m.excPending
    requires MemCore(env, At(m.recs, m.mm), At(m.recs, m.wb), s)
    requires m.reg == s.regs && m.mem == s.mem && |m.reg| == 32
    requires Own(m.wb, At(m.recs, m.wb)) && Newest(At(m.recs, m.wb), m.reg)
    ensures MemDone(env, m, s, true)
  {
    hide At, MemData, MemAccess, IsLoad, IsStore, StoreEffect, Deref, MemFault, Traps, Produced, Step, Own, Newest,
         Elsewhere, NextMem, Result, Value, Destination, BoundLate, Instr, Placed;
    PlacedAside(At(m.recs, m.mm), MemData(env, m), s);
    MemStage(env, m, s);
    MemLiveStore(env, m, s);
    StepRegs(env, s, true, MemRec(env, m));
  }

  /** The record in MEM after its access is fit for WB, memory is that of the
      next sequential state, and its value is the newest of its register. */
  lemma MemStep(env: Env, m: Machine, s: Arch, live: bool)
    requires MemReady(env, At(m.recs, m.mm), At(m.recs, m.wb), s, live) && !m.excPending
    requires m.reg == s.regs && m.mem == s.mem && |m.reg| == 32
    requires Own(m.wb, At(m.recs, m.wb)) && Newest(At(m.recs, m.wb), m.reg)
    ensures MemDone(env, m, s, live)
  {
    hide At, Own, Newest, MemDone, MemCore, Traps, ExecTraps, FrontFault, Quiet, Placed;
    TrapKinds(env, s);
    if !live {
      MemBubble(env, m, s);
    } else if Traps(env, s) {
      MemTrap(env, m, s);
    } else {
      MemLive(env, m, s);
    }
  }

  lemma TrapKinds(env: Env, s: Arch)
    ensures !Traps(env, s) ==> !ExecTraps(env, s) && !MemFault(Instr(env, s), Result(env, s))
    ensures FrontFault(env, s) ==> ExecTraps(env, s)
    ensures ExecTraps(env, s) ==> Traps(env, s)
  {
    hide FetchFault, IsReserved, ExecRaises, MemFault, Result, OperandA, OperandB;
  }

  lemma NoStoreNoChange(env: Env, s: Arch)
    ensures !IsStore(Instr(env, s)) ==> NextMem(env, s) == s.mem
    ensures !Traps(env, s) ==> After(env, true, s).mem == NextMem(env, s)
  {
    hide StoreEffect, Traps, IsStore, NextRegs, NextHi, NextLo, NextNpc, TakesBranch;
  }

  // ---- operands ----

  /** A pointer bound by the forwarding network reads the value that the newest
      older writer gave to the register: F, G and H are the register files
      after the records X, Y and Z, youngest first. */
  lemma Forwarding(recs: Store, reg: seq<Word>, r: nat, xid: nat, yid: nat, zid: nat,
                   F: seq<Word>, G: seq<Word>, H: seq<Word>)
    requires |F| == |G| == |H| == |reg| == 32 && r < 32
    requires Own(xid, At(recs, xid)) && Own(yid, At(recs, yid)) && Own(zid, At(recs, zid))
    requires r == At(recs, xid).dst ==> Newest(At(recs, xid), F)
    requires Elsewhere(At(recs, xid), G, F)
    requires Newest(At(recs, yid), G) && Elsewhere(At(recs, yid), H, G)
    requires Newest(At(recs, zid), H)
    requires r != At(recs, xid).dst && r != At(recs, yid).dst && r != At(recs, zid).dst ==> reg[r] == H[r]
    ensures Deref(recs, reg, Bind(r, At(recs, xid), At(recs, yid), At(recs, zid))) == F[r]
  {
    hide At, Own, Produced;
    var x, y, z := At(recs, xid), At(recs, yid), At(recs, zid);
    ProducedIs(x);
    ProducedIs(y);
    ProducedIs(z);
    if r == x.dst {
      PortDelivers(recs, reg, xid, x);
    } else if r == y.dst {
      PortDelivers(recs, reg, yid, y);
    } else if r == z.dst {
      PortDelivers(recs, reg, zid, z);
    }
  }

  lemma InlineKinds(i: Word)
    ensures FirstSource(i) == NONE_REG ==> ShamtValue(i) == 0
    ensures SecondSource(i) == NONE_REG ==>
              InlineOperand(i) == if UsesImm(i) || UsesSignedImm(i) then ImmValue(i) else ShamtValue(i)
    ensures FirstSource(i) <= NONE_REG && SecondSource(i) <= NONE_REG
  {
  }

  /** The operands that a bound record reads are those of its instruction. */
  lemma Operands(env: Env, recs: Store, reg: seq<Word>, id: nat, xid: nat, yid: nat, zid: nat, s: Arch,
                 G: seq<Word>, H: seq<Word>)
    requires Bound(env, At(recs, id), id, At(recs, xid), At(recs, yid), At(recs, zid), s)
    requires |s.regs| == |G| == |H| == |reg| == 32
    requires Own(xid, At(recs, xid)) && Own(yid, At(recs, yid)) && Own(zid, At(recs, zid))
    requires At(recs, xid).dst == NONE_REG || Newest(At(recs, xid), s.regs)
             || (At(recs, xid).dst != At(recs, id).srcA && At(recs, xid).dst != At(recs, id).srcB)
    requires Elsewhere(At(recs, xid), G, s.regs)
    requires Newest(At(recs, yid), G) && Elsewhere(At(recs, yid), H, G)
    requires Newest(At(recs, zid), H)
    requires forall r :: 0 <= r < 32 && r != At(recs, xid).dst && r != At(recs, yid).dst && r != At(recs, zid).dst ==> reg[r] == H[r]
    ensures Deref(recs, reg, At(recs, id).aluSrcA) == OperandA(env, s)
    ensures Deref(recs, reg, At(recs, id).aluSrcB) == OperandB(env, s)
  {
    hide At, Own, Newest, Elsewhere, Bind, Instr, FirstSource, SecondSource, ShamtValue, ImmValue, UsesImm, UsesSignedImm,
         IsLoad, InlineOperand, Destination, BoundLate;
    var i := Instr(env, s);
    InlineKinds(i);
    if FirstSource(i) != NONE_REG { Forwarding(recs, reg, FirstSource(i), xid, yid, zid, s.regs, G, H); }
    if SecondSource(i) != NONE_REG { Forwarding(recs, reg, SecondSource(i), xid, yid, zid, s.regs, G, H); }
  }

  // ---- execute ----

  lemma HiLoUse(i: Word, a: Word, b: Word, link: Word, hi: Word, lo: Word, hi': Word, lo': Word)
    requires IsMulDiv(i) ==> hi == hi' && lo == lo'
    ensures ExecResult(i, a, b, link, hi, lo) == ExecResult(i, a, b, link, hi', lo')
  {
    hide ExecRaises, ShiftLeft, ShiftRightLogical, ShiftRightArithmetic, SignedLess;
  }

  /** A trapping instruction starts no HI/LO operation. */
  lemma HiLoNoTrap(env: Env, s: Arch)
    ensures !FrontFault(env, s) && Traps(env, s) ==> !WritesHi(Instr(env, s)) && !WritesLo(Instr(env, s))
  {
    hide FetchFault, IsReserved, Result, AddOverflows, SubOverflows, OperandA, OperandB, Instr;
  }

  lemma StepHiLo(env: Env, s: Arch)
    ensures var i := Instr(env, s);
            var u := After(env, true, s);
            && (!FrontFault(env, s) ==>
                  && u.hi == (if WritesHi(i) then HiValue(i, OperandA(env, s), OperandB(env, s)) else s.hi)
                  && u.lo == (if WritesLo(i) then LoValue(i, OperandA(env, s), OperandB(env, s)) else s.lo))
            && (FrontFault(env, s) ==> u.hi == s.hi && u.lo == s.lo)
  {
    hide Traps, FrontFault, HiValue, LoValue, OperandA, OperandB, WritesHi, WritesLo, NextRegs, NextMem, NextNpc,
         TakesBranch, Instr, Epc;
    HiLoNoTrap(env, s);
    TrapKinds(env, s);
  }

  /** What the execute stage achieves. */
  predicate ExecDone(env: Env, m: Machine, s: Arch, live: bool) {
    var e := ExecRec(m);
    var u := After(env, live, s);
    && MemOk(env, e, At(m.recs, m.mm), s, live)
    && ArchHi(Execute(m)) == u.hi && ArchLo(Execute(m)) == u.lo
    && (Clean(env, live, s) ==> Elsewhere(e, s.regs, u.regs) && (!e.memReadOp ==> Newest(e, u.regs)))
  }

  lemma ExecQuiet(m: Machine)
    requires Quiet(At(m.recs, m.ex)) && !m.excPending
    ensures ExecRec(m).excBuf == At(m.recs, m.ex).excBuf
    ensures ArchHi(Execute(m)) == ArchHi(m)
    ensures ArchLo(Execute(m)) == ArchLo(m)
  {
    hide At, ExecRaises, IsMulDiv, Deref, HiValue, LoValue, ExecResult;
    NopFacts();
  }

  lemma ExecBubble(env: Env, m: Machine, s: Arch)
    requires Quiet(At(m.recs, m.ex)) && At(m.recs, m.ex).excBuf == [] && !m.excPending
    requires ArchHi(m) == s.hi && ArchLo(m) == s.lo && |s.regs| == 32
    ensures ExecDone(env, m, s, false)
  {
    hide At, Execute, ArchHi, ArchLo, ExecRaises, ExecResult, Deref, Produced;
    ExecQuiet(m);
  }

  lemma ExecFault(env: Env, m: Machine, s: Arch)
    requires Placed(At(m.recs, m.ex), s) && Quiet(At(m.recs, m.ex)) && At(m.recs, m.ex).excBuf != [] && !m.excPending
    requires ArchHi(m) == s.hi && ArchLo(m) == s.lo && FrontFault(env, s)
    ensures ExecDone(env, m, s, true)
  {
    hide At, Execute, ArchHi, ArchLo, ExecRaises, ExecResult, Deref, Produced, FrontFault, Step, OperandA, OperandB,
         Traps, ExecTraps;
    TrapKinds(env, s);
    StepHiLo(env, s);
    ExecQuiet(m);
  }

  lemma ExecHiLo(m: Machine, a: Word, b: Word)
    requires var e := At(m.recs, m.ex); a == Deref(m.recs, m.reg, e.aluSrcA) && b == Deref(m.recs, m.reg, e.aluSrcB)
    ensures var i := At(m.recs, m.ex).instr;
            ArchHi(Execute(m)) == if WritesHi(i) then HiValue(i, a, b) else ArchHi(m)
    ensures var i := At(m.recs, m.ex).instr;
            ArchLo(Execute(m)) == if WritesLo(i) then LoValue(i, a, b) else ArchLo(m)
  {
    hide At, ExecRec, WritesHi, WritesLo, IsMulDiv, Deref, HiValue, LoValue;
  }

  lemma ExecIdle(m: Machine)
    requires HiLoIdle(m) && (IsMulDiv(At(m.recs, m.ex).instr) ==> m.mulDivRemain == 0)
    ensures HiLoIdle(Execute(m))
  {
    hide At, ExecRec, Deref, HiValue, LoValue;
  }

  /** The operands are there and HI/LO is not busy when it is read. */
  predicate ExecInputs(env: Env, m: Machine, s: Arch) {
    var e := At(m.recs, m.ex);
    && Deref(m.recs, m.reg, e.aluSrcA) == OperandA(env, s) && Deref(m.recs, m.reg, e.aluSrcB) == OperandB(env, s)
    && ArchHi(m) == s.hi && ArchLo(m) == s.lo && HiLoIdle(m)
    && (IsMulDiv(e.instr) ==> m.mulDivRemain == 0)
    && !m.excPending
  }

  lemma ExecValue(env: Env, m: Machine, s: Arch)
    requires ExecInputs(env, m, s)
    requires var e := At(m.recs, m.ex); e.instr == Instr(env, s) && e.result == LinkValue(e.instr, s.pc)
    ensures ExecRec(m).result == Result(env, s)
    ensures At(m.recs, m.ex).excBuf == [] ==>
              (ExecRec(m).excBuf != [] <==> ExecRaises(Instr(env, s), OperandA(env, s), OperandB(env, s)))
  {
    hide At, Deref, Instr, OperandA, OperandB, LinkValue, ExecResult, ExecRaises, IsMulDiv;
    var e := At(m.recs, m.ex);
    HiLoUse(e.instr, OperandA(env, s), OperandB(env, s), e.result, m.hi, m.lo, s.hi, s.lo);
  }

  lemma ExecPorts(m: Machine)
    ensures var e := At(m.recs, m.ex);
            var e' := ExecRec(m);
            && e'.dst == e.dst && e'.memReadOp == e.memReadOp && e'.instr == e.instr && e'.wRegData == e.wRegData
            && e'.wMemData == e.wMemData && e'.lwrlPrev == e.lwrlPrev && e'.pc == e.pc && e'.delaySlot == e.delaySlot
            && e'.aluSrcA == e.aluSrcA && e'.aluSrcB == e.aluSrcB && e'.rMemData == e.rMemData
  {
    hide At, Deref, ExecResult, ExecRaises;
  }

  lemma ExecCore(env: Env, m: Machine, id: nat, y: PipelineRegs, z: PipelineRegs, s: Arch)
    requires ExecInputs(env, m, s) && Bound(env, At(m.recs, m.ex), id, At(m.recs, m.mm), y, z, s)
    requires At(m.recs, m.ex).result == LinkValue(At(m.recs, m.ex).instr, s.pc)
    ensures MemCore(env, ExecRec(m), At(m.recs, m.mm), s)
  {
    hide At, Instr, LinkValue, ExecRec, ExecInputs, Bind, BindLate, FirstSource, SecondSource, Destination, IsLoad,
         IsStore, IsPartialLoad, ShamtValue, ImmValue, UsesImm, UsesSignedImm, Result, Rt;
    ExecValue(env, m, s);
    ExecPorts(m);
  }

  lemma NotLoadValue(env: Env, s: Arch)
    ensures !IsLoad(Instr(env, s)) ==> Value(env, s) == Result(env, s)
  {
    hide Result, LoadValue;
  }

  lemma ExecLive(env: Env, m: Machine, id: nat, y: PipelineRegs, z: PipelineRegs, s: Arch)
    requires ExecInputs(env, m, s) && Bound(env, At(m.recs, m.ex), id, At(m.recs, m.mm), y, z, s)
    requires At(m.recs, m.ex).result == LinkValue(At(m.recs, m.ex).instr, s.pc)
    requires !FrontFault(env, s) && Placed(At(m.recs, m.ex), s) && At(m.recs, m.ex).excBuf == [] && |s.regs| == 32
    ensures ExecDone(env, m, s, true)
  {
    hide At, Instr, LinkValue, ExecRec, Execute, ArchHi, ArchLo, Deref, OperandA, OperandB, FirstSource, SecondSource,
         Destination, IsLoad, ShamtValue, ImmValue, UsesImm, UsesSignedImm, Result, Traps, ExecRaises, Step,
         Elsewhere, Newest, HiValue, LoValue, WritesHi, WritesLo, Bind, BoundLate, Value, HiLoIdle, IsMulDiv, FrontFault;
    TrapKinds(env, s);
    StepHiLo(env, s);
    NotLoadValue(env, s);
    ExecCore(env, m, id, y, z, s);
    ExecValue(env, m, s);
    ExecPorts(m);
    ExecHiLo(m, OperandA(env, s), OperandB(env, s));
    ProducedIs(ExecRec(m));
    if !Traps(env, s) { StepRegs(env, s, true, ExecRec(m)); }
  }

  // ---- from one stage to the next ----

  function Accessed(env: Env, m: Machine): Machine { MemAccess(env, RegCommit(m)) }

  function Executed(env: Env, m: Machine): Machine { Execute(Accessed(env, m)) }

  lemma AtUpdated(recs: Store, k: nat, r: PipelineRegs)
    ensures At(recs[k := r], k) == r
    ensures forall j: nat :: j != k ==> At(recs[k := r], j) == At(recs, j)
  {
    hide NewRec;
  }

  lemma AccessedFrame(env: Env, m: Machine)
    ensures var x := Accessed(env, m);
            && x.reg == CommittedRegs(m)
            && x.recs == m.recs[m.mm := MemRec(env, RegCommit(m))]
            && x.wb == m.wb && x.mm == m.mm && x.ex == m.ex && x.id == m.id && x.late == m.late
            && x.lateLate == m.lateLate && x.ifs == m.ifs && x.nextId == m.nextId && x.pc == m.pc && x.epc == m.epc
            && x.mulDivRemain == m.mulDivRemain
  {
    hide At, MemRec, CommittedRegs, IsLoad, IsStore, StoreEffect, Deref, MemFault;
  }

  lemma AccessedHiLo(env: Env, m: Machine)
    ensures var x := Accessed(env, m);
            ArchHi(x) == ArchHi(m) && ArchLo(x) == ArchLo(m) && HiLoIdle(x) == HiLoIdle(m)
  {
    hide At, MemRec, CommittedRegs, IsLoad, IsStore, StoreEffect, Deref, MemFault;
  }

  lemma ExecutedFrame(env: Env, m: Machine)
    ensures var x := Accessed(env, m);
            var y := Executed(env, m);
            && y.reg == x.reg && y.mem == x.mem
            && y.recs == m.recs[m.mm := MemRec(env, RegCommit(m))][m.ex := ExecRec(x)]
            && y.wb == m.wb && y.mm == m.mm && y.ex == m.ex && y.id == m.id && y.late == m.late
            && y.lateLate == m.lateLate && y.ifs == m.ifs && y.nextId == m.nextId && y.pc == m.pc && y.epc == m.epc
            && !y.excPending
  {
    hide At, MemRec, ExecRec, MemAccess, RegCommit, Deref, HiValue, LoValue, WritesHi, WritesLo, IsMulDiv;
    AccessedFrame(env, m);
  }

  lemma SeparateIds(m: Machine)
    requires Shape(m)
    ensures m.mm != m.wb && m.mm != m.ex && m.mm != m.id && m.mm != m.late && m.ex != m.wb && m.ex != m.id && m.ex != m.late
    ensures m.id != m.wb && m.id != m.late && m.wb != m.late
    ensures m.ifs.Holds? ==> m.ifs.id != m.mm && m.ifs.id != m.ex && m.ifs.id != m.id
  {
  }

  lemma AccessedRecords(env: Env, m: Machine)
    requires Shape(m)
    ensures var x := Accessed(env, m);
            && At(x.recs, m.wb) == At(m.recs, m.wb) && At(x.recs, m.mm) == MemRec(env, RegCommit(m))
            && At(x.recs, m.ex) == At(m.recs, m.ex) && At(x.recs, m.id) == At(m.recs, m.id)
            && At(x.recs, m.late) == At(m.recs, m.late)
            && (m.ifs.Holds? ==> At(x.recs, m.ifs.id) == At(m.recs, m.ifs.id))
  {
    hide At, Accessed, MemRec, RegCommit, Shape;
    SeparateIds(m);
    AccessedFrame(env, m);
    AtUpdated(m.recs, m.mm, MemRec(env, RegCommit(m)));
  }

  lemma ReadyMem(env: Env, m: Machine, s: Arch, t: Tags)
    requires Ready(env, m, s, t) && CleanM(env, s, t)
    ensures MemReady(env, At(m.recs, m.mm), At(m.recs, m.wb), S1(env, s, t), t.m)
    ensures ArchHi(m) == S2(env, s, t).hi && ArchLo(m) == S2(env, s, t).lo
    ensures Own(m.mm, At(m.recs, m.mm)) && Own(m.late, At(m.recs, m.late)) && Own(m.ex, At(m.recs, m.ex))
    ensures Own(m.id, At(m.recs, m.id))
  {
    hide Shape, LateOk, WbOk, ExOk, FetchOk, S1, S2, S3, CleanM, CleanE, CleanD, MemReady, IdReady, Own,
         Untouched, PointsInto, At, HiLoIdle, ArchHi, ArchLo;
  }

  lemma MemPhase(env: Env, m: Machine, s: Arch, t: Tags)
    requires Ready(env, m, s, t) && CleanM(env, s, t)
    ensures MemDone(env, RegCommit(m), S1(env, s, t), t.m)
  {
    hide Ready, At, CommittedRegs, S1, CleanM, MemReady, Own, Newest, Elsewhere, MemDone, Shape, LateOk, HiLoIdle, S2, WbOk;
    ReadyWb(env, m, s, t);
    ReadyMem(env, m, s, t);
    CommitStep(env, m, s, t);
    MemStep(env, RegCommit(m), S1(env, s, t), t.m);
  }

  lemma MemRecPorts(env: Env, m: Machine)
    ensures var r := At(m.recs, m.mm);
            var r' := MemRec(env, m);
            && r'.dst == r.dst && r'.memReadOp == r.memReadOp && r'.wRegData == r.wRegData
            && Own(m.mm, r') == Own(m.mm, r)
  {
    hide At, MemData;
  }

  lemma LateNewest(m: Machine)
    requires LateOk(m)
    ensures Newest(At(m.recs, m.late), m.reg)
  {
    hide At, Produced;
  }

  lemma ReadyEx(env: Env, m: Machine, s: Arch, t: Tags)
    requires Ready(env, m, s, t) && CleanE(env, s, t)
    ensures CleanM(env, s, t)
    ensures ExOk(env, At(m.recs, m.ex), m.ex, At(m.recs, m.mm), At(m.recs, m.wb), At(m.recs, m.late), S2(env, s, t), t.e)
  {
    hide Shape, LateOk, WbOk, ExOk, FetchOk, S1, S2, S3, CleanM, CleanD, MemReady, IdReady, Own,
         Untouched, PointsInto, At, HiLoIdle, ArchHi, ArchLo, Traps;
  }

  /** Everything the execute stage finds when it starts. */
  predicate ExecContext(env: Env, x: Machine, s: Arch, live: bool, G: seq<Word>, H: seq<Word>) {
    && ExOk(env, At(x.recs, x.ex), x.ex, At(x.recs, x.mm), At(x.recs, x.wb), At(x.recs, x.late), s, live)
    && |s.regs| == |G| == |H| == 32 && x.reg == G
    && Own(x.mm, At(x.recs, x.mm)) && Own(x.wb, At(x.recs, x.wb)) && Own(x.late, At(x.recs, x.late))
    && Newest(At(x.recs, x.mm), s.regs) && Elsewhere(At(x.recs, x.mm), G, s.regs)
    && Newest(At(x.recs, x.wb), G) && Elsewhere(At(x.recs, x.wb), H, G)
    && Newest(At(x.recs, x.late), H)
    && ArchHi(x) == s.hi && ArchLo(x) == s.lo && HiLoIdle(x) && !x.excPending
    && (IsMulDiv(At(x.recs, x.ex).instr) ==> x.mulDivRemain == 0)
  }

  lemma ExecOperands(env: Env, x: Machine, s: Arch, G: seq<Word>, H: seq<Word>)
    requires ExecContext(env, x, s, true, G, H) && !FrontFault(env, s)
    ensures ExecInputs(env, x, s)
  {
    hide At, Own, Newest, Instr, FrontFault, ArchHi, ArchLo, HiLoIdle, IsMulDiv, OperandA, OperandB, Deref, Bound, Placed, Quiet;
    Operands(env, x.recs, x.reg, x.ex, x.mm, x.wb, x.late, s, G, H);
  }

  lemma ExecStep(env: Env, x: Machine, s: Arch, live: bool, G: seq<Word>, H: seq<Word>)
    requires ExecContext(env, x, s, live, G, H)
    ensures ExecDone(env, x, s, live)
  {
    hide At, Own, Newest, Elsewhere, FrontFault, ArchHi, ArchLo, HiLoIdle, IsMulDiv, Bound, Placed, Quiet, ExecInputs, ExecDone, LinkValue;
    if !live {
      ExecBubble(env, x, s);
    } else if FrontFault(env, s) {
      ExecFault(env, x, s);
    } else {
      ExecOperands(env, x, s, G, H);
      ExecLive(env, x, x.ex, At(x.recs, x.wb), At(x.recs, x.late), s);
    }
  }

  predicate NoInterlock(m: Machine) { IsMulDiv(At(m.recs, m.ex).instr) ==> m.mulDivRemain == 0 }

  lemma MemDoneRegs(env: Env, m: Machine, s: Arch, live: bool)
    requires MemDone(env, m, s, live) && Clean(env, live, s)
    ensures var u := After(env, live, s).regs;
            !MemAccess(env, m).excPending && Elsewhere(MemRec(env, m), s.regs, u) && Newest(MemRec(env, m), u)
  {
    hide MemRec, MemAccess, Elsewhere, Newest, WbOk, Step;
  }

  lemma ExecPhaseContext(env: Env, m: Machine, s: Arch, t: Tags)
    requires Ready(env, m, s, t) && CleanE(env, s, t) && NoInterlock(m)
    ensures ExecContext(env, Accessed(env, m), S2(env, s, t), t.e, S1(env, s, t).regs, s.regs)
  {
    hide Ready, At, CommittedRegs, S1, CleanM, MemReady, Own, Newest, Elsewhere, MemDone, Shape, LateOk, HiLoIdle,
         WbOk, ExOk, ArchHi, ArchLo, MemAccess, MemRec, IsMulDiv, CleanE, Traps;
    ReadyEx(env, m, s, t);
    ReadyWb(env, m, s, t);
    ReadyMem(env, m, s, t);
    CommitStep(env, m, s, t);
    MemPhase(env, m, s, t);
    CleanEParts(env, s, t);
    MemDoneRegs(env, RegCommit(m), S1(env, s, t), t.m);
    AccessedFrame(env, m);
    AccessedHiLo(env, m);
    AccessedRecords(env, m);
    MemRecPorts(env, RegCommit(m));
    LateNewest(m);
    BoundToPorts(env, At(m.recs, m.ex), m.ex, At(m.recs, m.mm), At(m.recs, m.wb), At(m.recs, m.late),
                 MemRec(env, RegCommit(m)), At(m.recs, m.wb), S2(env, s, t), t.e);
  }

  lemma CleanEParts(env: Env, s: Arch, t: Tags)
    requires CleanE(env, s, t)
    ensures CleanM(env, s, t) && Clean(env, t.m, S1(env, s, t))
  {
    hide Traps, S1;
  }

  lemma ExecPhase(env: Env, m: Machine, s: Arch, t: Tags)
    requires Ready(env, m, s, t) && CleanE(env, s, t) && NoInterlock(m)
    ensures ExecDone(env, Accessed(env, m), S2(env, s, t), t.e)
  {
    hide Ready, At, Accessed, S1, S2, CleanE, NoInterlock, ExecContext, ExecDone;
    ExecPhaseContext(env, m, s, t);
    ExecStep(env, Accessed(env, m), S2(env, s, t), t.e, S1(env, s, t).regs, s.regs);
  }
}
