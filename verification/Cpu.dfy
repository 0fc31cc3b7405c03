/** The processor of cpu.cc as an object: the stages update its fields one by
    one, and each stage is proved equal to its function in Pipeline. */
module CpuModel {
  import opened Isa
  import opened Sequential
  import opened Pipeline
  import opened PipelineInvariant
  import opened PipelineChecks
  import opened PipelineSettle
  import opened PipelineMove
  import opened PipelineRetire
  import opened PipelineAdvance
  import opened PipelineRefinement
  import opened PipelineShadow
  import opened PipelineRuns

  const IF_STAGE: nat := 0
  const ID_STAGE: nat := 1
  const EX_STAGE: nat := 2
  const MEM_STAGE: nat := 3
  const WB_STAGE: nat := 4
  const PIPELINE_STAGES: nat := 5

  class Cpu {
    const env: Env
    var pc: Word
    const reg: array<Word>
    var hi: Word
    var lo: Word
    var hiTemp: Word
    var loTemp: Word
    var hiWrite: bool
    var loWrite: bool
    var mulDivRemain: nat
    const plRegs: array<Slot>
    var latePreg: nat
    var lateLatePreg: nat
    var recs: Store
    var nextId: nat
    var excPending: bool
    var mem: Memory
    var epc: Word

    ghost predicate Valid()
      reads this, plRegs
    {
      && reg.Length == 32 && plRegs.Length == PIPELINE_STAGES
      && (forall k :: 1 <= k < PIPELINE_STAGES ==> plRegs[k].Holds?)
    }

    ghost function View(): Machine
      requires Valid()
      reads this, reg, plRegs
    {
      Machine(pc, reg[..], hi, lo, hiTemp, loTemp, hiWrite, loWrite, mulDivRemain, recs, plRegs[IF_STAGE],
              plRegs[ID_STAGE].id, plRegs[EX_STAGE].id, plRegs[MEM_STAGE].id, plRegs[WB_STAGE].id,
              latePreg, lateLatePreg, nextId, excPending, mem, epc)
    }

    /** Construction followed by reset. */
    constructor (env: Env, regs: seq<Word>, hi: Word, lo: Word, mem: Memory, epc: Word)
      requires |regs| == 32 && regs[0] == 0
      ensures Valid() && this.env == env && fresh(reg) && fresh(plRegs)
      ensures View() == PowerOn(regs, hi, lo, mem, epc)
    {
      hide NewRec, Volatilize;
      this.env := env;
      pc := RESET_VECTOR - 4;
      reg := new Word[32](k requires 0 <= k < 32 => regs[k]);
      this.hi, this.lo, hiTemp, loTemp, hiWrite, loWrite, mulDivRemain := hi, lo, 0, 0, false, false, 0;
      plRegs := new Slot[PIPELINE_STAGES](k => if k == IF_STAGE then Empty else Holds(0));
      latePreg, lateLatePreg, nextId := 0, 0, 0;
      recs := map[];
      excPending, this.mem, this.epc := false, mem, epc;
      new;
      assert reg[..] == regs;
      VolatilizePipeline();
    }

    /** *(p), for a pointer of the forwarding network. */
    method Load(p: Ptr) returns (v: Word)
      requires Valid()
      ensures v == Deref(recs, reg[..], p)
    {
      match p {
        case Null => v := 0;
        case Gpr(n) => v := if n < reg.Length then reg[n] else 0;
        case ResultOf(k) => v := At(recs, k).result;
        case MemDataOf(k) => v := At(recs, k).rMemData;
        case ImmOf(k) => v := At(recs, k).imm;
        case ShamtOf(k) => v := At(recs, k).shamt;
      }
    }

    method DecodeValueA(r: PipelineRegs, e: PipelineRegs, m: PipelineRegs, w: PipelineRegs) returns (p: Ptr, hazard: bool)
      ensures p == OperandPtrA(r, e, m, w)
      ensures hazard == (FirstSource(r.instr) != NONE_REG && FirstSource(r.instr) == e.dst && e.memReadOp)
    {
      hide FirstSource;
      p, hazard := r.aluSrcA, false;
      var src := FirstSource(r.instr);
      if src != NONE_REG {
        if src == e.dst {
          if e.memReadOp { hazard := true; }
          p := e.wRegData;
        } else if src == m.dst {
          p := m.wRegData;
        } else if src == w.dst {
          p := w.wRegData;
        } else {
          p := Gpr(src);
        }
      }
    }

    method DecodeImmediates(r: PipelineRegs) returns (shamt: Word, imm: Word)
      ensures shamt == ShamtField(r) && imm == ImmField(r)
    {
      hide UsesShamt, UsesImm, UsesSignedImm, Opcode, Shamt, Immed, SignedImmed;
      SpecialFields(r.instr);
      shamt, imm := r.shamt, r.imm;
      if Opcode(r.instr) == OP_SPECIAL {
        if UsesShamt(r.instr) { shamt := Shamt(r.instr); }
      } else if UsesImm(r.instr) {
        imm := Immed(r.instr);
      } else if UsesSignedImm(r.instr) {
        imm := SignedImmed(r.instr);
      }
    }

    method DecodeValueB(r: PipelineRegs, k: nat, e: PipelineRegs, m: PipelineRegs, w: PipelineRegs) returns (p: Ptr, hazard: bool)
      ensures p == OperandPtrB(r, k, e, m, w)
      ensures hazard == (SecondSource(r.instr) != NONE_REG && SecondSource(r.instr) == e.dst && e.memReadOp)
    {
      hide SecondSource, UsesShamt, UsesImm, UsesSignedImm, Opcode;
      SpecialFields(r.instr);
      p, hazard := r.aluSrcB, false;
      var src := SecondSource(r.instr);
      if src != NONE_REG {
        if src == e.dst {
          p := e.wRegData;
          if e.memReadOp { hazard := true; }
        } else if src == m.dst {
          p := m.wRegData;
        } else if src == w.dst {
          p := w.wRegData;
        } else {
          p := Gpr(src);
        }
      } else if Opcode(r.instr) == OP_SPECIAL {
        if UsesShamt(r.instr) { p := ShamtOf(k); }
      } else if UsesImm(r.instr) || UsesSignedImm(r.instr) {
        p := ImmOf(k);
      }
    }

    /** The write port: a load forwards what it will read, others their result. */
    method DecodeWritePort(r: PipelineRegs, k: nat) returns (memReadOp: bool, wRegData: Ptr)
      ensures memReadOp == ReadsMemory(r) && wRegData == WritePort(r, k)
    {
      hide Destination, IsLoad;
      memReadOp, wRegData := r.memReadOp, r.wRegData;
      if Destination(r.instr) != NONE_REG {
        if IsLoad(r.instr) {
          memReadOp := true;
          wRegData := MemDataOf(k);
        } else {
          wRegData := ResultOf(k);
        }
      }
    }

    method DecodeReserved(r: PipelineRegs) returns (instr: Word, excBuf: seq<Exc>)
      ensures instr == InstrField(r) && excBuf == ExcField(r)
    {
      hide IsReserved;
      instr, excBuf := r.instr, r.excBuf;
      if IsReserved(instr) {
        instr := NOP_INSTR;
        excBuf := excBuf + [RI];
      }
    }

    /** pre_decode: operand labels, forwarding pointers, immediates, write port. */
    method PreDecode() returns (hazard: bool)
      requires Valid() && plRegs[ID_STAGE].id != plRegs[EX_STAGE].id
      modifies `recs
      ensures Valid()
      ensures View() == Pipeline.PreDecode(old(View()))
      ensures hazard == DataHazard(View())
    {
      hide PreDecodeRec, At, OperandPtrA, OperandPtrB, ShamtField, ImmField, ReadsMemory, WritePort, InstrField, ExcField,
           FirstSource, SecondSource, Destination, IsPartialLoad, IsStore, BindLate, Rt;
      var k := plRegs[ID_STAGE].id;
      var e, m, w := At(recs, plRegs[EX_STAGE].id), At(recs, plRegs[MEM_STAGE].id), At(recs, plRegs[WB_STAGE].id);
      var r := At(recs, k);
      var i := r.instr;
      PreDecodeFields(r, k, e, m, w);
      var aluSrcA, hazardA := DecodeValueA(r, e, m, w);
      var shamt, imm := DecodeImmediates(r);
      var aluSrcB, hazardB := DecodeValueB(r, k, e, m, w);
      var memReadOp, wRegData := DecodeWritePort(r, k);
      var instr, excBuf := DecodeReserved(r);
      var preg := r.(instr := instr, excBuf := excBuf, srcA := FirstSource(i), srcB := SecondSource(i), dst := Destination(i),
                     aluSrcA := aluSrcA, aluSrcB := aluSrcB, shamt := shamt, imm := imm,
                     lwrlPrev := if IsPartialLoad(i) then BindLate(Destination(i), e) else r.lwrlPrev,
                     memReadOp := memReadOp, wRegData := wRegData,
                     wMemData := if IsStore(i) then BindLate(Rt(i), e) else r.wMemData);
      AtUpdated(recs, k, preg);
      hazard := hazardA || hazardB;
      recs := recs[k := preg];
    }

    /** pre_mem_access: the alignment check; the miss itself is the memory's answer. */
    method PreMemAccess()
      requires Valid()
      modifies `recs
      ensures Valid() && View() == Pipeline.PreMemAccess(old(View()))
    {
      hide At, MemFault;
      var k := plRegs[MEM_STAGE].id;
      var preg := At(recs, k);
      if MemFault(preg.instr, preg.result) {
        recs := recs[k := preg.(excBuf := preg.excBuf + [AdEL])];
      }
    }

    /** pre_execute. */
    method PreExecute() returns (interlock: bool)
      requires Valid()
      ensures interlock == Interlock(View())
    {
      hide At, IsMulDiv;
      interlock := IsMulDiv(At(recs, plRegs[EX_STAGE].id).instr) && mulDivRemain > 0;
    }

    /** fetch, called when the IF slot is empty. */
    method Fetch(miss: bool) returns (fetchMiss: bool)
      requires Valid() && plRegs[IF_STAGE] == Empty
      modifies plRegs, `recs, `nextId
      ensures Valid() && View() == Pipeline.Fetch(env, old(View()), miss)
      ensures fetchMiss == FetchStalls(old(View()), miss)
    {
      hide NewRec;
      fetchMiss := true;
      if pc & 3 != 0 {
        recs := recs[nextId := NewRec(nextId, pc, NOP_INSTR).(excBuf := [AdEL])];
        plRegs[IF_STAGE] := Holds(nextId);
        nextId := nextId + 1;
      } else {
        fetchMiss := miss;
        if !fetchMiss {
          recs := recs[nextId := NewRec(nextId, pc, env.prog(pc))];
          plRegs[IF_STAGE] := Holds(nextId);
          nextId := nextId + 1;
        }
      }
    }

    /** A fresh no-operation for every stage. */
    method FillStages()
      requires Valid()
      modifies plRegs, `recs, `nextId
      ensures Valid() && recs == Flushes(old(View()), PIPELINE_STAGES) && nextId == old(nextId) + PIPELINE_STAGES
      ensures forall k :: 0 <= k < PIPELINE_STAGES ==> plRegs[k] == Holds(old(nextId) + k)
    {
      hide NewRec;
      ghost var m := View();
      var i := 0;
      while i < PIPELINE_STAGES
        invariant 0 <= i <= PIPELINE_STAGES && Valid() && nextId == m.nextId + i
        invariant forall k :: 0 <= k < i ==> plRegs[k] == Holds(m.nextId + k)
        invariant recs == Flushes(m, i)
      {
        recs := recs[nextId := NewRec(nextId, Following(pc), NOP_INSTR)];
        plRegs[i] := Holds(nextId);
        nextId := nextId + 1;
        i := i + 1;
      }
    }

    method FillSpares()
      requires Valid()
      modifies `recs, `nextId, `latePreg, `lateLatePreg
      ensures Valid() && nextId == old(nextId) + 2 && latePreg == old(nextId) && lateLatePreg == old(nextId) + 1
      ensures var n := old(nextId);
              recs == old(recs)[n := NewRec(n, Following(pc), NOP_INSTR)][n + 1 := NewRec(n + 1, Following(pc), NOP_INSTR)]
    {
      hide NewRec;
      latePreg := nextId;
      recs := recs[nextId := NewRec(nextId, Following(pc), NOP_INSTR)];
      nextId := nextId + 1;
      lateLatePreg := nextId;
      recs := recs[nextId := NewRec(nextId, Following(pc), NOP_INSTR)];
      nextId := nextId + 1;
    }

    /** volatilize_pipeline. */
    method VolatilizePipeline()
      requires Valid()
      modifies plRegs, `recs, `nextId, `latePreg, `lateLatePreg
      ensures Valid() && View() == Volatilize(old(View()))
    {
      hide NewRec, Flushes, FlushStore;
      ghost var m := View();
      FillStages();
      FillSpares();
      FlushesAll(m);
    }

    /** EPC and the handler's address; the step adds 4 later. */
    method EnterException(preg: PipelineRegs)
      requires Valid()
      modifies `epc, `pc
      ensures Valid() && View() == old(View()).(epc := if preg.delaySlot then preg.pc - 4 else preg.pc, pc := env.vector - 4)
    {
      if preg.delaySlot {
        epc := preg.pc - 4;
      } else {
        epc := preg.pc;
      }
      pc := env.vector - 4;
    }

    /** exc_handle for the record in WB. */
    method ExcHandle()
      requires Valid()
      modifies this, plRegs
      ensures Valid() && View() == Pipeline.ExcHandle(env, old(View()))
    {
      hide At, Volatilize;
      var preg := At(recs, plRegs[WB_STAGE].id);
      if preg.excBuf == [] { return; }
      EnterException(preg);
      VolatilizePipeline();
    }

    /** A pending result arrives in HI and LO. */
    method UpdateHiLo()
      requires Valid()
      modifies `hi, `lo, `hiWrite, `loWrite
      ensures Valid() && hi == old(if hiWrite then hiTemp else hi) && lo == old(if loWrite then loTemp else lo)
      ensures !hiWrite && !loWrite
    {
      hi := if hiWrite then hiTemp else hi;
      lo := if loWrite then loTemp else lo;
      hiWrite, loWrite := false, false;
    }

    /** The mult/div unit's clock. */
    method ClockMulDiv()
      requires Valid()
      modifies `mulDivRemain, `hi, `lo, `hiWrite, `loWrite
      ensures Valid() && View() == TickMulDiv(old(View()))
    {
      if mulDivRemain > 0 {
        mulDivRemain := mulDivRemain - 1;
        if mulDivRemain == 0 { UpdateHiLo(); }
      }
    }

    /** reg_commit. */
    method RegCommit()
      requires Valid() && (At(recs, plRegs[WB_STAGE].id).wRegData != Null ==> At(recs, plRegs[WB_STAGE].id).dst < 32)
      modifies reg
      ensures Valid() && View() == Pipeline.RegCommit(old(View()))
    {
      hide At, Deref;
      var preg := At(recs, plRegs[WB_STAGE].id);
      if preg.wRegData != Null {
        var v := Load(preg.wRegData);
        reg[preg.dst] := v;
      }
    }

    /** The SWL loop: bytes of the register go to the low-order end of the word. */
    method StoreLeftBytes(wordvirt: Word, data: Word, which: nat)
      requires Valid() && which < 4
      modifies `mem
      ensures Valid() && mem == StoreLeftFrom(env.bigEndian, old(mem), wordvirt, data, which, if env.bigEndian then which else 0)
    {
      hide StoreByte, SwlByte, Nth;
      var i := if env.bigEndian then which else 0;
      while i < 4 && (env.bigEndian || i <= which)
        invariant 0 <= i <= 4 && (env.bigEndian ==> which <= i) && (!env.bigEndian ==> i <= which + 1)
        invariant StoreLeftFrom(env.bigEndian, mem, wordvirt, data, which, i)
               == StoreLeftFrom(env.bigEndian, old(mem), wordvirt, data, which, if env.bigEndian then which else 0)
      {
        mem := StoreByte(env.bigEndian, mem, Nth(wordvirt, i), SwlByte(env.bigEndian, data, which, i));
        i := i + 1;
      }
    }

    /** The SWR loop. */
    method StoreRightBytes(wordvirt: Word, data: Word, which: nat)
      requires Valid() && which < 4
      modifies `mem
      ensures Valid() && mem == StoreRightFrom(env.bigEndian, old(mem), wordvirt, data, which, if env.bigEndian then 0 else which)
    {
      hide StoreByte, SwrByte, Nth;
      var i := if env.bigEndian then 0 else which;
      while i < 4 && (!env.bigEndian || i <= which)
        invariant 0 <= i <= 4 && (!env.bigEndian ==> which <= i) && (env.bigEndian ==> i <= which + 1)
        invariant StoreRightFrom(env.bigEndian, mem, wordvirt, data, which, i)
               == StoreRightFrom(env.bigEndian, old(mem), wordvirt, data, which, if env.bigEndian then 0 else which)
      {
        mem := StoreByte(env.bigEndian, mem, Nth(wordvirt, i), SwrByte(env.bigEndian, data, which, i));
        i := i + 1;
      }
    }

    /** The data access of a store. */
    method StoreData(i: Word, vaddr: Word, data: Word)
      requires Valid()
      modifies `mem
      ensures Valid() && mem == StoreEffect(env.bigEndian, i, old(mem), vaddr, data)
    {
      hide StoreByte, StoreHalf, StoreLeftFrom, StoreRightFrom, Opcode;
      var op := Opcode(i);
      if op == 40 {
        mem := StoreByte(env.bigEndian, mem, vaddr, data);
      } else if op == 41 {
        mem := StoreHalf(env.bigEndian, mem, vaddr, data);
      } else if op == 42 {
        StoreLeftBytes(WordBase(vaddr), data, LowBits(vaddr));
      } else if op == 46 {
        StoreRightBytes(WordBase(vaddr), data, LowBits(vaddr));
      } else {
        mem := mem[Cell(vaddr) := data];
      }
    }

    /** mem_access. */
    method MemAccess()
      requires Valid()
      modifies `mem, `recs, `excPending
      ensures Valid() && View() == Pipeline.MemAccess(env, old(View()))
    {
      hide At, Deref, StoreEffect, LoadValue, IsStore, IsLoad, MemFault;
      var k := plRegs[MEM_STAGE].id;
      var preg := At(recs, k);
      StoreOrLoad(preg.instr);
      if IsStore(preg.instr) {
        if preg.excBuf == [] {
          var data := Load(preg.wMemData);
          StoreData(preg.instr, preg.result, data);
        }
      } else if IsLoad(preg.instr) {
        var prev := Load(preg.lwrlPrev);
        excPending := MemFault(preg.instr, preg.result);
        preg := preg.(rMemData := LoadValue(env.bigEndian, preg.instr, mem, preg.result, prev));
      }
      recs := recs[k := preg];
    }

    /** The mult/div unit starts on instruction i. */
    method StartHi(i: Word, a: Word, b: Word)
      requires Valid()
      modifies `hiTemp, `hiWrite
      ensures Valid()
      ensures View() == old(View()).(hiTemp := PendingHi(i, a, b, old(hiTemp)), hiWrite := old(hiWrite) || WritesHi(i))
    {
      hide HiValue, WritesHi;
      if WritesHi(i) {
        hiTemp := HiValue(i, a, b);
        hiWrite := true;
      }
    }

    method StartLo(i: Word, a: Word, b: Word)
      requires Valid()
      modifies `loTemp, `loWrite
      ensures Valid()
      ensures View() == old(View()).(loTemp := PendingLo(i, a, b, old(loTemp)), loWrite := old(loWrite) || WritesLo(i))
    {
      hide LoValue, WritesLo;
      if WritesLo(i) {
        loTemp := LoValue(i, a, b);
        loWrite := true;
      }
    }

    /** The exception that the record in EX collects, if any. */
    method CollectException(i: Word, a: Word, b: Word) returns (exc: seq<Exc>)
      requires Valid()
      modifies `excPending
      ensures Valid() && !excPending
      ensures exc == CollectedExc(i, a, b, old(excPending))
    {
      hide ExecRaises, ExecException;
      var excSignal := AdEL;
      if ExecRaises(i, a, b) {
        excSignal := ExecException(i);
        excPending := true;
      }
      exc := [];
      if excPending {
        exc := [excSignal];
        excPending := false;
      }
    }

    /** The result and exception fields of the record in EX. */
    method ExecuteRecord(i: Word, a: Word, b: Word)
      requires Valid()
      requires var r := At(recs, plRegs[EX_STAGE].id);
               i == r.instr && a == Deref(recs, reg[..], r.aluSrcA) && b == Deref(recs, reg[..], r.aluSrcB)
      modifies `recs, `excPending
      ensures Valid()
      ensures View() == old(View()).(recs := old(recs)[plRegs[EX_STAGE].id := ExecRec(old(View()))], excPending := false)
    {
      hide At, Deref, ExecResult, CollectedExc;
      var k := plRegs[EX_STAGE].id;
      var preg := At(recs, k);
      var exc := CollectException(i, a, b);
      recs := recs[k := preg.(result := ExecResult(i, a, b, preg.result, hi, lo), excBuf := preg.excBuf + exc)];
    }

    method StartDelay(i: Word)
      requires Valid()
      modifies `mulDivRemain
      ensures Valid()
      ensures View() == old(View()).(mulDivRemain := if IsMulDiv(i) then MulDivDelay(Funct(i)) else old(mulDivRemain))
    {
      hide IsMulDiv, MulDivDelay, Funct;
      if IsMulDiv(i) { mulDivRemain := MulDivDelay(Funct(i)); }
    }

    /** The mult/div unit starts, if instruction i is one of its own. */
    method StartMulDiv(i: Word, a: Word, b: Word)
      requires Valid()
      modifies `hiTemp, `loTemp, `hiWrite, `loWrite, `mulDivRemain
      ensures Valid()
      ensures View() == old(View()).(
                hiTemp := PendingHi(i, a, b, old(hiTemp)), loTemp := PendingLo(i, a, b, old(loTemp)),
                hiWrite := old(hiWrite) || WritesHi(i), loWrite := old(loWrite) || WritesLo(i),
                mulDivRemain := if IsMulDiv(i) then MulDivDelay(Funct(i)) else old(mulDivRemain))
    {
      hide PendingHi, PendingLo, WritesHi, WritesLo, IsMulDiv, MulDivDelay, Funct;
      StartHi(i, a, b);
      StartLo(i, a, b);
      StartDelay(i);
    }

    /** execute. */
    method Execute()
      requires Valid()
      modifies `recs, `hiTemp, `loTemp, `hiWrite, `loWrite, `mulDivRemain, `excPending
      ensures Valid() && View() == Pipeline.Execute(old(View()))
    {
      hide At, Deref, ExecRec, PendingHi, PendingLo, WritesHi, WritesLo, IsMulDiv, MulDivDelay, Funct;
      var preg := At(recs, plRegs[EX_STAGE].id);
      var a := Load(preg.aluSrcA);
      var b := Load(preg.aluSrcB);
      ExecuteRecord(preg.instr, a, b);
      StartMulDiv(preg.instr, a, b);
    }

    /** decode: control transfers are resolved in ID. */
    method Decode()
      requires Valid() && plRegs[IF_STAGE].Holds? && plRegs[IF_STAGE].id != plRegs[ID_STAGE].id
      modifies `recs, `pc
      ensures Valid() && View() == Pipeline.Decode(old(View()))
    {
      hide At, Deref, IsLink, Taken, RedirectPc;
      var k := plRegs[ID_STAGE].id;
      var preg := At(recs, k);
      var a := Load(preg.aluSrcA);
      var b := Load(preg.aluSrcB);
      recs := recs[k := DecodeRec(preg)];
      if Taken(preg.instr, a, b) {
        pc := RedirectPc(preg.instr, preg.pc, a, preg.imm);
        var slot := plRegs[IF_STAGE].id;
        recs := recs[slot := At(recs, slot).(delaySlot := true)];
      }
    }

    /** The older stages move on and the oldest spare record is deleted. */
    method ShiftFrom(first: nat)
      requires Valid() && 1 <= first <= EX_STAGE + 1 && (first == 1 ==> plRegs[IF_STAGE].Holds?)
      modifies plRegs, `recs, `latePreg, `lateLatePreg
      ensures Valid()
      ensures recs == old(recs) - {old(lateLatePreg)} && lateLatePreg == old(latePreg) && latePreg == old(plRegs[WB_STAGE].id)
      ensures forall k :: first <= k < PIPELINE_STAGES ==> plRegs[k] == old(plRegs[k - 1])
      ensures forall k :: 0 <= k < first ==> plRegs[k] == old(plRegs[k])
    {
      recs := recs - {lateLatePreg};
      lateLatePreg := latePreg;
      latePreg := plRegs[WB_STAGE].id;
      var i := PIPELINE_STAGES - 1;
      while i >= first
        modifies plRegs
        invariant first - 1 <= i < PIPELINE_STAGES && Valid()
        invariant forall k :: i < k < PIPELINE_STAGES ==> plRegs[k] == old(plRegs[k - 1])
        invariant forall k :: 0 <= k <= i ==> plRegs[k] == old(plRegs[k])
      {
        plRegs[i] := plRegs[i - 1];
        i := i - 1;
      }
    }

    method Bubble()
      requires Valid()
      modifies plRegs, `recs, `latePreg, `lateLatePreg, `nextId
      ensures Valid() && View() == InsertBubble(old(View()))
    {
      hide NewRec;
      ShiftFrom(EX_STAGE + 1);
      recs := recs[nextId := NewRec(nextId, pc, NOP_INSTR)];
      plRegs[EX_STAGE] := Holds(nextId);
      nextId := nextId + 1;
    }

    method GoAhead()
      requires Valid() && plRegs[IF_STAGE].Holds?
      modifies plRegs, `recs, `latePreg, `lateLatePreg, `pc
      ensures Valid() && View() == Advance(old(View()))
    {
      ShiftFrom(ID_STAGE);
      pc := Following(pc);
      plRegs[IF_STAGE] := Empty;
    }

    /** The first part of step: every check that may stall or hold the pipeline. */
    method CheckAll(stall: Stall) returns (hazard: bool, interlock: bool, fetchMiss: bool)
      requires Valid() && Shape(View())
      modifies plRegs, `recs, `nextId
      ensures Valid() && View() == Check(env, old(View()), stall.fetchMiss)
      ensures hazard == DataHazard(Pipeline.PreDecode(old(View())))
      ensures interlock == Interlock(old(View())) && fetchMiss == FetchStalls(old(View()), stall.fetchMiss)
    {
      hide Pipeline.PreDecode, Pipeline.PreMemAccess, Pipeline.Fetch, At, DataHazard, IsMulDiv, Separate, Allocated;
      ghost var m := View();
      SeparateIds(m);
      hazard := PreDecode();
      PreMemAccess();
      interlock := PreExecute();
      fetchMiss := false;
      PreDecodeAside(m);
      PreMemAside(Pipeline.PreDecode(m));
      PreMemStages(Pipeline.PreDecode(m));
      FetchHeld(env, View(), stall.fetchMiss);
      if plRegs[IF_STAGE] == Empty {
        fetchMiss := Fetch(stall.fetchMiss);
      }
    }

    /** The second part: exceptions, then the mult/div unit's clock. */
    method SettleAll()
      requires Valid()
      modifies this, plRegs
      ensures Valid() && View() == Settle(env, old(View()))
    {
      hide Pipeline.ExcHandle, TickMulDiv;
      ExcHandle();
      ClockMulDiv();
    }

    /** The last part, when nothing stalls: the stages proper, oldest first. */
    method MoveAll(hazard: bool)
      requires Valid() && Shape(View()) && Wiring(View()) && plRegs[IF_STAGE].Holds?
      modifies this, reg, plRegs
      ensures Valid() && View() == Move(env, old(View()), hazard)
    {
      hide Pipeline.RegCommit, Pipeline.MemAccess, Pipeline.Execute, Pipeline.Decode, Advance, InsertBubble, At,
           Separate, Allocated, PointsInto, Untouched;
      ghost var m := View();
      PortBelow(m.wb, At(m.recs, m.wb));
      SeparateIds(m);
      ExecutedFrame(env, m);
      RegCommit();
      MemAccess();
      Execute();
      if !hazard { Decode(); }
      DecodedRest(Executed(env, m));
      if hazard {
        Bubble();
      } else {
        GoAhead();
      }
    }

    /** One clock cycle; x is where the simulation stands. */
    method Step(stall: Stall, ghost x: Sim)
      requires Valid() && Inv(env, View(), x.s, x.t) && Shadow(env, View(), x.s, x.t)
      modifies this, reg, plRegs
      ensures Valid() && View() == Cycle(env, old(View()), stall)
      ensures var y := NextSim(env, old(View()), x, stall); Inv(env, View(), y.s, y.t) && Shadow(env, View(), y.s, y.t)
    {
      hide Inv, Shadow, Ready, Shape, Wiring, Check, Settle, Move, DataHazard, Pipeline.PreDecode, Interlock, FetchStalls, NextSim,
           Common, At, NoInterlock;
      ghost var m := View();
      CycleStep(env, m, x, stall);
      ShadowStep(env, m, x, stall);
      InvShape(env, m, x.s, x.t);
      var hazard, interlock, fetchMiss := CheckAll(stall);
      SettleAll();
      if !interlock && !stall.dataMiss && !fetchMiss {
        MovableHere(env, m, x, stall);
        MoveAll(hazard);
      }
    }

    /** A run from any state the invariant covers: it ends in the state that Run
        describes, and what it does follows a path of the reference. */
    method RunFor(stalls: seq<Stall>, ghost x: Sim)
      requires Valid() && Inv(env, View(), x.s, x.t) && Shadow(env, View(), x.s, x.t) && !x.t.w
      modifies this, reg, plRegs
      ensures Valid() && View() == Run(env, old(View()), stalls)
      ensures Follows(env, old(View()), stalls, Path(env, old(View()), x, stalls))
    {
      hide Inv, Shadow, Follows, Cycle, NextSim, View, Path;
      ghost var m := View();
      RunFollows(env, m, x, stalls);
      ghost var y := x;
      var i := 0;
      while i < |stalls|
        invariant 0 <= i <= |stalls| && Valid() && Inv(env, View(), y.s, y.t) && Shadow(env, View(), y.s, y.t)
        invariant Run(env, View(), stalls[i..]) == Run(env, m, stalls)
      {
        ghost var before := View();
        assert stalls[i..][1..] == stalls[i + 1..];
        Step(stalls[i], y);
        y := NextSim(env, before, y, stalls[i]);
        i := i + 1;
      }
    }
  }

  lemma FetchHeld(env: Env, m: Machine, miss: bool)
    ensures m.ifs != Empty ==> Pipeline.Fetch(env, m, miss) == m && !FetchStalls(m, miss)
  {
    hide Fetched;
  }

  lemma PortBelow(id: nat, w: PipelineRegs)
    requires Own(id, w)
    ensures w.wRegData != Null ==> w.dst < 32
  {
  }

  lemma MovableHere(env: Env, m: Machine, x: Sim, stall: Stall)
    requires Inv(env, m, x.s, x.t) && !Stalls(m, stall)
    ensures var v := Settle(env, Check(env, m, stall.fetchMiss));
            Shape(v) && Wiring(v) && v.ifs.Holds?
  {
    hide Inv, Ready, Shape, Wiring, Check, Settle, DataHazard, Pipeline.PreDecode, Stalls, Common, NoInterlock, Resumed, ResumedTags, AfterFetch;
    var c := Check(env, m, stall.fetchMiss);
    CheckStep(env, m, x.s, x.t, stall.fetchMiss);
    SettleStep(env, c, x.s, AfterFetch(m, x.t, stall.fetchMiss));
    InvShape(env, m, x.s, x.t);
    ReadyShape(env, c, x.s, AfterFetch(m, x.t, stall.fetchMiss));
    Movable(env, m, stall);
    ReadyShape(env, Settle(env, c), Resumed(env, c, x.s), ResumedTags(c, AfterFetch(m, x.t, stall.fetchMiss)));
    ReadyWiring(env, Settle(env, c), Resumed(env, c, x.s), ResumedTags(c, AfterFetch(m, x.t, stall.fetchMiss)));
  }

  lemma StoreOrLoad(i: Word)
    ensures !(IsStore(i) && IsLoad(i))
  {
  }

  /** The first n no-operations of a flush. */
  function Flushes(m: Machine, n: nat): Store {
    if n == 0 then m.recs else Flushes(m, n - 1)[m.nextId + n - 1 := Nop(m, m.nextId + n - 1)]
  }

  lemma FlushesAll(m: Machine)
    ensures var n := m.nextId;
            FlushStore(m) == Flushes(m, PIPELINE_STAGES)[n + 5 := Nop(m, n + 5)][n + 6 := Nop(m, n + 6)]
  {
    hide Nop;
    var n := m.nextId;
    assert Flushes(m, 1) == m.recs[n := Nop(m, n)];
    assert Flushes(m, 2) == Flushes(m, 1)[n + 1 := Nop(m, n + 1)];
    assert Flushes(m, 3) == Flushes(m, 2)[n + 2 := Nop(m, n + 2)];
    assert Flushes(m, 4) == Flushes(m, 3)[n + 3 := Nop(m, n + 3)];
    assert Flushes(m, 5) == Flushes(m, 4)[n + 4 := Nop(m, n + 4)];
  }

  // ---- the fields that pre_decode computes ----

  function OperandPtrA(r: PipelineRegs, e: PipelineRegs, m: PipelineRegs, w: PipelineRegs): Ptr {
    if FirstSource(r.instr) != NONE_REG then Bind(FirstSource(r.instr), e, m, w) else r.aluSrcA
  }

  function OperandPtrB(r: PipelineRegs, k: nat, e: PipelineRegs, m: PipelineRegs, w: PipelineRegs): Ptr {
    var i := r.instr;
    if SecondSource(i) != NONE_REG then Bind(SecondSource(i), e, m, w)
    else if UsesShamt(i) then ShamtOf(k)
    else if UsesImm(i) || UsesSignedImm(i) then ImmOf(k)
    else r.aluSrcB
  }

  function ShamtField(r: PipelineRegs): Word { if UsesShamt(r.instr) then Shamt(r.instr) else r.shamt }

  function ImmField(r: PipelineRegs): Word {
    if UsesImm(r.instr) || UsesSignedImm(r.instr) then ImmValue(r.instr) else r.imm
  }

  predicate ReadsMemory(r: PipelineRegs) { r.memReadOp || (Destination(r.instr) != NONE_REG && IsLoad(r.instr)) }

  function WritePort(r: PipelineRegs, k: nat): Ptr {
    if Destination(r.instr) == NONE_REG then r.wRegData else if IsLoad(r.instr) then MemDataOf(k) else ResultOf(k)
  }

  function InstrField(r: PipelineRegs): Word { if IsReserved(r.instr) then NOP_INSTR else r.instr }

  function ExcField(r: PipelineRegs): seq<Exc> { if IsReserved(r.instr) then r.excBuf + [RI] else r.excBuf }

  lemma PreDecodeFields(r: PipelineRegs, k: nat, e: PipelineRegs, m: PipelineRegs, w: PipelineRegs)
    ensures var i := r.instr;
            PreDecodeRec(r, k, e, m, w) ==
              r.(instr := InstrField(r), excBuf := ExcField(r),
                 srcA := FirstSource(i), srcB := SecondSource(i), dst := Destination(i),
                 aluSrcA := OperandPtrA(r, e, m, w), aluSrcB := OperandPtrB(r, k, e, m, w),
                 shamt := ShamtField(r), imm := ImmField(r),
                 lwrlPrev := if IsPartialLoad(i) then BindLate(Destination(i), e) else r.lwrlPrev,
                 memReadOp := ReadsMemory(r), wRegData := WritePort(r, k),
                 wMemData := if IsStore(i) then BindLate(Rt(i), e) else r.wMemData)
  {
    hide FirstSource, SecondSource, Destination, UsesShamt, UsesImm, UsesSignedImm, Bind, BindLate, Shamt, ImmValue,
         IsReserved, IsLoad, IsStore, IsPartialLoad, Rt;
  }

  lemma SpecialFields(i: Word)
    ensures Opcode(i) == OP_SPECIAL ==> !UsesImm(i) && !UsesSignedImm(i)
    ensures Opcode(i) != OP_SPECIAL ==> !UsesShamt(i)
  {
  }
}
