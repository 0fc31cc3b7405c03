/** The five-stage pipeline of CPU::step as functions on a value that holds
    every field the stages change.  PipelineRegs records live in a free store
    `recs`; a stage holds the number of its record, and the forwarding network
    consists of pointers into records. */
module Pipeline {
  import opened Isa
  import opened Sequential

  /** Where a uint32* of a PipelineRegs record can point. */
  datatype Ptr = Null | Gpr(n: nat) | ResultOf(id: nat) | MemDataOf(id: nat) | ImmOf(id: nat) | ShamtOf(id: nat)

  datatype PipelineRegs = PipelineRegs(
    pc: Word, instr: Word, srcA: nat, srcB: nat, dst: nat,
    aluSrcA: Ptr, aluSrcB: Ptr, wRegData: Ptr, wMemData: Ptr, lwrlPrev: Ptr,
    result: Word, rMemData: Word, imm: Word, shamt: Word,
    memReadOp: bool, delaySlot: bool, excBuf: seq<Exc>)

  /** The IF slot is empty while the fetch is outstanding. */
  datatype Slot = Empty | Holds(id: nat)

  type Store = map<nat, PipelineRegs>

  datatype Machine = Machine(
    pc: Word, reg: seq<Word>,
    hi: Word, lo: Word, hiTemp: Word, loTemp: Word, hiWrite: bool, loWrite: bool, mulDivRemain: nat,
    recs: Store, ifs: Slot, id: nat, ex: nat, mm: nat, wb: nat, late: nat, lateLate: nat, nextId: nat,
    excPending: bool, mem: Memory, epc: Word)

  function NewRec(id: nat, pc: Word, instr: Word): PipelineRegs {
    PipelineRegs(pc, instr, NONE_REG, NONE_REG, NONE_REG, ShamtOf(id), ShamtOf(id), Null, Null, Null,
                 0, 0, 0, 0, false, false, [])
  }

  /** A record that has been deleted reads as a fresh one.  `NoDangling` in
      PipelineTraps shows that no stage reads one, but for the old value of an
      LWL or LWR into register 0, which may come from anywhere. */
  function At(recs: Store, id: nat): PipelineRegs {
    if id in recs then recs[id] else NewRec(id, 0, NOP_INSTR)
  }

  function Deref(recs: Store, reg: seq<Word>, p: Ptr): Word {
    match p
    case Null => 0
    case Gpr(n) => Reg(reg, n)
    case ResultOf(id) => At(recs, id).result
    case MemDataOf(id) => At(recs, id).rMemData
    case ImmOf(id) => At(recs, id).imm
    case ShamtOf(id) => At(recs, id).shamt
  }

  // ---- decode: operand selection ----

  /** Forwarding priority: the youngest older writer of register r, else the
      register file. */
  function Bind(r: nat, e: PipelineRegs, m: PipelineRegs, w: PipelineRegs): Ptr {
    if r == e.dst then e.wRegData
    else if r == m.dst then m.wRegData
    else if r == w.dst then w.wRegData
    else Gpr(r)
  }

  /** Store data and the old value for LWL/LWR are read two stages later, so
      only the writer just ahead is forwarded. */
  function BindLate(r: nat, e: PipelineRegs): Ptr {
    if r == e.dst then e.wRegData else Gpr(r)
  }

  function PreDecodeRec(r: PipelineRegs, id: nat, e: PipelineRegs, m: PipelineRegs, w: PipelineRegs): PipelineRegs {
    var i := r.instr;
    var dst := Destination(i);
    r.(instr := if IsReserved(i) then NOP_INSTR else i,
       excBuf := if IsReserved(i) then r.excBuf + [RI] else r.excBuf,
       srcA := FirstSource(i),
       srcB := SecondSource(i),
       dst := dst,
       aluSrcA := if FirstSource(i) != NONE_REG then Bind(FirstSource(i), e, m, w) else r.aluSrcA,
       aluSrcB := if SecondSource(i) != NONE_REG then Bind(SecondSource(i), e, m, w)
                  else if UsesShamt(i) then ShamtOf(id)
                  else if UsesImm(i) || UsesSignedImm(i) then ImmOf(id)
                  else r.aluSrcB,
       shamt := if UsesShamt(i) then Shamt(i) else r.shamt,
       imm := if UsesImm(i) || UsesSignedImm(i) then ImmValue(i) else r.imm,
       lwrlPrev := if IsPartialLoad(i) then BindLate(dst, e) else r.lwrlPrev,
       memReadOp := r.memReadOp || (dst != NONE_REG && IsLoad(i)),
       wRegData := if dst == NONE_REG then r.wRegData else if IsLoad(i) then MemDataOf(id) else ResultOf(id),
       wMemData := if IsStore(i) then BindLate(Rt(i), e) else r.wMemData)
  }

  function PreDecode(m: Machine): Machine {
    var d := PreDecodeRec(At(m.recs, m.id), m.id, At(m.recs, m.ex), At(m.recs, m.mm), At(m.recs, m.wb));
    m.(recs := m.recs[m.id := d])
  }

  /** Record d needs a value that the load in record e has not fetched yet. */
  predicate LoadUse(d: PipelineRegs, e: PipelineRegs) {
    e.memReadOp && ((d.srcA != NONE_REG && d.srcA == e.dst) || (d.srcB != NONE_REG && d.srcB == e.dst))
  }

  predicate DataHazard(m: Machine) { LoadUse(At(m.recs, m.id), At(m.recs, m.ex)) }

  // ---- the other checks made before anything moves ----

  function PreMemAccess(m: Machine): Machine {
    var r := At(m.recs, m.mm);
    if MemFault(r.instr, r.result) then m.(recs := m.recs[m.mm := r.(excBuf := r.excBuf + [AdEL])]) else m
  }

  predicate Interlock(m: Machine) { IsMulDiv(At(m.recs, m.ex).instr) && m.mulDivRemain > 0 }

  /** A new record enters the empty IF slot. */
  function Fill(m: Machine, r: PipelineRegs): Machine {
    m.(recs := m.recs[m.nextId := r], ifs := Holds(m.nextId), nextId := m.nextId + 1)
  }

  /** The record fetched at the current address: a misaligned address yields a
      no-operation that carries the exception. */
  function Fetched(env: Env, m: Machine): PipelineRegs {
    if m.pc & 3 != 0 then NewRec(m.nextId, m.pc, NOP_INSTR).(excBuf := [AdEL])
    else NewRec(m.nextId, m.pc, env.prog(m.pc))
  }

  predicate FetchFills(m: Machine, miss: bool) { m.ifs == Empty && (m.pc & 3 != 0 || !miss) }

  /** Fetch, the memory system answering `miss`. */
  function Fetch(env: Env, m: Machine, miss: bool): Machine {
    if FetchFills(m, miss) then Fill(m, Fetched(env, m)) else m
  }

  /** A misaligned fetch fills the slot but still counts as a miss. */
  predicate FetchStalls(m: Machine, miss: bool) { m.ifs == Empty && (m.pc & 3 != 0 || miss) }

  // ---- exceptions ----

  function Nop(m: Machine, id: nat): PipelineRegs { NewRec(id, Following(m.pc), NOP_INSTR) }

  function FlushStore(m: Machine): Store {
    var n := m.nextId;
    m.recs[n := Nop(m, n)][n + 1 := Nop(m, n + 1)][n + 2 := Nop(m, n + 2)][n + 3 := Nop(m, n + 3)]
          [n + 4 := Nop(m, n + 4)][n + 5 := Nop(m, n + 5)][n + 6 := Nop(m, n + 6)]
  }

  /** Seven fresh no-operations fill the stages and the two spare slots. */
  function Volatilize(m: Machine): Machine {
    var n := m.nextId;
    m.(recs := FlushStore(m),
       ifs := Holds(n), id := n + 1, ex := n + 2, mm := n + 3, wb := n + 4, late := n + 5, lateLate := n + 6,
       nextId := n + 7)
  }

  predicate TrapFires(m: Machine) { At(m.recs, m.wb).excBuf != [] }

  function ExcHandle(env: Env, m: Machine): Machine {
    if TrapFires(m) then
      var w := At(m.recs, m.wb);
      Volatilize(m.(epc := if w.delaySlot then w.pc - 4 else w.pc, pc := env.vector - 4))
    else m
  }

  // ---- the HI/LO unit's clock ----

  function TickMulDiv(m: Machine): Machine {
    var due := m.mulDivRemain == 1;
    m.(mulDivRemain := if m.mulDivRemain == 0 then 0 else m.mulDivRemain - 1,
       hi := if due && m.hiWrite then m.hiTemp else m.hi,
       lo := if due && m.loWrite then m.loTemp else m.lo,
       hiWrite := m.hiWrite && !due,
       loWrite := m.loWrite && !due)
  }

  // ---- the stages proper ----

  function CommittedRegs(m: Machine): seq<Word> {
    var w := At(m.recs, m.wb);
    if w.wRegData == Null then m.reg else WriteReg(m.reg, w.dst, Deref(m.recs, m.reg, w.wRegData))
  }

  function RegCommit(m: Machine): Machine { m.(reg := CommittedRegs(m)) }

  /** The r_mem_data field of the record in MEM after its data access. */
  function MemData(env: Env, m: Machine): Word {
    var r := At(m.recs, m.mm);
    if IsLoad(r.instr) then LoadValue(env.bigEndian, r.instr, m.mem, r.result, Deref(m.recs, m.reg, r.lwrlPrev))
    else r.rMemData
  }

  function MemRec(env: Env, m: Machine): PipelineRegs { At(m.recs, m.mm).(rMemData := MemData(env, m)) }

  /** A store with a pending exception is suppressed; a misaligned load raises
      once more, and the exception is left for the next stage to collect. */
  function MemAccess(env: Env, m: Machine): Machine {
    var r := At(m.recs, m.mm);
    m.(recs := m.recs[m.mm := MemRec(env, m)],
       mem := if IsStore(r.instr) && r.excBuf == []
              then StoreEffect(env.bigEndian, r.instr, m.mem, r.result, Deref(m.recs, m.reg, r.wMemData))
              else m.mem,
       excPending := if IsLoad(r.instr) then MemFault(r.instr, r.result) else m.excPending)
  }

  /** The exception that the record in EX collects: its own, or else the one
      that the data access has left pending. */
  function CollectedExc(i: Word, a: Word, b: Word, pending: bool): seq<Exc> {
    if ExecRaises(i, a, b) then [ExecException(i)] else if pending then [AdEL] else []
  }

  function ExecRec(m: Machine): PipelineRegs {
    var r := At(m.recs, m.ex);
    var a := Deref(m.recs, m.reg, r.aluSrcA);
    var b := Deref(m.recs, m.reg, r.aluSrcB);
    r.(result := ExecResult(r.instr, a, b, r.result, m.hi, m.lo),
       excBuf := r.excBuf + CollectedExc(r.instr, a, b, m.excPending))
  }

  function PendingHi(i: Word, a: Word, b: Word, old_: Word): Word { if WritesHi(i) then HiValue(i, a, b) else old_ }

  function PendingLo(i: Word, a: Word, b: Word, old_: Word): Word { if WritesLo(i) then LoValue(i, a, b) else old_ }

  function Execute(m: Machine): Machine {
    var r := At(m.recs, m.ex);
    var i := r.instr;
    var a := Deref(m.recs, m.reg, r.aluSrcA);
    var b := Deref(m.recs, m.reg, r.aluSrcB);
    m.(recs := m.recs[m.ex := ExecRec(m)],
       hiTemp := PendingHi(i, a, b, m.hiTemp),
       loTemp := PendingLo(i, a, b, m.loTemp),
       hiWrite := m.hiWrite || WritesHi(i),
       loWrite := m.loWrite || WritesLo(i),
       mulDivRemain := if IsMulDiv(i) then MulDivDelay(Funct(i)) else m.mulDivRemain,
       excPending := false)
  }

  predicate Redirects(m: Machine) {
    var r := At(m.recs, m.id);
    Taken(r.instr, Deref(m.recs, m.reg, r.aluSrcA), Deref(m.recs, m.reg, r.aluSrcB)) && m.ifs.Holds?
  }

  function DecodeRec(r: PipelineRegs): PipelineRegs {
    r.(result := if IsLink(r.instr) then r.pc + 8 else r.result)
  }

  /** Branches resolve here, after the older stages have produced their values. */
  function Decode(m: Machine): Machine {
    var r := At(m.recs, m.id);
    var recs := m.recs[m.id := DecodeRec(r)];
    m.(pc := if Redirects(m) then RedirectPc(r.instr, r.pc, Deref(m.recs, m.reg, r.aluSrcA), r.imm) else m.pc,
       recs := if Redirects(m) then recs[m.ifs.id := At(recs, m.ifs.id).(delaySlot := true)] else recs)
  }

  /** The record that left WB two moves ago is deleted. */
  function Rotate(m: Machine): Machine {
    m.(recs := m.recs - {m.lateLate}, lateLate := m.late, late := m.wb, wb := m.mm, mm := m.ex)
  }

  function Advance(m: Machine): Machine {
    if m.ifs == Empty then m
    else Rotate(m).(ex := m.id, id := m.ifs.id, pc := Following(m.pc), ifs := Empty)
  }

  function InsertBubble(m: Machine): Machine {
    var r := Rotate(m);
    r.(recs := r.recs[m.nextId := NewRec(m.nextId, m.pc, NOP_INSTR)], ex := m.nextId, nextId := m.nextId + 1)
  }

  /** Everything up to the decision whether the pipeline moves. */
  function Check(env: Env, m: Machine, fetchMiss: bool): Machine {
    Fetch(env, PreMemAccess(PreDecode(m)), fetchMiss)
  }

  function Settle(env: Env, m: Machine): Machine { TickMulDiv(ExcHandle(env, m)) }

  function Move(env: Env, m: Machine, hazard: bool): Machine {
    var done := Execute(MemAccess(env, RegCommit(m)));
    if hazard then InsertBubble(done) else Advance(Decode(done))
  }

  /** The answers of the memory system in one cycle. */
  datatype Stall = Stall(fetchMiss: bool, dataMiss: bool)

  predicate Stalls(m: Machine, stall: Stall) {
    Interlock(m) || stall.dataMiss || FetchStalls(m, stall.fetchMiss)
  }

  /** One clock cycle. */
  function Cycle(env: Env, m: Machine, stall: Stall): Machine {
    var checked := Check(env, m, stall.fetchMiss);
    var settled := Settle(env, checked);
    if Stalls(m, stall) then settled else Move(env, settled, DataHazard(PreDecode(m)))
  }
}
