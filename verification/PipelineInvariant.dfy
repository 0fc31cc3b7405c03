/** What holds of every pipeline state between two clock cycles, relative to the
    sequential state `s` reached by the instructions that have left WB.  The
    states the instructions in the stages start from are s, S1, S2, S3: each
    follows from the one before by executing the stage ahead. */
module PipelineInvariant {
  import opened Isa
  import opened Sequential
  import opened Pipeline

  /** Which stages hold an instruction of the run, rather than a bubble. */
  datatype Tags = Tags(w: bool, m: bool, e: bool, d: bool, f: bool)

  function After(env: Env, live: bool, s: Arch): Arch { if live then Sequential.Step(env, s) else s }

  function S1(env: Env, s: Arch, t: Tags): Arch { After(env, t.w, s) }

  function S2(env: Env, s: Arch, t: Tags): Arch { After(env, t.m, S1(env, s, t)) }

  function S3(env: Env, s: Arch, t: Tags): Arch { After(env, t.e, S2(env, s, t)) }

  /** The stage holds no trapping instruction, so what follows it is not flushed. */
  predicate Clean(env: Env, live: bool, s: Arch) { !(live && Traps(env, s)) }

  predicate CleanM(env: Env, s: Arch, t: Tags) { Clean(env, t.w, s) }

  predicate CleanE(env: Env, s: Arch, t: Tags) { CleanM(env, s, t) && Clean(env, t.m, S1(env, s, t)) }

  predicate CleanD(env: Env, s: Arch, t: Tags) { CleanE(env, s, t) && Clean(env, t.e, S2(env, s, t)) }

  // ---- shape: the records in use are distinct, live and older than nextId ----

  predicate Separate(m: Machine) {
    && m.wb != m.mm && m.wb != m.ex && m.wb != m.id && m.wb != m.late && m.wb != m.lateLate
    && m.mm != m.ex && m.mm != m.id && m.mm != m.late && m.mm != m.lateLate
    && m.ex != m.id && m.ex != m.late && m.ex != m.lateLate
    && m.id != m.late && m.id != m.lateLate && m.late != m.lateLate
    && (m.ifs.Holds? ==>
          m.ifs.id != m.wb && m.ifs.id != m.mm && m.ifs.id != m.ex && m.ifs.id != m.id
          && m.ifs.id != m.late && m.ifs.id != m.lateLate)
  }

  predicate Allocated(m: Machine) {
    && {m.wb, m.mm, m.ex, m.id, m.late, m.lateLate} <= m.recs.Keys
    && (m.ifs.Holds? ==> m.ifs.id in m.recs)
    && (forall k :: k in m.recs ==> k < m.nextId)
  }

  predicate Shape(m: Machine) {
    Separate(m) && Allocated(m) && |m.reg| == 32 && m.reg[0] == 0
  }

  // ---- single records ----

  function Produced(r: PipelineRegs): Word { if r.memReadOp then r.rMemData else r.result }

  /** A record forwards from its own fields, and only if it has a destination. */
  predicate Own(id: nat, r: PipelineRegs) {
    if r.dst == NONE_REG then r.wRegData == Null
    else 0 < r.dst < NONE_REG && r.wRegData == if r.memReadOp then MemDataOf(id) else ResultOf(id)
  }

  predicate Quiet(r: PipelineRegs) { r.instr == NOP_INSTR && r.dst == NONE_REG && !r.memReadOp }

  /** What fetch, or an earlier pre_decode of the same record, left behind. */
  predicate Untouched(id: nat, r: PipelineRegs) {
    var i := r.instr;
    && r.result == 0
    && (FirstSource(i) == NONE_REG ==> r.aluSrcA == ShamtOf(id))
    && (SecondSource(i) == NONE_REG ==>
          r.aluSrcB == ShamtOf(id) || ((UsesImm(i) || UsesSignedImm(i)) && r.aluSrcB == ImmOf(id)))
    && (Destination(i) == NONE_REG ==> r.wRegData == Null)
    && (r.memReadOp ==> Destination(i) != NONE_REG && IsLoad(i))
    && (!UsesShamt(i) ==> r.shamt == 0)
    && (!(UsesImm(i) || UsesSignedImm(i)) ==> r.imm == 0)
  }

  predicate PointsInto(p: Ptr, ids: set<nat>) {
    match p
    case Null => false
    case Gpr(n) => n < 32
    case ResultOf(id) => id in ids
    case MemDataOf(id) => id in ids
    case ImmOf(id) => id in ids
    case ShamtOf(id) => id in ids
  }

  /** The record's operands are those of the instruction at s.pc, bound to the
      three records ahead of it. */
  predicate Bound(env: Env, r: PipelineRegs, id: nat, e: PipelineRegs, m: PipelineRegs, w: PipelineRegs, s: Arch) {
    var i := Instr(env, s);
    && r.instr == i
    && r.srcA == FirstSource(i) && r.srcB == SecondSource(i) && r.dst == Destination(i)
    && r.memReadOp == (r.dst != NONE_REG && IsLoad(i))
    && r.shamt == ShamtValue(i) && r.imm == ImmValue(i)
    && r.aluSrcA == (if r.srcA != NONE_REG then Bind(r.srcA, e, m, w) else ShamtOf(id))
    && r.aluSrcB == (if r.srcB != NONE_REG then Bind(r.srcB, e, m, w)
                     else if UsesImm(i) || UsesSignedImm(i) then ImmOf(id) else ShamtOf(id))
    && BoundLate(r, e)
  }

  predicate BoundLate(r: PipelineRegs, e: PipelineRegs) {
    && (IsStore(r.instr) ==> r.wMemData == BindLate(Rt(r.instr), e))
    && (IsPartialLoad(r.instr) ==> r.lwrlPrev == BindLate(r.dst, e))
  }

  predicate Placed(r: PipelineRegs, s: Arch) { r.pc == s.pc && r.delaySlot == s.inSlot }

  // ---- the stages ----

  predicate WbOk(env: Env, w: PipelineRegs, s: Arch, live: bool) {
    if live then
      && Placed(w, s)
      && (w.excBuf != [] <==> Traps(env, s))
      && (!Traps(env, s) ==>
            w.dst == Destination(Instr(env, s)) && (w.dst != NONE_REG ==> Produced(w) == Value(env, s)))
    else Quiet(w) && w.excBuf == []
  }

  predicate MemCore(env: Env, m: PipelineRegs, w: PipelineRegs, s: Arch) {
    && m.instr == Instr(env, s)
    && m.dst == Destination(m.instr)
    && m.memReadOp == (m.dst != NONE_REG && IsLoad(m.instr))
    && m.result == Result(env, s)
    && BoundLate(m, w)
  }

  predicate MemOk(env: Env, m: PipelineRegs, w: PipelineRegs, s: Arch, live: bool) {
    if live then
      && Placed(m, s)
      && (ExecTraps(env, s) ==> m.excBuf != [])
      && (m.excBuf != [] ==> Traps(env, s))
      && (!FrontFault(env, s) ==> MemCore(env, m, w, s))
      && (FrontFault(env, s) ==> Quiet(m))
    else Quiet(m) && m.excBuf == []
  }

  predicate MemReady(env: Env, m: PipelineRegs, w: PipelineRegs, s: Arch, live: bool) {
    MemOk(env, m, w, s, live) && (live ==> (m.excBuf != [] <==> Traps(env, s)))
  }

  predicate ExOk(env: Env, e: PipelineRegs, id: nat, m: PipelineRegs, w: PipelineRegs, l: PipelineRegs,
                 s: Arch, live: bool) {
    if live then
      && Placed(e, s)
      && (e.excBuf != [] <==> FrontFault(env, s))
      && (FrontFault(env, s) ==> Quiet(e))
      && (!FrontFault(env, s) ==> Bound(env, e, id, m, w, l, s) && e.result == LinkValue(e.instr, s.pc))
    else Quiet(e) && e.excBuf == []
  }

  /** The record in ID before pre_decode of this cycle. */
  predicate IdOk(env: Env, d: PipelineRegs, s: Arch, live: bool) {
    if live then
      && Placed(d, s)
      && (d.excBuf == [] ==> !FetchFault(s) && d.instr == Instr(env, s))
      && (d.excBuf != [] ==> FrontFault(env, s) && d.instr == NOP_INSTR)
    else d.instr == NOP_INSTR && d.excBuf == []
  }

  /** The record in ID after pre_decode. */
  predicate IdReady(env: Env, d: PipelineRegs, id: nat, e: PipelineRegs, m: PipelineRegs, w: PipelineRegs,
                    s: Arch, live: bool) {
    if live then
      && Placed(d, s)
      && (d.excBuf != [] <==> FrontFault(env, s))
      && (FrontFault(env, s) ==> Quiet(d))
      && (!FrontFault(env, s) ==> Bound(env, d, id, e, m, w, s))
    else Quiet(d) && d.excBuf == []
  }

  /** The fetch address follows the instruction in ID, before any redirection. */
  predicate FetchOk(env: Env, m: Machine, s: Arch, t: Tags) {
    && (!t.d ==> s.npc == Following(s.pc) && !s.inSlot)
    && match m.ifs
       case Empty => m.pc == if t.d then s.npc else s.pc
       case Holds(k) =>
         var f := At(m.recs, k);
         && !f.delaySlot
         && if t.f then
              && m.pc == (if t.d then s.npc else s.pc)
              && f.pc == m.pc
              && (f.excBuf == [] ==> m.pc & 3 == 0 && f.instr == env.prog(m.pc))
              && (f.excBuf != [] ==> m.pc & 3 != 0 && f.instr == NOP_INSTR)
            else !t.d && Following(m.pc) == s.pc && f.instr == NOP_INSTR && f.excBuf == []
  }

  /** HI and LO as the finished instructions left them, pending results included. */
  function ArchHi(m: Machine): Word { if m.hiWrite then m.hiTemp else m.hi }

  function ArchLo(m: Machine): Word { if m.loWrite then m.loTemp else m.lo }

  // ---- the invariant ----

  predicate Wiring(m: Machine) {
    && Own(m.wb, At(m.recs, m.wb)) && Own(m.mm, At(m.recs, m.mm))
    && Own(m.ex, At(m.recs, m.ex)) && Own(m.late, At(m.recs, m.late))
    && PointsInto(At(m.recs, m.ex).aluSrcA, {m.ex, m.mm, m.wb, m.late})
    && PointsInto(At(m.recs, m.ex).aluSrcB, {m.ex, m.mm, m.wb, m.late})
    && (m.ifs.Holds? ==> Untouched(m.ifs.id, At(m.recs, m.ifs.id)))
  }

  /** The record that just left WB still holds the value it committed. */
  predicate LateOk(m: Machine) {
    var l := At(m.recs, m.late);
    l.dst != NONE_REG ==> l.dst < |m.reg| && Produced(l) == m.reg[l.dst]
  }

  predicate HiLoIdle(m: Machine) { m.mulDivRemain == 0 ==> !m.hiWrite && !m.loWrite }

  predicate Common(env: Env, m: Machine, s: Arch, t: Tags) {
    && Shape(m) && Wiring(m) && LateOk(m) && HiLoIdle(m)
    && !m.excPending
    && m.reg == s.regs && m.epc == s.epc && m.mem == S1(env, s, t).mem
    && WbOk(env, At(m.recs, m.wb), s, t.w)
    && (CleanM(env, s, t) ==> ArchHi(m) == S2(env, s, t).hi && ArchLo(m) == S2(env, s, t).lo)
    && (CleanE(env, s, t) ==>
          ExOk(env, At(m.recs, m.ex), m.ex, At(m.recs, m.mm), At(m.recs, m.wb), At(m.recs, m.late),
               S2(env, s, t), t.e))
    && (CleanD(env, s, t) ==> FetchOk(env, m, S3(env, s, t), t))
  }

  /** Between two cycles. */
  predicate Inv(env: Env, m: Machine, s: Arch, t: Tags) {
    && Common(env, m, s, t)
    && Untouched(m.id, At(m.recs, m.id))
    && (CleanM(env, s, t) ==> MemOk(env, At(m.recs, m.mm), At(m.recs, m.wb), S1(env, s, t), t.m))
    && (CleanD(env, s, t) ==> IdOk(env, At(m.recs, m.id), S3(env, s, t), t.d))
  }

  /** After the checks of a cycle, when the pipeline may move. */
  predicate Ready(env: Env, m: Machine, s: Arch, t: Tags) {
    && Common(env, m, s, t)
    && Own(m.id, At(m.recs, m.id)) && Untouched(m.id, At(m.recs, m.id))
    && PointsInto(At(m.recs, m.id).aluSrcA, {m.id, m.ex, m.mm, m.wb})
    && PointsInto(At(m.recs, m.id).aluSrcB, {m.id, m.ex, m.mm, m.wb})
    && (CleanM(env, s, t) ==> MemReady(env, At(m.recs, m.mm), At(m.recs, m.wb), S1(env, s, t), t.m))
    && (CleanD(env, s, t) ==>
          IdReady(env, At(m.recs, m.id), m.id, At(m.recs, m.ex), At(m.recs, m.mm), At(m.recs, m.wb),
                  S3(env, s, t), t.d))
  }
}
