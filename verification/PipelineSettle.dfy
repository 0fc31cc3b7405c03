/** Exceptions and the HI/LO clock, the part of a cycle between the checks and
    the stages. */
module PipelineSettle {
  import opened Isa
  import opened Sequential
  import opened Pipeline
  import opened PipelineInvariant
  import opened PipelineChecks

  const NO_TAGS := Tags(false, false, false, false, false)

  /** The sequential state from which the handler starts: HI and LO are those of
      the pipeline, which may have started a younger HI/LO operation. */
  function TrapState(env: Env, m: Machine, s: Arch): Arch {
    TrapEntry(env, s).(hi := ArchHi(m), lo := ArchLo(m))
  }

  lemma TrapCause(env: Env, m: Machine, s: Arch, t: Tags)
    requires Ready(env, m, s, t)
    ensures TrapFires(m) <==> t.w && Traps(env, s)
    ensures TrapFires(m) ==> Placed(At(m.recs, m.wb), s) && m.mem == s.mem && m.reg == s.regs
  {
    hide Shape, Wiring, LateOk, HiLoIdle, ExOk, FetchOk, S2, S3, CleanE, CleanD, MemReady, IdReady, Own, Untouched,
         PointsInto, At, ExecTraps, MemFault, NextMem, NextRegs, NextHi, NextLo, NextNpc, TakesBranch, Quiet;
  }

  /** Enough for a flush: a register file, and record numbers that are still free. */
  predicate Flushable(m: Machine) {
    |m.reg| == 32 && m.reg[0] == 0 && forall k :: k in m.recs ==> k < m.nextId
  }

  lemma VolatilizeShape(m: Machine)
    requires Flushable(m)
    ensures var v := Volatilize(m);
            && Shape(v)
            && At(v.recs, v.wb) == Nop(m, v.wb) && At(v.recs, v.mm) == Nop(m, v.mm) && At(v.recs, v.ex) == Nop(m, v.ex)
            && At(v.recs, v.id) == Nop(m, v.id) && At(v.recs, v.late) == Nop(m, v.late)
            && v.ifs.Holds? && At(v.recs, v.ifs.id) == Nop(m, v.ifs.id)
  {
    hide Nop, NewRec;
  }

  lemma NopRecord(m: Machine, id: nat)
    ensures var r := Nop(m, id);
            && Own(id, r) && Untouched(id, r) && Quiet(r) && r.excBuf == [] && r.result == 0 && !r.delaySlot
            && r.aluSrcA == ShamtOf(id) && r.aluSrcB == ShamtOf(id)
  {
    hide FirstSource, SecondSource, Destination, UsesImm, UsesSignedImm, UsesShamt, IsLoad;
  }

  lemma VolatilizeWiring(m: Machine)
    requires Flushable(m)
    ensures var v := Volatilize(m);
            && Wiring(v) && LateOk(v)
            && Own(v.id, At(v.recs, v.id)) && Untouched(v.id, At(v.recs, v.id))
            && PointsInto(At(v.recs, v.id).aluSrcA, {v.id, v.ex, v.mm, v.wb})
            && PointsInto(At(v.recs, v.id).aluSrcB, {v.id, v.ex, v.mm, v.wb})
            && Quiet(At(v.recs, v.wb)) && Quiet(At(v.recs, v.mm)) && Quiet(At(v.recs, v.ex)) && Quiet(At(v.recs, v.id))
            && At(v.recs, v.wb).excBuf == [] && At(v.recs, v.mm).excBuf == []
            && At(v.recs, v.ex).excBuf == [] && At(v.recs, v.id).excBuf == []
            && v.ifs.Holds? && !At(v.recs, v.ifs.id).delaySlot
            && At(v.recs, v.ifs.id).instr == NOP_INSTR && At(v.recs, v.ifs.id).excBuf == []
  {
    hide Nop, NewRec, Untouched, At, Shape, Flushable;
    var v := Volatilize(m);
    VolatilizeShape(m);
    NopRecord(m, v.wb);
    NopRecord(m, v.mm);
    NopRecord(m, v.ex);
    NopRecord(m, v.id);
    NopRecord(m, v.late);
    NopRecord(m, v.ifs.id);
  }

  lemma NoTagsChain(env: Env, s: Arch)
    ensures S1(env, s, NO_TAGS) == s && S2(env, s, NO_TAGS) == s && S3(env, s, NO_TAGS) == s
  {
  }

  /** Everything but the records: registers, memory and HI/LO are those of the
      trapping instruction's start, and EPC is its restart address. */
  lemma TrapFields(env: Env, m: Machine, s: Arch, t: Tags)
    requires Ready(env, m, s, t) && TrapFires(m)
    ensures var v := ExcHandle(env, m);
            var u := TrapState(env, m, s);
            && v.reg == u.regs && v.mem == u.mem && v.epc == u.epc
            && ArchHi(v) == u.hi && ArchLo(v) == u.lo && HiLoIdle(v) && !v.excPending
  {
    hide ExcHandle, TrapFires, Ready, Common, At, Traps, Epc, Placed;
    TrapCause(env, m, s, t);
    Restart(At(m.recs, m.wb), s);
    TrapKeeps(env, m);
    ReadyIdle(env, m, s, t);
  }

  lemma TrapAddress(env: Env, m: Machine, s: Arch)
    requires TrapFires(m)
    ensures Following(ExcHandle(env, m).pc) == TrapState(env, m, s).pc
  {
    hide ExcHandle, At, TrapFires;
    TrapKeeps(env, m);
  }

  lemma TrapTarget(env: Env, m: Machine, s: Arch)
    ensures var u := TrapState(env, m, s); u.npc == Following(u.pc) && !u.inSlot
  {
    hide ArchHi, ArchLo, Epc;
  }

  lemma Restart(w: PipelineRegs, s: Arch)
    requires Placed(w, s)
    ensures (if w.delaySlot then w.pc - 4 else w.pc) == Epc(s)
  {
  }

  lemma ReadyIdle(env: Env, m: Machine, s: Arch, t: Tags)
    requires Ready(env, m, s, t)
    ensures HiLoIdle(m) && !m.excPending && m.reg == s.regs && m.epc == s.epc && m.mem == S1(env, s, t).mem
  {
    hide Shape, Wiring, LateOk, WbOk, ExOk, FetchOk, S1, S2, S3, CleanM, CleanE, CleanD, MemReady, IdReady, Own,
         Untouched, PointsInto, At, HiLoIdle, ArchHi, ArchLo;
  }

  lemma TrapKeeps(env: Env, m: Machine)
    requires TrapFires(m)
    ensures var v := ExcHandle(env, m);
            var w := At(m.recs, m.wb);
            && v.reg == m.reg && v.mem == m.mem && Following(v.pc) == env.vector
            && v.epc == (if w.delaySlot then w.pc - 4 else w.pc)
            && v.hi == m.hi && v.lo == m.lo && v.hiTemp == m.hiTemp && v.loTemp == m.loTemp
            && v.hiWrite == m.hiWrite && v.loWrite == m.loWrite && v.mulDivRemain == m.mulDivRemain
            && v.excPending == m.excPending
  {
    hide At, Nop;
  }

  lemma FlushableAt(m: Machine, n: Machine)
    requires Shape(m) && n == m.(epc := n.epc, pc := n.pc)
    ensures Flushable(n)
  {
  }

  /** Every stage holds a harmless no-operation. */
  predicate Flushed(v: Machine) {
    && Shape(v) && Wiring(v) && LateOk(v)
    && Own(v.id, At(v.recs, v.id)) && Untouched(v.id, At(v.recs, v.id))
    && PointsInto(At(v.recs, v.id).aluSrcA, {v.id, v.ex, v.mm, v.wb})
    && PointsInto(At(v.recs, v.id).aluSrcB, {v.id, v.ex, v.mm, v.wb})
    && Quiet(At(v.recs, v.wb)) && Quiet(At(v.recs, v.mm)) && Quiet(At(v.recs, v.ex)) && Quiet(At(v.recs, v.id))
    && At(v.recs, v.wb).excBuf == [] && At(v.recs, v.mm).excBuf == []
    && At(v.recs, v.ex).excBuf == [] && At(v.recs, v.id).excBuf == []
    && v.ifs.Holds? && !At(v.recs, v.ifs.id).delaySlot
    && At(v.recs, v.ifs.id).instr == NOP_INSTR && At(v.recs, v.ifs.id).excBuf == []
  }

  lemma TrapRecords(env: Env, m: Machine)
    requires Shape(m) && TrapFires(m)
    ensures Flushed(ExcHandle(env, m))
  {
    hide Volatilize, Shape, Flushable, Wiring, LateOk, Own, Untouched, PointsInto, Quiet;
    var w := At(m.recs, m.wb);
    var n := m.(epc := if w.delaySlot then w.pc - 4 else w.pc, pc := env.vector - 4);
    FlushableAt(m, n);
    VolatilizeWiring(n);
    VolatilizeShape(n);
  }

  /** The registers, the memory and the fetch address of v are those of u. */
  predicate StartsAt(v: Machine, u: Arch) {
    && v.reg == u.regs && v.mem == u.mem && v.epc == u.epc
    && ArchHi(v) == u.hi && ArchLo(v) == u.lo && HiLoIdle(v) && !v.excPending
    && Following(v.pc) == u.pc && u.npc == Following(u.pc) && !u.inSlot
  }

  lemma FlushedCommon(env: Env, v: Machine, u: Arch)
    requires Flushed(v) && StartsAt(v, u)
    ensures Common(env, v, u, NO_TAGS)
  {
    hide Shape, Wiring, LateOk, At, Own, Untouched, PointsInto, S1, S2, S3, Quiet, Traps,
         HiLoIdle, ArchHi, ArchLo, Placed, CleanM, CleanE, CleanD, Following;
    NoTagsChain(env, u);
  }

  /** An empty pipeline about to fetch u's instruction represents u. */
  lemma FlushedReady(env: Env, v: Machine, u: Arch)
    requires Flushed(v) && StartsAt(v, u)
    ensures Ready(env, v, u, NO_TAGS)
  {
    hide Shape, Wiring, LateOk, At, Own, Untouched, PointsInto, S1, S2, S3, Quiet, Traps,
         HiLoIdle, ArchHi, ArchLo, Placed, CleanM, CleanE, CleanD, Following, Common;
    NoTagsChain(env, u);
    FlushedCommon(env, v, u);
  }

  /** An exception in WB leaves the pipeline empty at the handler's first
      instruction, with the state the trapping instruction started from. */
  lemma TrapStep(env: Env, m: Machine, s: Arch, t: Tags)
    requires Ready(env, m, s, t) && TrapFires(m)
    ensures Ready(env, ExcHandle(env, m), TrapState(env, m, s), NO_TAGS)
  {
    hide Ready, ExcHandle, TrapState, ArchHi, ArchLo, TrapFires, Flushed, Common, HiLoIdle, Following, Shape;
    ReadyShape(env, m, s, t);
    TrapRecords(env, m);
    TrapFields(env, m, s, t);
    TrapAddress(env, m, s);
    TrapTarget(env, m, s);
    FlushedReady(env, ExcHandle(env, m), TrapState(env, m, s));
  }

  lemma ReadyShape(env: Env, m: Machine, s: Arch, t: Tags)
    requires Ready(env, m, s, t)
    ensures Common(env, m, s, t) && Shape(m)
  {
    hide Common, Shape, Own, Untouched, At, PointsInto, MemReady, IdReady, CleanM, CleanD, S1, S2, S3;
    CommonShape(env, m, s, t);
  }

  // ---- the HI/LO unit's clock ----

  /** The clock touches nothing but the HI/LO unit. */
  lemma TickFrame(m: Machine)
    ensures var v := TickMulDiv(m);
            && v == m.(hi := v.hi, lo := v.lo, hiWrite := v.hiWrite, loWrite := v.loWrite, mulDivRemain := v.mulDivRemain)
  {
  }

  lemma HiLoAside(env: Env, m: Machine, v: Machine, s: Arch, t: Tags)
    requires v == m.(hi := v.hi, lo := v.lo, hiWrite := v.hiWrite, loWrite := v.loWrite, mulDivRemain := v.mulDivRemain)
    ensures Shape(v) == Shape(m) && Wiring(v) == Wiring(m) && LateOk(v) == LateOk(m)
    ensures FetchOk(env, v, s, t) == FetchOk(env, m, s, t)
  {
    hide Own, Untouched, PointsInto, At, Produced;
  }

  /** A result that becomes due moves from the pending to the visible register. */
  lemma TickHiLo(m: Machine)
    requires HiLoIdle(m)
    ensures HiLoIdle(TickMulDiv(m)) && ArchHi(TickMulDiv(m)) == ArchHi(m)
    ensures ArchLo(TickMulDiv(m)) == ArchLo(m)
  {
  }

  lemma TickStep(env: Env, m: Machine, s: Arch, t: Tags)
    requires Ready(env, m, s, t)
    ensures Ready(env, TickMulDiv(m), s, t)
  {
    hide Shape, Wiring, LateOk, WbOk, ExOk, FetchOk, S1, S2, S3, CleanM, CleanE, CleanD, MemReady, IdReady, Own,
         Untouched, PointsInto, At, HiLoIdle, ArchHi, ArchLo, TickMulDiv;
    CommonIdle(env, m, s, t);
    TickFrame(m);
    HiLoAside(env, m, TickMulDiv(m), S3(env, s, t), t);
    TickHiLo(m);
  }

  lemma CommonIdle(env: Env, m: Machine, s: Arch, t: Tags)
    requires Ready(env, m, s, t)
    ensures HiLoIdle(m)
  {
    hide Shape, Wiring, LateOk, WbOk, ExOk, FetchOk, S1, S2, S3, CleanM, CleanE, CleanD, MemReady, IdReady, Own,
         Untouched, PointsInto, At, HiLoIdle;
  }

  // ---- both together ----

  function Resumed(env: Env, m: Machine, s: Arch): Arch { if TrapFires(m) then TrapState(env, m, s) else s }

  function ResumedTags(m: Machine, t: Tags): Tags { if TrapFires(m) then NO_TAGS else t }

  lemma SettleStep(env: Env, m: Machine, s: Arch, t: Tags)
    requires Ready(env, m, s, t)
    ensures Ready(env, Settle(env, m), Resumed(env, m, s), ResumedTags(m, t))
    ensures CleanM(env, Resumed(env, m, s), ResumedTags(m, t))
  {
    hide Ready, TrapFires, Traps, TrapState, TickMulDiv;
    TrapCause(env, m, s, t);
    if TrapFires(m) {
      TrapStep(env, m, s, t);
      TickStep(env, ExcHandle(env, m), TrapState(env, m, s), NO_TAGS);
    } else {
      TickStep(env, m, s, t);
    }
  }
}
