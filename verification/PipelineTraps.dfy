/** Exceptions are precise, and no stage reads a deleted record. */
module PipelineTraps {
  import opened Isa
  import opened Sequential
  import opened Pipeline
  import opened PipelineInvariant
  import opened PipelineChecks
  import opened PipelineSettle
  import opened PipelineMove
  import opened PipelineRetire
  import opened PipelineAdvance
  import opened PipelineRefinement

  /** An exception is taken exactly when the instruction in WB traps in the
      reference.  At that moment registers and memory are those from which it
      started, so no younger instruction has stored, and EPC restarts it: at
      the branch ahead of it when it sits in a taken delay slot. */
  lemma PreciseException(env: Env, m: Machine, s: Arch, t: Tags, miss: bool)
    requires Inv(env, m, s, t)
    ensures var c := Check(env, m, miss);
            TrapFires(c) <==> t.w && Traps(env, s)
    ensures var c := Check(env, m, miss);
            var v := ExcHandle(env, c);
            TrapFires(c) ==>
              && v.reg == s.regs && v.mem == s.mem
              && v.epc == (if s.inSlot then s.pc - 4 else s.pc)
              && Following(v.pc) == env.vector
  {
    hide Inv, Ready, Check, ExcHandle, TrapFires, Traps, ArchHi, ArchLo, HiLoIdle, Following;
    var c := Check(env, m, miss);
    CheckKeepsW(m, t, miss);
    CheckStep(env, m, s, t, miss);
    TrapCause(env, c, s, AfterFetch(m, t, miss));
    if TrapFires(c) {
      TrapFields(env, c, s, AfterFetch(m, t, miss));
      TrapAddress(env, c, s);
    }
  }

  // ---- HI and LO at an exception ----

  /** The younger instruction in MEM has already run: HI and LO survive a trap
      in WB unless it is a HI/LO writer. */
  predicate HiLoSpared(env: Env, m: Machine, s: Arch, t: Tags) {
    var i := At(m.recs, m.mm).instr;
    !CleanM(env, s, t) ==>
      && (!WritesHi(i) ==> ArchHi(m) == s.hi)
      && (!WritesLo(i) ==> ArchLo(m) == s.lo)
  }

  lemma ExecHiLoAt(env: Env, m: Machine)
    requires Shape(m)
    ensures var x := Accessed(env, m);
            var e := At(m.recs, m.ex);
            var y := Executed(env, m);
            && ArchHi(y) == (if WritesHi(e.instr) then HiValue(e.instr, Deref(x.recs, x.reg, e.aluSrcA), Deref(x.recs, x.reg, e.aluSrcB))
                             else ArchHi(m))
            && ArchLo(y) == (if WritesLo(e.instr) then LoValue(e.instr, Deref(x.recs, x.reg, e.aluSrcA), Deref(x.recs, x.reg, e.aluSrcB))
                             else ArchLo(m))
  {
    hide At, Accessed, WritesHi, WritesLo, HiValue, LoValue, ArchHi, ArchLo, Deref, Shape, Execute;
    AccessedRecords(env, m);
    AccessedFrame(env, m);
    AccessedHiLo(env, m);
    var x := Accessed(env, m);
    ExecHiLo(x, Deref(x.recs, x.reg, At(x.recs, x.ex).aluSrcA), Deref(x.recs, x.reg, At(x.recs, x.ex).aluSrcB));
  }

  /** After a move, HI and LO and the record now in MEM are those of the execute stage. */
  lemma MovedHiLo(env: Env, m: Machine, hazard: bool)
    requires Shape(m) && m.ifs.Holds? && |CommittedRegs(m)| == 32 && CommittedRegs(m)[0] == 0
    ensures var z := Move(env, m, hazard);
            var y := Executed(env, m);
            && ArchHi(z) == ArchHi(y) && ArchLo(z) == ArchLo(y)
            && At(z.recs, z.mm).instr == At(m.recs, m.ex).instr
  {
    hide At, Shape, MemRec, ExecRec, RegCommit, MemAccess, Execute, Decode, Advance, InsertBubble, ArchHi, ArchLo, CommittedRegs, DecodeRec,
         SlotRec, Redirects, Advanced;
    var y := Executed(env, m);
    var r := MemRec(env, RegCommit(m));
    var e := ExecRec(Accessed(env, m));
    ExecutedFrame(env, m);
    AccessedFrame(env, m);
    AccessedRecords(env, m);
    ExecPorts(Accessed(env, m));
    if hazard {
      BubbleRecords(m, y, r, e);
      BubbleRest(y);
    } else {
      AdvancedHere(m, y, r, e);
      AdvancedRecords(m, Advance(Decode(y)), r, e, DecodeRec(At(m.recs, m.id)), SlotRec(y));
      AdvancedIds(m, Advance(Decode(y)), r, e, DecodeRec(At(m.recs, m.id)), SlotRec(y));
      DecodedRest(y);
      AdvancedRest(Decode(y));
    }
  }

  lemma TrapHiLo(env: Env, s: Arch)
    requires Traps(env, s)
    ensures After(env, true, s).hi == s.hi && After(env, true, s).lo == s.lo
  {
    hide Traps;
  }

  lemma NotCleanM(env: Env, m: Machine, s: Arch, t: Tags, hazard: bool)
    requires CleanM(env, s, t) && !CleanM(env, S1(env, s, t), MovedTags(t, hazard))
    ensures t.m && Traps(env, S1(env, s, t))
  {
    hide Traps, S1;
  }

  lemma MoveSpares(env: Env, m: Machine, s: Arch, t: Tags, hazard: bool)
    requires Ready(env, m, s, t) && CleanM(env, s, t) && m.ifs.Holds?
    ensures HiLoSpared(env, Move(env, m, hazard), S1(env, s, t), MovedTags(t, hazard))
  {
    hide Ready, At, S1, CleanM, Move, Executed, Accessed, ArchHi, ArchLo, HiValue, LoValue, WritesHi, WritesLo, Deref, Shape, LateOk,
         HiLoIdle, Traps, MovedTags, Elsewhere, Newest, Own, Step, MemReady, WbOk, CommittedRegs;
    ReadyWb(env, m, s, t);
    CommitStep(env, m, s, t);
    MovedHiLo(env, m, hazard);
    ExecHiLoAt(env, m);
    ReadyMem(env, m, s, t);
    if !CleanM(env, S1(env, s, t), MovedTags(t, hazard)) {
      NotCleanM(env, m, s, t, hazard);
      TrapHiLo(env, S1(env, s, t));
    }
  }

  lemma SettledClean(env: Env, m: Machine, s: Arch, t: Tags)
    requires CleanM(env, s, t)
    ensures HiLoSpared(env, m, s, t)
  {
    hide CleanM, At, ArchHi, ArchLo;
  }

  /** Every cycle establishes it; so does reset, which leaves nothing in WB. */
  lemma CycleSpares(env: Env, m: Machine, x: Sim, stall: Stall)
    requires Inv(env, m, x.s, x.t)
    ensures var y := NextSim(env, m, x, stall);
            HiLoSpared(env, Cycle(env, m, stall), y.s, y.t)
  {
    hide Inv, Ready, Check, Settle, Move, Stalls, DataHazard, PreDecode, S1, CleanM, AfterFetch, Resumed, ResumedTags, Shape,
         MovedTags, NoInterlock, Common, HiLoSpared;
    var c := Check(env, m, stall.fetchMiss);
    var t := AfterFetch(m, x.t, stall.fetchMiss);
    CheckStep(env, m, x.s, x.t, stall.fetchMiss);
    SettleStep(env, c, x.s, t);
    if Stalls(m, stall) {
      SettledClean(env, Settle(env, c), Resumed(env, c, x.s), ResumedTags(c, t));
    } else {
      InvShape(env, m, x.s, x.t);
      ReadyShape(env, c, x.s, t);
      Movable(env, m, stall);
      MoveSpares(env, Settle(env, c), Resumed(env, c, x.s), ResumedTags(c, t), DataHazard(PreDecode(m)));
    }
  }

  lemma CheckHiLo(env: Env, m: Machine, miss: bool)
    ensures ArchHi(Check(env, m, miss)) == ArchHi(m)
    ensures ArchLo(Check(env, m, miss)) == ArchLo(m)
  {
    hide At, PreDecodeRec, MemFault, Fetched;
  }

  /** With no HI/LO writer right behind it, a trapping instruction enters the
      handler in exactly the state of the reference, HI and LO included. */
  lemma ExactException(env: Env, m: Machine, s: Arch, t: Tags, miss: bool)
    requires Inv(env, m, s, t) && HiLoSpared(env, m, s, t) && TrapFires(Check(env, m, miss))
    requires !WritesHi(At(m.recs, m.mm).instr) && !WritesLo(At(m.recs, m.mm).instr)
    ensures Resumed(env, Check(env, m, miss), s) == Sequential.Step(env, s)
    ensures ArchHi(ExcHandle(env, Check(env, m, miss))) == s.hi && ArchLo(ExcHandle(env, Check(env, m, miss))) == s.lo
  {
    hide Inv, Ready, Check, TrapFires, Traps, At, WritesHi, WritesLo, ArchHi, ArchLo, ExcHandle, HiLoIdle, Placed;
    var c := Check(env, m, miss);
    CheckKeepsW(m, t, miss);
    CheckStep(env, m, s, t, miss);
    TrapCause(env, c, s, AfterFetch(m, t, miss));
    CheckHiLo(env, m, miss);
    TrapFields(env, c, s, AfterFetch(m, t, miss));
  }

  /** Exactly when HI survives: the instruction behind the trapping one does not
      write HI, or happens to write the value HI already had.  (When MEM holds
      a trapping instruction, EX holds the one behind it.) */
  lemma HiSurvivesIff(env: Env, m: Machine, s: Arch, t: Tags, hazard: bool)
    requires Ready(env, m, s, t) && CleanM(env, s, t) && m.ifs.Holds? && t.m && Traps(env, S1(env, s, t))
    ensures var x := Accessed(env, m);
            var e := At(m.recs, m.ex);
            ArchHi(Move(env, m, hazard)) == S1(env, s, t).hi <==>
              (WritesHi(e.instr) ==>
                 HiValue(e.instr, Deref(x.recs, x.reg, e.aluSrcA), Deref(x.recs, x.reg, e.aluSrcB)) == S1(env, s, t).hi)
  {
    hide Ready, At, S1, CleanM, Move, Executed, Accessed, ArchHi, ArchLo, HiValue, LoValue, WritesHi, WritesLo, Deref, Shape, LateOk,
         HiLoIdle, Traps, Elsewhere, Newest, Own, Step, MemReady, WbOk, CommittedRegs;
    ReadyWb(env, m, s, t);
    CommitStep(env, m, s, t);
    MovedHiLo(env, m, hazard);
    ExecHiLoAt(env, m);
    ReadyMem(env, m, s, t);
    TrapHiLo(env, S1(env, s, t));
  }

  /** The same for LO. */
  lemma LoSurvivesIff(env: Env, m: Machine, s: Arch, t: Tags, hazard: bool)
    requires Ready(env, m, s, t) && CleanM(env, s, t) && m.ifs.Holds? && t.m && Traps(env, S1(env, s, t))
    ensures var x := Accessed(env, m);
            var e := At(m.recs, m.ex);
            ArchLo(Move(env, m, hazard)) == S1(env, s, t).lo <==>
              (WritesLo(e.instr) ==>
                 LoValue(e.instr, Deref(x.recs, x.reg, e.aluSrcA), Deref(x.recs, x.reg, e.aluSrcB)) == S1(env, s, t).lo)
  {
    hide Ready, At, S1, CleanM, Move, Executed, Accessed, ArchHi, ArchLo, HiValue, LoValue, WritesHi, WritesLo, Deref, Shape, LateOk,
         HiLoIdle, Traps, Elsewhere, Newest, Own, Step, MemReady, WbOk, CommittedRegs;
    ReadyWb(env, m, s, t);
    CommitStep(env, m, s, t);
    MovedHiLo(env, m, hazard);
    ExecHiLoAt(env, m);
    ReadyMem(env, m, s, t);
    TrapHiLo(env, S1(env, s, t));
  }

  // ---- pointers ----

  /** The pointer refers to a register or to a record that has not been deleted. */
  predicate Live(m: Machine, p: Ptr) {
    match p
    case Null => false
    case Gpr(n) => n < 32
    case ResultOf(id) => id in m.recs
    case MemDataOf(id) => id in m.recs
    case ImmOf(id) => id in m.recs
    case ShamtOf(id) => id in m.recs
  }

  lemma PointsIntoLive(m: Machine, p: Ptr, ids: set<nat>)
    requires PointsInto(p, ids) && ids <= m.recs.Keys
    ensures Live(m, p)
  {
  }

  lemma OwnLive(m: Machine, id: nat)
    requires Own(id, At(m.recs, id)) && id in m.recs
    ensures At(m.recs, id).dst != NONE_REG ==> Live(m, At(m.recs, id).wRegData)
    ensures At(m.recs, id).dst == NONE_REG ==> At(m.recs, id).wRegData == Null
  {
    hide At;
  }

  lemma StageKeys(m: Machine)
    requires Shape(m)
    ensures {m.ex, m.mm, m.wb, m.late} <= m.recs.Keys && {m.id, m.ex, m.mm, m.wb} <= m.recs.Keys
  {
  }

  lemma LateLive(m: Machine, r: nat, id: nat)
    requires Own(id, At(m.recs, id)) && id in m.recs && r <= NONE_REG
    ensures Live(m, BindLate(r, At(m.recs, id))) <==> r < NONE_REG
  {
    hide At;
    OwnLive(m, id);
  }

  lemma ReadyEx0(env: Env, m: Machine, s: Arch, t: Tags)
    requires Ready(env, m, s, t)
    ensures PointsInto(At(m.recs, m.ex).aluSrcA, {m.ex, m.mm, m.wb, m.late})
    ensures PointsInto(At(m.recs, m.ex).aluSrcB, {m.ex, m.mm, m.wb, m.late})
  {
    hide Shape, LateOk, WbOk, ExOk, FetchOk, S1, S2, S3, CleanM, CleanE, CleanD, MemReady, IdReady, Own,
         Untouched, PointsInto, At, HiLoIdle, ArchHi, ArchLo;
  }

  /** The record in MEM, if it is about to use a late operand. */
  lemma LatePointers(env: Env, r: PipelineRegs, w: PipelineRegs, s: Arch, live: bool)
    requires MemReady(env, r, w, s, live)
    ensures IsStore(r.instr) && r.excBuf == [] ==> r.wMemData == BindLate(Rt(r.instr), w)
    ensures IsPartialLoad(r.instr) ==>
              r.lwrlPrev == BindLate(r.dst, w) && r.dst == Destination(r.instr)
  {
    hide Result, Instr, IsPartialLoad, IsStore, BindLate, Rt, Destination, IsLoad, OperandA, OperandB, FetchFault, IsReserved, Traps,
         ExecTraps, FrontFault;
    TrapKinds(env, s);
    NopFacts();
  }

  lemma PartialTarget(i: Word)
    ensures Rt(i) < NONE_REG
    ensures IsPartialLoad(i) ==> (Destination(i) < NONE_REG <==> Rt(i) != 0)
  {
  }

  /** When the pipeline moves, every pointer that write-back, execute and decode
      follow, and the data pointer of every store that is performed, leads to
      a register or to a record that still exists.  The old-value pointer of
      LWL and LWR does so exactly when the target is not register 0. */
  lemma NoDangling(env: Env, m: Machine, s: Arch, t: Tags)
    requires Ready(env, m, s, t) && CleanM(env, s, t)
    ensures var w, r, e, d := At(m.recs, m.wb), At(m.recs, m.mm), At(m.recs, m.ex), At(m.recs, m.id);
            && (w.wRegData != Null ==> Live(m, w.wRegData))
            && Live(m, e.aluSrcA) && Live(m, e.aluSrcB) && Live(m, d.aluSrcA) && Live(m, d.aluSrcB)
            && (IsStore(r.instr) && r.excBuf == [] ==> Live(m, r.wMemData))
            && (IsPartialLoad(r.instr) ==> (Live(m, r.lwrlPrev) <==> Rt(r.instr) != 0))
  {
    hide Ready, At, S1, Own, PointsInto, Live, Shape, LateOk, HiLoIdle, WbOk, MemReady, IsStore, IsPartialLoad, BindLate, Rt,
         Destination, ExecTraps, Untouched, CleanM, IdReady, FetchOk;
    ReadyWb(env, m, s, t);
    ReadyMem(env, m, s, t);
    ReadyFront(env, m, s, t);
    ReadyEx0(env, m, s, t);
    StageKeys(m);
    OwnLive(m, m.wb);
    PointsIntoLive(m, At(m.recs, m.ex).aluSrcA, {m.ex, m.mm, m.wb, m.late});
    PointsIntoLive(m, At(m.recs, m.ex).aluSrcB, {m.ex, m.mm, m.wb, m.late});
    PointsIntoLive(m, At(m.recs, m.id).aluSrcA, {m.id, m.ex, m.mm, m.wb});
    PointsIntoLive(m, At(m.recs, m.id).aluSrcB, {m.id, m.ex, m.mm, m.wb});
    var r := At(m.recs, m.mm);
    LatePointers(env, r, At(m.recs, m.wb), S1(env, s, t), t.m);
    PartialTarget(r.instr);
    LateLive(m, Rt(r.instr), m.wb);
    PartialDst(r.instr);
    LateLive(m, Destination(r.instr), m.wb);
  }

  lemma PartialDst(i: Word)
    ensures Destination(i) <= NONE_REG
  {
  }
}
