/** The other move: the front of the pipeline advances and ID resolves its branch. */
module PipelineAdvance {
  import opened Isa
  import opened Sequential
  import opened Pipeline
  import opened PipelineInvariant
  import opened PipelineChecks
  import opened PipelineMove
  import opened PipelineRetire

  lemma AdvanceChain(env: Env, s: Arch, t: Tags)
    requires CleanM(env, s, t)
    ensures var s' := S1(env, s, t);
            var t' := AdvanceTags(t);
            && S1(env, s', t') == S2(env, s, t) && S2(env, s', t') == S3(env, s, t)
            && S3(env, s', t') == After(env, t.d, S3(env, s, t))
            && CleanM(env, s', t') == CleanE(env, s, t) && CleanE(env, s', t') == CleanD(env, s, t)
            && CleanD(env, s', t') == (CleanD(env, s, t) && Clean(env, t.d, S3(env, s, t)))
  {
    hide Traps, Step;
  }

  // ---- the record in ID ----

  lemma LinkedRecord(env: Env, d: PipelineRegs, v: Word, id: nat, e: PipelineRegs, m: PipelineRegs, w: PipelineRegs,
                     s: Arch, live: bool)
    requires IdReady(env, d, id, e, m, w, s, live)
    requires live && !FrontFault(env, s) ==> v == LinkValue(d.instr, s.pc)
    ensures ExOk(env, d.(result := v), id, e, m, w, s, live)
  {
    hide Instr, FrontFault, BoundLate, FirstSource, SecondSource, Destination, UsesImm, UsesSignedImm, IsLoad,
         ShamtValue, ImmValue, Bind, LinkValue;
    BoundLateAside(d, v, e);
  }

  lemma DecodedResult(d: PipelineRegs)
    requires d.result == 0
    ensures DecodeRec(d) == d.(result := LinkValue(d.instr, d.pc))
  {
    hide IsLink;
  }

  lemma ReadyPc(env: Env, d: PipelineRegs, id: nat, e: PipelineRegs, m: PipelineRegs, w: PipelineRegs, s: Arch, live: bool)
    requires IdReady(env, d, id, e, m, w, s, live)
    ensures live ==> d.pc == s.pc
  {
    hide Bound, FrontFault, Quiet;
  }

  lemma DecodeEx(env: Env, d: PipelineRegs, id: nat, e: PipelineRegs, m: PipelineRegs, w: PipelineRegs, s: Arch, live: bool)
    requires IdReady(env, d, id, e, m, w, s, live) && d.result == 0
    ensures ExOk(env, DecodeRec(d), id, e, m, w, s, live)
  {
    hide IdReady, ExOk, LinkValue, DecodeRec, FrontFault;
    ReadyPc(env, d, id, e, m, w, s, live);
    DecodedResult(d);
    LinkedRecord(env, d, LinkValue(d.instr, d.pc), id, e, m, w, s, live);
  }

  lemma BoundLateAside(d: PipelineRegs, v: Word, e: PipelineRegs)
    ensures BoundLate(d.(result := v), e) == BoundLate(d, e)
  {
    hide BindLate, IsStore, IsPartialLoad, Rt;
  }

  lemma DecodePorts(id: nat, d: PipelineRegs)
    ensures var d' := DecodeRec(d);
            && d'.aluSrcA == d.aluSrcA && d'.aluSrcB == d.aluSrcB && Own(id, d') == Own(id, d)
  {
    hide IsLink;
  }

  /** The branch condition and target that ID computes from a machine whose
      older stages have run. */
  lemma DecodeTarget(env: Env, y: Machine, s: Arch, live: bool)
    requires y.ifs.Holds?
    requires if live then
               var d := At(y.recs, y.id);
               !FrontFault(env, s) && d.instr == Instr(env, s) && d.pc == s.pc && d.imm == ImmValue(d.instr)
               && Deref(y.recs, y.reg, d.aluSrcA) == OperandA(env, s) && Deref(y.recs, y.reg, d.aluSrcB) == OperandB(env, s)
             else At(y.recs, y.id).instr == NOP_INSTR
    ensures Redirects(y) == (live && TakesBranch(env, s))
    ensures Redirects(y) ==> Decode(y).pc == RedirectPc(Instr(env, s), s.pc, OperandA(env, s), ImmValue(Instr(env, s)))
    ensures !Redirects(y) ==> Decode(y).pc == y.pc
  {
    hide At, Deref, Instr, OperandA, OperandB, ImmValue, Taken, RedirectPc, FrontFault, DecodeRec;
    NopFacts();
  }

  // ---- the record that enters ID, and the next fetch address ----

  lemma SlotRecord(env: Env, m: Machine, s: Arch, t: Tags, taken: bool)
    requires m.ifs.Holds? && FetchOk(env, m, s, t) && Clean(env, t.d, s) && taken == (t.d && TakesBranch(env, s))
    ensures var f := At(m.recs, m.ifs.id);
            IdOk(env, f.(delaySlot := f.delaySlot || taken), After(env, t.d, s), t.f)
  {
    hide At, Traps, NextRegs, NextMem, NextHi, NextLo, NextNpc, TakesBranch, IsReserved;
  }

  /** The fetch address after the instruction at s.pc has left ID. */
  lemma NextAddress(env: Env, s: Arch, taken: bool)
    requires !Traps(env, s) && taken == TakesBranch(env, s)
    ensures After(env, true, s).npc ==
              Following(if taken then RedirectPc(Instr(env, s), s.pc, OperandA(env, s), ImmValue(Instr(env, s))) else s.npc)
    ensures After(env, true, s).pc == s.npc
  {
    hide Traps, NextRegs, NextMem, NextHi, NextLo, TakesBranch, RedirectPc, Instr, OperandA, ImmValue, Following;
  }

  lemma FetchAddress(env: Env, m: Machine, s: Arch, t: Tags)
    requires FetchOk(env, m, s, t) && m.ifs.Holds?
    ensures t.d ==> t.f && m.pc == s.npc
    ensures !t.d && t.f ==> m.pc == s.pc
    ensures !t.d && !t.f ==> Following(m.pc) == s.pc
    ensures !t.d ==> s.npc == Following(s.pc) && !s.inSlot
  {
    hide At, Following;
  }

  lemma EmptyFetch(env: Env, z: Machine, s: Arch, t: Tags)
    requires z.ifs == Empty && (!t.d ==> s.npc == Following(s.pc) && !s.inSlot) && z.pc == if t.d then s.npc else s.pc
    ensures FetchOk(env, z, s, t)
  {
    hide Following;
  }

  lemma NextFetch(env: Env, m: Machine, z: Machine, s: Arch, t: Tags, taken: bool)
    requires m.ifs.Holds? && FetchOk(env, m, s, t) && Clean(env, t.d, s) && taken == (t.d && TakesBranch(env, s))
    requires z.ifs == Empty
    requires z.pc == Following(if taken then RedirectPc(Instr(env, s), s.pc, OperandA(env, s), ImmValue(Instr(env, s))) else m.pc)
    ensures FetchOk(env, z, After(env, t.d, s), AdvanceTags(t))
  {
    hide At, Traps, Step, TakesBranch, RedirectPc, Instr, OperandA, ImmValue, FetchOk, Following;
    FetchAddress(env, m, s, t);
    if t.d {
      NextAddress(env, s, taken);
    }
    EmptyFetch(env, z, After(env, t.d, s), AdvanceTags(t));
  }

  // ---- records and wiring ----

  function SlotRec(m: Machine): PipelineRegs
    requires m.ifs.Holds?
  {
    var f := At(m.recs, m.ifs.id);
    f.(delaySlot := f.delaySlot || Redirects(m))
  }

  lemma DecodedStore(y: Machine)
    requires y.ifs.Holds? && y.id != y.ifs.id && {y.id, y.ifs.id} <= y.recs.Keys
    ensures Decode(y).recs == y.recs[y.id := DecodeRec(At(y.recs, y.id))][y.ifs.id := SlotRec(y)]
  {
    hide Redirects, DecodeRec;
    var d := DecodeRec(At(y.recs, y.id));
    if !Redirects(y) {
      assert SlotRec(y) == y.recs[y.ifs.id];
      assert y.recs[y.id := d] == y.recs[y.id := d][y.ifs.id := SlotRec(y)];
    }
  }

  lemma DecodedRest(y: Machine)
    ensures var u := Decode(y);
            && u.reg == y.reg && u.mem == y.mem && u.epc == y.epc && u.excPending == y.excPending
            && u.wb == y.wb && u.mm == y.mm && u.ex == y.ex && u.id == y.id && u.late == y.late && u.lateLate == y.lateLate
            && u.ifs == y.ifs && u.nextId == y.nextId
            && ArchHi(u) == ArchHi(y) && ArchLo(u) == ArchLo(y) && HiLoIdle(u) == HiLoIdle(y)
  {
    hide Redirects, DecodeRec, At, Deref, RedirectPc;
  }

  lemma AdvancedRest(u: Machine)
    requires u.ifs.Holds?
    ensures var z := Advance(u);
            && z.reg == u.reg && z.mem == u.mem && z.epc == u.epc && z.excPending == u.excPending
            && z.wb == u.mm && z.mm == u.ex && z.ex == u.id && z.id == u.ifs.id && z.late == u.wb && z.lateLate == u.late
            && z.ifs == Empty && z.nextId == u.nextId && z.recs == u.recs - {u.lateLate} && z.pc == Following(u.pc)
            && ArchHi(z) == ArchHi(u) && ArchLo(z) == ArchLo(u) && HiLoIdle(z) == HiLoIdle(u)
  {
    hide Following;
  }

  /** z is m after a full advance, with the records r, e, d and f in WB, MEM, EX and ID. */
  predicate Advanced(m: Machine, z: Machine, r: PipelineRegs, e: PipelineRegs, d: PipelineRegs, f: PipelineRegs)
    requires m.ifs.Holds?
  {
    && z.recs == m.recs[m.mm := r][m.ex := e][m.id := d][m.ifs.id := f] - {m.lateLate}
    && z.wb == m.mm && z.mm == m.ex && z.ex == m.id && z.id == m.ifs.id && z.late == m.wb && z.lateLate == m.late
    && z.ifs == Empty && z.nextId == m.nextId
    && |z.reg| == 32 && z.reg[0] == 0
  }

  lemma AdvancedShape(m: Machine, z: Machine, r: PipelineRegs, e: PipelineRegs, d: PipelineRegs, f: PipelineRegs)
    requires Shape(m) && m.ifs.Holds? && Advanced(m, z, r, e, d, f)
    ensures Shape(z)
  {
  }

  lemma AdvancedRecords(m: Machine, z: Machine, r: PipelineRegs, e: PipelineRegs, d: PipelineRegs, f: PipelineRegs)
    requires Shape(m) && m.ifs.Holds? && Advanced(m, z, r, e, d, f)
    ensures At(z.recs, z.wb) == r && At(z.recs, z.mm) == e && At(z.recs, z.ex) == d && At(z.recs, z.id) == f
    ensures At(z.recs, z.late) == At(m.recs, m.wb)
  {
    hide At, Shape;
    StageIds(m);
    SeparateIds(m);
    AtUpdated(m.recs, m.mm, r);
    AtUpdated(m.recs[m.mm := r], m.ex, e);
    AtUpdated(m.recs[m.mm := r][m.ex := e], m.id, d);
    AtUpdated(m.recs[m.mm := r][m.ex := e][m.id := d], m.ifs.id, f);
    AtRemoved(m.recs[m.mm := r][m.ex := e][m.id := d][m.ifs.id := f], m.lateLate);
  }

  lemma AdvancedWiring(m: Machine, z: Machine, r: PipelineRegs, e: PipelineRegs, d: PipelineRegs, f: PipelineRegs)
    requires Shape(m) && m.ifs.Holds? && Advanced(m, z, r, e, d, f)
    requires Wiring(m) && Newest(At(m.recs, m.wb), z.reg) && Own(m.mm, r) && Own(m.ex, e) && Own(m.id, d)
    requires PointsInto(d.aluSrcA, {m.id, m.ex, m.mm, m.wb}) && PointsInto(d.aluSrcB, {m.id, m.ex, m.mm, m.wb})
    ensures Wiring(z) && LateOk(z)
  {
    hide At, Shape, Own, Untouched, PointsInto, Produced;
    AdvancedRecords(m, z, r, e, d, f);
  }

  lemma AdvancedHere(m: Machine, y: Machine, r: PipelineRegs, e: PipelineRegs)
    requires Shape(m) && m.ifs.Holds? && Ran(m, y, r, e)
    ensures Advanced(m, Advance(Decode(y)), r, e, DecodeRec(At(m.recs, m.id)), SlotRec(y))
    ensures SlotRec(y) == var f := At(m.recs, m.ifs.id); f.(delaySlot := f.delaySlot || Redirects(y))
  {
    hide At, DecodeRec, Redirects, Decode, Advance;
    RanRecords(m, y, r, e);
    LiveKeys(m);
    SeparateIds(m);
    DecodedStore(y);
    DecodedRest(y);
    AdvancedRest(Decode(y));
  }

  lemma LiveKeys(m: Machine)
    requires Shape(m) && m.ifs.Holds?
    ensures m.id in m.recs && m.ifs.id in m.recs && m.mm in m.recs && m.ex in m.recs
  {
  }

  // ---- the operands of a branch ----

  lemma CleanDParts(env: Env, s: Arch, t: Tags)
    requires CleanD(env, s, t)
    ensures CleanE(env, s, t) && Clean(env, t.e, S2(env, s, t))
  {
    hide Traps, S1, S2;
  }

  /** Without a load-use hazard, the newest value of both sources is at hand. */
  lemma NoHazard(m: Machine)
    requires !DataHazard(m)
    ensures var d := At(m.recs, m.id);
            var e := At(m.recs, m.ex);
            !e.memReadOp || e.dst == NONE_REG || (e.dst != d.srcA && e.dst != d.srcB)
  {
    hide At;
  }

  lemma SameFromY(env: Env, m: Machine, s: Arch, t: Tags)
    requires Ready(env, m, s, t) && CleanD(env, s, t) && NoInterlock(m) && Retired(env, m, s, t)
    ensures var y := Executed(env, m);
            && IdReady(env, At(y.recs, m.id), m.id, At(y.recs, m.ex), At(y.recs, m.mm), At(y.recs, m.wb), S3(env, s, t), t.d)
            && At(y.recs, m.ex).dst == At(m.recs, m.ex).dst && At(y.recs, m.ex).memReadOp == At(m.recs, m.ex).memReadOp
            && At(y.recs, m.id) == At(m.recs, m.id)
            && At(y.recs, m.mm) == MemRec(env, RegCommit(m)) && At(y.recs, m.ex) == ExecRec(Accessed(env, m))
            && At(y.recs, m.wb) == At(m.recs, m.wb)
            && Own(m.mm, At(y.recs, m.mm)) && Own(m.ex, At(y.recs, m.ex)) && Own(m.wb, At(y.recs, m.wb))
  {
    hide Ready, At, S1, S2, S3, CleanD, Own, Shape, MemRec, ExecRec, Executed, Accessed, NoInterlock, IdReady,
         Untouched, PointsInto, Ran, Retired, RegCommit, LateOk, HiLoIdle, FetchOk, WbOk, Wiring;
    ReadyWb(env, m, s, t);
    RanHere(env, m, s, t);
    RanRecords(m, Executed(env, m), MemRec(env, RegCommit(m)), ExecRec(Accessed(env, m)));
    WiringHere(env, m, s, t);
    OwnOfWiring(m);
    MemRecPorts(env, RegCommit(m));
    ExecPortsHere(env, m);
    ReadyFront(env, m, s, t);
    RegCommitAside(m);
    BoundToPorts(env, At(m.recs, m.id), m.id, At(m.recs, m.ex), At(m.recs, m.mm), At(m.recs, m.wb),
                 ExecRec(Accessed(env, m)), MemRec(env, RegCommit(m)), S3(env, s, t), t.d);
  }

  lemma RegCommitAside(m: Machine)
    ensures RegCommit(m).recs == m.recs && RegCommit(m).mm == m.mm && RegCommit(m).wb == m.wb && RegCommit(m).mem == m.mem
    ensures RegCommit(m).reg == CommittedRegs(m)
  {
    hide CommittedRegs;
  }

  /** The register files after each stage, as the forwarding network needs them. */
  lemma StageRegs(env: Env, m: Machine, s: Arch, t: Tags)
    requires Ready(env, m, s, t) && CleanD(env, s, t) && NoInterlock(m)
    ensures var r := MemRec(env, RegCommit(m));
            var e := ExecRec(Accessed(env, m));
            && Newest(At(m.recs, m.wb), S1(env, s, t).regs)
            && Newest(r, S2(env, s, t).regs) && Elsewhere(r, S1(env, s, t).regs, S2(env, s, t).regs)
            && Elsewhere(e, S2(env, s, t).regs, S3(env, s, t).regs) && (!e.memReadOp ==> Newest(e, S3(env, s, t).regs))
            && |S1(env, s, t).regs| == |S2(env, s, t).regs| == |S3(env, s, t).regs| == 32
  {
    hide Ready, At, S1, CleanE, CleanD, CleanM, MemRec, ExecRec, Accessed, NoInterlock, RegCommit, CommittedRegs, Newest, MemDone, ExecDone, Traps, Step;
    CleanDParts(env, s, t);
    CleanEParts(env, s, t);
    CommitStep(env, m, s, t);
    MemPhase(env, m, s, t);
    MemDoneRegs(env, RegCommit(m), S1(env, s, t), t.m);
    ExecPhase(env, m, s, t);
    ExecDoneParts(env, Accessed(env, m), S2(env, s, t), t.e);
  }

  lemma BranchOperands(env: Env, m: Machine, s: Arch, t: Tags)
    requires Ready(env, m, s, t) && CleanD(env, s, t) && NoInterlock(m) && Retired(env, m, s, t) && !DataHazard(m)
    requires t.d && !FrontFault(env, S3(env, s, t))
    ensures var y := Executed(env, m);
            var d := At(y.recs, m.id);
            && Deref(y.recs, y.reg, d.aluSrcA) == OperandA(env, S3(env, s, t))
            && Deref(y.recs, y.reg, d.aluSrcB) == OperandB(env, S3(env, s, t))
  {
    hide Ready, At, S1, S2, S3, CleanD, Own, Newest, Elsewhere, MemRec, ExecRec, Executed, Accessed, NoInterlock,
         DataHazard, FrontFault, Retired, RegCommit, Deref, OperandA, OperandB, Bound;
    var y := Executed(env, m);
    SameFromY(env, m, s, t);
    StageRegs(env, m, s, t);
    NoHazard(m);
    RetiredRegs(env, m, s, t);
    Operands(env, y.recs, y.reg, m.id, m.ex, m.mm, m.wb, S3(env, s, t), S2(env, s, t).regs, S1(env, s, t).regs);
  }

  lemma RetiredRegs(env: Env, m: Machine, s: Arch, t: Tags)
    requires Retired(env, m, s, t)
    ensures Executed(env, m).reg == S1(env, s, t).regs
  {
    hide Executed, MemRec, RegCommit, ExecRec, Accessed, At, HiLoIdle, Newest, WbOk, MemOk, CleanE, S1, S2, S3, ArchHi, ArchLo;
  }

  lemma IdParts(env: Env, d: PipelineRegs, id: nat, e: PipelineRegs, m: PipelineRegs, w: PipelineRegs, s: Arch, live: bool)
    requires IdReady(env, d, id, e, m, w, s, live)
    ensures live && !FrontFault(env, s) ==> d.instr == Instr(env, s) && d.pc == s.pc && d.imm == ImmValue(d.instr)
    ensures !live ==> d.instr == NOP_INSTR
  {
    hide FrontFault, BoundLate, FirstSource, SecondSource, Destination, UsesImm, UsesSignedImm, IsLoad, ShamtValue,
         ImmValue, Bind, Instr;
  }

  /** ID redirects the fetch exactly when its instruction takes the branch. */
  lemma BranchResolved(env: Env, m: Machine, s: Arch, t: Tags)
    requires Ready(env, m, s, t) && CleanD(env, s, t) && NoInterlock(m) && Retired(env, m, s, t) && !DataHazard(m)
    requires m.ifs.Holds? && Clean(env, t.d, S3(env, s, t))
    ensures var y := Executed(env, m);
            var s3 := S3(env, s, t);
            && Redirects(y) == (t.d && TakesBranch(env, s3))
            && Decode(y).pc ==
                 if Redirects(y) then RedirectPc(Instr(env, s3), s3.pc, OperandA(env, s3), ImmValue(Instr(env, s3))) else m.pc
  {
    hide Ready, At, S1, S2, S3, CleanD, MemRec, ExecRec, Executed, Accessed, NoInterlock, DataHazard, FrontFault, Retired,
         RegCommit, Deref, OperandA, OperandB, Redirects, TakesBranch, RedirectPc, ImmValue, Instr, Decode, IdReady, Own;
    var y := Executed(env, m);
    var s3 := S3(env, s, t);
    TrapKinds(env, s3);
    SameFromY(env, m, s, t);
    ExecutedFrame(env, m);
    IdParts(env, At(y.recs, m.id), m.id, At(y.recs, m.ex), At(y.recs, m.mm), At(y.recs, m.wb), s3, t.d);
    if t.d { BranchOperands(env, m, s, t); }
    DecodeTarget(env, y, s3, t.d);
  }

  lemma UntouchedResult(id: nat, d: PipelineRegs)
    requires Untouched(id, d)
    ensures d.result == 0
  {
    hide FirstSource, SecondSource, Destination, UsesImm, UsesSignedImm, UsesShamt, IsLoad;
  }

  lemma UntouchedSlot(id: nat, f: PipelineRegs, slot: bool)
    requires Untouched(id, f)
    ensures Untouched(id, f.(delaySlot := slot))
  {
    hide FirstSource, SecondSource, Destination, UsesImm, UsesSignedImm, UsesShamt, IsLoad;
  }

  /** The front of the pipeline after the advance. */
  predicate FrontMoved(env: Env, m: Machine, s: Arch, t: Tags)
    requires m.ifs.Holds?
  {
    var y := Executed(env, m);
    var z := Advance(Decode(y));
    var d := DecodeRec(At(m.recs, m.id));
    && Own(m.id, d) && PointsInto(d.aluSrcA, {m.id, m.ex, m.mm, m.wb}) && PointsInto(d.aluSrcB, {m.id, m.ex, m.mm, m.wb})
    && Untouched(m.ifs.id, SlotRec(y))
    && (CleanD(env, s, t) ==>
          ExOk(env, d, m.id, ExecRec(Accessed(env, m)), MemRec(env, RegCommit(m)), At(m.recs, m.wb), S3(env, s, t), t.d))
    && (CleanD(env, s, t) && Clean(env, t.d, S3(env, s, t)) ==>
          && IdOk(env, SlotRec(y), After(env, t.d, S3(env, s, t)), t.f)
          && FetchOk(env, z, After(env, t.d, S3(env, s, t)), AdvanceTags(t)))
  }

  lemma FrontEx(env: Env, m: Machine, s: Arch, t: Tags)
    requires Ready(env, m, s, t) && NoInterlock(m) && Retired(env, m, s, t) && CleanD(env, s, t)
    ensures ExOk(env, DecodeRec(At(m.recs, m.id)), m.id, ExecRec(Accessed(env, m)), MemRec(env, RegCommit(m)),
                 At(m.recs, m.wb), S3(env, s, t), t.d)
  {
    hide Ready, At, S1, S2, S3, CleanD, MemRec, ExecRec, Executed, Accessed, NoInterlock, Retired, RegCommit, DecodeRec,
         IdReady, ExOk, Own, PointsInto, Untouched;
    SameFromY(env, m, s, t);
    ReadyFront(env, m, s, t);
    UntouchedResult(m.id, At(m.recs, m.id));
    DecodeEx(env, At(m.recs, m.id), m.id, ExecRec(Accessed(env, m)), MemRec(env, RegCommit(m)), At(m.recs, m.wb),
             S3(env, s, t), t.d);
  }

  lemma FrontFetch(env: Env, m: Machine, s: Arch, t: Tags)
    requires Ready(env, m, s, t) && NoInterlock(m) && Retired(env, m, s, t) && CleanD(env, s, t) && !DataHazard(m)
    requires m.ifs.Holds? && Clean(env, t.d, S3(env, s, t))
    requires SlotRec(Executed(env, m)) == var f := At(m.recs, m.ifs.id); f.(delaySlot := f.delaySlot || Redirects(Executed(env, m)))
    ensures var y := Executed(env, m);
            && IdOk(env, SlotRec(y), After(env, t.d, S3(env, s, t)), t.f)
            && FetchOk(env, Advance(Decode(y)), After(env, t.d, S3(env, s, t)), AdvanceTags(t))
  {
    hide Ready, At, S1, S2, S3, CleanD, MemRec, ExecRec, Executed, Accessed, NoInterlock, Retired, RegCommit, Decode,
         IdReady, IdOk, Own, PointsInto, Untouched, DataHazard, Clean, Following, Advance, FetchOk, SlotRec, Redirects,
         RedirectPc, TakesBranch;
    var y := Executed(env, m);
    ReadyFront(env, m, s, t);
    ExecutedFrame(env, m);
    BranchResolved(env, m, s, t);
    SlotRecord(env, m, S3(env, s, t), t, Redirects(y));
    DecodedRest(y);
    AdvancedRest(Decode(y));
    NextFetch(env, m, Advance(Decode(y)), S3(env, s, t), t, Redirects(y));
  }

  lemma FrontStep(env: Env, m: Machine, s: Arch, t: Tags)
    requires Ready(env, m, s, t) && NoInterlock(m) && Retired(env, m, s, t) && !DataHazard(m) && m.ifs.Holds?
    requires Shape(m)
    ensures FrontMoved(env, m, s, t)
  {
    hide Ready, At, S1, S2, S3, CleanD, MemRec, ExecRec, Executed, Accessed, NoInterlock, Retired, RegCommit, Decode,
         IdReady, IdOk, ExOk, Own, PointsInto, Untouched, DataHazard, Clean, Advance, FetchOk, SlotRec, Redirects,
         DecodeRec, Ran, Shape, Advanced;
    ReadyFront(env, m, s, t);
    RanHere(env, m, s, t);
    AdvancedHere(m, Executed(env, m), MemRec(env, RegCommit(m)), ExecRec(Accessed(env, m)));
    DecodePorts(m.id, At(m.recs, m.id));
    UntouchedSlot(m.ifs.id, At(m.recs, m.ifs.id), At(m.recs, m.ifs.id).delaySlot || Redirects(Executed(env, m)));
    if CleanD(env, s, t) {
      FrontEx(env, m, s, t);
      if Clean(env, t.d, S3(env, s, t)) { FrontFetch(env, m, s, t); }
    }
  }

  lemma AdvanceCommon(env: Env, m: Machine, s: Arch, t: Tags)
    requires Ready(env, m, s, t) && CleanM(env, s, t) && NoInterlock(m) && !DataHazard(m) && m.ifs.Holds?
    ensures Common(env, Advance(Decode(Executed(env, m))), S1(env, s, t), AdvanceTags(t))
  {
    hide Ready, At, S1, S2, S3, CleanM, CleanE, CleanD, Own, Newest, Shape, Wiring, LateOk, HiLoIdle, WbOk, MemOk, ExOk, IdOk,
         FetchOk, ArchHi, ArchLo, MemRec, ExecRec, Executed, Accessed, NoInterlock, Advance, Decode, DecodeRec, SlotRec,
         IdReady, Untouched, PointsInto, Ran, RegCommit, DataHazard, Advanced, Redirects, Clean;
    var y := Executed(env, m);
    var z := Advance(Decode(y));
    var r := MemRec(env, RegCommit(m));
    var e := ExecRec(Accessed(env, m));
    AdvanceReady(env, m, s, t);
    AdvancedShape(m, z, r, e, DecodeRec(At(m.recs, m.id)), SlotRec(y));
    AdvancedRecords(m, z, r, e, DecodeRec(At(m.recs, m.id)), SlotRec(y));
    AdvancedWiring(m, z, r, e, DecodeRec(At(m.recs, m.id)), SlotRec(y));
    AdvancedIds(m, z, r, e, DecodeRec(At(m.recs, m.id)), SlotRec(y));
    AdvanceChain(env, s, t);
  }

  lemma AdvancedIds(m: Machine, z: Machine, r: PipelineRegs, e: PipelineRegs, d: PipelineRegs, f: PipelineRegs)
    requires m.ifs.Holds? && Advanced(m, z, r, e, d, f)
    ensures z.wb == m.mm && z.mm == m.ex && z.ex == m.id && z.id == m.ifs.id && z.late == m.wb && z.ifs == Empty
  {
  }

  /** All the parts of the advanced machine, gathered. */
  lemma AdvanceReady(env: Env, m: Machine, s: Arch, t: Tags)
    requires Ready(env, m, s, t) && CleanM(env, s, t) && NoInterlock(m) && !DataHazard(m) && m.ifs.Holds?
    ensures var y := Executed(env, m);
            var z := Advance(Decode(y));
            var r := MemRec(env, RegCommit(m));
            var e := ExecRec(Accessed(env, m));
            && y.ifs == m.ifs && Shape(m) && Wiring(m) && Own(m.mm, r) && Own(m.ex, e)
            && Retired(env, m, s, t) && FrontMoved(env, m, s, t)
            && Advanced(m, z, r, e, DecodeRec(At(m.recs, m.id)), SlotRec(y))
            && z.reg == y.reg && z.mem == y.mem && z.epc == y.epc && z.excPending == y.excPending
            && ArchHi(z) == ArchHi(y) && ArchLo(z) == ArchLo(y) && HiLoIdle(z) == HiLoIdle(y)
  {
    hide Ready, At, CleanM, Own, Shape, Wiring, LateOk, HiLoIdle, WbOk, ArchHi, ArchLo, MemRec, ExecRec, Executed, Accessed,
         NoInterlock, Advance, Decode, DecodeRec, SlotRec, Ran, RegCommit, DataHazard, Advanced, Redirects, Retired, FrontMoved, S1;
    var y := Executed(env, m);
    ReadyWb(env, m, s, t);
    RetireStep(env, m, s, t);
    RanHere(env, m, s, t);
    RanStages(m, y, MemRec(env, RegCommit(m)), ExecRec(Accessed(env, m)));
    WiringHere(env, m, s, t);
    FrontStep(env, m, s, t);
    AdvancedHere(m, y, MemRec(env, RegCommit(m)), ExecRec(Accessed(env, m)));
    DecodedRest(y);
    AdvancedRest(Decode(y));
  }

  /** A full advance: every stage hands its record on. */
  lemma AdvanceStep(env: Env, m: Machine, s: Arch, t: Tags)
    requires Ready(env, m, s, t) && CleanM(env, s, t) && NoInterlock(m) && !DataHazard(m) && m.ifs.Holds?
    ensures Inv(env, Advance(Decode(Executed(env, m))), S1(env, s, t), AdvanceTags(t))
  {
    hide Ready, At, S1, S2, S3, CleanM, CleanE, CleanD, Own, Newest, Shape, Wiring, LateOk, HiLoIdle, WbOk, MemOk, ExOk, IdOk,
         FetchOk, ArchHi, ArchLo, MemRec, ExecRec, Executed, Accessed, NoInterlock, Advance, Decode, DecodeRec, SlotRec,
         IdReady, Untouched, PointsInto, Ran, RegCommit, DataHazard, Advanced, Redirects, Clean, Common;
    var y := Executed(env, m);
    var z := Advance(Decode(y));
    var r := MemRec(env, RegCommit(m));
    var e := ExecRec(Accessed(env, m));
    AdvanceReady(env, m, s, t);
    AdvanceCommon(env, m, s, t);
    AdvancedRecords(m, z, r, e, DecodeRec(At(m.recs, m.id)), SlotRec(y));
    AdvancedIds(m, z, r, e, DecodeRec(At(m.recs, m.id)), SlotRec(y));
    AdvanceChain(env, s, t);
  }

  function MovedTags(t: Tags, hazard: bool): Tags { if hazard then BubbleTags(t) else AdvanceTags(t) }

  /** One move retires the instruction in WB. */
  lemma MoveStep(env: Env, m: Machine, s: Arch, t: Tags, hazard: bool)
    requires Ready(env, m, s, t) && CleanM(env, s, t) && NoInterlock(m) && m.ifs.Holds? && (!hazard ==> !DataHazard(m))
    ensures Inv(env, Move(env, m, hazard), S1(env, s, t), MovedTags(t, hazard))
  {
    hide Ready, Inv, S1, CleanM, NoInterlock, DataHazard, RegCommit, MemAccess, Execute, Decode, Advance, InsertBubble;
    if hazard { BubbleStep(env, m, s, t); } else { AdvanceStep(env, m, s, t); }
  }
}
