/** Rotation of the stages: the state after a move, with a bubble inserted for a
    load-use hazard or with the whole pipeline advanced. */
module PipelineRetire {
  import opened Isa
  import opened Sequential
  import opened Pipeline
  import opened PipelineInvariant
  import opened PipelineChecks
  import opened PipelineMove

  function BubbleTags(t: Tags): Tags { Tags(t.m, t.e, false, t.d, t.f) }

  function AdvanceTags(t: Tags): Tags { Tags(t.m, t.e, t.d, t.f, false) }

  lemma StepEpc(env: Env, s: Arch, live: bool)
    requires Clean(env, live, s)
    ensures After(env, live, s).epc == s.epc
  {
    hide Traps, NextRegs, NextMem, NextHi, NextLo, NextNpc, TakesBranch;
  }

  /** What the three older stages leave behind, whether the front moves or not. */
  predicate Retired(env: Env, m: Machine, s: Arch, t: Tags) {
    var y := Executed(env, m);
    var r := MemRec(env, RegCommit(m));
    var e := ExecRec(Accessed(env, m));
    && y.reg == S1(env, s, t).regs && |y.reg| == 32 && y.reg[0] == 0
    && y.mem == S2(env, s, t).mem && y.epc == S1(env, s, t).epc
    && !y.excPending && HiLoIdle(y)
    && Newest(At(m.recs, m.wb), y.reg)
    && WbOk(env, r, S1(env, s, t), t.m)
    && (CleanE(env, s, t) ==>
          MemOk(env, e, r, S2(env, s, t), t.e) && ArchHi(y) == S3(env, s, t).hi && ArchLo(y) == S3(env, s, t).lo)
  }

  lemma MemDoneStore(env: Env, m: Machine, s: Arch, live: bool)
    requires MemDone(env, m, s, live)
    ensures MemAccess(env, m).mem == After(env, live, s).mem && WbOk(env, MemRec(env, m), s, live)
  {
    hide MemRec, MemAccess, Elsewhere, Newest, WbOk, Step, Clean;
  }

  lemma ExecDoneParts(env: Env, m: Machine, s: Arch, live: bool)
    requires ExecDone(env, m, s, live)
    ensures MemOk(env, ExecRec(m), At(m.recs, m.mm), s, live)
    ensures ArchHi(Execute(m)) == After(env, live, s).hi && ArchLo(Execute(m)) == After(env, live, s).lo
    ensures Clean(env, live, s) ==>
              var u := After(env, live, s).regs;
              Elsewhere(ExecRec(m), s.regs, u) && (!ExecRec(m).memReadOp ==> Newest(ExecRec(m), u))
  {
    hide ExecRec, Execute, Elsewhere, Newest, MemOk, Step, At, ArchHi, ArchLo;
  }

  lemma IdleAfter(env: Env, m: Machine)
    requires Shape(m) && HiLoIdle(m) && NoInterlock(m)
    ensures HiLoIdle(Executed(env, m))
  {
    hide Shape, HiLoIdle, At, Execute, Accessed, IsMulDiv;
    AccessedHiLo(env, m);
    AccessedRecords(env, m);
    AccessedFrame(env, m);
    ExecIdle(Accessed(env, m));
  }

  lemma RetireStep(env: Env, m: Machine, s: Arch, t: Tags)
    requires Ready(env, m, s, t) && CleanM(env, s, t) && NoInterlock(m)
    ensures Retired(env, m, s, t)
  {
    hide Ready, At, CommittedRegs, S1, CleanM, CleanE, Own, Newest, Elsewhere, MemDone, Shape, LateOk, HiLoIdle,
         WbOk, MemOk, ArchHi, ArchLo, MemAccess, MemRec, ExecRec, ExecDone, Execute, NoInterlock, Step, Accessed;
    ReadyWb(env, m, s, t);
    CommitStep(env, m, s, t);
    MemPhase(env, m, s, t);
    MemDoneStore(env, RegCommit(m), S1(env, s, t), t.m);
    ExecutedFrame(env, m);
    AccessedFrame(env, m);
    AccessedRecords(env, m);
    IdleAfter(env, m);
    EpcKept(env, s, t);
    AccessedMem(env, m);
    if CleanE(env, s, t) {
      ExecPhase(env, m, s, t);
      ExecDoneParts(env, Accessed(env, m), S2(env, s, t), t.e);
    }
  }

  lemma AccessedMem(env: Env, m: Machine)
    ensures Accessed(env, m).mem == MemAccess(env, RegCommit(m)).mem
  {
    hide MemAccess, RegCommit;
  }

  lemma EpcKept(env: Env, s: Arch, t: Tags)
    requires CleanM(env, s, t)
    ensures S1(env, s, t).epc == s.epc
  {
    hide Traps, Step;
    StepEpc(env, s, t.w);
  }

  // ---- a bubble enters EX ----

  lemma BubbleChain(env: Env, s: Arch, t: Tags)
    requires CleanM(env, s, t)
    ensures var s' := S1(env, s, t);
            var t' := BubbleTags(t);
            && S1(env, s', t') == S2(env, s, t) && S2(env, s', t') == S3(env, s, t) && S3(env, s', t') == S3(env, s, t)
            && CleanM(env, s', t') == CleanE(env, s, t) && CleanE(env, s', t') == CleanD(env, s, t)
            && CleanD(env, s', t') == CleanD(env, s, t)
  {
    hide Traps, Step;
  }

  /** y is m after the older stages have run: new records in MEM and EX. */
  predicate Ran(m: Machine, y: Machine, r: PipelineRegs, e: PipelineRegs) {
    && y.recs == m.recs[m.mm := r][m.ex := e]
    && y.wb == m.wb && y.mm == m.mm && y.ex == m.ex && y.id == m.id && y.late == m.late && y.lateLate == m.lateLate
    && y.ifs == m.ifs && y.nextId == m.nextId && y.pc == m.pc
    && |y.reg| == 32 && y.reg[0] == 0
  }

  lemma BubbleShape(m: Machine, y: Machine, r: PipelineRegs, e: PipelineRegs)
    requires Shape(m) && Ran(m, y, r, e)
    ensures Shape(InsertBubble(y))
  {
    hide NewRec;
  }

  lemma AtRemoved(recs: Store, k: nat)
    ensures forall j: nat :: j != k ==> At(recs - {k}, j) == At(recs, j)
  {
    hide NewRec;
  }

  lemma StageIds(m: Machine)
    requires Shape(m)
    ensures m.wb < m.nextId && m.mm < m.nextId && m.ex < m.nextId && m.id < m.nextId && m.late < m.nextId
    ensures m.lateLate != m.wb && m.lateLate != m.mm && m.lateLate != m.ex && m.lateLate != m.id && m.lateLate != m.late
    ensures m.ifs.Holds? ==> m.ifs.id < m.nextId && m.ifs.id != m.lateLate && m.ifs.id != m.wb && m.ifs.id != m.late
  {
  }

  lemma RanRecords(m: Machine, y: Machine, r: PipelineRegs, e: PipelineRegs)
    requires Shape(m) && Ran(m, y, r, e)
    ensures At(y.recs, m.mm) == r && At(y.recs, m.ex) == e
    ensures At(y.recs, m.id) == At(m.recs, m.id) && At(y.recs, m.wb) == At(m.recs, m.wb)
    ensures m.ifs.Holds? ==> At(y.recs, m.ifs.id) == At(m.recs, m.ifs.id)
  {
    hide At, Shape;
    SeparateIds(m);
    AtUpdated(m.recs, m.mm, r);
    AtUpdated(m.recs[m.mm := r], m.ex, e);
  }

  lemma BubbleRecords(m: Machine, y: Machine, r: PipelineRegs, e: PipelineRegs)
    requires Shape(m) && Ran(m, y, r, e)
    ensures var z := InsertBubble(y);
            && At(z.recs, z.wb) == r && At(z.recs, z.mm) == e && At(z.recs, z.ex) == NewRec(z.ex, m.pc, NOP_INSTR)
            && At(z.recs, z.id) == At(m.recs, m.id) && At(z.recs, z.late) == At(m.recs, m.wb)
            && (m.ifs.Holds? ==> At(z.recs, z.ifs.id) == At(m.recs, m.ifs.id))
  {
    hide NewRec, At, Shape;
    StageIds(m);
    RanRecords(m, y, r, e);
    AtRemoved(y.recs, m.lateLate);
    AtUpdated(y.recs - {m.lateLate}, m.nextId, NewRec(m.nextId, m.pc, NOP_INSTR));
  }

  lemma BubbleRest(y: Machine)
    ensures var z := InsertBubble(y);
            && z.pc == y.pc && z.reg == y.reg && z.mem == y.mem && z.epc == y.epc && z.excPending == y.excPending
            && z.ifs == y.ifs && z.id == y.id && z.late == y.wb && z.wb == y.mm && z.mm == y.ex
            && ArchHi(z) == ArchHi(y) && ArchLo(z) == ArchLo(y) && HiLoIdle(z) == HiLoIdle(y)
  {
    hide NewRec;
  }

  lemma NewRecord(id: nat, pc: Word)
    ensures var r := NewRec(id, pc, NOP_INSTR);
            Own(id, r) && Quiet(r) && r.excBuf == [] && PointsInto(r.aluSrcA, {id}) && PointsInto(r.aluSrcB, {id})
  {
  }

  /** The records of y that are wired into the stages of the moved pipeline. */
  lemma BubbleWiring(m: Machine, y: Machine, r: PipelineRegs, e: PipelineRegs)
    requires Shape(m) && Ran(m, y, r, e) && Wiring(m) && Newest(At(m.recs, m.wb), y.reg)
    requires Own(m.mm, r) && Own(m.ex, e)
    ensures Wiring(InsertBubble(y)) && LateOk(InsertBubble(y))
  {
    hide NewRec, At, Shape, Own, Untouched, PointsInto, Produced, Ran;
    BubbleRecords(m, y, r, e);
    NewRecord(m.nextId, m.pc);
    RanStages(m, y, r, e);
    var z := InsertBubble(y);
    PointsWider(At(z.recs, z.ex).aluSrcA, z.ex, z.mm, z.wb, z.late);
    PointsWider(At(z.recs, z.ex).aluSrcB, z.ex, z.mm, z.wb, z.late);
  }

  lemma RanStages(m: Machine, y: Machine, r: PipelineRegs, e: PipelineRegs)
    requires Ran(m, y, r, e)
    ensures y.wb == m.wb && y.mm == m.mm && y.ex == m.ex && y.id == m.id && y.ifs == m.ifs && y.nextId == m.nextId && y.pc == m.pc
    ensures |y.reg| == 32
  {
  }

  lemma PointsWider(p: Ptr, a: nat, b: nat, c: nat, d: nat)
    requires PointsInto(p, {a})
    ensures PointsInto(p, {a, b, c, d})
  {
  }

  lemma IdReadyIsOk(env: Env, d: PipelineRegs, id: nat, e: PipelineRegs, m: PipelineRegs, w: PipelineRegs, s: Arch, live: bool)
    requires IdReady(env, d, id, e, m, w, s, live)
    ensures IdOk(env, d, s, live)
  {
    hide Instr, IsReserved, BoundLate, FirstSource, SecondSource, Destination, UsesImm, UsesSignedImm, IsLoad,
         ShamtValue, ImmValue, Bind;
  }

  lemma FetchOkMoved(env: Env, m: Machine, z: Machine, s: Arch, t: Tags, t': Tags)
    requires FetchOk(env, m, s, t) && z.pc == m.pc && z.ifs == m.ifs && t'.d == t.d && t'.f == t.f
    requires m.ifs.Holds? ==> At(z.recs, m.ifs.id) == At(m.recs, m.ifs.id)
    ensures FetchOk(env, z, s, t')
  {
    hide At;
  }

  lemma ReadyFront(env: Env, m: Machine, s: Arch, t: Tags)
    requires Ready(env, m, s, t)
    ensures Untouched(m.id, At(m.recs, m.id)) && Own(m.id, At(m.recs, m.id))
    ensures PointsInto(At(m.recs, m.id).aluSrcA, {m.id, m.ex, m.mm, m.wb})
    ensures PointsInto(At(m.recs, m.id).aluSrcB, {m.id, m.ex, m.mm, m.wb})
    ensures m.ifs.Holds? ==> Untouched(m.ifs.id, At(m.recs, m.ifs.id))
    ensures CleanD(env, s, t) ==>
              && IdReady(env, At(m.recs, m.id), m.id, At(m.recs, m.ex), At(m.recs, m.mm), At(m.recs, m.wb), S3(env, s, t), t.d)
              && FetchOk(env, m, S3(env, s, t), t)
  {
    hide Shape, LateOk, WbOk, ExOk, FetchOk, S1, S2, S3, CleanM, CleanE, CleanD, MemReady, IdReady, Own,
         Untouched, PointsInto, At, HiLoIdle, ArchHi, ArchLo;
  }

  lemma RanHere(env: Env, m: Machine, s: Arch, t: Tags)
    requires Retired(env, m, s, t)
    ensures Ran(m, Executed(env, m), MemRec(env, RegCommit(m)), ExecRec(Accessed(env, m)))
  {
    hide Executed, MemRec, RegCommit, ExecRec, Accessed, At, HiLoIdle, Newest, WbOk, MemOk, CleanE, S1, S2, S3, ArchHi, ArchLo;
    ExecutedFrame(env, m);
  }

  lemma ExecPortsHere(env: Env, m: Machine)
    requires Shape(m)
    ensures var e := At(m.recs, m.ex);
            var e' := ExecRec(Accessed(env, m));
            && e'.dst == e.dst && e'.wRegData == e.wRegData && e'.memReadOp == e.memReadOp
            && Own(m.ex, e') == Own(m.ex, e)
  {
    hide Shape, At, Accessed, ExecRec;
    AccessedRecords(env, m);
    AccessedFrame(env, m);
    ExecPorts(Accessed(env, m));
  }

  lemma WiringHere(env: Env, m: Machine, s: Arch, t: Tags)
    requires Ready(env, m, s, t) && Shape(m)
    ensures Wiring(m) && Own(m.mm, MemRec(env, RegCommit(m))) && Own(m.ex, ExecRec(Accessed(env, m)))
  {
    hide Ready, At, Own, MemRec, ExecRec, Accessed, CommittedRegs, Shape, Untouched, PointsInto;
    ReadyWiring(env, m, s, t);
    MemRecPorts(env, RegCommit(m));
    ExecPortsHere(env, m);
  }

  lemma ReadyWiring(env: Env, m: Machine, s: Arch, t: Tags)
    requires Ready(env, m, s, t)
    ensures Wiring(m)
  {
    hide Shape, LateOk, WbOk, ExOk, FetchOk, S1, S2, S3, CleanM, CleanE, CleanD, MemReady, IdReady, Own,
         Untouched, PointsInto, At, HiLoIdle, ArchHi, ArchLo, Wiring;
  }

  lemma BubbleCommon(env: Env, m: Machine, s: Arch, t: Tags)
    requires Ready(env, m, s, t) && CleanM(env, s, t) && NoInterlock(m)
    ensures Common(env, InsertBubble(Executed(env, m)), S1(env, s, t), BubbleTags(t))
  {
    hide Ready, At, S1, S2, S3, CleanM, CleanE, CleanD, Own, Newest, Shape, Wiring, LateOk, HiLoIdle, WbOk, MemOk, FetchOk, ArchHi, ArchLo,
         MemRec, ExecRec, Executed, Accessed, NoInterlock, InsertBubble, NewRec, IdReady, Untouched, PointsInto, Ran, RegCommit;
    var y := Executed(env, m);
    ReadyWb(env, m, s, t);
    RetireStep(env, m, s, t);
    RanHere(env, m, s, t);
    WiringHere(env, m, s, t);
    BubbleChain(env, s, t);
    BubbleShape(m, y, MemRec(env, RegCommit(m)), ExecRec(Accessed(env, m)));
    BubbleRecords(m, y, MemRec(env, RegCommit(m)), ExecRec(Accessed(env, m)));
    BubbleWiring(m, y, MemRec(env, RegCommit(m)), ExecRec(Accessed(env, m)));
    BubbleRest(y);
    RanStages(m, y, MemRec(env, RegCommit(m)), ExecRec(Accessed(env, m)));
    NewRecord(InsertBubble(y).ex, m.pc);
    ReadyFront(env, m, s, t);
    if CleanD(env, s, t) {
      FetchOkMoved(env, m, InsertBubble(y), S3(env, s, t), t, BubbleTags(t));
    }
  }

  /** A load-use hazard costs a bubble and nothing else. */
  lemma BubbleStep(env: Env, m: Machine, s: Arch, t: Tags)
    requires Ready(env, m, s, t) && CleanM(env, s, t) && NoInterlock(m)
    ensures Inv(env, InsertBubble(Executed(env, m)), S1(env, s, t), BubbleTags(t))
  {
    hide Ready, At, S1, S2, S3, CleanM, CleanE, CleanD, Own, Newest, Shape, HiLoIdle, WbOk, MemOk, FetchOk, ArchHi, ArchLo,
         MemRec, ExecRec, Executed, Accessed, NoInterlock, InsertBubble, NewRec, IdReady, IdOk, Untouched, PointsInto, Ran, RegCommit, Common, LateOk;
    var y := Executed(env, m);
    ReadyWb(env, m, s, t);
    RetireStep(env, m, s, t);
    RanHere(env, m, s, t);
    BubbleChain(env, s, t);
    BubbleRecords(m, y, MemRec(env, RegCommit(m)), ExecRec(Accessed(env, m)));
    BubbleRest(y);
    RanStages(m, y, MemRec(env, RegCommit(m)), ExecRec(Accessed(env, m)));
    ReadyFront(env, m, s, t);
    BubbleCommon(env, m, s, t);
    if CleanD(env, s, t) {
      IdReadyIsOk(env, At(m.recs, m.id), m.id, At(m.recs, m.ex), At(m.recs, m.mm), At(m.recs, m.wb), S3(env, s, t), t.d);
    }
  }
}
