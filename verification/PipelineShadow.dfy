/** The instruction right behind a trapping one: it is executed before the trap is
    taken, and what it does to HI and LO stays. */
module PipelineShadow {
  import opened Isa
  import opened Sequential
  import opened Pipeline
  import opened PipelineInvariant
  import opened PipelineChecks
  import opened PipelineSettle
  import opened PipelineMove
  import opened PipelineRetire
  import opened PipelineAdvance
  import opened PipelineRefinement
  import opened PipelineTraps

  /** The state Behind(s), placed where record r says it is. */
  function BehindAt(env: Env, s: Arch, r: PipelineRegs): Arch { Behind(env, s).(inSlot := r.delaySlot) }

  /** A trapping instruction in EX, the next one in ID: before pre_decode ... */
  predicate InId(env: Env, m: Machine, s: Arch) {
    var d := At(m.recs, m.id);
    IdOk(env, d, BehindAt(env, s, d), true)
  }

  /** ... and after it. */
  predicate InIdReady(env: Env, m: Machine, s: Arch) {
    var d := At(m.recs, m.id);
    IdReady(env, d, m.id, At(m.recs, m.ex), At(m.recs, m.mm), At(m.recs, m.wb), BehindAt(env, s, d), true)
  }

  /** A trapping instruction in MEM, the next one, or a bubble, in EX. */
  predicate InEx(env: Env, m: Machine, s: Arch, live: bool) {
    var e := At(m.recs, m.ex);
    if live then
      && ExOk(env, e, m.ex, At(m.recs, m.mm), At(m.recs, m.wb), At(m.recs, m.late), BehindAt(env, s, e), true)
      && (FrontFault(env, Behind(env, s)) || !HeldBack(env, s))
    else Quiet(e) && !Overtakes(env, s)
  }

  /** A trapping instruction in WB: the next one has been executed. */
  predicate Overtaken(env: Env, m: Machine, s: Arch) { ArchHi(m) == TrapHi(env, s) && ArchLo(m) == TrapLo(env, s) }

  /** What the invariant adds about the successor of a trapping instruction. */
  predicate Shadow(env: Env, m: Machine, s: Arch, t: Tags) {
    && (CleanE(env, s, t) && !CleanD(env, s, t) ==> t.d && InId(env, m, S2(env, s, t)))
    && (CleanM(env, s, t) && !CleanE(env, s, t) ==> InEx(env, m, S1(env, s, t), t.e))
    && (!CleanM(env, s, t) ==> Overtaken(env, m, s))
  }

  predicate ShadowReady(env: Env, m: Machine, s: Arch, t: Tags) {
    && (CleanE(env, s, t) && !CleanD(env, s, t) ==> t.d && InIdReady(env, m, S2(env, s, t)))
    && (CleanM(env, s, t) && !CleanE(env, s, t) ==> InEx(env, m, S1(env, s, t), t.e))
    && (!CleanM(env, s, t) ==> Overtaken(env, m, s))
  }

  // ---- the checks ----

  /** What the checks leave of the records in the stages. */
  lemma CheckRecords(env: Env, m: Machine, miss: bool)
    requires Shape(m) && Wiring(m) && LateOk(m)
    ensures var c := Check(env, m, miss);
            && c.id == m.id && c.ex == m.ex && c.mm == m.mm && c.wb == m.wb && c.late == m.late
            && At(c.recs, m.wb) == At(m.recs, m.wb) && At(c.recs, m.ex) == At(m.recs, m.ex)
            && At(c.recs, m.late) == At(m.recs, m.late)
            && At(c.recs, m.mm).dst == At(m.recs, m.mm).dst && At(c.recs, m.mm).wRegData == At(m.recs, m.mm).wRegData
            && At(c.recs, m.id) ==
                 PreDecodeRec(At(m.recs, m.id), m.id, At(m.recs, m.ex), At(m.recs, m.mm), At(m.recs, m.wb))
  {
    hide At, PreDecode, PreDecodeRec, PreMemAccess, Fetch, Shape, Wiring, LateOk, MemFault, FetchOk, FetchFills;
    var p := PreDecode(m);
    var q := PreMemAccess(p);
    var s := ResetState([], 0, 0, m.mem, 0);
    CheckFrame(env, m, miss);
    SeparateIds(m);
    StageIds(m);
    PreDecodeFrame(env, m, s, NO_TAGS);
    PreDecodeAside(m);
    PreMemFrame(env, p, s, NO_TAGS);
    PreMemStages(p);
    FetchAside(env, q, miss);
    LateKept(env, p, q, miss);
  }

  lemma LateKept(env: Env, p: Machine, q: Machine, miss: bool)
    ensures PreMemAccess(p).late == p.late && Fetch(env, q, miss).late == q.late
  {
    hide Fetched, FetchFills, MemFault, At;
  }

  lemma SlotKept(d: PipelineRegs, id: nat, e: PipelineRegs, m: PipelineRegs, w: PipelineRegs)
    ensures PreDecodeRec(d, id, e, m, w).delaySlot == d.delaySlot
  {
    hide FirstSource, SecondSource, Destination, UsesShamt, UsesImm, UsesSignedImm, IsLoad, IsStore, IsPartialLoad,
         IsReserved, ImmValue, Shamt, Bind, BindLate;
  }

  lemma CheckInId(env: Env, m: Machine, s: Arch, miss: bool)
    requires Shape(m) && Wiring(m) && LateOk(m) && Untouched(m.id, At(m.recs, m.id)) && InId(env, m, s)
    ensures InIdReady(env, Check(env, m, miss), s)
  {
    hide At, Check, PreDecodeRec, Shape, Wiring, LateOk, Untouched, IdOk, IdReady, Behind;
    var d, e, r, w := At(m.recs, m.id), At(m.recs, m.ex), At(m.recs, m.mm), At(m.recs, m.wb);
    var c := Check(env, m, miss);
    CheckRecords(env, m, miss);
    SlotKept(d, m.id, e, r, w);
    PreDecodeReady(env, d, m.id, e, r, w, BehindAt(env, s, d), true);
    BoundToPorts(env, At(c.recs, m.id), m.id, e, r, w, e, At(c.recs, m.mm), BehindAt(env, s, d), true);
  }

  lemma CheckInEx(env: Env, m: Machine, s: Arch, live: bool, miss: bool)
    requires Shape(m) && Wiring(m) && LateOk(m) && InEx(env, m, s, live)
    ensures InEx(env, Check(env, m, miss), s, live)
  {
    hide At, Check, PreDecodeRec, Shape, Wiring, LateOk, ExOk, Behind, Quiet, HeldBack, FrontFault, Overtakes;
    var e, r, w, l := At(m.recs, m.ex), At(m.recs, m.mm), At(m.recs, m.wb), At(m.recs, m.late);
    var c := Check(env, m, miss);
    CheckRecords(env, m, miss);
    BoundToPorts(env, e, m.ex, r, w, l, At(c.recs, m.mm), w, BehindAt(env, s, e), true);
  }

  lemma FetchTagOnly(env: Env, m: Machine, s: Arch, t: Tags, miss: bool)
    ensures var t' := AfterFetch(m, t, miss);
            && CleanM(env, s, t') == CleanM(env, s, t) && CleanE(env, s, t') == CleanE(env, s, t)
            && CleanD(env, s, t') == CleanD(env, s, t)
            && S1(env, s, t') == S1(env, s, t) && S2(env, s, t') == S2(env, s, t) && t'.d == t.d && t'.e == t.e
  {
    hide Traps, Step;
  }

  lemma InvParts(env: Env, m: Machine, s: Arch, t: Tags)
    requires Inv(env, m, s, t)
    ensures Shape(m) && Wiring(m) && LateOk(m) && Untouched(m.id, At(m.recs, m.id))
  {
    hide Common, Shape, Wiring, LateOk, Untouched, At, MemOk, IdOk, CleanM, CleanD, S1, S3;
    CommonShape(env, m, s, t);
  }

  lemma ShadowCheck(env: Env, m: Machine, s: Arch, t: Tags, miss: bool)
    requires Inv(env, m, s, t) && Shadow(env, m, s, t)
    ensures ShadowReady(env, Check(env, m, miss), s, AfterFetch(m, t, miss))
  {
    hide Inv, At, Check, Shape, Wiring, LateOk, Untouched, InId, InIdReady, InEx, CleanM, CleanE, CleanD, S1, S2, AfterFetch,
         ArchHi, ArchLo, TrapHi, TrapLo;
    InvParts(env, m, s, t);
    FetchTagOnly(env, m, s, t, miss);
    CheckHiLo(env, m, miss);
    if !CleanM(env, s, t) {
    } else if !CleanE(env, s, t) {
      CheckInEx(env, m, S1(env, s, t), t.e, miss);
    } else if !CleanD(env, s, t) {
      CheckInId(env, m, S2(env, s, t), miss);
    }
    CleanOrder(env, s, t);
  }

  lemma CleanOrder(env: Env, s: Arch, t: Tags)
    ensures CleanD(env, s, t) ==> CleanE(env, s, t)
    ensures CleanE(env, s, t) ==> CleanM(env, s, t)
  {
    hide Traps, S1, S2;
  }

  // ---- settling ----

  lemma NothingBehind(env: Env, m: Machine, s: Arch)
    ensures ShadowReady(env, m, s, NO_TAGS)
  {
    hide InIdReady, InEx, Overtaken, Traps;
  }

  lemma TickShadow(env: Env, m: Machine, s: Arch, t: Tags)
    requires ShadowReady(env, m, s, t) && HiLoIdle(m)
    ensures ShadowReady(env, TickMulDiv(m), s, t)
  {
    hide At, IdReady, ExOk, Quiet, Behind, HeldBack, Overtakes, FrontFault, CleanM, CleanE, CleanD, S1, S2, TickMulDiv,
         ArchHi, ArchLo, TrapHi, TrapLo, HiLoIdle;
    TickFrame(m);
    TickHiLo(m);
  }

  lemma ShadowSettle(env: Env, m: Machine, s: Arch, t: Tags)
    requires Ready(env, m, s, t) && ShadowReady(env, m, s, t)
    ensures ShadowReady(env, Settle(env, m), Resumed(env, m, s), ResumedTags(m, t))
  {
    hide Ready, ShadowReady, TrapFires, TrapState, TickMulDiv, HiLoIdle;
    if TrapFires(m) {
      TrapStep(env, m, s, t);
      CommonIdle(env, ExcHandle(env, m), TrapState(env, m, s), NO_TAGS);
      NothingBehind(env, ExcHandle(env, m), TrapState(env, m, s));
      TickShadow(env, ExcHandle(env, m), TrapState(env, m, s), NO_TAGS);
    } else {
      CommonIdle(env, m, s, t);
      TickShadow(env, m, s, t);
    }
  }

  lemma ShadowStalled(env: Env, m: Machine, s: Arch, t: Tags)
    requires ShadowReady(env, m, s, t)
    ensures Shadow(env, m, s, t)
  {
    hide At, IdReady, IdOk, Behind, InEx, CleanM, CleanE, CleanD, S1, S2, Overtaken;
    if CleanE(env, s, t) && !CleanD(env, s, t) {
      var d := At(m.recs, m.id);
      IdReadyIsOk(env, d, m.id, At(m.recs, m.ex), At(m.recs, m.mm), At(m.recs, m.wb), BehindAt(env, S2(env, s, t), d), true);
    }
  }

  // ---- the trapping instruction leaves ID ----

  lemma BehindFetched(env: Env, m: Machine, s: Arch, t: Tags, slot: bool)
    requires m.ifs.Holds? && FetchOk(env, m, s, t) && t.d
    ensures t.f && (var f := At(m.recs, m.ifs.id).(delaySlot := slot); IdOk(env, f, BehindAt(env, s, f), true))
  {
    hide At, IsReserved, IsLoad, Result, Destination, WriteReg;
  }

  lemma EnterId(env: Env, m: Machine, s: Arch, t: Tags)
    requires Ready(env, m, s, t) && CleanD(env, s, t) && NoInterlock(m) && !DataHazard(m) && m.ifs.Holds? && t.d
    ensures t.f && InId(env, Advance(Decode(Executed(env, m))), S3(env, s, t))
  {
    hide Ready, At, S1, S2, S3, CleanM, CleanE, CleanD, Own, Shape, Wiring, LateOk, HiLoIdle, WbOk, MemOk, ExOk, IdOk, FetchOk,
         ArchHi, ArchLo, MemRec, ExecRec, Executed, Accessed, NoInterlock, Advance, Decode, DecodeRec, SlotRec, IdReady,
         Untouched, PointsInto, RegCommit, DataHazard, Advanced, Redirects, Retired, FrontMoved, Behind;
    var y := Executed(env, m);
    var z := Advance(Decode(y));
    CleanOrder(env, s, t);
    ReadyFront(env, m, s, t);
    AdvanceReady(env, m, s, t);
    SlotRecIs(env, m, s, t);
    AdvancedRecords(m, z, MemRec(env, RegCommit(m)), ExecRec(Accessed(env, m)), DecodeRec(At(m.recs, m.id)), SlotRec(y));
    AdvancedIds(m, z, MemRec(env, RegCommit(m)), ExecRec(Accessed(env, m)), DecodeRec(At(m.recs, m.id)), SlotRec(y));
    BehindFetched(env, m, S3(env, s, t), t, SlotRec(y).delaySlot);
  }

  lemma SlotRecIs(env: Env, m: Machine, s: Arch, t: Tags)
    requires Ready(env, m, s, t) && CleanM(env, s, t) && NoInterlock(m) && m.ifs.Holds?
    ensures var y := Executed(env, m);
            y.ifs == m.ifs && SlotRec(y) == At(m.recs, m.ifs.id).(delaySlot := SlotRec(y).delaySlot)
  {
    hide Ready, At, CleanM, Shape, Executed, MemRec, RegCommit, ExecRec, Accessed, NoInterlock, Advance, Decode, Redirects, Retired, Ran,
         LateOk, HiLoIdle, WbOk, Own, S1, Advanced;
    ReadyWb(env, m, s, t);
    RetireStep(env, m, s, t);
    RanHere(env, m, s, t);
    ExecutedFrame(env, m);
    AdvancedHere(m, Executed(env, m), MemRec(env, RegCommit(m)), ExecRec(Accessed(env, m)));
  }

  // ---- it leaves EX ----

  lemma HazardIs(env: Env, m: Machine, s: Arch)
    requires ExOk(env, At(m.recs, m.ex), m.ex, At(m.recs, m.mm), At(m.recs, m.wb), At(m.recs, m.late), s, true)
    requires InIdReady(env, m, s) && !FrontFault(env, Behind(env, s))
    ensures DataHazard(m) <==> HeldBack(env, s)
  {
    hide At, Bind, BoundLate, FirstSource, SecondSource, Destination, UsesImm, UsesSignedImm, IsLoad, ShamtValue, ImmValue,
         LinkValue, Placed, FetchFault, IsReserved, Result, WriteReg;
    BehindSame(env, s, At(m.recs, m.id));
  }

  /** Where a record stands does not matter to what its instruction is or reads. */
  lemma BehindSame(env: Env, s: Arch, r: PipelineRegs)
    ensures var u, v := BehindAt(env, s, r), Behind(env, s);
            && FrontFault(env, u) == FrontFault(env, v) && Instr(env, u) == Instr(env, v)
            && OperandA(env, u) == OperandA(env, v) && OperandB(env, u) == OperandB(env, v)
  {
    hide IsReserved, FirstSource, SecondSource, InlineOperand, Behind;
  }

  lemma EnterExBubble(env: Env, m: Machine, s: Arch, t: Tags)
    requires Ready(env, m, s, t) && CleanE(env, s, t) && t.e && NoInterlock(m)
    requires InIdReady(env, m, S2(env, s, t)) && DataHazard(m)
    ensures InEx(env, InsertBubble(Executed(env, m)), S2(env, s, t), false)
  {
    hide Ready, At, S1, S2, CleanM, CleanE, Shape, Executed, MemRec, RegCommit, ExecRec, Accessed, NoInterlock, Retired, Ran, LateOk,
         HiLoIdle, WbOk, Own, ExOk, InIdReady, DataHazard, FrontFault, HeldBack, Behind, Quiet, InsertBubble, NewRec;
    var y := Executed(env, m);
    CleanOrder(env, s, t);
    ReadyWb(env, m, s, t);
    ReadyEx(env, m, s, t);
    RetireStep(env, m, s, t);
    RanHere(env, m, s, t);
    BubbleRecords(m, y, MemRec(env, RegCommit(m)), ExecRec(Accessed(env, m)));
    NewRecord(InsertBubble(y).ex, m.pc);
    if !FrontFault(env, Behind(env, S2(env, s, t))) {
      HazardIs(env, m, S2(env, s, t));
    }
  }

  lemma EnterExAdvance(env: Env, m: Machine, s: Arch, t: Tags)
    requires Ready(env, m, s, t) && CleanE(env, s, t) && t.e && NoInterlock(m) && m.ifs.Holds?
    requires InIdReady(env, m, S2(env, s, t)) && !DataHazard(m)
    ensures InEx(env, Advance(Decode(Executed(env, m))), S2(env, s, t), true)
  {
    hide Ready, At, S1, S2, CleanM, CleanE, Shape, Executed, MemRec, RegCommit, ExecRec, Accessed, NoInterlock, Retired, Ran, LateOk,
         HiLoIdle, WbOk, Own, ExOk, IdReady, DataHazard, FrontFault, HeldBack, Behind, Advance, Decode, DecodeRec, SlotRec, Advanced,
         Untouched, PointsInto, Wiring, FrontMoved, FetchOk, ArchHi, ArchLo;
    var s2 := S2(env, s, t);
    var d := At(m.recs, m.id);
    var y := Executed(env, m);
    var z := Advance(Decode(y));
    var r, e := MemRec(env, RegCommit(m)), ExecRec(Accessed(env, m));
    CleanOrder(env, s, t);
    ReadyEx(env, m, s, t);
    ReadyFront(env, m, s, t);
    AdvanceReady(env, m, s, t);
    AdvancedRecords(m, z, r, e, DecodeRec(d), SlotRec(y));
    AdvancedIds(m, z, r, e, DecodeRec(d), SlotRec(y));
    UntouchedResult(m.id, d);
    MemRecPorts(env, RegCommit(m));
    RegCommitAside(m);
    ExecPortsHere(env, m);
    BoundToPorts(env, d, m.id, At(m.recs, m.ex), At(m.recs, m.mm), At(m.recs, m.wb), e, r, BehindAt(env, s2, d), true);
    DecodeEx(env, d, m.id, e, r, At(m.recs, m.wb), BehindAt(env, s2, d), true);
    DecodeSlot(d);
    if !FrontFault(env, Behind(env, s2)) {
      HazardIs(env, m, s2);
    }
  }

  lemma DecodeSlot(d: PipelineRegs)
    ensures DecodeRec(d).delaySlot == d.delaySlot
  {
    hide IsLink;
  }

  // ---- it leaves MEM ----

  lemma TrappedRecord(env: Env, r: PipelineRegs, w: PipelineRegs, s: Arch)
    requires MemReady(env, r, w, s, true)
    ensures FrontFault(env, s) ==> r.dst == NONE_REG
    ensures !FrontFault(env, s) ==>
              && r.dst == Destination(Instr(env, s)) && r.result == Result(env, s)
              && r.memReadOp == (r.dst != NONE_REG && IsLoad(Instr(env, s)))
  {
    hide FrontFault, Traps, ExecTraps, Result, Destination, IsLoad, Instr, BoundLate, Placed;
  }

  /** The register file that the successor sees differs from the trapping
      instruction's by what its record holds, unless that is a load. */
  lemma StaleRegs(env: Env, r: PipelineRegs, w: PipelineRegs, s: Arch, v: Word)
    requires MemReady(env, r, w, s, true) && |s.regs| == 32 && (r.dst == NONE_REG || 0 < r.dst < NONE_REG)
    ensures var p := r.(rMemData := v);
            var regs := Behind(env, s).regs;
            && |regs| == 32 && Elsewhere(p, s.regs, regs)
            && (p.dst == NONE_REG || Newest(p, regs) || (!FrontFault(env, s) && IsLoad(Instr(env, s)) && p.dst == Destination(Instr(env, s))))
  {
    hide FrontFault, Result, Destination, IsLoad, Instr, MemReady;
    TrappedRecord(env, r, w, s);
  }

  lemma DstRange(id: nat, r: PipelineRegs)
    requires Own(id, r)
    ensures r.dst == NONE_REG || 0 < r.dst < NONE_REG
  {
  }

  lemma BoundSources(env: Env, r: PipelineRegs, id: nat, e: PipelineRegs, m: PipelineRegs, w: PipelineRegs, s: Arch)
    requires Bound(env, r, id, e, m, w, s)
    ensures r.instr == Instr(env, s) && r.srcA == FirstSource(r.instr) && r.srcB == SecondSource(r.instr)
  {
    hide FirstSource, SecondSource, Destination, UsesImm, UsesSignedImm, IsLoad, ShamtValue, ImmValue, Bind, BoundLate;
  }

  lemma ExBound(env: Env, e: PipelineRegs, id: nat, m: PipelineRegs, w: PipelineRegs, l: PipelineRegs, s: Arch)
    requires ExOk(env, e, id, m, w, l, s, true) && !FrontFault(env, s)
    ensures Bound(env, e, id, m, w, l, s)
  {
    hide Bound, FrontFault, LinkValue;
  }

  /** The successor reads its operands in the state Behind says. */
  lemma BehindOperands(env: Env, m: Machine, s: Arch, t: Tags)
    requires Ready(env, m, s, t) && CleanM(env, s, t) && t.m
    requires InEx(env, m, S1(env, s, t), true) && !FrontFault(env, Behind(env, S1(env, s, t)))
    ensures var x := Accessed(env, m);
            var e := At(m.recs, m.ex);
            var n := Behind(env, S1(env, s, t));
            && e.instr == Instr(env, n)
            && Deref(x.recs, x.reg, e.aluSrcA) == OperandA(env, n) && Deref(x.recs, x.reg, e.aluSrcB) == OperandB(env, n)
  {
    hide Ready, At, S1, CleanM, Shape, LateOk, HiLoIdle, WbOk, Own, ExOk, FrontFault, HeldBack, Behind, Accessed, MemRec, RegCommit,
         CommittedRegs, Newest, Elsewhere, MemReady, Bound, Deref, OperandA, OperandB, ArchHi, ArchLo;
    var s1 := S1(env, s, t);
    var x := Accessed(env, m);
    var e := At(m.recs, m.ex);
    var r := MemRec(env, RegCommit(m));
    var n := BehindAt(env, s1, e);
    ReadyWb(env, m, s, t);
    ReadyMem(env, m, s, t);
    CommitStep(env, m, s, t);
    LateNewest(m);
    AccessedFrame(env, m);
    AccessedRecords(env, m);
    MemRecPorts(env, RegCommit(m));
    RegCommitAside(m);
    SeparateIds(m);
    MemRecIs(env, m);
    DstRange(m.mm, At(m.recs, m.mm));
    StaleRegs(env, At(m.recs, m.mm), At(m.recs, m.wb), s1, r.rMemData);
    BehindSame(env, s1, e);
    ExBound(env, e, m.ex, At(m.recs, m.mm), At(m.recs, m.wb), At(m.recs, m.late), n);
    BoundSources(env, e, m.ex, At(m.recs, m.mm), At(m.recs, m.wb), At(m.recs, m.late), n);
    if !FrontFault(env, s1) && IsLoad(Instr(env, s1)) {
      NotHeldBack(env, s1);
    }
    KeptElsewhere(At(m.recs, m.wb), s.regs, s1.regs);
    PortsOnly(env, e, m.ex, At(m.recs, m.mm), r, At(m.recs, m.wb), At(m.recs, m.late), n);
    Operands(env, x.recs, x.reg, m.ex, m.mm, m.wb, m.late, n, s1.regs, s.regs);
  }

  lemma MemRecIs(env: Env, m: Machine)
    ensures var r := MemRec(env, RegCommit(m)); r == At(m.recs, m.mm).(rMemData := r.rMemData)
  {
    hide At, MemData, CommittedRegs;
  }

  lemma NotHeldBack(env: Env, s: Arch)
    requires !HeldBack(env, s) && !FrontFault(env, s) && IsLoad(Instr(env, s))
    ensures var d := Destination(Instr(env, s));
            var i := Instr(env, Behind(env, s));
            d == NONE_REG || (FirstSource(i) != d && SecondSource(i) != d)
  {
    hide Destination, FirstSource, SecondSource, IsLoad, FrontFault, Behind, Instr;
  }

  lemma KeptElsewhere(p: PipelineRegs, before: seq<Word>, after: seq<Word>)
    requires Elsewhere(p, before, after)
    ensures forall k :: 0 <= k < |before| && k != p.dst ==> after[k] == before[k]
  {
  }

  lemma PortsOnly(env: Env, e: PipelineRegs, id: nat, m: PipelineRegs, m': PipelineRegs, w: PipelineRegs, l: PipelineRegs, s: Arch)
    requires Bound(env, e, id, m, w, l, s) && m'.dst == m.dst && m'.wRegData == m.wRegData
    ensures Bound(env, e, id, m', w, l, s)
  {
    hide FirstSource, SecondSource, Destination, UsesImm, UsesSignedImm, IsLoad, ShamtValue, ImmValue, Rt, Instr, IsStore, IsPartialLoad;
  }

  /** What the execute stage does to HI and LO while a trapping instruction is in
      MEM is what TrapHi and TrapLo say. */
  lemma TrapHiLoIs(env: Env, s: Arch, e: PipelineRegs, a: Word, b: Word, live: bool)
    requires live ==> FrontFault(env, Behind(env, s)) || !HeldBack(env, s)
    requires !live ==> Quiet(e) && !Overtakes(env, s)
    requires live && FrontFault(env, Behind(env, s)) ==> Quiet(e)
    requires live && !FrontFault(env, Behind(env, s)) ==>
               var n := Behind(env, s);
               e.instr == Instr(env, n) && a == OperandA(env, n) && b == OperandB(env, n)
    ensures TrapHi(env, s) == (if WritesHi(e.instr) then HiValue(e.instr, a, b) else s.hi)
    ensures TrapLo(env, s) == (if WritesLo(e.instr) then LoValue(e.instr, a, b) else s.lo)
  {
    hide FrontFault, HeldBack, IsMulDiv, HiValue, LoValue, OperandA, OperandB, Instr, IsLoad, Result, WriteReg, Destination;
    NopFacts();
  }

  lemma QuietFault(env: Env, e: PipelineRegs, id: nat, m: PipelineRegs, w: PipelineRegs, l: PipelineRegs, s: Arch)
    requires ExOk(env, e, id, m, w, l, s, true) && FrontFault(env, s)
    ensures Quiet(e)
  {
    hide Bound, FrontFault, LinkValue, Quiet;
  }

  lemma LeaveMem(env: Env, m: Machine, s: Arch, t: Tags, hazard: bool)
    requires Ready(env, m, s, t) && CleanM(env, s, t) && t.m && Traps(env, S1(env, s, t)) && m.ifs.Holds?
    requires InEx(env, m, S1(env, s, t), t.e)
    ensures Overtaken(env, Move(env, m, hazard), S1(env, s, t))
  {
    hide Ready, At, CleanM, Move, Executed, Accessed, ArchHi, ArchLo, HiValue, LoValue, WritesHi, WritesLo, Deref, Shape, LateOk,
         HiLoIdle, Traps, Elsewhere, Newest, Own, Step, MemReady, WbOk, CommittedRegs, S1, FrontFault, HeldBack, Overtakes, Behind,
         ExOk, Quiet, TrapHi, TrapLo, OperandA, OperandB, Instr;
    var s1 := S1(env, s, t);
    var x := Accessed(env, m);
    var e := At(m.recs, m.ex);
    ReadyWb(env, m, s, t);
    CommitStep(env, m, s, t);
    MovedHiLo(env, m, hazard);
    ExecHiLoAt(env, m);
    ReadyMem(env, m, s, t);
    TrapHiLo(env, s1);
    if t.e {
      BehindSame(env, s1, e);
      if FrontFault(env, Behind(env, s1)) {
        QuietFault(env, e, m.ex, At(m.recs, m.mm), At(m.recs, m.wb), At(m.recs, m.late), BehindAt(env, s1, e));
      } else {
        BehindOperands(env, m, s, t);
      }
    }
    TrapHiLoIs(env, s1, e, Deref(x.recs, x.reg, e.aluSrcA), Deref(x.recs, x.reg, e.aluSrcB), t.e);
  }

  // ---- a move, and a cycle ----

  lemma MoveChain(env: Env, s: Arch, t: Tags, hazard: bool)
    requires CleanM(env, s, t)
    ensures var s' := S1(env, s, t);
            var t' := MovedTags(t, hazard);
            && S1(env, s', t') == S2(env, s, t) && S2(env, s', t') == S3(env, s, t)
            && CleanM(env, s', t') == CleanE(env, s, t) && CleanE(env, s', t') == CleanD(env, s, t)
            && (CleanD(env, s', t') <==> CleanD(env, s, t) && (hazard || Clean(env, t.d, S3(env, s, t))))
            && t'.d == (if hazard then t.d else t.f) && t'.e == (!hazard && t.d)
  {
    hide Traps, Step, S1, S2, S3, CleanM, CleanE, CleanD;
    if hazard { BubbleChain(env, s, t); } else { AdvanceChain(env, s, t); }
  }

  lemma Unclean(env: Env, s: Arch, t: Tags)
    ensures CleanE(env, s, t) && !CleanD(env, s, t) ==> t.e && Traps(env, S2(env, s, t))
    ensures CleanM(env, s, t) && !CleanE(env, s, t) ==> t.m && Traps(env, S1(env, s, t))
    ensures !CleanM(env, s, t) ==> t.w && Traps(env, s)
  {
    hide Traps, S1, S2;
  }

  lemma ShadowMove(env: Env, m: Machine, s: Arch, t: Tags, hazard: bool)
    requires Ready(env, m, s, t) && ShadowReady(env, m, s, t) && CleanM(env, s, t) && NoInterlock(m) && m.ifs.Holds?
    requires hazard == DataHazard(m)
    ensures Shadow(env, Move(env, m, hazard), S1(env, s, t), MovedTags(t, hazard))
  {
    hide Ready, At, CleanM, CleanE, CleanD, S1, S2, S3, NoInterlock, DataHazard, Traps, InId, InIdReady, InEx, Overtaken, MovedTags,
         Executed, InsertBubble, Advance, Decode, RegCommit, MemAccess, Execute;
    MoveChain(env, s, t, hazard);
    Unclean(env, s, t);
    CleanOrder(env, s, t);
    MoveIs(env, m, hazard);
    if !CleanE(env, s, t) {
      LeaveMem(env, m, s, t, hazard);
    } else if !CleanD(env, s, t) {
      if hazard { EnterExBubble(env, m, s, t); } else { EnterExAdvance(env, m, s, t); }
    } else if !hazard && t.d {
      EnterId(env, m, s, t);
    }
  }

  lemma MoveIs(env: Env, m: Machine, hazard: bool)
    ensures Move(env, m, hazard) == if hazard then InsertBubble(Executed(env, m)) else Advance(Decode(Executed(env, m)))
  {
    hide RegCommit, MemAccess, Execute, Decode, Advance, InsertBubble;
  }

  lemma SettledHazard(env: Env, m: Machine, stall: Stall)
    requires Shape(m) && !Stalls(m, stall) && Shape(Check(env, m, stall.fetchMiss)) && !TrapFires(Check(env, m, stall.fetchMiss))
    ensures DataHazard(Settle(env, Check(env, m, stall.fetchMiss))) == DataHazard(PreDecode(m))
  {
    hide At, Check, Shape, DataHazard, PreDecode, ExcHandle, TrapFires, TickMulDiv, Stalls;
    var c := Check(env, m, stall.fetchMiss);
    HazardKept(env, m, stall.fetchMiss);
    NoTrapNoChange(env, c);
    TickHazard(c);
  }

  /** Nothing is in the stages after a flush, so there is nothing behind. */
  lemma FlushedShadow(env: Env, m: Machine, s: Arch, hazard: bool)
    ensures Shadow(env, m, S1(env, s, NO_TAGS), MovedTags(NO_TAGS, hazard))
  {
    hide InId, InEx, Overtaken, Traps;
  }

  /** The invariant and what it adds about the successor of a trapping
      instruction survive every cycle. */
  lemma ShadowStep(env: Env, m: Machine, x: Sim, stall: Stall)
    requires Inv(env, m, x.s, x.t) && Shadow(env, m, x.s, x.t)
    ensures var y := NextSim(env, m, x, stall);
            Shadow(env, Cycle(env, m, stall), y.s, y.t)
  {
    hide Inv, Ready, Shadow, ShadowReady, Check, Settle, Move, Stalls, DataHazard, PreDecode, S1, CleanM, AfterFetch, Resumed,
         Shape, MovedTags, NoInterlock, Common, TrapFires;
    var c := Check(env, m, stall.fetchMiss);
    var t := AfterFetch(m, x.t, stall.fetchMiss);
    CheckStep(env, m, x.s, x.t, stall.fetchMiss);
    ShadowCheck(env, m, x.s, x.t, stall.fetchMiss);
    SettleStep(env, c, x.s, t);
    ShadowSettle(env, c, x.s, t);
    if Stalls(m, stall) {
      ShadowStalled(env, Settle(env, c), Resumed(env, c, x.s), ResumedTags(c, t));
    } else if TrapFires(c) {
      FlushedShadow(env, Cycle(env, m, stall), Resumed(env, c, x.s), DataHazard(PreDecode(m)));
    } else {
      InvShape(env, m, x.s, x.t);
      ReadyShape(env, c, x.s, t);
      Movable(env, m, stall);
      SettledHazard(env, m, stall);
      ShadowMove(env, Settle(env, c), Resumed(env, c, x.s), ResumedTags(c, t), DataHazard(PreDecode(m)));
    }
  }

  lemma ResetShadow(env: Env, m: Machine, s: Arch)
    ensures Shadow(env, m, s, NO_TAGS)
  {
    hide InId, InEx, Overtaken, Traps;
  }

  /** A cycle performs at most one step of the reference, HI and LO included. */
  lemma CycleArch(env: Env, m: Machine, x: Sim, stall: Stall)
    requires Inv(env, m, x.s, x.t) && Shadow(env, m, x.s, x.t)
    ensures var y := NextSim(env, m, x, stall).s;
            y == if Steps(env, m, x, stall) then NextArch(env, x.s) else x.s
  {
    hide Inv, Ready, Check, Stalls, DataHazard, PreDecode, TrapFires, MovedTags, TrapEntry, ArchHi, ArchLo, AfterFetch, Traps,
         NextRegs, NextMem, NextHi, NextLo, NextNpc, TakesBranch, TrapHi, TrapLo, InId, InEx, CleanE, CleanD;
    var c := Check(env, m, stall.fetchMiss);
    CheckKeepsW(m, x.t, stall.fetchMiss);
    CheckStep(env, m, x.s, x.t, stall.fetchMiss);
    TrapCause(env, c, x.s, AfterFetch(m, x.t, stall.fetchMiss));
    CheckHiLo(env, m, stall.fetchMiss);
  }
}
