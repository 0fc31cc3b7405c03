/** The checks at the start of a cycle turn Inv into Ready. */
module PipelineChecks {
  import opened Isa
  import opened Sequential
  import opened Pipeline
  import opened PipelineInvariant

  lemma NopFacts()
    ensures Destination(NOP_INSTR) == NONE_REG && FirstSource(NOP_INSTR) == 0 && SecondSource(NOP_INSTR) == NONE_REG
    ensures UsesShamt(NOP_INSTR) && !UsesImm(NOP_INSTR) && !UsesSignedImm(NOP_INSTR) && Shamt(NOP_INSTR) == 0
    ensures !IsLoad(NOP_INSTR) && !IsStore(NOP_INSTR) && !IsPartialLoad(NOP_INSTR) && !IsReserved(NOP_INSTR)
    ensures !IsMulDiv(NOP_INSTR) && !IsLink(NOP_INSTR)
    ensures forall a, b :: !Taken(NOP_INSTR, a, b) && !ExecRaises(NOP_INSTR, a, b)
    ensures forall a :: !MemFault(NOP_INSTR, a)
  {
  }

  lemma ReservedHasNoOperands(i: Word)
    requires IsReserved(i)
    ensures Destination(i) == NONE_REG && SecondSource(i) == NONE_REG
    ensures !UsesShamt(i) && !UsesImm(i) && !UsesSignedImm(i) && !IsLoad(i) && !IsStore(i) && !IsPartialLoad(i)
  {
  }

  lemma ShamtUse(i: Word)
    ensures UsesShamt(i) ==> SecondSource(i) == NONE_REG && !UsesImm(i) && !UsesSignedImm(i)
    ensures UsesShamt(i) ==> Shamt(i) == ShamtValue(i)
    ensures !UsesShamt(i) ==> ShamtValue(i) == 0
    ensures !(UsesImm(i) || UsesSignedImm(i)) ==> ImmValue(i) == 0
    ensures IsPartialLoad(i) ==> IsLoad(i)
    ensures FirstSource(i) <= 32 && SecondSource(i) <= 32
  {
  }

  /** pre_decode gives a record its own write port and live operand pointers,
      whatever state an earlier, stalled pre_decode left it in. */
  lemma PreDecodeWiring(d: PipelineRegs, id: nat, e: PipelineRegs, ex: nat, m: PipelineRegs, mm: nat,
                        w: PipelineRegs, wb: nat)
    requires Untouched(id, d) && Own(ex, e) && Own(mm, m) && Own(wb, w)
    ensures var r := PreDecodeRec(d, id, e, m, w);
            Own(id, r) && Untouched(id, r)
            && PointsInto(r.aluSrcA, {id, ex, mm, wb}) && PointsInto(r.aluSrcB, {id, ex, mm, wb})
  {
    hide FirstSource, SecondSource, Destination, UsesShamt, UsesImm, UsesSignedImm, IsLoad, IsStore, IsPartialLoad,
         IsReserved, ImmValue, Shamt;
    NopFacts();
    ShamtUse(d.instr);
    if IsReserved(d.instr) { ReservedHasNoOperands(d.instr); }
  }

  lemma PreDecodeReady(env: Env, d: PipelineRegs, id: nat, e: PipelineRegs, m: PipelineRegs, w: PipelineRegs,
                       s: Arch, live: bool)
    requires Untouched(id, d) && IdOk(env, d, s, live)
    ensures IdReady(env, PreDecodeRec(d, id, e, m, w), id, e, m, w, s, live)
  {
    hide FirstSource, SecondSource, Destination, UsesShamt, UsesImm, UsesSignedImm, IsLoad, IsStore, IsPartialLoad,
         IsReserved, ImmValue, ShamtValue, Shamt, Bind, BindLate;
    NopFacts();
    ShamtUse(d.instr);
    if IsReserved(d.instr) { ReservedHasNoOperands(d.instr); }
  }

  /** Ready, except that the alignment check of the record in MEM is still to come. */
  predicate Decoded(env: Env, m: Machine, s: Arch, t: Tags) {
    && Common(env, m, s, t)
    && Own(m.id, At(m.recs, m.id)) && Untouched(m.id, At(m.recs, m.id))
    && PointsInto(At(m.recs, m.id).aluSrcA, {m.id, m.ex, m.mm, m.wb})
    && PointsInto(At(m.recs, m.id).aluSrcB, {m.id, m.ex, m.mm, m.wb})
    && (CleanM(env, s, t) ==> MemOk(env, At(m.recs, m.mm), At(m.recs, m.wb), S1(env, s, t), t.m))
    && (CleanD(env, s, t) ==>
          IdReady(env, At(m.recs, m.id), m.id, At(m.recs, m.ex), At(m.recs, m.mm), At(m.recs, m.wb),
                  S3(env, s, t), t.d))
  }

  lemma PreDecodeFrame(env: Env, m: Machine, s: Arch, t: Tags)
    requires Shape(m) && Wiring(m) && LateOk(m)
    ensures var p := PreDecode(m);
            && Shape(p) && Wiring(p) && LateOk(p)
            && (FetchOk(env, m, s, t) <==> FetchOk(env, p, s, t))
            && At(p.recs, m.wb) == At(m.recs, m.wb) && At(p.recs, m.mm) == At(m.recs, m.mm)
            && At(p.recs, m.ex) == At(m.recs, m.ex) && At(p.recs, m.late) == At(m.recs, m.late)
            && At(p.recs, m.id) ==
                 PreDecodeRec(At(m.recs, m.id), m.id, At(m.recs, m.ex), At(m.recs, m.mm), At(m.recs, m.wb))
  {
    hide PreDecodeRec, NewRec, Own, PointsInto, Untouched, Produced;
  }

  lemma PreDecodeCommon(env: Env, m: Machine, s: Arch, t: Tags)
    requires Inv(env, m, s, t)
    ensures Common(env, PreDecode(m), s, t)
  {
    hide S1, S2, S3, CleanM, CleanE, CleanD, WbOk, MemOk, ExOk, IdOk, Untouched, PreDecodeRec,
         FetchOk, Shape, Wiring, LateOk, At;
    PreDecodeFrame(env, m, S3(env, s, t), t);
  }

  lemma PreDecodeStep(env: Env, m: Machine, s: Arch, t: Tags)
    requires Inv(env, m, s, t)
    ensures Decoded(env, PreDecode(m), s, t)
  {
    hide S1, S2, S3, CleanM, CleanE, CleanD, WbOk, MemOk, ExOk, IdReady, IdOk, Own, Untouched, PreDecodeRec,
         PointsInto, FetchOk, Shape, Wiring, LateOk, At, HiLoIdle, ArchHi, ArchLo;
    var d := At(m.recs, m.id);
    var e := At(m.recs, m.ex);
    var r := At(m.recs, m.mm);
    var w := At(m.recs, m.wb);
    OwnOfWiring(m);
    PreDecodeCommon(env, m, s, t);
    PreDecodeFrame(env, m, S3(env, s, t), t);
    PreDecodeWiring(d, m.id, e, m.ex, r, m.mm, w, m.wb);
    if CleanD(env, s, t) {
      PreDecodeReady(env, d, m.id, e, r, w, S3(env, s, t), t.d);
    }
  }

  lemma OwnOfWiring(m: Machine)
    requires Wiring(m)
    ensures Own(m.wb, At(m.recs, m.wb)) && Own(m.mm, At(m.recs, m.mm)) && Own(m.ex, At(m.recs, m.ex))
  {
  }

  // ---- the alignment check of the record in MEM ----

  /** Only the write port of a record matters to the records bound to it. */
  lemma BoundToPorts(env: Env, r: PipelineRegs, id: nat, e: PipelineRegs, m: PipelineRegs, w: PipelineRegs,
                     e': PipelineRegs, m': PipelineRegs, s: Arch, live: bool)
    requires e'.dst == e.dst && e'.wRegData == e.wRegData && m'.dst == m.dst && m'.wRegData == m.wRegData
    ensures ExOk(env, r, id, e, m, w, s, live) ==> ExOk(env, r, id, e', m', w, s, live)
    ensures IdReady(env, r, id, e, m, w, s, live) ==> IdReady(env, r, id, e', m', w, s, live)
  {
    hide FirstSource, SecondSource, Destination, UsesImm, UsesSignedImm, IsLoad, IsStore, IsPartialLoad,
         ImmValue, ShamtValue, LinkValue, FrontFault, Rt, Instr;
  }

  lemma PreMemRecord(env: Env, r: PipelineRegs, w: PipelineRegs, s: Arch, live: bool)
    requires MemOk(env, r, w, s, live)
    ensures var fault := MemFault(r.instr, r.result);
            MemReady(env, if fault then r.(excBuf := r.excBuf + [AdEL]) else r, w, s, live)
  {
    hide MemFault, Result, ExecRaises, OperandA, OperandB, IsReserved, FetchFault, IsLoad, IsStore, IsPartialLoad,
         Destination, Rt, Instr, BindLate;
    NopFacts();
  }

  lemma PreMemFrame(env: Env, m: Machine, s: Arch, t: Tags)
    requires Shape(m) && Wiring(m) && LateOk(m)
    ensures var p := PreMemAccess(m);
            var r := At(m.recs, m.mm);
            && Shape(p) && Wiring(p) && LateOk(p)
            && (FetchOk(env, m, s, t) <==> FetchOk(env, p, s, t))
            && At(p.recs, m.wb) == At(m.recs, m.wb) && At(p.recs, m.id) == At(m.recs, m.id)
            && At(p.recs, m.ex) == At(m.recs, m.ex) && At(p.recs, m.late) == At(m.recs, m.late)
            && At(p.recs, m.mm) == if MemFault(r.instr, r.result) then r.(excBuf := r.excBuf + [AdEL]) else r
  {
    hide NewRec, PointsInto, Untouched, Produced, MemFault, Own;
    OwnIgnoresExc(m.mm, At(m.recs, m.mm), At(m.recs, m.mm).excBuf + [AdEL]);
  }

  lemma OwnIgnoresExc(id: nat, r: PipelineRegs, exc: seq<Exc>)
    ensures Own(id, r.(excBuf := exc)) == Own(id, r)
  {
  }

  lemma PreMemCommon(env: Env, m: Machine, s: Arch, t: Tags)
    requires Common(env, m, s, t)
    ensures Common(env, PreMemAccess(m), s, t)
  {
    hide S1, S2, S3, CleanM, CleanE, CleanD, WbOk, ExOk, FetchOk, Shape, Wiring, LateOk, At, MemFault;
    PreMemFrame(env, m, S3(env, s, t), t);
    BoundToPorts(env, At(m.recs, m.ex), m.ex, At(m.recs, m.mm), At(m.recs, m.wb), At(m.recs, m.late),
                 At(PreMemAccess(m).recs, m.mm), At(m.recs, m.wb), S2(env, s, t), t.e);
  }

  lemma PreMemId(env: Env, m: Machine, s: Arch, t: Tags)
    requires Decoded(env, m, s, t)
    ensures var p := PreMemAccess(m);
            CleanD(env, s, t) ==>
              IdReady(env, At(p.recs, m.id), m.id, At(p.recs, m.ex), At(p.recs, m.mm), At(p.recs, m.wb),
                      S3(env, s, t), t.d)
  {
    hide S1, S2, S3, CleanM, CleanE, CleanD, WbOk, ExOk, MemOk, IdReady, FetchOk, Own, Untouched, PointsInto,
         Shape, Wiring, LateOk, At, MemFault, HiLoIdle, ArchHi, ArchLo, PreMemAccess;
    PreMemFrame(env, m, S3(env, s, t), t);
    BoundToPorts(env, At(m.recs, m.id), m.id, At(m.recs, m.ex), At(m.recs, m.mm), At(m.recs, m.wb),
                 At(m.recs, m.ex), At(PreMemAccess(m).recs, m.mm), S3(env, s, t), t.d);
  }

  lemma PreMemStep(env: Env, m: Machine, s: Arch, t: Tags)
    requires Decoded(env, m, s, t)
    ensures Ready(env, PreMemAccess(m), s, t)
  {
    hide S1, S2, S3, CleanM, CleanE, CleanD, WbOk, ExOk, MemOk, MemReady, IdReady, FetchOk, Own, Untouched, PointsInto,
         Shape, Wiring, LateOk, At, MemFault, HiLoIdle, ArchHi, ArchLo;
    PreMemCommon(env, m, s, t);
    PreMemId(env, m, s, t);
    PreMemFrame(env, m, S3(env, s, t), t);
    if CleanM(env, s, t) {
      PreMemRecord(env, At(m.recs, m.mm), At(m.recs, m.wb), S1(env, s, t), t.m);
    }
  }

  // ---- fetch ----

  function AfterFetch(m: Machine, t: Tags, miss: bool): Tags {
    if FetchFills(m, miss) then t.(f := true) else t
  }

  lemma FetchedRecord(env: Env, m: Machine)
    ensures var r := Fetched(env, m);
            && Untouched(m.nextId, r) && !r.delaySlot && r.pc == m.pc
            && (r.excBuf == [] ==> m.pc & 3 == 0 && r.instr == env.prog(m.pc))
            && (r.excBuf != [] ==> m.pc & 3 != 0 && r.instr == NOP_INSTR)
  {
    hide FirstSource, SecondSource, Destination, UsesImm, UsesSignedImm, UsesShamt, IsLoad;
  }

  lemma FillKeeps(m: Machine, r: PipelineRegs)
    requires Shape(m) && Wiring(m) && LateOk(m) && m.ifs == Empty && Untouched(m.nextId, r)
    ensures var p := Fill(m, r);
            && Shape(p) && Wiring(p) && LateOk(p)
            && At(p.recs, m.wb) == At(m.recs, m.wb) && At(p.recs, m.id) == At(m.recs, m.id)
            && At(p.recs, m.ex) == At(m.recs, m.ex) && At(p.recs, m.late) == At(m.recs, m.late)
            && At(p.recs, m.mm) == At(m.recs, m.mm) && At(p.recs, m.nextId) == r
  {
    hide PointsInto, Untouched, Produced, Own, NewRec;
  }

  lemma FetchTagAside(env: Env, s: Arch, t: Tags, f: bool)
    ensures var u := t.(f := f);
            && S1(env, s, u) == S1(env, s, t) && S2(env, s, u) == S2(env, s, t) && S3(env, s, u) == S3(env, s, t)
            && CleanM(env, s, u) == CleanM(env, s, t) && CleanE(env, s, u) == CleanE(env, s, t)
            && CleanD(env, s, u) == CleanD(env, s, t)
  {
    hide After, Clean;
  }

  lemma FillAddress(env: Env, m: Machine, s: Arch, t: Tags)
    requires FetchOk(env, m, s, t) && m.ifs == Empty
    requires At(Fill(m, Fetched(env, m)).recs, m.nextId) == Fetched(env, m)
    ensures FetchOk(env, Fill(m, Fetched(env, m)), s, t.(f := true))
  {
    hide Fetched, At;
    FetchedRecord(env, m);
  }

  lemma FillCommon(env: Env, m: Machine, s: Arch, t: Tags)
    requires Common(env, m, s, t) && m.ifs == Empty
    ensures Common(env, Fill(m, Fetched(env, m)), s, t.(f := true))
  {
    hide S1, S2, S3, CleanM, CleanE, CleanD, WbOk, ExOk, FetchOk, Shape, Wiring, LateOk, At, Fetched;
    FetchTagAside(env, s, t, true);
    FetchedRecord(env, m);
    FillKeeps(m, Fetched(env, m));
    if CleanD(env, s, t) {
      FillAddress(env, m, S3(env, s, t), t);
    }
  }

  lemma FetchStep(env: Env, m: Machine, s: Arch, t: Tags, miss: bool)
    requires Ready(env, m, s, t)
    ensures Ready(env, Fetch(env, m, miss), s, AfterFetch(m, t, miss))
  {
    hide S1, S2, S3, CleanM, CleanE, CleanD, WbOk, ExOk, MemReady, IdReady, FetchOk, Own, Untouched, PointsInto,
         Shape, Wiring, LateOk, At, Fetched, Common;
    if FetchFills(m, miss) {
      CommonShape(env, m, s, t);
      FetchTagAside(env, s, t, true);
      FetchedRecord(env, m);
      FillKeeps(m, Fetched(env, m));
      FillCommon(env, m, s, t);
    }
  }

  lemma CommonShape(env: Env, m: Machine, s: Arch, t: Tags)
    requires Common(env, m, s, t)
    ensures Shape(m) && Wiring(m) && LateOk(m)
  {
    hide S1, S2, S3, CleanM, CleanE, CleanD, WbOk, ExOk, FetchOk, Shape, Wiring, LateOk, At;
  }

  lemma CheckStep(env: Env, m: Machine, s: Arch, t: Tags, miss: bool)
    requires Inv(env, m, s, t)
    ensures Ready(env, Check(env, m, miss), s, AfterFetch(m, t, miss))
  {
    hide Inv, Ready, Decoded, Fetch, PreDecode, PreMemAccess;
    PreDecodeStep(env, m, s, t);
    PreMemStep(env, PreDecode(m), s, t);
    CheckKeepsFetch(m);
    FetchStep(env, PreMemAccess(PreDecode(m)), s, t, miss);
  }

  lemma CheckKeepsFetch(m: Machine)
    ensures var p := PreMemAccess(PreDecode(m)); p.ifs == m.ifs && p.pc == m.pc
  {
    hide PreDecodeRec, MemFault;
  }

  /** When nothing moves, the same invariant holds at the start of the next cycle. */
  lemma ReadyIsInv(env: Env, m: Machine, s: Arch, t: Tags)
    requires Ready(env, m, s, t)
    ensures Inv(env, m, s, t)
  {
    hide Common, S1, S2, S3, CleanM, CleanE, CleanD, Untouched, PointsInto, Own, MemOk, Instr, IsReserved, BoundLate,
         FirstSource, SecondSource, Destination, UsesImm, UsesSignedImm, IsLoad, ShamtValue, ImmValue, Bind;
  }
}
