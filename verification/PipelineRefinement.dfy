/** The pipeline refines the one-instruction-at-a-time reference, for every
    program, every starting state and every pattern of memory stalls. */
module PipelineRefinement {
  import opened Isa
  import opened Sequential
  import opened Pipeline
  import opened PipelineInvariant
  import opened PipelineChecks
  import opened PipelineSettle
  import opened PipelineMove
  import opened PipelineRetire
  import opened PipelineAdvance

  const RESET_VECTOR: Word := 0xBFC00000

  /** The processor just out of reset, with any register and memory contents. */
  function PowerOn(reg: seq<Word>, hi: Word, lo: Word, mem: Memory, epc: Word): Machine {
    Volatilize(Machine(RESET_VECTOR - 4, reg, hi, lo, 0, 0, false, false, 0,
                       map[], Empty, 0, 0, 0, 0, 0, 0, 0, false, mem, epc))
  }

  function ResetState(reg: seq<Word>, hi: Word, lo: Word, mem: Memory, epc: Word): Arch {
    Arch(RESET_VECTOR, Following(RESET_VECTOR), false, reg, hi, lo, mem, epc)
  }

  lemma ResetInv(env: Env, reg: seq<Word>, hi: Word, lo: Word, mem: Memory, epc: Word)
    requires |reg| == 32 && reg[0] == 0
    ensures Inv(env, PowerOn(reg, hi, lo, mem, epc), ResetState(reg, hi, lo, mem, epc), NO_TAGS)
  {
    hide Shape, Wiring, LateOk, Own, Untouched, PointsInto, Quiet, Nop, NewRec, Inv, Ready;
    var seed := Machine(RESET_VECTOR - 4, reg, hi, lo, 0, 0, false, false, 0,
                        map[], Empty, 0, 0, 0, 0, 0, 0, 0, false, mem, epc);
    VolatilizeWiring(seed);
    VolatilizeShape(seed);
    FlushedReady(env, Volatilize(seed), ResetState(reg, hi, lo, mem, epc));
    ReadyIsInv(env, Volatilize(seed), ResetState(reg, hi, lo, mem, epc), NO_TAGS);
  }

  // ---- one cycle ----

  lemma PreDecodeAside(m: Machine)
    ensures forall k: nat :: k != m.id ==> At(PreDecode(m).recs, k) == At(m.recs, k)
    ensures PreDecode(m) == m.(recs := PreDecode(m).recs)
  {
    hide PreDecodeRec, At;
    AtUpdated(m.recs, m.id, PreDecodeRec(At(m.recs, m.id), m.id, At(m.recs, m.ex), At(m.recs, m.mm), At(m.recs, m.wb)));
  }

  lemma PreMemAside(m: Machine)
    ensures forall k: nat :: k != m.mm ==> At(PreMemAccess(m).recs, k) == At(m.recs, k)
  {
    hide MemFault, At;
    var r := At(m.recs, m.mm);
    AtUpdated(m.recs, m.mm, r.(excBuf := r.excBuf + [AdEL]));
  }

  lemma PreMemStages(m: Machine)
    ensures var p := PreMemAccess(m);
            && p.ex == m.ex && p.mm == m.mm && p.wb == m.wb && p.id == m.id && p.mulDivRemain == m.mulDivRemain
            && p.ifs == m.ifs && p.pc == m.pc && p.nextId == m.nextId
  {
    hide MemFault, At;
  }

  lemma FetchAside(env: Env, m: Machine, miss: bool)
    ensures forall k: nat :: k != m.nextId ==> At(Fetch(env, m, miss).recs, k) == At(m.recs, k)
  {
    hide At, Fetched, FetchFills;
    AtUpdated(m.recs, m.nextId, Fetched(env, m));
  }

  lemma FetchStages(env: Env, m: Machine, miss: bool)
    ensures var p := Fetch(env, m, miss);
            && p.ex == m.ex && p.mm == m.mm && p.wb == m.wb && p.id == m.id && p.mulDivRemain == m.mulDivRemain
            && (FetchFills(m, miss) || m.ifs.Holds? ==> p.ifs.Holds?)
  {
    hide At, Fetched, FetchFills;
  }

  lemma FillOrStall(m: Machine, miss: bool)
    ensures FetchStalls(m, miss) || FetchFills(m, miss) || m.ifs.Holds?
  {
  }

  /** What the checks leave alone in the machine they start from. */
  lemma CheckFrame(env: Env, m: Machine, miss: bool)
    requires Shape(m)
    ensures var c := Check(env, m, miss);
            && c.ex == m.ex && c.mm == m.mm && c.wb == m.wb && c.id == m.id && c.mulDivRemain == m.mulDivRemain
            && At(c.recs, m.ex) == At(m.recs, m.ex)
            && At(c.recs, m.id) == At(PreDecode(m).recs, m.id)
            && (!FetchStalls(m, miss) ==> c.ifs.Holds?)
  {
    hide At, PreDecode, PreMemAccess, Fetch, Shape, FetchFills;
    var q := PreMemAccess(PreDecode(m));
    SeparateIds(m);
    StageIds(m);
    PreDecodeAside(m);
    PreMemAside(PreDecode(m));
    PreMemStages(PreDecode(m));
    FetchAside(env, q, miss);
    FetchStages(env, q, miss);
    FillOrStall(q, miss);
  }

  lemma PreDecodeStores(m: Machine)
    ensures PreDecode(m).recs == m.recs[m.id := At(PreDecode(m).recs, m.id)]
  {
    hide PreDecodeRec;
  }

  lemma HazardKept(env: Env, m: Machine, miss: bool)
    requires Shape(m)
    ensures DataHazard(Check(env, m, miss)) == DataHazard(PreDecode(m))
  {
    hide At, PreDecodeRec, Check, Shape;
    CheckFrame(env, m, miss);
    SeparateIds(m);
    PreDecodeStores(m);
    AtUpdated(m.recs, m.id, At(PreDecode(m).recs, m.id));
  }

  /** When nothing stalls, the settled machine can move. */
  lemma Movable(env: Env, m: Machine, stall: Stall)
    requires Shape(m) && !Stalls(m, stall)
    requires var c := Check(env, m, stall.fetchMiss); Shape(c)
    ensures var v := Settle(env, Check(env, m, stall.fetchMiss));
            v.ifs.Holds? && NoInterlock(v) && (!DataHazard(PreDecode(m)) ==> !DataHazard(v))
  {
    hide At, Check, Shape, IsMulDiv, DataHazard, PreDecode, ExcHandle, TrapFires, Flushed, TickMulDiv;
    var c := Check(env, m, stall.fetchMiss);
    var x := ExcHandle(env, c);
    CheckFrame(env, m, stall.fetchMiss);
    HazardKept(env, m, stall.fetchMiss);
    TickHazard(x);
    TickFrame(x);
    if TrapFires(c) {
      TrapRecords(env, c);
      FlushedMoves(x);
    } else {
      NoTrapNoChange(env, c);
    }
  }

  lemma NoTrapNoChange(env: Env, m: Machine)
    requires !TrapFires(m)
    ensures ExcHandle(env, m) == m
  {
    hide TrapFires;
  }

  lemma TickHazard(m: Machine)
    ensures DataHazard(TickMulDiv(m)) == DataHazard(m)
    ensures m.mulDivRemain == 0 ==> TickMulDiv(m).mulDivRemain == 0
  {
    hide At;
  }

  lemma FlushedMoves(v: Machine)
    requires Flushed(v)
    ensures v.ifs.Holds? && !IsMulDiv(At(v.recs, v.ex).instr) && !DataHazard(v)
  {
    hide At, Shape, Wiring, LateOk, Own, Untouched, PointsInto, IsMulDiv;
    NopFacts();
  }

  /** Where the simulation stands: the sequential state that the retired
      instructions have reached, and the stages that hold its successors. */
  datatype Sim = Sim(s: Arch, t: Tags)

  function NextSim(env: Env, m: Machine, x: Sim, stall: Stall): Sim {
    var c := Check(env, m, stall.fetchMiss);
    var s := Resumed(env, c, x.s);
    var t := ResumedTags(c, AfterFetch(m, x.t, stall.fetchMiss));
    if Stalls(m, stall) then Sim(s, t) else Sim(S1(env, s, t), MovedTags(t, DataHazard(PreDecode(m))))
  }

  lemma InvShape(env: Env, m: Machine, s: Arch, t: Tags)
    requires Inv(env, m, s, t)
    ensures Shape(m) && Common(env, m, s, t)
  {
    hide Common, Shape, Untouched, At, MemOk, IdOk, CleanM, CleanD, S1, S3;
    CommonShape(env, m, s, t);
  }

  /** The invariant survives every cycle, whatever the memory system answers. */
  lemma CycleStep(env: Env, m: Machine, x: Sim, stall: Stall)
    requires Inv(env, m, x.s, x.t)
    ensures var y := NextSim(env, m, x, stall);
            Inv(env, Cycle(env, m, stall), y.s, y.t)
  {
    hide Inv, Ready, Check, Settle, Move, Stalls, DataHazard, PreDecode, S1, CleanM, AfterFetch, Resumed, ResumedTags, Shape,
         MovedTags, NoInterlock, Common;
    var c := Check(env, m, stall.fetchMiss);
    var t := AfterFetch(m, x.t, stall.fetchMiss);
    CheckStep(env, m, x.s, x.t, stall.fetchMiss);
    SettleStep(env, c, x.s, t);
    if Stalls(m, stall) {
      ReadyIsInv(env, Settle(env, c), Resumed(env, c, x.s), ResumedTags(c, t));
    } else {
      InvShape(env, m, x.s, x.t);
      ReadyShape(env, c, x.s, t);
      Movable(env, m, stall);
      MoveStep(env, Settle(env, c), Resumed(env, c, x.s), ResumedTags(c, t), DataHazard(PreDecode(m)));
    }
  }

  /** Does this cycle take the reference one step further? */
  predicate Steps(env: Env, m: Machine, x: Sim, stall: Stall) {
    TrapFires(Check(env, m, stall.fetchMiss)) || (x.t.w && !Stalls(m, stall))
  }

  lemma CheckKeepsW(m: Machine, t: Tags, miss: bool)
    ensures AfterFetch(m, t, miss).w == t.w && AfterFetch(m, t, miss).m == t.m
  {
  }

  // ---- what a cycle does to registers and memory ----

  /** A register write: label and value. */
  datatype Commit = Commit(r: nat, value: Word)

  /** A memory store: instruction, effective address and register value. */
  datatype MemStore = MemStore(instr: Word, addr: Word, data: Word)

  function SettledMachine(env: Env, m: Machine, stall: Stall): Machine { Settle(env, Check(env, m, stall.fetchMiss)) }

  function CommitsFrom(v: Machine): seq<Commit> {
    var w := At(v.recs, v.wb);
    if w.wRegData == Null then [] else [Commit(w.dst, Deref(v.recs, v.reg, w.wRegData))]
  }

  function StoresFrom(v: Machine): seq<MemStore> {
    var r := At(v.recs, v.mm);
    if IsStore(r.instr) && r.excBuf == [] then
      [MemStore(r.instr, r.result, Deref(v.recs, CommittedRegs(v), r.wMemData))]
    else []
  }

  function CycleCommits(env: Env, m: Machine, stall: Stall): seq<Commit> {
    if Stalls(m, stall) then [] else CommitsFrom(SettledMachine(env, m, stall))
  }

  function CycleStores(env: Env, m: Machine, stall: Stall): seq<MemStore> {
    if Stalls(m, stall) then [] else StoresFrom(SettledMachine(env, m, stall))
  }

  /** What the reference does in one step. */
  function CommitsOf(env: Env, s: Arch): seq<Commit> {
    if Traps(env, s) || Destination(Instr(env, s)) == NONE_REG then []
    else [Commit(Destination(Instr(env, s)), Value(env, s))]
  }

  function StoresOf(env: Env, s: Arch): seq<MemStore> {
    var i := Instr(env, s);
    if Traps(env, s) || !IsStore(i) then [] else [MemStore(i, Result(env, s), Reg(s.regs, Rt(i)))]
  }

  lemma OwnPort(recs: Store, reg: seq<Word>, id: nat)
    requires Own(id, At(recs, id))
    ensures var w := At(recs, id);
            && (w.wRegData == Null <==> w.dst == NONE_REG)
            && (w.dst != NONE_REG ==> Deref(recs, reg, w.wRegData) == Produced(w))
  {
    hide At;
  }

  lemma CommitEvent(env: Env, v: Machine, s: Arch, t: Tags)
    requires Ready(env, v, s, t) && CleanM(env, s, t)
    ensures CommitsFrom(v) == if t.w then CommitsOf(env, s) else []
  {
    hide Ready, At, Traps, Value, Own, Destination, Instr, Deref, WbOk, Produced, S1, Shape, LateOk, HiLoIdle;
    ReadyWb(env, v, s, t);
    WbRecord(env, At(v.recs, v.wb), s, t.w);
    OwnPort(v.recs, v.reg, v.wb);
  }

  lemma StoreRecord(env: Env, r: PipelineRegs, w: PipelineRegs, s: Arch, live: bool)
    requires MemReady(env, r, w, s, live)
    ensures !live ==> !IsStore(r.instr)
    ensures live && Traps(env, s) ==> r.excBuf != []
    ensures live && !Traps(env, s) ==>
              r.excBuf == [] && r.instr == Instr(env, s) && r.result == Result(env, s)
              && (IsStore(r.instr) ==> r.wMemData == BindLate(Rt(r.instr), w))
  {
    hide Result, Instr, IsPartialLoad, BindLate, Rt, Destination, IsLoad, OperandA, OperandB, FetchFault, IsReserved, Traps, ExecTraps, FrontFault;
    TrapKinds(env, s);
    NopFacts();
  }

  lemma StoreEvent(env: Env, v: Machine, s: Arch, t: Tags)
    requires Ready(env, v, s, t) && CleanM(env, s, t)
    ensures StoresFrom(v) == if t.m then StoresOf(env, S1(env, s, t)) else []
  {
    hide Ready, At, Traps, Own, Instr, Deref, WbOk, S1, Shape, LateOk, HiLoIdle, MemReady, BindLate, Rt, IsStore, Result,
         Newest, Elsewhere, CommittedRegs, CleanM;
    ReadyWb(env, v, s, t);
    ReadyMem(env, v, s, t);
    CommitStep(env, v, s, t);
    StoreRecord(env, At(v.recs, v.mm), At(v.recs, v.wb), S1(env, s, t), t.m);
    RtBelow(At(v.recs, v.mm).instr);
    LateOperand(v.recs, CommittedRegs(v), Rt(At(v.recs, v.mm).instr), v.wb);
  }

  lemma RtBelow(i: Word)
    ensures Rt(i) <= NONE_REG
  {
  }

  /** In every cycle the pipeline commits exactly what the retiring instruction
      commits in the reference. */
  lemma CycleCommit(env: Env, m: Machine, x: Sim, stall: Stall)
    requires Inv(env, m, x.s, x.t)
    ensures CycleCommits(env, m, stall) == if Steps(env, m, x, stall) then CommitsOf(env, x.s) else []
  {
    hide Inv, Ready, Check, Settle, Stalls, S1, CleanM, AfterFetch, TrapFires, CommitsFrom, Traps, Value, Destination, Instr;
    var c := Check(env, m, stall.fetchMiss);
    var t := AfterFetch(m, x.t, stall.fetchMiss);
    CheckKeepsW(m, x.t, stall.fetchMiss);
    CheckStep(env, m, x.s, x.t, stall.fetchMiss);
    SettleStep(env, c, x.s, t);
    TrapCause(env, c, x.s, t);
    CommitEvent(env, Settle(env, c), Resumed(env, c, x.s), ResumedTags(c, t));
  }

  lemma MovedW(t: Tags, hazard: bool)
    ensures MovedTags(t, hazard).w == t.m
  {
  }

  lemma NextSimW(env: Env, m: Machine, x: Sim, stall: Stall)
    ensures var c := Check(env, m, stall.fetchMiss);
            var s := Resumed(env, c, x.s);
            var t := ResumedTags(c, AfterFetch(m, x.t, stall.fetchMiss));
            var y := NextSim(env, m, x, stall);
            if Stalls(m, stall) then y == Sim(s, t) else y.s == S1(env, s, t) && y.t.w == t.m
  {
    hide Check, Resumed, ResumedTags, AfterFetch, Stalls, S1, MovedTags, DataHazard, PreDecode;
    var t := ResumedTags(Check(env, m, stall.fetchMiss), AfterFetch(m, x.t, stall.fetchMiss));
    MovedW(t, DataHazard(PreDecode(m)));
  }

  /** Stores happen one stage earlier: this cycle's store, if any, is the one of
      the instruction that will retire next. */
  lemma CycleStore(env: Env, m: Machine, x: Sim, stall: Stall)
    requires Inv(env, m, x.s, x.t)
    ensures var y := NextSim(env, m, x, stall);
            (if x.t.w then StoresOf(env, x.s) else []) + CycleStores(env, m, stall) ==
            (if Steps(env, m, x, stall) then StoresOf(env, x.s) else []) + (if y.t.w then StoresOf(env, y.s) else [])
  {
    hide Inv, Ready, Check, Settle, Stalls, S1, CleanM, AfterFetch, TrapFires, StoresFrom, Traps, Result, Instr, IsStore, TrapState,
         NextSim;
    var c := Check(env, m, stall.fetchMiss);
    var t := AfterFetch(m, x.t, stall.fetchMiss);
    CheckKeepsW(m, x.t, stall.fetchMiss);
    NextSimW(env, m, x, stall);
    CheckStep(env, m, x.s, x.t, stall.fetchMiss);
    SettleStep(env, c, x.s, t);
    TrapCause(env, c, x.s, t);
    StoreEvent(env, Settle(env, c), Resumed(env, c, x.s), ResumedTags(c, t));
  }
}
