/** Interlocks end and, once the memory answers, instructions retire. */
module PipelineProgress {
  import opened Isa
  import opened Sequential
  import opened Pipeline
  import opened PipelineInvariant
  import opened PipelineChecks
  import opened PipelineSettle
  import opened PipelineMove
  import opened PipelineRetire
  import opened PipelineAdvance
  import opened PipelineRefinement
  import opened PipelineRuns
  import opened PipelineTraps
  import opened PipelineShadow

  const MAX_DELAY: nat := 9

  const NO_MISS := Stall(false, false)

  /** How far the oldest instruction of the run is from WB. */
  function Distance(m: Machine, t: Tags): nat {
    if t.w then 0 else if t.m then 1 else if t.e then 2 else if t.d then 3 else if t.f then 4
    else if m.ifs == Empty then 5 else 6
  }

  function Measure(m: Machine, t: Tags): nat {
    20 * Distance(m, t) + (if m.ifs == Empty then 10 else 0) + m.mulDivRemain
  }

  // ---- the delay counter ----

  lemma MoveRemain(env: Env, m: Machine, hazard: bool)
    requires m.mulDivRemain <= MAX_DELAY
    ensures Move(env, m, hazard).mulDivRemain <= MAX_DELAY
  {
    hide At, RegCommit, MemRec, ExecRec, Deref, HiValue, LoValue, Redirects, StoreEffect, DecodeRec;
    AccessedFrame(env, m);
  }

  lemma SettleRemain(env: Env, m: Machine)
    ensures Settle(env, m).mulDivRemain == if m.mulDivRemain == 0 then 0 else m.mulDivRemain - 1
    ensures Settle(env, m).ifs == ExcHandle(env, m).ifs
  {
    hide TrapFires, ExcHandle, At;
    if TrapFires(m) { TrapKeeps(env, m); } else { NoTrapNoChange(env, m); }
  }

  lemma DelayBounded(env: Env, m: Machine, stall: Stall)
    requires Shape(m) && m.mulDivRemain <= MAX_DELAY
    ensures Cycle(env, m, stall).mulDivRemain <= MAX_DELAY
  {
    hide Check, Settle, Move, Stalls, DataHazard, PreDecode, Shape;
    var c := Check(env, m, stall.fetchMiss);
    CheckFrame(env, m, stall.fetchMiss);
    SettleRemain(env, c);
    MoveRemain(env, Settle(env, c), DataHazard(PreDecode(m)));
  }

  /** A HI/LO instruction in EX waits for the pending result, never longer than
      the delay count, and it executes only when nothing is pending. */
  lemma InterlockEnds(env: Env, m: Machine, stall: Stall)
    requires Shape(m) && Interlock(m) && !TrapFires(Check(env, m, stall.fetchMiss))
    ensures var n := Cycle(env, m, stall);
            && n.mulDivRemain == m.mulDivRemain - 1
            && n.ex == m.ex && At(n.recs, n.ex) == At(m.recs, m.ex)
  {
    hide Check, Move, Shape, At, TrapFires, IsMulDiv, DataHazard, PreDecode;
    CheckFrame(env, m, stall.fetchMiss);
    NoTrapNoChange(env, Check(env, m, stall.fetchMiss));
  }

  /** The scoreboard: whenever a HI/LO instruction executes, no result is pending
      and HI and LO are those of the reference at that instruction. */
  lemma Scoreboard(env: Env, m: Machine, x: Sim, stall: Stall)
    requires Inv(env, m, x.s, x.t) && !Stalls(m, stall)
    ensures var c := Check(env, m, stall.fetchMiss);
            var v := Settle(env, c);
            var s := Resumed(env, c, x.s);
            var t := ResumedTags(c, AfterFetch(m, x.t, stall.fetchMiss));
            IsMulDiv(At(v.recs, v.ex).instr) ==>
              && v.mulDivRemain == 0 && !v.hiWrite && !v.loWrite
              && v.hi == S2(env, s, t).hi && v.lo == S2(env, s, t).lo
  {
    hide Inv, Ready, Check, Settle, Stalls, DataHazard, PreDecode, S1, S2, CleanM, AfterFetch, Resumed, ResumedTags, Shape,
         Common, At, IsMulDiv, LateOk, WbOk, MemReady, Own;
    var c := Check(env, m, stall.fetchMiss);
    var t := AfterFetch(m, x.t, stall.fetchMiss);
    CheckStep(env, m, x.s, x.t, stall.fetchMiss);
    SettleStep(env, c, x.s, t);
    InvShape(env, m, x.s, x.t);
    ReadyShape(env, c, x.s, t);
    Movable(env, m, stall);
    ReadyMem(env, Settle(env, c), Resumed(env, c, x.s), ResumedTags(c, t));
    ReadyWb(env, Settle(env, c), Resumed(env, c, x.s), ResumedTags(c, t));
  }

  // ---- progress ----

  lemma BubbleNoHazard(env: Env, m: Machine, s: Arch, t: Tags)
    requires Ready(env, m, s, t) && !t.w && !t.m && !t.e
    ensures !DataHazard(m)
  {
    hide Ready, At, Traps, S1, S2, Shape, LateOk, Bound, Placed;
    ReadyEx(env, m, s, t);
  }

  lemma MovedIfs(env: Env, m: Machine, hazard: bool)
    requires m.ifs.Holds?
    ensures Move(env, m, hazard).ifs == if hazard then m.ifs else Empty
  {
    hide RegCommit, MemAccess, Execute, Decode, Advance, InsertBubble;
    ExecutedFrame(env, m);
    var y := Executed(env, m);
    if hazard { BubbleRest(y); } else { DecodedRest(y); AdvancedRest(Decode(y)); }
  }

  lemma CheckIfs(env: Env, m: Machine)
    ensures Check(env, m, false).ifs.Holds?
    ensures AfterFetch(m, Tags(false, false, false, false, false), false).f == (m.ifs == Empty)
    ensures forall t: Tags :: AfterFetch(m, t, false) == if m.ifs == Empty then t.(f := true) else t
  {
    hide At, PreDecode, PreMemAccess, Fetched, Fetch;
    var q := PreMemAccess(PreDecode(m));
    PreDecodeAside(m);
    PreMemStages(PreDecode(m));
    FetchStages(env, q, false);
  }

  lemma StallShrinks(env: Env, m: Machine, t: Tags)
    requires Shape(m) && !TrapFires(Check(env, m, false)) && Stalls(m, NO_MISS)
    ensures Measure(Settle(env, Check(env, m, false)), AfterFetch(m, t, false)) < Measure(m, t)
  {
    hide Check, Settle, Shape, TrapFires, AfterFetch, IsMulDiv;
    var c := Check(env, m, false);
    CheckFrame(env, m, false);
    CheckIfs(env, m);
    SettleRemain(env, c);
    NoTrapNoChange(env, c);
  }

  lemma MoveShrinks(v: Machine, z: Machine, t: Tags, hazard: bool)
    requires v.ifs.Holds? && z.ifs == (if hazard then v.ifs else Empty) && !t.w && (hazard ==> t.m || t.e)
    ensures Distance(z, MovedTags(t, hazard)) < Distance(v, t)
  {
  }

  lemma FetchShrinks(m: Machine, c: Machine, t: Tags, t': Tags)
    requires c.ifs.Holds? && t' == (if m.ifs == Empty then t.(f := true) else t)
    ensures Distance(c, t') <= Distance(m, t)
  {
  }

  /** Without misses, every cycle brings the oldest instruction closer to WB. */
  lemma CycleProgress(env: Env, m: Machine, x: Sim)
    requires Inv(env, m, x.s, x.t) && m.mulDivRemain <= MAX_DELAY && !Steps(env, m, x, NO_MISS)
    ensures Measure(Cycle(env, m, NO_MISS), NextSim(env, m, x, NO_MISS).t) < Measure(m, x.t)
  {
    hide Inv, Ready, Check, Settle, Move, Stalls, DataHazard, PreDecode, S1, AfterFetch, Shape, Common, TrapFires, Distance, MovedTags;
    var c := Check(env, m, false);
    var t := AfterFetch(m, x.t, false);
    var v := Settle(env, c);
    InvShape(env, m, x.s, x.t);
    CheckStep(env, m, x.s, x.t, false);
    CheckKeepsW(m, x.t, false);
    if Stalls(m, NO_MISS) {
      StallShrinks(env, m, x.t);
    } else {
      var hazard := DataHazard(PreDecode(m));
      HazardKept(env, m, false);
      CheckIfs(env, m);
      SettleRemain(env, c);
      NoTrapNoChange(env, c);
      ReadyShape(env, c, x.s, t);
      if !t.m && !t.e { BubbleNoHazard(env, c, x.s, t); }
      MovedIfs(env, v, hazard);
      DelayBounded(env, m, NO_MISS);
      MoveShrinks(v, Move(env, v, hazard), t, hazard);
      FetchShrinks(m, v, x.t, t);
    }
  }

  predicate NoMisses(stalls: seq<Stall>) { forall k :: 0 <= k < |stalls| ==> stalls[k] == NO_MISS }

  lemma {:induction false} StepsWithin(env: Env, m: Machine, x: Sim, stalls: seq<Stall>)
    requires Inv(env, m, x.s, x.t) && m.mulDivRemain <= MAX_DELAY
    requires NoMisses(stalls) && |stalls| > Measure(m, x.t)
    ensures |Path(env, m, x, stalls)| >= 2
    decreases |stalls|
  {
    hide Inv, Steps, NextSim, Cycle, Measure, Shape, Common;
    assert stalls[0] == NO_MISS;
    if !Steps(env, m, x, NO_MISS) {
      var m', x' := Cycle(env, m, NO_MISS), NextSim(env, m, x, NO_MISS);
      InvShape(env, m, x.s, x.t);
      CycleStep(env, m, x, NO_MISS);
      CycleProgress(env, m, x);
      DelayBounded(env, m, NO_MISS);
      StepsWithin(env, m', x', stalls[1..]);
    }
  }

  lemma {:induction false} RunDelay(env: Env, m: Machine, x: Sim, stalls: seq<Stall>)
    requires Inv(env, m, x.s, x.t) && m.mulDivRemain <= MAX_DELAY
    ensures Run(env, m, stalls).mulDivRemain <= MAX_DELAY
    decreases |stalls|
  {
    hide Inv, NextSim, Cycle, Shape, Common;
    if stalls != [] {
      InvShape(env, m, x.s, x.t);
      CycleStep(env, m, x, stalls[0]);
      DelayBounded(env, m, stalls[0]);
      RunDelay(env, Cycle(env, m, stalls[0]), NextSim(env, m, x, stalls[0]), stalls[1..]);
    }
  }

  /** Liveness.  After any run from reset, 140 cycles without a miss are enough
      for the reference to take another step: an instruction retires or traps. */
  lemma Progress(env: Env, reg: seq<Word>, hi: Word, lo: Word, mem: Memory, epc: Word, stalls: seq<Stall>, more: seq<Stall>)
    requires |reg| == 32 && reg[0] == 0 && NoMisses(more) && |more| >= 140
    ensures var m := PowerOn(reg, hi, lo, mem, epc);
            var x := Sim(ResetState(reg, hi, lo, mem, epc), NO_TAGS);
            |Path(env, Run(env, m, stalls), EndSim(env, m, x, stalls), more)| >= 2
  {
    hide Inv, Shadow, PowerOn, ResetState, Run, Path, EndSim, IsPath;
    var m := PowerOn(reg, hi, lo, mem, epc);
    var x := Sim(ResetState(reg, hi, lo, mem, epc), NO_TAGS);
    ResetInv(env, reg, hi, lo, mem, epc);
    ResetShadow(env, m, x.s);
    ResetDelay(reg, hi, lo, mem, epc);
    RunPath(env, m, x, stalls);
    RunDelay(env, m, x, stalls);
    StepsWithin(env, Run(env, m, stalls), EndSim(env, m, x, stalls), more);
  }

  lemma ResetDelay(reg: seq<Word>, hi: Word, lo: Word, mem: Memory, epc: Word)
    ensures PowerOn(reg, hi, lo, mem, epc).mulDivRemain == 0
  {
    hide Nop;
  }
}
