/** The multiply-and-add unit of SNACC: a small state machine around doMad,
    against the fold of exact products with true saturation. */
module MadModel {
  import opened FixedPoint

  const LANES: nat := 8
  const HALF: nat := 4

  /** What the buffers hold: raw lane values by base address and lane, and the
      look-up table by index. */
  datatype Buffers = Buffers(weight: (nat, nat) -> nat, dataHalf: (nat, nat) -> nat, dataByte: (nat, nat) -> nat,
                             lut: nat -> nat)

  datatype State = Idle | DStall | Ex | WriteBack | LutStall | Fu

  /** What start() fixes for a run. */
  datatype Job = Job(lookUp: bool, eightBit: bool, mask: seq<bool>, dmemStep: int, rbufStep: int)

  predicate Okay(job: Job) { |job.mask| == LANES }

  // ---- the specification ----

  function Weight(b: Buffers, addr: nat, i: nat): (w: int)
    ensures Int16(w)
  {
    HalfToFixed16(b.weight(addr, i))
  }

  function Data(b: Buffers, eightBit: bool, addr: nat, i: nat): (d: int)
    ensures Int16(d)
  {
    if eightBit then ByteToFixed16(b.dataByte(addr, i)) else HalfToFixed16(b.dataHalf(addr, i))
  }

  /** Lanes from .. from + n, folded into acc: exact products, true saturation. */
  function Fold(b: Buffers, job: Job, dataAddr: nat, rbufAddr: nat, from: nat, n: nat, acc: int): (r: int)
    requires Okay(job) && from + n <= LANES && Int32(acc)
    ensures Int32(r)
  {
    if n == 0 then acc
    else
      var before := Fold(b, job, dataAddr, rbufAddr, from, n - 1, acc);
      if job.mask[from + n - 1]
      then Clamp(before + Weight(b, rbufAddr, n - 1) * Data(b, job.eightBit, dataAddr, from + n - 1))
      else before
  }

  /** An address after a step, in 32 bits. */
  function Advance(addr: nat, step: int): (r: nat) { (addr + step) % RANGE }

  /** Both accumulators after `times` iterations. */
  function Iterate(b: Buffers, job: Job, dataAddr: nat, rbufAddr: nat, times: nat, tr0: int, tr1: int): (r: (int, int))
    requires Okay(job) && Int32(tr0) && Int32(tr1)
    ensures Int32(r.0) && Int32(r.1)
    decreases times
  {
    if times == 0 then (tr0, tr1)
    else
      var t0 := Fold(b, job, dataAddr, rbufAddr, 0, HALF, tr0);
      var t1 := if job.eightBit then Fold(b, job, dataAddr, rbufAddr, HALF, HALF, tr1) else tr1;
      Iterate(b, job, Advance(dataAddr, job.dmemStep), Advance(rbufAddr, job.rbufStep), times - 1, t0, t1)
  }

  /** The table entry an accumulator selects, as a 32-bit number. */
  function LookUp(b: Buffers, x: int): (r: int)
    requires Int32(x)
    ensures Int32(r)
  {
    HalfToFixed16(b.lut((Clip(Unsigned(x)) / 0x40_0000) * 2)) * 0x1000
  }

  datatype Registers = Registers(tr0: nat, tr1: nat, fr0: nat, fr1: nat)

  predicate Words(r: Registers) { r.tr0 < RANGE && r.tr1 < RANGE && r.fr0 < RANGE && r.fr1 < RANGE }

  /** The registers once a finished pair of accumulators has been written back. */
  function Written(b: Buffers, job: Job, t: (int, int), fr0: int, fr1: int, regs: Registers): (r: Registers)
    requires Int32(t.0) && Int32(t.1) && Int32(fr0) && Int32(fr1) && Words(regs)
    ensures Words(r)
  {
    var f0 := if job.lookUp then LookUp(b, t.0) else fr0;
    var f1 := if job.lookUp && job.eightBit then LookUp(b, t.1) else fr1;
    Registers(ToRegister(t.0), if job.eightBit then ToRegister(t.1) else regs.tr1,
              ToRegister(f0), if job.eightBit then ToRegister(f1) else regs.fr1)
  }

  /** How often a count makes the unit iterate: once at least. */
  function Iterations(count: int): (n: nat)
    ensures n >= 1
  {
    if count > 1 then count else 1
  }

  /** What a run leaves when it starts from these registers. */
  function RunOutcome(b: Buffers, job: Job, dataAddr: nat, rbufAddr: nat, n: nat, regs: Registers): (r: Registers)
    requires Okay(job) && Words(regs)
    ensures Words(r)
  {
    var t := Iterate(b, job, dataAddr, rbufAddr, n, FromRegister(regs.tr0), FromRegister(regs.tr1));
    Written(b, job, t, FromRegister(regs.fr0), FromRegister(regs.fr1), regs)
  }

  /** Once the table has been consulted, writing back needs it no more. */
  lemma WrittenAfterLookUp(b: Buffers, job: Job, t: (int, int), fr0: int, fr1: int, regs: Registers)
    requires job.lookUp && Int32(t.0) && Int32(t.1) && Int32(fr0) && Int32(fr1) && Words(regs)
    ensures Written(b, job, t, fr0, fr1, regs) == Written(b, job, t, LookUp(b, t.0), fr1, regs)
    ensures Written(b, job, t, fr0, fr1, regs)
         == Written(b, job.(lookUp := false), t, LookUp(b, t.0), if job.eightBit then LookUp(b, t.1) else fr1, regs)
  {
    hide LookUp, ToRegister;
  }

  /** A run without a look-up writes the FR registers back as well: all it does
      to them is to clear their four low bits. */
  lemma PlainRunTrimsFr(b: Buffers, job: Job, t: (int, int), regs: Registers)
    requires !job.lookUp && Int32(t.0) && Int32(t.1) && Words(regs)
    ensures var w := Written(b, job, t, FromRegister(regs.fr0), FromRegister(regs.fr1), regs);
            && w.fr0 == regs.fr0 - regs.fr0 % 16
            && w.fr1 == (if job.eightBit then regs.fr1 - regs.fr1 % 16 else regs.fr1)
            && Wrap(w.tr0) == Clamp(16 * t.0)
            && (job.eightBit ==> Wrap(w.tr1) == Clamp(16 * t.1))
            && (w.fr0 == regs.fr0 <==> regs.fr0 % 16 == 0) && (w.fr1 == regs.fr1 <==> !job.eightBit || regs.fr1 % 16 == 0)
  {
    hide ToRegister, FromRegister, Wrap;
    RegisterRoundTrip(regs.fr0);
    RegisterRoundTrip(regs.fr1);
    ToRegisterClamps(t.0);
    ToRegisterClamps(t.1);
  }

  // ---- the time a run takes ----

  /** c is the number of lanes up to the highest one in use. */
  ghost predicate Highest(mask: seq<bool>, c: nat) {
    c <= |mask| && (c > 0 ==> mask[c - 1]) && forall j :: c <= j < |mask| ==> !mask[j]
  }

  /** An access of `width` bytes that does not fit the 8 bytes its base lies in. */
  predicate Crosses(dataAddr: nat, rbufAddr: nat, width: nat) {
    dataAddr % 8 + width > 8 || rbufAddr % 8 + width > 8
  }

  /** The bytes one access takes, from the number of lanes: all of them count in
      8-bit mode, otherwise the number is cut to two bits first. */
  function Width(job: Job, lanes: nat): (r: nat) { if job.eightBit then lanes else lanes % 4 * 2 }

  /** Cycles lost before the first iteration: what is left of the wait for the
      addresses, or else one when the first access crosses a boundary. */
  function FirstStall(wait: nat, width: nat, dataAddr: nat, rbufAddr: nat): nat {
    if wait > 0 then wait else if Crosses(dataAddr, rbufAddr, width) then 1 else 0
  }

  /** Cycles lost before an iteration that is not the first. */
  function Stall(latency: nat, width: nat, dataAddr: nat, rbufAddr: nat): nat {
    if latency <= 1 then 0 else if Crosses(dataAddr, rbufAddr, width) then latency else latency - 1
  }

  /** Cycles of n iterations (one at least) once the first can start. */
  function Stretch(job: Job, latency: nat, width: nat, dataAddr: nat, rbufAddr: nat, n: nat): (r: nat)
    decreases n
  {
    if n <= 1 then 1
    else
      var d, w := Advance(dataAddr, job.dmemStep), Advance(rbufAddr, job.rbufStep);
      1 + Stall(latency, width, d, w) + Stretch(job, latency, width, d, w, n - 1)
  }

  /** Every iteration takes its own cycle; all but the first lose up to `latency`. */
  lemma {:induction false} StretchBounds(job: Job, latency: nat, width: nat, dataAddr: nat, rbufAddr: nat, n: nat)
    requires n >= 1
    ensures n <= Stretch(job, latency, width, dataAddr, rbufAddr, n)
    ensures Stretch(job, latency, width, dataAddr, rbufAddr, n) <= 1 + (n - 1) * (latency + 1)
    ensures latency <= 1 ==> Stretch(job, latency, width, dataAddr, rbufAddr, n) == n
    decreases n
  {
    if n > 1 {
      StretchBounds(job, latency, width, Advance(dataAddr, job.dmemStep), Advance(rbufAddr, job.rbufStep), n - 1);
      assert (n - 1) * (latency + 1) == (n - 2) * (latency + 1) + latency + 1;
    }
  }

  /** sram_latency - 1 in 32 bits: a latency of zero wraps. */
  function SecondStall(latency: nat): (r: nat) { (latency - 1) % RANGE }

  /** Waiting for the table takes a cycle even when there is nothing to wait for. */
  function TableWait(stall: nat): nat { if stall > 1 then stall else 1 }

  /** Cycles after the last iteration: one to write back; with a look-up, for each
      accumulator in use, a wait and one cycle to look up. */
  function Tail(job: Job, latency: nat): nat {
    if !job.lookUp then 1
    else TableWait(latency) + (if job.eightBit then 1 + TableWait(SecondStall(latency)) else 0) + 2
  }

  // ---- the machine ----

  class MadUnit {
    const buffers: Buffers
    const sramLatency: nat
    var state: State
    var nextState: State
    var job: Job
    var loopCount: int
    var simdDataWidth: nat
    var waitDataCycle: nat
    var secondLutDone: bool
    var dataAddr: nat
    var rbufAddr: nat
    var tr0: int
    var tr1: int
    var fr0: int
    var fr1: int
    var regs: Registers

    ghost predicate Valid()
      reads this
    {
      && Okay(job) && Int32(tr0) && Int32(tr1) && Int32(fr0) && Int32(fr1) && Words(regs)
      && (state != Idle ==> nextState == state)
      && (nextState.Idle? || nextState.DStall? || nextState.Ex? || !state.Idle?)
      && (state.LutStall? || state.Fu? ==> job.lookUp)
      && (secondLutDone && (state.LutStall? || state.Fu?) ==> job.eightBit && fr0 == LookUp(buffers, tr0))
    }

    predicate Running()
      reads this
    {
      state != Idle || nextState != Idle
    }

    /** The registers as they will be when the unit stops. */
    ghost function Outcome(): Registers
      requires Valid()
      reads this
    {
      match nextState
      case Idle => regs
      case DStall => Written(buffers, job, Iterate(buffers, job, dataAddr, rbufAddr, Iterations(loopCount), tr0, tr1), fr0, fr1, regs)
      case Ex => Written(buffers, job, Iterate(buffers, job, dataAddr, rbufAddr, Iterations(loopCount), tr0, tr1), fr0, fr1, regs)
      case LutStall => Written(buffers, job, (tr0, tr1), fr0, fr1, regs)
      case Fu => Written(buffers, job, (tr0, tr1), fr0, fr1, regs)
      case WriteBack => Written(buffers, job.(lookUp := false), (tr0, tr1), fr0, fr1, regs)
    }

    /** The cycles still to come. */
    ghost function Ticks(): nat
      reads this
    {
      var second := if job.eightBit && !secondLutDone then 1 + TableWait(SecondStall(sramLatency)) else 0;
      (if state.Idle? && !nextState.Idle? then 1 else 0) +
      match nextState
      case Idle => 0
      case WriteBack => 1
      case Fu => second + 2
      case LutStall => waitDataCycle + 1 + second + 2
      case Ex => Stretch(job, sramLatency, simdDataWidth, dataAddr, rbufAddr, Iterations(loopCount)) + Tail(job, sramLatency)
      case DStall =>
        (if state.Idle? && waitDataCycle > 0 then waitDataCycle else waitDataCycle + 1)
        + Stretch(job, sramLatency, simdDataWidth, dataAddr, rbufAddr, Iterations(loopCount)) + Tail(job, sramLatency)
    }

    constructor (buffers: Buffers, sramLatency: nat, regs: Registers)
      requires Words(regs)
      ensures Valid() && !Running() && this.regs == regs
      ensures this.buffers == buffers && this.sramLatency == sramLatency
    {
      this.buffers, this.sramLatency, this.regs := buffers, sramLatency, regs;
      state, nextState, job := Idle, Idle, Job(false, false, seq(LANES, _ => false), 0, 0);
      loopCount, simdDataWidth, waitDataCycle, secondLutDone := 0, 0, 0, false;
      dataAddr, rbufAddr, tr0, tr1, fr0, fr1 := 0, 0, 0, 0, 0, 0;
    }

    method SetAddr(data: nat, rbuf: nat)
      requires Valid() && !Running()
      modifies `dataAddr, `rbufAddr, `waitDataCycle
      ensures Valid() && !Running() && dataAddr == data % 0x1_0000 && rbufAddr == rbuf % 0x1_0000 && waitDataCycle == sramLatency
    {
      dataAddr, rbufAddr, waitDataCycle := data % 0x1_0000, rbuf % 0x1_0000, sramLatency;
    }

    predicate OverBoundary()
      reads this
      ensures OverBoundary() <==> Crosses(dataAddr, rbufAddr, simdDataWidth)
    {
      dataAddr % 8 + simdDataWidth > 8 || rbufAddr % 8 + simdDataWidth > 8
    }

    /** The lanes up to the highest one in use. */
    method CountLanes(mask: seq<bool>) returns (maskCount: nat)
      requires |mask| == LANES
      ensures Highest(mask, maskCount)
    {
      maskCount := LANES;
      while maskCount > 0
        invariant 0 <= maskCount <= LANES
        invariant forall j :: maskCount <= j < LANES ==> !mask[j]
      {
        if mask[maskCount - 1] {
          break;
        }
        maskCount := maskCount - 1;
      }
    }

    /** The first data may still be under way, or take two accesses. */
    method AwaitData()
      modifies `nextState, `waitDataCycle
      ensures waitDataCycle == FirstStall(old(waitDataCycle), simdDataWidth, dataAddr, rbufAddr)
      ensures nextState == if waitDataCycle > 0 then DStall else Ex
    {
      if waitDataCycle > 0 {
        nextState := DStall;
      } else if OverBoundary() {
        nextState, waitDataCycle := DStall, 1;
      } else {
        nextState := Ex;
      }
    }

    /** What a run will leave in the registers, and how long it takes, is settled
        here.  A count of zero or less still runs one iteration. */
    method Start(job: Job, count: int)
      requires Valid() && !Running() && Okay(job)
      modifies this
      ensures Valid() && Running() && regs == old(regs)
      ensures Outcome() == RunOutcome(buffers, job, old(dataAddr), old(rbufAddr), Iterations(count), regs)
      ensures exists c: nat :: Highest(job.mask, c) && simdDataWidth == Width(job, c)
      ensures Ticks() == 1 + FirstStall(old(waitDataCycle), simdDataWidth, old(dataAddr), old(rbufAddr))
                           + Stretch(job, sramLatency, simdDataWidth, old(dataAddr), old(rbufAddr), Iterations(count))
                           + Tail(job, sramLatency)
    {
      hide Iterate, Written, Stretch, Tail, FromRegister, Highest, Crosses, LookUp, FirstStall;
      this.job, loopCount, secondLutDone := job, count, false;
      var maskCount := CountLanes(job.mask);
      simdDataWidth := if job.eightBit then maskCount else maskCount % HALF * 2;
      AwaitData();
      tr0, tr1 := FromRegister(regs.tr0), FromRegister(regs.tr1);
      fr0, fr1 := FromRegister(regs.fr0), FromRegister(regs.fr1);
    }

    /** One iteration over the lanes, with the overflow check the code uses. */
    method DoMad()
      requires Valid()
      modifies `tr0, `tr1
      ensures Int32(tr0) && Int32(tr1)
      ensures tr0 == Fold(buffers, job, dataAddr, rbufAddr, 0, HALF, old(tr0))
      ensures tr1 == if job.eightBit then Fold(buffers, job, dataAddr, rbufAddr, HALF, HALF, old(tr1)) else old(tr1)
    {
      hide Plus, Clamp, Weight, Data, Times;
      var i := 0;
      while i < HALF
        invariant 0 <= i <= HALF && tr1 == old(tr1)
        invariant Int32(tr0) && tr0 == Fold(buffers, job, dataAddr, rbufAddr, 0, i, old(tr0))
      {
        if job.mask[i] {
          var w, d := Weight(buffers, rbufAddr, i), Data(buffers, job.eightBit, dataAddr, i);
          MacSaturates(tr0, w, d);
          tr0 := Plus(tr0, Times(w, d));
        }
        i := i + 1;
      }
      if job.eightBit {
        while i < LANES
          invariant HALF <= i <= LANES
          invariant tr0 == Fold(buffers, job, dataAddr, rbufAddr, 0, HALF, old(tr0))
          invariant Int32(tr1) && tr1 == Fold(buffers, job, dataAddr, rbufAddr, HALF, i - HALF, old(tr1))
        {
          if job.mask[i] {
            var w, d := Weight(buffers, rbufAddr, i - HALF), Data(buffers, job.eightBit, dataAddr, i);
            MacSaturates(tr1, w, d);
            tr1 := Plus(tr1, Times(w, d));
          }
          i := i + 1;
        }
      }
    }

    /** applyFU */
    method ApplyFu(x: int) returns (r: int)
      requires Int32(x)
      ensures r == LookUp(buffers, x)
    {
      var index := (Clip(Unsigned(x)) / 0x40_0000) * 2;
      r := HalfToFixed16(buffers.lut(index)) * 0x1000;
    }

    method StepExecute()
      requires Valid() && state.Ex?
      modifies this
      ensures state == old(state) && regs == old(regs) && job == old(job) && fr0 == old(fr0) && fr1 == old(fr1)
      ensures simdDataWidth == old(simdDataWidth)
      ensures Int32(tr0) && Int32(tr1)
      ensures old(loopCount) > 1 ==>
                && loopCount == old(loopCount) - 1
                && Iterate(buffers, job, dataAddr, rbufAddr, loopCount, tr0, tr1)
                   == Iterate(buffers, job, old(dataAddr), old(rbufAddr), old(loopCount), old(tr0), old(tr1))
                && (if sramLatency > 1
                    then nextState.DStall? && waitDataCycle == Stall(sramLatency, simdDataWidth, dataAddr, rbufAddr)
                    else nextState.Ex?)
                && Stretch(job, sramLatency, simdDataWidth, old(dataAddr), old(rbufAddr), old(loopCount))
                   == 1 + Stall(sramLatency, simdDataWidth, dataAddr, rbufAddr)
                      + Stretch(job, sramLatency, simdDataWidth, dataAddr, rbufAddr, loopCount)
      ensures old(loopCount) <= 1 ==>
                && (tr0, tr1) == Iterate(buffers, job, old(dataAddr), old(rbufAddr), 1, old(tr0), old(tr1))
                && Stretch(job, sramLatency, simdDataWidth, old(dataAddr), old(rbufAddr), 1) == 1
                && (if job.lookUp then nextState.LutStall? && waitDataCycle == sramLatency && !secondLutDone
                    else nextState.WriteBack?)
    {
      hide Fold, Advance;
      DoMad();
      loopCount := loopCount - 1;
      if loopCount > 0 {
        dataAddr, rbufAddr := Advance(dataAddr, job.dmemStep), Advance(rbufAddr, job.rbufStep);
        if sramLatency > 1 {
          waitDataCycle := sramLatency - 1;
          if OverBoundary() {
            waitDataCycle := waitDataCycle + 1;
          }
          nextState := DStall;
        }
      } else if job.lookUp {
        secondLutDone, nextState, waitDataCycle := false, LutStall, sramLatency;
      } else {
        nextState := WriteBack;
      }
    }

    method StepFunction()
      requires Valid() && state.Fu?
      modifies `nextState, `waitDataCycle, `secondLutDone, `fr0, `fr1
      ensures old(job.eightBit && !secondLutDone) ==>
                && nextState.LutStall? && waitDataCycle == SecondStall(sramLatency) && secondLutDone
                && fr0 == LookUp(buffers, tr0) && fr1 == old(fr1)
      ensures old(!(job.eightBit && !secondLutDone)) ==>
                && nextState.WriteBack? && waitDataCycle == old(waitDataCycle)
                && fr0 == LookUp(buffers, tr0)
                && fr1 == if job.eightBit then LookUp(buffers, tr1) else old(fr1)
    {
      if job.eightBit && !secondLutDone {
        waitDataCycle := SecondStall(sramLatency);
        nextState, secondLutDone := LutStall, true;
        fr0 := ApplyFu(tr0);
      } else {
        if job.eightBit {
          fr1 := ApplyFu(tr1);
        } else {
          fr0 := ApplyFu(tr0);
        }
        nextState := WriteBack;
      }
    }

    method StepWriteBack()
      requires Valid() && state.WriteBack?
      modifies `nextState, `regs
      ensures nextState == Idle
      ensures regs == Written(buffers, job.(lookUp := false), (tr0, tr1), fr0, fr1, old(regs))
    {
      hide ToRegister;
      nextState := Idle;
      if job.eightBit {
        regs := regs.(tr1 := ToRegister(tr1), fr1 := ToRegister(fr1));
      }
      regs := regs.(tr0 := ToRegister(tr0), fr0 := ToRegister(fr0));
    }

    /** One cycle: the outcome of the run stays what it was, and the run is one
        cycle closer to its end. */
    method Step()
      requires Valid()
      modifies this
      ensures Valid() && Outcome() == old(Outcome())
      ensures old(Running()) ==> Ticks() == old(Ticks()) - 1
      ensures !old(Running()) ==> !Running() && regs == old(regs)
    {
      hide Iterate, Written, LookUp, Stretch, SecondStall, Crosses;
      match state {
        case DStall =>
          if waitDataCycle == 0 {
            nextState := Ex;
          }
        case LutStall =>
          if waitDataCycle == 0 {
            nextState := Fu;
          }
        case Ex =>
          StepExecute();
        case Fu =>
          WrittenAfterLookUp(buffers, job, (tr0, tr1), fr0, fr1, regs);
          StepFunction();
        case WriteBack =>
          StepWriteBack();
        case Idle =>
      }
      if waitDataCycle > 0 {
        waitDataCycle := waitDataCycle - 1;
      }
      state := nextState;
    }

    /** Steps until the unit stops: the registers then hold what Start settled. */
    method RunToIdle() returns (cycles: nat)
      requires Valid()
      modifies this
      ensures Valid() && !Running() && regs == old(Outcome()) && cycles == old(Ticks())
    {
      cycles := 0;
      while Running()
        invariant Valid() && Outcome() == old(Outcome()) && cycles + Ticks() == old(Ticks())
        decreases Ticks()
      {
        Step();
        cycles := cycles + 1;
      }
    }
  }
}
