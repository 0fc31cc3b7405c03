/** What a run of the multiply-and-add unit leaves in its registers, lane by lane
    and address by address. */
module MadFacts {
  import opened FixedPoint
  import opened MadModel

  /** A half word read in two's complement. */
  function SignedHalf(raw: nat): int {
    if raw % 0x1_0000 < 0x8000 then raw % 0x1_0000 else raw % 0x1_0000 - 0x1_0000
  }

  /** A byte read in two's complement, as the upper byte of a half word. */
  function SignedByte(raw: nat): int {
    0x100 * if raw % 0x100 < 0x80 then raw % 0x100 else raw % 0x100 - 0x100
  }

  /** One lane: the weight of lane i, or of lane i - 4 in the upper half, times the
      data of lane i is added and the sum saturates; a masked lane adds nothing. */
  function Lane(b: Buffers, job: Job, data: nat, weights: nat, i: nat, acc: int): (r: int)
    requires Okay(job) && i < 8 && Int32(acc)
    ensures Int32(r)
  {
    if !job.mask[i] then acc
    else Clamp(acc + SignedHalf(b.weight(weights, i % 4))
                     * if job.eightBit then SignedByte(b.dataByte(data, i)) else SignedHalf(b.dataHalf(data, i)))
  }

  function Lower(b: Buffers, job: Job, data: nat, weights: nat, acc: int): (r: int)
    requires Okay(job) && Int32(acc)
    ensures Int32(r)
  {
    Lane(b, job, data, weights, 3, Lane(b, job, data, weights, 2, Lane(b, job, data, weights, 1, Lane(b, job, data, weights, 0, acc))))
  }

  function Upper(b: Buffers, job: Job, data: nat, weights: nat, acc: int): (r: int)
    requires Okay(job) && Int32(acc)
    ensures Int32(r)
  {
    Lane(b, job, data, weights, 7, Lane(b, job, data, weights, 6, Lane(b, job, data, weights, 5, Lane(b, job, data, weights, 4, acc))))
  }

  lemma OneLane(b: Buffers, job: Job, data: nat, weights: nat, from: nat, n: nat, acc: int)
    requires Okay(job) && Int32(acc) && 1 <= n <= 4 && (from == 0 || from == 4)
    ensures Fold(b, job, data, weights, from, n, acc)
         == Lane(b, job, data, weights, from + n - 1, Fold(b, job, data, weights, from, n - 1, acc))
  {
    hide Weight, Data, SignedHalf, SignedByte, Clamp;
    assert (from + n - 1) % 4 == n - 1;
    WeightIs(b, weights, n - 1);
    DataIs(b, job.eightBit, data, from + n - 1);
  }

  lemma WeightIs(b: Buffers, addr: nat, i: nat)
    ensures Weight(b, addr, i) == SignedHalf(b.weight(addr, i))
  {
  }

  lemma DataIs(b: Buffers, eightBit: bool, addr: nat, i: nat)
    ensures Data(b, eightBit, addr, i) == if eightBit then SignedByte(b.dataByte(addr, i)) else SignedHalf(b.dataHalf(addr, i))
  {
  }

  lemma FourLanes(b: Buffers, job: Job, data: nat, weights: nat, acc: int)
    requires Okay(job) && Int32(acc)
    ensures Fold(b, job, data, weights, 0, HALF, acc) == Lower(b, job, data, weights, acc)
    ensures Fold(b, job, data, weights, HALF, HALF, acc) == Upper(b, job, data, weights, acc)
  {
    hide Lane;
    OneLane(b, job, data, weights, 0, 1, acc);
    OneLane(b, job, data, weights, 0, 2, acc);
    OneLane(b, job, data, weights, 0, 3, acc);
    OneLane(b, job, data, weights, 0, 4, acc);
    OneLane(b, job, data, weights, 4, 1, acc);
    OneLane(b, job, data, weights, 4, 2, acc);
    OneLane(b, job, data, weights, 4, 3, acc);
    OneLane(b, job, data, weights, 4, 4, acc);
  }

  /** The last of n + 1 iterations comes after n others and reads at both base
      addresses plus n steps, in 32 bits. */
  lemma {:induction false} LastIteration(b: Buffers, job: Job, data: nat, weights: nat, n: nat, t0: int, t1: int)
    requires Okay(job) && Int32(t0) && Int32(t1) && data < RANGE && weights < RANGE
    ensures var before := Iterate(b, job, data, weights, n, t0, t1);
            var d, w := After(data, job.dmemStep, n), After(weights, job.rbufStep, n);
            Iterate(b, job, data, weights, n + 1, t0, t1)
              == (Lower(b, job, d, w, before.0), if job.eightBit then Upper(b, job, d, w, before.1) else before.1)
    decreases n
  {
    hide Lower, Upper, Fold, After, Advance;
    FourLanes(b, job, data, weights, t0);
    FourLanes(b, job, data, weights, t1);
    var u0 := Fold(b, job, data, weights, 0, HALF, t0);
    var u1 := if job.eightBit then Fold(b, job, data, weights, HALF, HALF, t1) else t1;
    if n > 0 {
      var d, w := Advance(data, job.dmemStep), Advance(weights, job.rbufStep);
      StepsAdd(data, job.dmemStep, n);
      StepsAdd(weights, job.rbufStep, n);
      LastIteration(b, job, d, w, n - 1, u0, u1);
    } else {
      NoSteps(data, job.dmemStep);
      NoSteps(weights, job.rbufStep);
      assert Iterate(b, job, Advance(data, job.dmemStep), Advance(weights, job.rbufStep), 0, u0, u1) == (u0, u1);
    }
  }

  /** An address after n steps. */
  function After(addr: nat, step: int, n: nat): nat { (addr + n * step) % 0x1_0000_0000 }

  lemma NoSteps(addr: nat, step: int)
    requires addr < RANGE
    ensures After(addr, step, 0) == addr
  {
  }

  lemma StepsAdd(addr: nat, step: int, n: nat)
    requires n > 0
    ensures After(Advance(addr, step), step, n - 1) == After(addr, step, n) && Advance(addr, step) < RANGE
  {
    var rest := (n - 1) * step;
    assert n * step == rest + step;
    ModAdd(addr + step, rest);
  }

  lemma ModAdd(x: int, y: int)
    ensures (x % RANGE + y) % RANGE == (x + y) % RANGE
  {
  }

  /** What is written back: the accumulators times 16 and saturated; after a look-up
      the table entry that the ten upper bits of TR select, in the upper half
      of FR.  Without 8-bit lanes the second pair is left alone. */
  lemma RegistersMean(b: Buffers, job: Job, t: (int, int), fr0: int, fr1: int, regs: Registers)
    requires Int32(t.0) && Int32(t.1) && Int32(fr0) && Int32(fr1) && Words(regs)
    ensures var w := Written(b, job, t, fr0, fr1, regs);
            && w.tr0 == Clamp(16 * t.0) % 0x1_0000_0000
            && w.fr0 == (if job.lookUp then (b.lut(w.tr0 / 0x40_0000 * 2) % 0x1_0000) * 0x1_0000
                         else Clamp(16 * fr0) % 0x1_0000_0000)
            && w.tr1 == (if job.eightBit then Clamp(16 * t.1) % 0x1_0000_0000 else regs.tr1)
            && w.fr1 == (if !job.eightBit then regs.fr1
                         else if job.lookUp then (b.lut(w.tr1 / 0x40_0000 * 2) % 0x1_0000) * 0x1_0000
                         else Clamp(16 * fr1) % 0x1_0000_0000)
  {
    hide ToRegister, LookUp, Clamp;
    RegisterIs(t.0);
    RegisterIs(t.1);
    RegisterIs(fr0);
    RegisterIs(fr1);
    LookedUp(b, t.0);
    LookedUp(b, t.1);
  }

  lemma RegisterIs(x: int)
    requires Int32(x)
    ensures ToRegister(x) == Clamp(16 * x) % 0x1_0000_0000
  {
    hide ToRegister, Clamp;
    ToRegisterClamps(x);
    var r := ToRegister(x);
    assert Wrap(r) % RANGE == r;
  }

  lemma LookedUp(b: Buffers, x: int)
    requires Int32(x)
    ensures ToRegister(LookUp(b, x)) == (b.lut(ToRegister(x) / 0x40_0000 * 2) % 0x1_0000) * 0x1_0000
  {
    var raw := b.lut(ToRegister(x) / 0x40_0000 * 2);
    var h := HalfToFixed16(raw);
    assert LookUp(b, x) == h * 0x1000;
    RegisterIs(h * 0x1000);
    HalfShifted(raw);
  }

  lemma HalfShifted(raw: nat)
    ensures Clamp(16 * (HalfToFixed16(raw) * 0x1000)) % 0x1_0000_0000 == (raw % 0x1_0000) * 0x1_0000
  {
    var h, low := HalfToFixed16(raw), raw % 0x1_0000;
    assert h == SignedHalf(raw);
    assert 16 * (h * 0x1000) == h * 0x1_0000;
    if low < 0x8000 {
      assert h == low;
    } else {
      assert h * 0x1_0000 == low * 0x1_0000 - 0x1_0000_0000;
    }
  }

  /** The accumulators start with what the TR registers hold, divided by 16 and
      rounded down. */
  lemma RegisterRead(r: nat)
    requires r < RANGE
    ensures 16 * FromRegister(r) <= (if r < 0x8000_0000 then r else r - 0x1_0000_0000) < 16 * FromRegister(r) + 16
  {
    WrapKeepsLow(r);
  }

  /** Between two iterations the unit waits for its data, one cycle more for an access
      that crosses a boundary, and not at all when the latency is 0 or 1. */
  lemma StretchStep(job: Job, latency: nat, width: nat, data: nat, weights: nat, n: nat)
    requires n >= 1
    ensures Stretch(job, latency, width, data, weights, 1) == 1
    ensures var d, w := (data + job.dmemStep) % 0x1_0000_0000, (weights + job.rbufStep) % 0x1_0000_0000;
            var wait := if latency < 2 then 0 else latency - if d % 8 + width > 8 || w % 8 + width > 8 then 0 else 1;
            Stretch(job, latency, width, data, weights, n + 1) == 1 + wait + Stretch(job, latency, width, d, w, n)
  {
  }

  /** What comes behind the last iteration.  With a latency of 0 the wait for the
      second look-up wraps around and takes 2^32 - 1 cycles. */
  lemma TailMeans(job: Job, latency: nat)
    requires latency < 0x1_0000_0000
    ensures !job.lookUp ==> Tail(job, latency) == 1
    ensures job.lookUp && !job.eightBit ==> Tail(job, latency) == if latency == 0 then 3 else latency + 2
    ensures job.lookUp && job.eightBit ==>
              Tail(job, latency) == if latency == 0 then 0x1_0000_0003 else if latency == 1 then 5 else 2 * latency + 2
  {
    assert SecondStall(latency) == if latency == 0 then 0xFFFF_FFFF else latency - 1;
  }

  /** The bytes an access really takes: one a lane in 8-bit mode, two otherwise,
      where lanes 4 to 7 take no part. */
  function Bytes(job: Job, lanes: nat): nat {
    if job.eightBit then lanes else if lanes > 4 then 8 else 2 * lanes
  }

  /** The unit tells every access that crosses a boundary from those that do not,
      except in 16-bit mode with lane 3 or a higher one in use: the number of
      lanes is cut to two bits, so that four lanes count as none. */
  lemma BoundarySeenIff(job: Job, lanes: nat)
    requires lanes <= LANES
    ensures (forall d: nat, w: nat :: Crosses(d, w, Width(job, lanes)) <==> Crosses(d, w, Bytes(job, lanes)))
       <==> job.eightBit || lanes < 4
  {
    if !job.eightBit && lanes >= 4 {
      assert !Crosses(2, 0, Width(job, lanes)) && Crosses(2, 0, Bytes(job, lanes));
    }
  }

  /** The four lanes of a 16-bit access: no address makes the unit wait for the
      second half, and every address off the boundary should. */
  lemma FourLanesUnseen(job: Job, d: nat, w: nat)
    requires !job.eightBit
    ensures !Crosses(d, w, Width(job, 4))
    ensures Crosses(d, w, Bytes(job, 4)) <==> d % 8 != 0 || w % 8 != 0
  {
  }
}
