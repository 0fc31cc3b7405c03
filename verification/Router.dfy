/** One router: three input channels with eight virtual channels each, a locked
    crossbar and three output channels with credit counters.  InputChannel::step
    runs once a cycle, so the state register of a virtual channel and its
    next-state register agree between cycles and one field stands for both. */
module Router {
  import opened Flits

  const PORTS: nat := 3
  const LOCAL_PORT: nat := 0
  const LOWER_PORT: nat := 1
  const UPPER_PORT: nat := 2
  const NOBODY: int := -1

  /** vcbufsize, and the longest packet in flits. */
  datatype Config = Config(bufMax: int, packetMax: int)

  datatype VcState = RC | VSA | ST

  /** One virtual channel of an input.  `taken` is history: how many flits of the
      current packet have been passed on. */
  datatype Vc = Vc(state: VcState, port: nat, pending: bool, ibuf: seq<Flit>, taken: nat)

  datatype Input = Input(vcs: seq<Vc>, granted: nat, holding: bool, releaseTime: nat)

  datatype Output = Output(ackEnabled: bool, ready: seq<bool>, obuf: seq<Entry>, iackbuf: seq<Flit>,
                           sendCount: seq<int>, ackCount: seq<nat>)

  /** History: a flit that crossed the router. */
  datatype Sent = Sent(from: nat, vch: nat, to: nat, flit: Flit)

  /** lock[q]: the input that output q is reserved for; wires[p]: flits that have
      arrived at input p; out[q]: flits sent on output q and not yet delivered;
      log: history of the flits that crossed. */
  datatype RouterState = RouterState(
    id: nat, ins: seq<Input>, outs: seq<Output>, lock: seq<int>, closing: seq<bool>,
    wires: seq<seq<Entry>>, out: seq<seq<Entry>>, localReady: seq<bool>, log: seq<Sent>)

  predicate SizedVcs(vcs: seq<Vc>) { |vcs| == VCH_SIZE && forall i :: 0 <= i < VCH_SIZE ==> vcs[i].port < PORTS }

  predicate SizedOut(o: Output) {
    |o.ready| == VCH_SIZE && |o.sendCount| == VCH_SIZE && |o.ackCount| == VCH_SIZE
    && forall k :: 0 <= k < |o.obuf| ==> o.obuf[k].vch < VCH_SIZE
  }

  predicate Sized(r: RouterState) {
    && |r.ins| == PORTS && |r.outs| == PORTS && |r.lock| == PORTS && |r.closing| == PORTS
    && |r.wires| == PORTS && |r.out| == PORTS
    && (forall p :: 0 <= p < PORTS ==> SizedVcs(r.ins[p].vcs) && r.ins[p].granted < VCH_SIZE)
    && (forall q :: 0 <= q < PORTS ==> SizedOut(r.outs[q]))
    && (forall p :: 0 <= p < PORTS ==> forall k :: 0 <= k < |r.wires[p]| ==> r.wires[p][k].vch < VCH_SIZE)
  }

  // ---- output channel ----

  function Half(counts: seq<nat>, upper: bool): (h: seq<nat>)
    requires |counts| == VCH_SIZE
    ensures |h| == ACK_ENTRY
  {
    if upper then counts[ACK_ENTRY..] else counts[..ACK_ENTRY]
  }

  predicate AnyAck(counts: seq<nat>, upper: bool)
    requires |counts| == VCH_SIZE
  {
    exists k :: 0 <= k < ACK_ENTRY && Half(counts, upper)[k] != 0
  }

  /** The count left after its field has been sent: in the ACK2 branch a count
      beyond the field is not reduced. */
  function Unsent(count: nat, upper: bool): nat {
    if count > ACK_COUNT_MAX then (if upper then count else count - ACK_COUNT_MAX) else 0
  }

  function AfterAck(counts: seq<nat>, upper: bool): (after: seq<nat>)
    requires |counts| == VCH_SIZE
    ensures |after| == VCH_SIZE
    ensures forall v :: 0 <= v < VCH_SIZE ==>
              after[v] == if upper == (v >= ACK_ENTRY) then Unsent(counts[v], upper) else counts[v]
  {
    seq(VCH_SIZE, v requires 0 <= v < VCH_SIZE =>
          if upper == (v >= ACK_ENTRY) then Unsent(counts[v], upper) else counts[v])
  }

  /** ackSend: in even cycles for channels 0 to 3, in odd ones for 4 to 7. */
  function AckSend(o: Output, upper: bool): (Output, seq<Entry>)
    requires SizedOut(o)
  {
    if AnyAck(o.ackCount, upper) then
      (o.(ackCount := AfterAck(o.ackCount, upper)),
       [Entry(MakeAck(if upper then FAck2 else FAck1, Half(o.ackCount, upper)), ACK_VCH)])
    else (o, [])
  }

  /** The first half of OutputChannel::step: a data flit, or else acknowledgements. */
  function SendOne(o: Output, upper: bool): (Output, seq<Entry>)
    requires SizedOut(o)
  {
    if o.obuf != [] then
      var e := o.obuf[0];
      (o.(obuf := o.obuf[1..],
          sendCount := if o.ackEnabled then o.sendCount[e.vch := o.sendCount[e.vch] + 1] else o.sendCount),
       [e])
    else if o.ackEnabled then AckSend(o, upper)
    else (o, [])
  }

  /** The second half: one received acknowledgement is credited. */
  function TakeCredit(o: Output): Output
    requires SizedOut(o)
  {
    if o.iackbuf != [] then
      o.(iackbuf := o.iackbuf[1..],
         sendCount := seq(VCH_SIZE, v requires 0 <= v < VCH_SIZE => o.sendCount[v] - DecodeAck(o.iackbuf[0], v)))
    else o
  }

  /** readyStat follows the send counts. */
  function UpdateReady(cfg: Config, o: Output): Output
    requires SizedOut(o)
  {
    if o.ackEnabled then
      o.(ready := seq(VCH_SIZE, v requires 0 <= v < VCH_SIZE => cfg.bufMax - o.sendCount[v] >= cfg.packetMax))
    else o
  }

  /** OutputChannel::step.  The source refreshes readyStat only in cycles in which
      a count changed, which leaves the same values. */
  function OutputStep(cfg: Config, o: Output, upper: bool): (Output, seq<Entry>)
    requires SizedOut(o)
  {
    var (sent, flits) := SendOne(o, upper);
    if o.obuf != [] || o.iackbuf != [] then (UpdateReady(cfg, TakeCredit(sent)), flits) else (sent, flits)
  }

  // ---- input channel ----

  /** rtcomp: towards the destination along the chain. */
  function RouteTo(id: nat, dst: nat): nat {
    if dst == id then LOCAL_PORT else if dst > id then LOWER_PORT else UPPER_PORT
  }

  function SetVc(r: RouterState, p: nat, i: nat, vc: Vc): (r': RouterState)
    requires Sized(r) && p < PORTS && i < VCH_SIZE && vc.port < PORTS
    ensures Sized(r')
  {
    r.(ins := r.ins[p := r.ins[p].(vcs := r.ins[p].vcs[i := vc])])
  }

  /** Crossbar::forwardAck. */
  function ForwardAck(r: RouterState, p: nat, i: nat): (r': RouterState)
    requires Sized(r) && p < PORTS && i < VCH_SIZE && r.ins[p].vcs[i].ibuf != []
    ensures Sized(r')
  {
    var vc := r.ins[p].vcs[i];
    SetVc(r, p, i, vc.(ibuf := vc.ibuf[1..])).(
      outs := r.outs[p := r.outs[p].(iackbuf := r.outs[p].iackbuf + [vc.ibuf[0]])])
  }

  function Push(outs: seq<Output>, q: nat, e: Entry): seq<Output>
    requires q < |outs|
  {
    outs[q := outs[q].(obuf := outs[q].obuf + [e])]
  }

  function CountAck(outs: seq<Output>, p: nat, i: nat): seq<Output>
    requires p < |outs| && i < |outs[p].ackCount|
  {
    outs[p := outs[p].(ackCount := outs[p].ackCount[i := outs[p].ackCount[i] + 1])]
  }

  /** Switch traversal: the flit crosses to the output, and is acknowledged on the
      way back.  A tail releases the grant and closes the output. */
  function Traverse(r: RouterState, p: nat, i: nat, now: nat): (r': RouterState)
    requires Sized(r) && p < PORTS && i < VCH_SIZE && r.ins[p].vcs[i].ibuf != []
    ensures Sized(r')
  {
    var vc := r.ins[p].vcs[i];
    var f := vc.ibuf[0];
    var tail := IsTail(f);
    var vc' := vc.(ibuf := vc.ibuf[1..], state := if tail then RC else ST, taken := if tail then 0 else vc.taken + 1);
    var input := r.ins[p].(vcs := r.ins[p].vcs[i := vc']);
    r.(ins := r.ins[p := if tail then input.(holding := false, releaseTime := now) else input],
       outs := CountAck(Push(r.outs, vc.port, Entry(f, i)), p, i),
       closing := if tail then r.closing[vc.port := true] else r.closing,
       log := r.log + [Sent(p, i, vc.port, f)])
  }

  /** Crossbar::ready: an output with room is reserved for the first input that asks. */
  predicate Admits(r: RouterState, p: nat, i: nat, q: nat)
    requires Sized(r) && p < PORTS && i < VCH_SIZE && q < PORTS
  {
    !r.outs[q].ackEnabled || r.outs[q].ready[i]
  }

  function TakeLock(r: RouterState, p: nat, i: nat, q: nat): (r': RouterState)
    requires Sized(r) && p < PORTS && i < VCH_SIZE && q < PORTS
    ensures Sized(r')
  {
    if Admits(r, p, i, q) && r.lock[q] == NOBODY then r.(lock := r.lock[q := p as int]) else r
  }

  /** Switch allocation of a virtual channel that is granted, or that another one
      of the same input has overtaken: `&` does not short-circuit, so the output
      is asked, and may be reserved, in both cases. */
  function Allocate(r: RouterState, p: nat, i: nat): (r': RouterState)
    requires Sized(r) && p < PORTS && i < VCH_SIZE
    ensures Sized(r')
  {
    var vc := r.ins[p].vcs[i];
    var q := vc.port;
    var asked := TakeLock(r, p, i, q);
    if r.ins[p].granted == i && Admits(r, p, i, q) && asked.lock[q] == p as int then
      var held := SetVc(asked, p, i, vc.(state := ST));
      held.(ins := held.ins[p := held.ins[p].(holding := true)])
    else asked
  }

  /** One virtual channel in one cycle; `hold`: a lower one uses the input. */
  function VcStep(r: RouterState, p: nat, i: nat, hold: bool, now: nat): (res: (RouterState, bool))
    requires Sized(r) && p < PORTS && i < VCH_SIZE
    ensures Sized(res.0)
  {
    var vc := r.ins[p].vcs[i];
    if vc.ibuf == [] then (r, hold)
    else if IsAck(vc.ibuf[0]) then (ForwardAck(r, p, i), hold)
    else
      match vc.state
      case ST => (Traverse(r, p, i, now), true)
      case VSA =>
        if r.ins[p].granted != i && !hold then (SetVc(r, p, i, vc.(pending := true)), true)
        else
          var r' := Allocate(r, p, i);
          (r', hold || r'.ins[p].vcs[i].state == ST)
      case RC =>
        if IsHead(vc.ibuf[0]) then
          (SetVc(r, p, i, vc.(state := VSA, port := RouteTo(r.id, HeadDst(vc.ibuf[0]) as int))), hold)
        else (r, hold)
  }

  /** The loop over the virtual channels of input p, from channel i on. */
  function VcLoop(r: RouterState, p: nat, i: nat, hold: bool, now: nat): (r': RouterState)
    requires Sized(r) && p < PORTS && i <= VCH_SIZE
    ensures Sized(r')
    decreases VCH_SIZE - i
  {
    if i == VCH_SIZE then r
    else
      var (r', hold') := VcStep(r, p, i, hold, now);
      VcLoop(r', p, i + 1, hold', now)
  }

  /** One flit a cycle enters its virtual channel's buffer. */
  function Receive(r: RouterState, p: nat): (r': RouterState)
    requires Sized(r) && p < PORTS
    ensures Sized(r')
  {
    if r.wires[p] == [] then r
    else
      var e := r.wires[p][0];
      var vc := r.ins[p].vcs[e.vch];
      SetVc(r, p, e.vch, vc.(ibuf := vc.ibuf + [e.flit])).(wires := r.wires[p := r.wires[p][1..]])
  }

  /** The signal to the network interface: room for a whole packet. */
  function LocalReady(cfg: Config, r: RouterState): RouterState
    requires Sized(r)
  {
    r.(localReady := seq(VCH_SIZE, i requires 0 <= i < VCH_SIZE =>
                           cfg.bufMax - |r.ins[LOCAL_PORT].vcs[i].ibuf| >= cfg.packetMax))
  }

  /** The lowest pending channel, if any. */
  function FirstPending(vcs: seq<Vc>, i: nat): (w: nat)
    requires i <= |vcs|
    ensures i <= w <= |vcs|
    ensures w < |vcs| ==> vcs[w].pending
    decreases |vcs| - i
  {
    if i == |vcs| || vcs[i].pending then i else FirstPending(vcs, i + 1)
  }

  /** Channel arbitration, when nobody holds the input and none released it in this cycle. */
  function Arbitrate(r: RouterState, p: nat, now: nat): (r': RouterState)
    requires Sized(r) && p < PORTS
    ensures Sized(r')
  {
    var input := r.ins[p];
    var w := FirstPending(input.vcs, 0);
    if input.holding || now <= input.releaseTime || w == |input.vcs| then r
    else r.(ins := r.ins[p := input.(vcs := input.vcs[w := input.vcs[w].(pending := false)], granted := w)])
  }

  /** InputChannel::step. */
  function InputStep(cfg: Config, r: RouterState, p: nat, now: nat): (r': RouterState)
    requires Sized(r) && p < PORTS
    ensures Sized(r')
  {
    var received := Receive(VcLoop(r, p, 0, false, now), p);
    Arbitrate(if p == LOCAL_PORT then LocalReady(cfg, received) else received, p, now)
  }

  /** An output channel's step; its flit goes out on the link. */
  function OutputPhase(cfg: Config, r: RouterState, q: nat, now: nat): (r': RouterState)
    requires Sized(r) && q < PORTS
    ensures Sized(r')
  {
    var (o, flits) := OutputStep(cfg, r.outs[q], now % 2 != 0);
    r.(outs := r.outs[q := o], out := r.out[q := r.out[q] + flits])
  }

  /** Crossbar::step: closed outputs become free. */
  function CrossbarStep(r: RouterState): (r': RouterState)
    requires Sized(r)
    ensures Sized(r')
  {
    r.(lock := seq(PORTS, q requires 0 <= q < PORTS => if r.closing[q] then NOBODY else r.lock[q]),
       closing := seq(PORTS, _ => false))
  }

  /** Router::step: outputs, inputs, crossbar. */
  function RouterStep(cfg: Config, r: RouterState, now: nat): (r': RouterState)
    requires Sized(r)
    ensures Sized(r')
  {
    var o := OutputPhase(cfg, OutputPhase(cfg, OutputPhase(cfg, r, LOCAL_PORT, now), UPPER_PORT, now), LOWER_PORT, now);
    var i := InputStep(cfg, InputStep(cfg, InputStep(cfg, o, LOCAL_PORT, now), UPPER_PORT, now), LOWER_PORT, now);
    CrossbarStep(i)
  }
}
