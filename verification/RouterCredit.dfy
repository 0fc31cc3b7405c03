/** Credit flow control: on every link the sender's count is accounted for, flit
    by flit and acknowledgement by acknowledgement. */
module RouterCredit {
  import opened Flits
  import opened Router

  // ---- counting ----

  /** Data flits in a buffer. */
  function DataIn(s: seq<Flit>): nat {
    if s == [] then 0 else (if IsAck(s[0]) then 0 else 1) + DataIn(s[1..])
  }

  /** Credits for channel v carried by the acknowledgement flits in a buffer. */
  function Credits(s: seq<Flit>, v: nat): nat
    requires v < VCH_SIZE
  {
    if s == [] then 0 else (if IsAck(s[0]) then DecodeAck(s[0], v) else 0) + Credits(s[1..], v)
  }

  function WireData(w: seq<Entry>, v: nat): nat {
    if w == [] then 0 else (if !IsAck(w[0].flit) && w[0].vch == v then 1 else 0) + WireData(w[1..], v)
  }

  function WireCredits(w: seq<Entry>, v: nat): nat
    requires v < VCH_SIZE
  {
    if w == [] then 0 else (if IsAck(w[0].flit) then DecodeAck(w[0].flit, v) else 0) + WireCredits(w[1..], v)
  }

  lemma {:induction false} CountsMore(s: seq<Flit>, f: Flit, v: nat)
    requires v < VCH_SIZE
    ensures DataIn(s + [f]) == DataIn(s) + if IsAck(f) then 0 else 1
    ensures Credits(s + [f], v) == Credits(s, v) + if IsAck(f) then DecodeAck(f, v) else 0
  {
    hide DecodeAck;
    if s != [] {
      CountsMore(s[1..], f, v);
      assert (s + [f])[1..] == s[1..] + [f];
    } else {
      assert [f][1..] == [];
      assert s + [f] == [f];
    }
  }

  lemma {:induction false} WiresJoin(a: seq<Entry>, b: seq<Entry>, v: nat)
    requires v < VCH_SIZE
    ensures WireData(a + b, v) == WireData(a, v) + WireData(b, v)
    ensures WireCredits(a + b, v) == WireCredits(a, v) + WireCredits(b, v)
  {
    hide DecodeAck;
    if a != [] {
      WiresJoin(a[1..], b, v);
      assert (a + b)[1..] == a[1..] + b;
    } else {
      assert a + b == b;
    }
  }

  // ---- the two sides of a link, at one router ----

  /** What input p owes the sender: flits on the wire and in the buffer, and
      acknowledgements not yet sent. */
  function Owed(input: Input, output: Output, wire: seq<Entry>, v: nat): int
    requires v < VCH_SIZE && SizedVcs(input.vcs) && SizedOut(output)
  {
    WireData(wire, v) + DataIn(input.vcs[v].ibuf) + output.ackCount[v]
  }

  /** What output p still counts as sent, less the acknowledgements at hand. */
  function Outstanding(input: Input, output: Output, wire: seq<Entry>, v: nat): int
    requires v < VCH_SIZE && SizedVcs(input.vcs) && SizedOut(output)
  {
    output.sendCount[v] - Credits(output.iackbuf, v) - Credits(input.vcs[ACK_VCH].ibuf, v) - WireCredits(wire, v)
  }

  function OwedAt(r: RouterState, p: nat, v: nat): int
    requires Sized(r) && p < PORTS && v < VCH_SIZE
  {
    Owed(r.ins[p], r.outs[p], r.wires[p], v) + WireCredits(r.out[p], v)
  }

  function OutstandingAt(r: RouterState, p: nat, v: nat): int
    requires Sized(r) && p < PORTS && v < VCH_SIZE
  {
    Outstanding(r.ins[p], r.outs[p], r.wires[p], v) - WireData(r.out[p], v)
  }

  /** Acknowledgement flits travel on channel 0 only, and no data flit waits to
      be taken for one. */
  predicate AcksOnZero(r: RouterState)
    requires Sized(r)
  {
    && (forall p, i, k :: 0 <= p < PORTS && 0 < i < VCH_SIZE && 0 <= k < |r.ins[p].vcs[i].ibuf| ==> !IsAck(r.ins[p].vcs[i].ibuf[k]))
    && (forall p, k :: 0 <= p < PORTS && 0 <= k < |r.wires[p]| && IsAck(r.wires[p][k].flit) ==> r.wires[p][k].vch == ACK_VCH)
    && (forall q, k :: 0 <= q < PORTS && 0 <= k < |r.outs[q].obuf| ==> !IsAck(r.outs[q].obuf[k].flit))
    && (forall q, k :: 0 <= q < PORTS && 0 <= k < |r.outs[q].iackbuf| ==> IsAck(r.outs[q].iackbuf[k]))
  }

  // ---- the output channel ----

  /** No count that an ACK2 flit would misreport. */
  predicate NoLeak(o: Output, v: nat)
    requires SizedOut(o) && v < VCH_SIZE
  {
    v < ACK_ENTRY || o.ackCount[v] <= ACK_COUNT_MAX
  }

  lemma AckSendLedger(o: Output, upper: bool, v: nat)
    requires SizedOut(o) && v < VCH_SIZE
    ensures var (o', flits) := AckSend(o, upper);
            && o'.sendCount == o.sendCount && o'.iackbuf == o.iackbuf && o'.obuf == o.obuf
            && WireData(flits, v) == 0
            && o'.ackCount[v] + WireCredits(flits, v) ==
                 o.ackCount[v] + if upper && v >= ACK_ENTRY && o.ackCount[v] > ACK_COUNT_MAX then ACK_COUNT_MAX else 0
  {
    hide MakeAck, DecodeAck, AnyAck;
    var counts := Half(o.ackCount, upper);
    AckRoundTrip(if upper then FAck2 else FAck1, counts, v);
    var (o', flits) := AckSend(o, upper);
    if AnyAck(o.ackCount, upper) {
      AckFlit(if upper then FAck2 else FAck1, counts);
      assert flits[1..] == [];
    } else if upper == (v >= ACK_ENTRY) {
      NoAck(o.ackCount, upper, v);
    }
  }

  lemma NoAck(counts: seq<nat>, upper: bool, v: nat)
    requires |counts| == VCH_SIZE && !AnyAck(counts, upper) && v < VCH_SIZE && upper == (v >= ACK_ENTRY)
    ensures counts[v] == 0
  {
    assert Half(counts, upper)[if upper then v - ACK_ENTRY else v] == counts[v];
  }

  lemma AckFlit(ftype: Ftype, counts: seq<nat>)
    requires |counts| == ACK_ENTRY && (ftype == FAck1 || ftype == FAck2)
    ensures IsAck(MakeAck(ftype, counts))
  {
  }

  lemma OneEntry(e: Entry, v: nat)
    requires v < VCH_SIZE
    ensures WireData([e], v) == if !IsAck(e.flit) && e.vch == v then 1 else 0
    ensures WireCredits([e], v) == if IsAck(e.flit) then DecodeAck(e.flit, v) else 0
  {
    hide DecodeAck;
    assert [e][1..] == [];
  }

  /** The leak: credit that an ACK2 flit reports and the count keeps. */
  function Leak(o: Output, upper: bool, v: nat): nat
    requires SizedOut(o) && v < VCH_SIZE
  {
    if o.ackEnabled && o.obuf == [] && upper && !NoLeak(o, v) then ACK_COUNT_MAX else 0
  }

  lemma SendOneLedger(o: Output, upper: bool, v: nat)
    requires SizedOut(o) && v < VCH_SIZE && (o.obuf != [] ==> !IsAck(o.obuf[0].flit))
    ensures var (o', flits) := SendOne(o, upper);
            && o'.iackbuf == o.iackbuf
            && (o.ackEnabled ==> o'.sendCount[v] - WireData(flits, v) == o.sendCount[v])
            && o'.ackCount[v] + WireCredits(flits, v) == o.ackCount[v] + Leak(o, upper, v)
  {
    hide AckSend, WireData, WireCredits;
    NothingSent(v);
    if o.obuf != [] {
      OneEntry(o.obuf[0], v);
    } else {
      AckSendLedger(o, upper, v);
    }
  }

  lemma NothingSent(v: nat)
    requires v < VCH_SIZE
    ensures WireData([], v) == 0 && WireCredits([], v) == 0
  {
  }

  lemma TakeCreditLedger(o: Output, v: nat)
    requires SizedOut(o) && v < VCH_SIZE && (o.iackbuf != [] ==> IsAck(o.iackbuf[0]))
    ensures TakeCredit(o).sendCount[v] - Credits(TakeCredit(o).iackbuf, v) == o.sendCount[v] - Credits(o.iackbuf, v)
    ensures TakeCredit(o).ackCount == o.ackCount
  {
    hide DecodeAck;
  }

  /** The output channel keeps both accounts. */
  lemma OutputLedger(cfg: Config, o: Output, upper: bool, v: nat)
    requires SizedOut(o) && v < VCH_SIZE
    requires (o.obuf != [] ==> !IsAck(o.obuf[0].flit)) && (o.iackbuf != [] ==> IsAck(o.iackbuf[0]))
    ensures var (o', flits) := OutputStep(cfg, o, upper);
            && SizedOut(o')
            && (o.ackEnabled ==> o'.sendCount[v] - Credits(o'.iackbuf, v) - WireData(flits, v) ==
                                 o.sendCount[v] - Credits(o.iackbuf, v))
            && o'.ackCount[v] + WireCredits(flits, v) == o.ackCount[v] + Leak(o, upper, v)
  {
    hide SendOne, TakeCredit, Credits, WireData, WireCredits, Leak;
    SendOneLedger(o, upper, v);
    SendSized(o, upper);
    TakeCreditLedger(SendOne(o, upper).0, v);
  }

  lemma SendSized(o: Output, upper: bool)
    requires SizedOut(o)
    ensures SizedOut(SendOne(o, upper).0) && SizedOut(TakeCredit(SendOne(o, upper).0))
    ensures SendOne(o, upper).0.ackEnabled == o.ackEnabled
  {
    hide DecodeAck, MakeAck, AnyAck;
  }

  // ---- the input channel ----

  /** Both accounts of port p, for channel v, are the same in two states. */
  predicate Kept(r: RouterState, r': RouterState, p: nat, v: nat)
    requires Sized(r) && Sized(r') && p < PORTS && v < VCH_SIZE
  {
    OwedAt(r', p, v) == OwedAt(r, p, v) && OutstandingAt(r', p, v) == OutstandingAt(r, p, v)
  }

  /** What the accounts of one port depend on. */
  lemma SameParts(r: RouterState, r': RouterState, p: nat, v: nat)
    requires Sized(r) && Sized(r') && p < PORTS && v < VCH_SIZE
    requires r'.ins[p].vcs[v].ibuf == r.ins[p].vcs[v].ibuf && r'.ins[p].vcs[ACK_VCH].ibuf == r.ins[p].vcs[ACK_VCH].ibuf
    requires r'.outs[p].ackCount == r.outs[p].ackCount && r'.outs[p].sendCount == r.outs[p].sendCount
    requires r'.outs[p].iackbuf == r.outs[p].iackbuf && r'.wires[p] == r.wires[p] && r'.out[p] == r.out[p]
    ensures Kept(r, r', p, v)
  {
    hide DataIn, Credits, WireData, WireCredits;
  }

  lemma ForwardAckKeeps(r: RouterState, p: nat, i: nat, u: nat, v: nat)
    requires Sized(r) && p < PORTS && i < VCH_SIZE && u < PORTS && v < VCH_SIZE
    requires r.ins[p].vcs[i].ibuf != [] && IsAck(r.ins[p].vcs[i].ibuf[0]) && AcksOnZero(r)
    ensures Kept(r, ForwardAck(r, p, i), u, v)
  {
    hide DecodeAck, WireData, WireCredits;
    assert i == ACK_VCH;
    var f := r.ins[p].vcs[i].ibuf[0];
    CountsMore(r.outs[p].iackbuf, f, v);
  }

  lemma TraverseKeeps(r: RouterState, p: nat, i: nat, now: nat, u: nat, v: nat)
    requires Sized(r) && p < PORTS && i < VCH_SIZE && u < PORTS && v < VCH_SIZE
    requires r.ins[p].vcs[i].ibuf != [] && !IsAck(r.ins[p].vcs[i].ibuf[0])
    ensures Kept(r, Traverse(r, p, i, now), u, v)
  {
    hide DecodeAck, WireData, WireCredits;
  }

  lemma AllocateKeeps(r: RouterState, p: nat, i: nat, u: nat, v: nat)
    requires Sized(r) && p < PORTS && i < VCH_SIZE && u < PORTS && v < VCH_SIZE
    ensures Kept(r, Allocate(r, p, i), u, v)
  {
    hide DataIn, Credits, WireData, WireCredits, OwedAt, OutstandingAt;
    SameParts(r, Allocate(r, p, i), u, v);
  }

  lemma VcStepKeeps(r: RouterState, p: nat, i: nat, hold: bool, now: nat, u: nat, v: nat)
    requires Sized(r) && p < PORTS && i < VCH_SIZE && u < PORTS && v < VCH_SIZE && AcksOnZero(r)
    ensures Kept(r, VcStep(r, p, i, hold, now).0, u, v)
  {
    hide DataIn, Credits, WireData, WireCredits, OwedAt, OutstandingAt, Traverse, Allocate, ForwardAck, AcksOnZero;
    var vc := r.ins[p].vcs[i];
    if vc.ibuf != [] {
      if IsAck(vc.ibuf[0]) {
        ForwardAckKeeps(r, p, i, u, v);
      } else if vc.state == ST {
        TraverseKeeps(r, p, i, now, u, v);
      } else if vc.state == VSA && (r.ins[p].granted == i || hold) {
        AllocateKeeps(r, p, i, u, v);
      } else {
        SameParts(r, VcStep(r, p, i, hold, now).0, u, v);
      }
    }
  }

  /** What decides AcksOnZero, one buffer at a time. */
  lemma ZeroFromParts(r: RouterState, r': RouterState)
    requires Sized(r) && Sized(r') && AcksOnZero(r)
    requires forall p, i :: 0 <= p < PORTS && 0 < i < VCH_SIZE ==> Subset(r'.ins[p].vcs[i].ibuf, r.ins[p].vcs[i].ibuf)
    requires r'.wires == r.wires
    requires forall q :: 0 <= q < PORTS ==> r'.outs[q].obuf == r.outs[q].obuf && r'.outs[q].iackbuf == r.outs[q].iackbuf
    ensures AcksOnZero(r')
  {
    forall p, i, k | 0 <= p < PORTS && 0 < i < VCH_SIZE && 0 <= k < |r'.ins[p].vcs[i].ibuf|
      ensures !IsAck(r'.ins[p].vcs[i].ibuf[k])
    {
      assert r'.ins[p].vcs[i].ibuf[k] in r'.ins[p].vcs[i].ibuf;
    }
  }

  predicate Subset(a: seq<Flit>, b: seq<Flit>) { forall f :: f in a ==> f in b }

  lemma ForwardAckZero(r: RouterState, p: nat, i: nat)
    requires Sized(r) && p < PORTS && i < VCH_SIZE && AcksOnZero(r)
    requires r.ins[p].vcs[i].ibuf != [] && IsAck(r.ins[p].vcs[i].ibuf[0])
    ensures AcksOnZero(ForwardAck(r, p, i))
  {
    assert i == ACK_VCH;
  }

  lemma TraverseZero(r: RouterState, p: nat, i: nat, now: nat)
    requires Sized(r) && p < PORTS && i < VCH_SIZE && AcksOnZero(r)
    requires r.ins[p].vcs[i].ibuf != [] && !IsAck(r.ins[p].vcs[i].ibuf[0])
    ensures AcksOnZero(Traverse(r, p, i, now))
  {
  }

  lemma VcStepZero(r: RouterState, p: nat, i: nat, hold: bool, now: nat)
    requires Sized(r) && p < PORTS && i < VCH_SIZE && AcksOnZero(r)
    ensures AcksOnZero(VcStep(r, p, i, hold, now).0)
  {
    hide Traverse, ForwardAck, Allocate, AcksOnZero, IsAck;
    var vc := r.ins[p].vcs[i];
    if vc.ibuf != [] {
      if IsAck(vc.ibuf[0]) {
        ForwardAckZero(r, p, i);
      } else if vc.state == ST {
        TraverseZero(r, p, i, now);
      } else if vc.state == VSA && (r.ins[p].granted == i || hold) {
        AllocateZero(r, p, i);
      } else {
        SetZero(r, p, i, hold, now);
      }
    }
  }

  lemma AllocateZero(r: RouterState, p: nat, i: nat)
    requires Sized(r) && p < PORTS && i < VCH_SIZE && AcksOnZero(r)
    ensures AcksOnZero(Allocate(r, p, i))
  {
    hide AcksOnZero, Admits;
    ZeroFromParts(r, Allocate(r, p, i));
  }

  lemma SetZero(r: RouterState, p: nat, i: nat, hold: bool, now: nat)
    requires Sized(r) && p < PORTS && i < VCH_SIZE && AcksOnZero(r) && r.ins[p].vcs[i].ibuf != []
    requires !IsAck(r.ins[p].vcs[i].ibuf[0]) && r.ins[p].vcs[i].state != ST
    requires r.ins[p].vcs[i].state == VSA ==> r.ins[p].granted != i && !hold
    ensures AcksOnZero(VcStep(r, p, i, hold, now).0)
  {
    hide AcksOnZero, HeadDst;
    ZeroFromParts(r, VcStep(r, p, i, hold, now).0);
  }

  lemma {:induction false} VcLoopKeeps(r: RouterState, p: nat, i: nat, hold: bool, now: nat, u: nat, v: nat)
    requires Sized(r) && p < PORTS && i <= VCH_SIZE && u < PORTS && v < VCH_SIZE && AcksOnZero(r)
    ensures Kept(r, VcLoop(r, p, i, hold, now), u, v) && AcksOnZero(VcLoop(r, p, i, hold, now))
    decreases VCH_SIZE - i
  {
    hide VcStep, AcksOnZero, OwedAt, OutstandingAt, Sized;
    if i < VCH_SIZE {
      VcStepKeeps(r, p, i, hold, now, u, v);
      VcStepZero(r, p, i, hold, now);
      VcLoopKeeps(VcStep(r, p, i, hold, now).0, p, i + 1, VcStep(r, p, i, hold, now).1, now, u, v);
    }
  }

  lemma ReceiveKeeps(r: RouterState, p: nat, u: nat, v: nat)
    requires Sized(r) && p < PORTS && u < PORTS && v < VCH_SIZE && AcksOnZero(r)
    ensures Kept(r, Receive(r, p), u, v)
  {
    hide DecodeAck;
    if r.wires[p] != [] {
      var e := r.wires[p][0];
      CountsMore(r.ins[p].vcs[e.vch].ibuf, e.flit, v);
    }
  }

  lemma ReceiveZero(r: RouterState, p: nat)
    requires Sized(r) && p < PORTS && AcksOnZero(r)
    ensures AcksOnZero(Receive(r, p))
  {
  }

  lemma ArbitrateKeeps(r: RouterState, p: nat, now: nat, u: nat, v: nat)
    requires Sized(r) && p < PORTS && u < PORTS && v < VCH_SIZE && AcksOnZero(r)
    ensures Kept(r, Arbitrate(r, p, now), u, v) && AcksOnZero(Arbitrate(r, p, now))
  {
    hide DataIn, Credits, WireData, WireCredits, OwedAt, OutstandingAt, AcksOnZero, FirstPending;
    SameParts(r, Arbitrate(r, p, now), u, v);
    ZeroFromParts(r, Arbitrate(r, p, now));
  }

  lemma LocalReadyKeeps(cfg: Config, r: RouterState, u: nat, v: nat)
    requires Sized(r) && u < PORTS && v < VCH_SIZE && AcksOnZero(r)
    ensures Sized(LocalReady(cfg, r)) && Kept(r, LocalReady(cfg, r), u, v) && AcksOnZero(LocalReady(cfg, r))
  {
    hide DataIn, Credits, WireData, WireCredits;
  }

  lemma InputKeeps(cfg: Config, r: RouterState, p: nat, now: nat, u: nat, v: nat)
    requires Sized(r) && p < PORTS && u < PORTS && v < VCH_SIZE && AcksOnZero(r)
    ensures Kept(r, InputStep(cfg, r, p, now), u, v) && AcksOnZero(InputStep(cfg, r, p, now))
  {
    hide VcLoop, Receive, LocalReady, Arbitrate, AcksOnZero, OwedAt, OutstandingAt, Sized;
    var a := VcLoop(r, p, 0, false, now);
    VcLoopKeeps(r, p, 0, false, now, u, v);
    ReceiveKeeps(a, p, u, v);
    ReceiveZero(a, p);
    LocalReadyKeeps(cfg, Receive(a, p), u, v);
    ArbitrateKeeps(if p == LOCAL_PORT then LocalReady(cfg, Receive(a, p)) else Receive(a, p), p, now, u, v);
  }

  lemma CrossbarKeeps(r: RouterState, u: nat, v: nat)
    requires Sized(r) && u < PORTS && v < VCH_SIZE && AcksOnZero(r)
    ensures Kept(r, CrossbarStep(r), u, v) && AcksOnZero(CrossbarStep(r))
  {
    hide DataIn, Credits, WireData, WireCredits;
  }

  // ---- the output phase ----

  lemma OutputPhaseKeeps(cfg: Config, r: RouterState, q: nat, now: nat, u: nat, v: nat)
    requires Sized(r) && q < PORTS && u < PORTS && v < VCH_SIZE && AcksOnZero(r)
    ensures var r' := OutputPhase(cfg, r, q, now);
            && (r.outs[u].ackEnabled ==> OutstandingAt(r', u, v) == OutstandingAt(r, u, v))
            && OwedAt(r', u, v) == OwedAt(r, u, v) + (if u == q then Leak(r.outs[q], now % 2 != 0, v) else 0)
            && r'.outs[u].ackEnabled == r.outs[u].ackEnabled
  {
    hide DataIn, Credits, WireData, WireCredits, Leak, OutputStep;
    var (o, flits) := OutputStep(cfg, r.outs[q], now % 2 != 0);
    OutputLedger(cfg, r.outs[q], now % 2 != 0, v);
    OutputEnabled(cfg, r.outs[q], now % 2 != 0);
    WiresJoin(r.out[q], flits, v);
  }

  lemma OutputEnabled(cfg: Config, o: Output, upper: bool)
    requires SizedOut(o)
    ensures OutputStep(cfg, o, upper).0.ackEnabled == o.ackEnabled
  {
    hide MakeAck, DecodeAck, AnyAck;
  }

  lemma OutputZero(cfg: Config, r: RouterState, q: nat, now: nat)
    requires Sized(r) && q < PORTS && AcksOnZero(r)
    ensures AcksOnZero(OutputPhase(cfg, r, q, now))
  {
    hide OutputStep;
    OutputBuffers(cfg, r.outs[q], now % 2 != 0);
  }

  lemma OutputBuffers(cfg: Config, o: Output, upper: bool)
    requires SizedOut(o)
    ensures var o' := OutputStep(cfg, o, upper).0;
            && o'.obuf == (if o.obuf != [] then o.obuf[1..] else []) && o'.iackbuf == (if o.iackbuf != [] then o.iackbuf[1..] else [])
  {
    hide DecodeAck, MakeAck, AnyAck, AfterAck;
  }

  /** Acknowledgements leave on channel 0. */
  predicate AcksLeaveOnZero(w: seq<Entry>) { forall k :: 0 <= k < |w| && IsAck(w[k].flit) ==> w[k].vch == ACK_VCH }

  lemma OutputAcks(cfg: Config, r: RouterState, q: nat, now: nat)
    requires Sized(r) && q < PORTS && AcksOnZero(r)
    requires forall u: nat :: u < PORTS ==> AcksLeaveOnZero(r.out[u])
    ensures forall u: nat :: u < PORTS ==> AcksLeaveOnZero(OutputPhase(cfg, r, q, now).out[u])
  {
    hide DecodeAck, MakeAck, AnyAck, AfterAck, UpdateReady, TakeCredit;
  }

  lemma InputOut(cfg: Config, r: RouterState, p: nat, now: nat)
    requires Sized(r) && p < PORTS
    ensures InputStep(cfg, r, p, now).out == r.out
    ensures forall u: nat :: u < PORTS ==> InputStep(cfg, r, p, now).outs[u].ackEnabled == r.outs[u].ackEnabled
  {
    hide VcLoop;
    LoopOut(r, p, 0, false, now);
  }

  lemma {:induction false} LoopOut(r: RouterState, p: nat, i: nat, hold: bool, now: nat)
    requires Sized(r) && p < PORTS && i <= VCH_SIZE
    ensures VcLoop(r, p, i, hold, now).out == r.out
    ensures forall u: nat :: u < PORTS ==> VcLoop(r, p, i, hold, now).outs[u].ackEnabled == r.outs[u].ackEnabled
    decreases VCH_SIZE - i
  {
    hide VcStep;
    if i < VCH_SIZE {
      VcStepOut(r, p, i, hold, now);
      LoopOut(VcStep(r, p, i, hold, now).0, p, i + 1, VcStep(r, p, i, hold, now).1, now);
    }
  }

  lemma VcStepOut(r: RouterState, p: nat, i: nat, hold: bool, now: nat)
    requires Sized(r) && p < PORTS && i < VCH_SIZE
    ensures VcStep(r, p, i, hold, now).0.out == r.out
    ensures forall u: nat :: u < PORTS ==> VcStep(r, p, i, hold, now).0.outs[u].ackEnabled == r.outs[u].ackEnabled
  {
    hide IsAck, IsHead, IsTail, HeadDst, Admits;
  }

  function OutputsOnly(cfg: Config, r: RouterState, now: nat): (r': RouterState)
    requires Sized(r)
    ensures Sized(r')
  {
    OutputPhase(cfg, OutputPhase(cfg, OutputPhase(cfg, r, LOCAL_PORT, now), UPPER_PORT, now), LOWER_PORT, now)
  }

  lemma OtherOutput(cfg: Config, r: RouterState, q: nat, now: nat, u: nat)
    requires Sized(r) && q < PORTS && u < PORTS && u != q
    ensures OutputPhase(cfg, r, q, now).outs[u] == r.outs[u]
  {
  }

  lemma OutputsLedger(cfg: Config, r: RouterState, now: nat, u: nat, v: nat)
    requires Sized(r) && u < PORTS && v < VCH_SIZE && AcksOnZero(r)
    ensures var r' := OutputsOnly(cfg, r, now);
            && (r.outs[u].ackEnabled ==> OutstandingAt(r', u, v) == OutstandingAt(r, u, v))
            && OwedAt(r', u, v) == OwedAt(r, u, v) + Leak(r.outs[u], now % 2 != 0, v)
            && r'.outs[u].ackEnabled == r.outs[u].ackEnabled && AcksOnZero(r')
  {
    hide OutputPhase, AcksOnZero, OwedAt, OutstandingAt, Leak, SizedOut;
    var a := OutputPhase(cfg, r, LOCAL_PORT, now);
    var b := OutputPhase(cfg, a, UPPER_PORT, now);
    OutputPhaseKeeps(cfg, r, LOCAL_PORT, now, u, v);
    OutputZero(cfg, r, LOCAL_PORT, now);
    OutputPhaseKeeps(cfg, a, UPPER_PORT, now, u, v);
    OutputZero(cfg, a, UPPER_PORT, now);
    OutputPhaseKeeps(cfg, b, LOWER_PORT, now, u, v);
    OutputZero(cfg, b, LOWER_PORT, now);
    if u != LOCAL_PORT { OtherOutput(cfg, r, LOCAL_PORT, now, u); }
    if u != UPPER_PORT { OtherOutput(cfg, a, UPPER_PORT, now, u); }
  }

  /** One cycle of a router: what it counts as sent is unchanged but for what it
      has put on the link; what it owes is unchanged but for the leak. */
  lemma RouterLedger(cfg: Config, r: RouterState, now: nat, u: nat, v: nat)
    requires Sized(r) && u < PORTS && v < VCH_SIZE && AcksOnZero(r)
    ensures var r' := RouterStep(cfg, r, now);
            && (r.outs[u].ackEnabled ==> OutstandingAt(r', u, v) == OutstandingAt(r, u, v))
            && OwedAt(r', u, v) == OwedAt(r, u, v) + Leak(r.outs[u], now % 2 != 0, v)
            && AcksOnZero(r')
  {
    hide OutputPhase, InputStep, CrossbarStep, AcksOnZero, OwedAt, OutstandingAt, Leak, SizedOut;
    var o := OutputsOnly(cfg, r, now);
    var x := InputStep(cfg, o, LOCAL_PORT, now);
    var y := InputStep(cfg, x, UPPER_PORT, now);
    OutputsLedger(cfg, r, now, u, v);
    InputKeeps(cfg, o, LOCAL_PORT, now, u, v);
    InputKeeps(cfg, x, UPPER_PORT, now, u, v);
    InputKeeps(cfg, y, LOWER_PORT, now, u, v);
    CrossbarKeeps(InputStep(cfg, y, LOWER_PORT, now), u, v);
  }

  lemma StepOut(cfg: Config, r: RouterState, now: nat)
    requires Sized(r) && AcksOnZero(r) && forall u: nat :: u < PORTS ==> AcksLeaveOnZero(r.out[u])
    ensures var r' := RouterStep(cfg, r, now);
            forall u: nat :: u < PORTS ==> AcksLeaveOnZero(r'.out[u]) && r'.outs[u].ackEnabled == r.outs[u].ackEnabled
  {
    hide OutputPhase, InputStep, AcksOnZero, SizedOut, AcksLeaveOnZero;
    var a := OutputPhase(cfg, r, LOCAL_PORT, now);
    var b := OutputPhase(cfg, a, UPPER_PORT, now);
    var o := OutputsOnly(cfg, r, now);
    OutputAcks(cfg, r, LOCAL_PORT, now);
    OutputZero(cfg, r, LOCAL_PORT, now);
    OutputAcks(cfg, a, UPPER_PORT, now);
    OutputZero(cfg, a, UPPER_PORT, now);
    OutputAcks(cfg, b, LOWER_PORT, now);
    forall u: nat | u < PORTS
      ensures o.outs[u].ackEnabled == r.outs[u].ackEnabled
    {
      OutputsLedger(cfg, r, now, u, 0);
    }
    var x := InputStep(cfg, o, LOCAL_PORT, now);
    var y := InputStep(cfg, x, UPPER_PORT, now);
    InputOut(cfg, o, LOCAL_PORT, now);
    InputOut(cfg, x, UPPER_PORT, now);
    InputOut(cfg, y, LOWER_PORT, now);
  }
}
