/** One router with one packet in each direction on one channel, followed from
    the head flit's arrival until flits flow in every cycle. */
module RouterTrack {
  import opened Flits
  import opened Router
  import opened RouterCredit
  import opened RouterNetwork

  /** The channel of both packets. */
  const V: nat := 4

  /** Where the packet at the front of an input stands. */
  datatype Phase = Idle | Steered | Picked | Flowing

  function NextPhase(ph: Phase, have: bool): Phase {
    if !have then ph
    else
      match ph
      case Idle => Steered
      case Steered => Picked
      case Picked => Flowing
      case Flowing => Flowing
  }

  // ---- one input ----

  predicate Bare(vc: Vc) { vc.ibuf == [] && !vc.pending }

  /** Only channel V of this input is in use. */
  predicate Alone(input: Input) {
    && |input.vcs| == VCH_SIZE && input.releaseTime == 0 && !input.vcs[V].pending
    && forall i :: 0 <= i < VCH_SIZE && i != V ==> Bare(input.vcs[i])
  }

  predicate InPhase(input: Input, q: nat, ph: Phase) {
    && Alone(input)
    && (match ph
        case Idle => input.vcs[V].state == RC && input.granted != V && !input.holding
        case Steered => input.vcs[V].state == VSA && input.vcs[V].port == q && input.granted != V && !input.holding
        case Picked => input.vcs[V].state == VSA && input.vcs[V].port == q && input.granted == V && !input.holding
        case Flowing => input.vcs[V].state == ST && input.vcs[V].port == q && input.holding)
  }

  /** The flit at the front is what the phase waits for. */
  predicate Fits(s: seq<Flit>, id: nat, q: nat, ph: Phase) {
    s != [] ==>
      && s[0].ftype in {FHead, FData}
      && (ph == Idle ==> s[0].ftype == FHead && RouteTo(id, HeadDst(s[0]) as int) == q)
  }

  predicate Shunned(input: Input) {
    |input.vcs| == VCH_SIZE && forall i :: 0 <= i < VCH_SIZE && i != V ==> input.vcs[i].ibuf == []
  }

  lemma {:induction false} SkipEmpty(r: RouterState, p: nat, i: nat, hold: bool, now: nat)
    requires Sized(r) && p < PORTS && V < i <= VCH_SIZE && Shunned(r.ins[p])
    ensures VcLoop(r, p, i, hold, now) == r
    decreases VCH_SIZE - i
  {
    if i < VCH_SIZE {
      SkipEmpty(r, p, i + 1, hold, now);
    }
  }

  lemma {:induction false} LoopAlone(r: RouterState, p: nat, i: nat, now: nat)
    requires Sized(r) && p < PORTS && i <= V && Shunned(r.ins[p])
    requires Shunned(VcStep(r, p, V, false, now).0.ins[p])
    ensures VcLoop(r, p, i, false, now) == VcStep(r, p, V, false, now).0
    decreases V - i
  {
    if i < V {
      assert r.ins[p].vcs[i].ibuf == [];
      LoopAlone(r, p, i + 1, now);
    } else {
      SkipEmpty(VcStep(r, p, V, false, now).0, p, V + 1, VcStep(r, p, V, false, now).1, now);
    }
  }

  /** The outputs after flit f went from input p to output q. */
  function Crossed(r: RouterState, p: nat, q: nat, f: Flit): (outs: seq<Output>)
    requires Sized(r) && p < PORTS && q < PORTS
    ensures |outs| == PORTS
  {
    CountAck(Push(r.outs, q, Entry(f, V)), p, V)
  }

  /** What the front of input p does in one cycle, before anything is received. */
  lemma VcMoves(r: RouterState, p: nat, q: nat, ph: Phase, now: nat)
    requires Sized(r) && p < PORTS && q < PORTS && InPhase(r.ins[p], q, ph)
    requires Fits(r.ins[p].vcs[V].ibuf, r.id, q, ph)
    requires ph == Picked ==> Admits(r, p, V, q) && r.lock[q] == NOBODY
    ensures var r' := VcLoop(r, p, 0, false, now);
            var s := r.ins[p].vcs[V].ibuf;
            var have, pops := s != [], s != [] && ph == Flowing;
            && InLoop(r'.ins[p], q, ph, have)
            && r'.ins[p].vcs[V].ibuf == (if pops then s[1..] else s)
            && r'.outs == (if pops then Crossed(r, p, q, s[0]) else r.outs)
            && r'.lock == (if have && ph == Picked then r.lock[q := p as int] else r.lock)
            && Beside(r, r', p) && r'.wires == r.wires
  {
    hide HeadDst, RouteTo, VcLoop, Admits;
    var s := r.ins[p].vcs[V].ibuf;
    assert forall i :: 0 <= i < VCH_SIZE && i != V ==> Bare(r.ins[p].vcs[i]);
    if s != [] {
      assert !IsAck(s[0]) && !IsTail(s[0]);
    }
    LoopAlone(r, p, 0, now);
  }

  /** After the loop over the channels, arbitration is still to come. */
  predicate InLoop(input: Input, q: nat, ph: Phase, have: bool) {
    if ph == Steered && have then Requesting(input, q) else InPhase(input, q, NextPhase(ph, have))
  }

  predicate Requesting(input: Input, q: nat) {
    && |input.vcs| == VCH_SIZE && input.releaseTime == 0 && !input.holding
    && input.vcs[V].pending && input.vcs[V].state == VSA && input.vcs[V].port == q
    && forall i :: 0 <= i < VCH_SIZE && i != V ==> Bare(input.vcs[i])
  }

  /** Everything that a step of input p leaves alone. */
  predicate Beside(r: RouterState, r': RouterState, p: nat)
    requires Sized(r) && Sized(r')
  {
    && r'.closing == r.closing && r'.out == r.out && r'.id == r.id
    && forall u: nat :: u < PORTS && u != p ==> r'.ins[u] == r.ins[u]
  }

  lemma OnlyRequest(vcs: seq<Vc>, i: nat)
    requires |vcs| == VCH_SIZE && i <= V && vcs[V].pending && forall k :: 0 <= k < VCH_SIZE && k != V ==> Bare(vcs[k])
    ensures FirstPending(vcs, i) == V
    decreases V - i
  {
    if i < V {
      assert Bare(vcs[i]);
      OnlyRequest(vcs, i + 1);
    }
  }

  lemma NoRequest(vcs: seq<Vc>, i: nat)
    requires |vcs| == VCH_SIZE && i <= VCH_SIZE && forall k :: 0 <= k < VCH_SIZE ==> !vcs[k].pending
    ensures FirstPending(vcs, i) == VCH_SIZE
    decreases VCH_SIZE - i
  {
    if i < VCH_SIZE { NoRequest(vcs, i + 1); }
  }

  lemma ArbitrateAlone(r: RouterState, p: nat, q: nat, ph: Phase, have: bool, now: nat)
    requires Sized(r) && p < PORTS && now > 0 && InLoop(r.ins[p], q, ph, have)
    ensures var r' := Arbitrate(r, p, now);
            && InPhase(r'.ins[p], q, NextPhase(ph, have)) && r'.ins[p].vcs[V].ibuf == r.ins[p].vcs[V].ibuf
            && r'.outs == r.outs && r'.lock == r.lock && r'.wires == r.wires && Beside(r, r', p)
  {
    var input := r.ins[p];
    if ph == Steered && have {
      OnlyRequest(input.vcs, 0);
    } else {
      assert forall k :: 0 <= k < VCH_SIZE && k != V ==> Bare(input.vcs[k]);
      NoRequest(input.vcs, 0);
    }
  }

  /** All flits on the wire belong to channel V. */
  predicate OnV(w: seq<Entry>) { forall k :: 0 <= k < |w| ==> w[k].vch == V }

  function Rest<T>(s: seq<T>): seq<T> { if s == [] then [] else s[1..] }

  function First(w: seq<Entry>): seq<Flit> { if w == [] then [] else [w[0].flit] }

  lemma ReceiveAlone(r: RouterState, p: nat, q: nat, ph: Phase, have: bool)
    requires Sized(r) && p < PORTS && InLoop(r.ins[p], q, ph, have) && OnV(r.wires[p])
    ensures var r' := Receive(r, p);
            && InLoop(r'.ins[p], q, ph, have) && r'.ins[p].vcs[V].ibuf == r.ins[p].vcs[V].ibuf + First(r.wires[p])
            && r'.outs == r.outs && r'.lock == r.lock && r'.wires == r.wires[p := Rest(r.wires[p])] && Beside(r, r', p)
  {
    if r.wires[p] != [] {
      assert r.wires[p][0].vch == V;
    }
  }

  predicate Pops(r: RouterState, p: nat, ph: Phase)
    requires Sized(r) && p < PORTS
  {
    ph == Flowing && r.ins[p].vcs[V].ibuf != []
  }

  predicate Drawn(r: RouterState, r': RouterState, p: nat, ph: Phase)
    requires Sized(r) && Sized(r') && p < PORTS
  {
    && r'.ins[p].vcs[V].ibuf ==
         (if Pops(r, p, ph) then r.ins[p].vcs[V].ibuf[1..] else r.ins[p].vcs[V].ibuf) + First(r.wires[p])
    && r'.wires[p] == Rest(r.wires[p])
  }

  /** From r to r', input p has gone through one cycle in phase ph. */
  predicate Stepped(r: RouterState, r': RouterState, p: nat, q: nat, ph: Phase)
    requires Sized(r) && Sized(r') && p < PORTS && q < PORTS
  {
    var have := r.ins[p].vcs[V].ibuf != [];
    && InPhase(r'.ins[p], q, NextPhase(ph, have)) && Drawn(r, r', p, ph)
    && r'.outs == (if Pops(r, p, ph) then Crossed(r, p, q, r.ins[p].vcs[V].ibuf[0]) else r.outs)
    && r'.lock == (if have && ph == Picked then r.lock[q := p as int] else r.lock)
    && r'.wires == r.wires[p := Rest(r.wires[p])] && Beside(r, r', p)
  }

  /** One cycle of an input in which only channel V is in use. */
  lemma PortStep(cfg: Config, r: RouterState, p: nat, q: nat, ph: Phase, now: nat)
    requires Sized(r) && p < PORTS && q < PORTS && InPhase(r.ins[p], q, ph) && now > 0 && OnV(r.wires[p])
    requires Fits(r.ins[p].vcs[V].ibuf, r.id, q, ph)
    requires ph == Picked ==> Admits(r, p, V, q) && r.lock[q] == NOBODY
    ensures Stepped(r, InputStep(cfg, r, p, now), p, q, ph)
  {
    hide SizedOut, InPhase, InLoop, Fits, VcLoop, Receive, Arbitrate, OnV, Crossed, Admits, First;
    var have := r.ins[p].vcs[V].ibuf != [];
    VcMoves(r, p, q, ph, now);
    var a := VcLoop(r, p, 0, false, now);
    ReceiveAlone(a, p, q, ph, have);
    var b := Receive(a, p);
    var c := if p == LOCAL_PORT then LocalReady(cfg, b) else b;
    ArbitrateAlone(c, p, q, ph, have, now);
  }

  // ---- one output ----

  predicate NoCounts(o: Output) { |o.ackCount| == VCH_SIZE && forall v :: 0 <= v < VCH_SIZE ==> o.ackCount[v] == 0 }

  /** The output has a flit to send, or nothing to say. */
  predicate Primed(o: Output) {
    |o.obuf| <= 1 && o.iackbuf == [] && (o.obuf == [] && o.ackEnabled ==> NoCounts(o))
  }

  lemma PrimedSends(cfg: Config, o: Output, upper: bool)
    requires SizedOut(o) && Primed(o)
    ensures var (o', flits) := OutputStep(cfg, o, upper);
            && flits == o.obuf && o'.obuf == [] && o'.iackbuf == [] && o'.ackCount == o.ackCount && o'.ackEnabled == o.ackEnabled
            && (o.obuf == [] ==> o' == o)
  {
    hide MakeAck;
    if o.obuf == [] && o.ackEnabled {
      assert !AnyAck(o.ackCount, upper);
    }
  }

  /** The outputs of a router before its inputs are stepped. */
  lemma OutputsSend(cfg: Config, r: RouterState, now: nat)
    requires Sized(r) && forall u: nat :: u < PORTS ==> Primed(r.outs[u])
    ensures var r' := OutputsOnly(cfg, r, now);
            && r'.ins == r.ins && r'.lock == r.lock && r'.closing == r.closing && r'.wires == r.wires && r'.id == r.id
            && forall u: nat :: u < PORTS ==>
                 && r'.out[u] == r.out[u] + r.outs[u].obuf
                 && r'.outs[u].obuf == [] && r'.outs[u].iackbuf == [] && r'.outs[u].ackCount == r.outs[u].ackCount
                 && r'.outs[u].ackEnabled == r.outs[u].ackEnabled && (r.outs[u].obuf == [] ==> r'.outs[u] == r.outs[u])
  {
    hide OutputStep, Primed, SizedVcs, SizedOut;
    PrimedSends(cfg, r.outs[LOCAL_PORT], now % 2 != 0);
    PrimedSends(cfg, r.outs[UPPER_PORT], now % 2 != 0);
    PrimedSends(cfg, r.outs[LOWER_PORT], now % 2 != 0);
  }

  // ---- one router ----

  /** Packets cross on channel V from the local port to output q and, if `both`,
      from input q to the local port, in step with each other. */
  predicate Inputs(r: RouterState, q: nat, both: bool, ph: Phase)
    requires Sized(r)
  {
    && (q == LOWER_PORT || q == UPPER_PORT)
    && (forall u: nat :: u < PORTS ==> OnV(r.wires[u]))
    && InPhase(r.ins[LOCAL_PORT], q, ph) && InPhase(r.ins[q], LOCAL_PORT, if both then ph else Idle)
    && InPhase(r.ins[PORTS - q], LOCAL_PORT, Idle)
    && (!both ==> r.ins[q].vcs[V].ibuf == [] && r.wires[q] == [])
    && r.ins[PORTS - q].vcs[V].ibuf == [] && r.wires[PORTS - q] == []
  }

  predicate TrackIn(r: RouterState, q: nat, both: bool, ph: Phase)
    requires Sized(r)
  {
    && Inputs(r, q, both, ph)
    && (ph != Flowing ==> forall u: nat :: u < PORTS ==> r.lock[u] == NOBODY && r.outs[u].ready[V])
  }

  /** The outputs of such a router. */
  predicate Outputs(outs: seq<Output>, q: nat, both: bool, ph: Phase) {
    && |outs| == PORTS && (q == LOWER_PORT || q == UPPER_PORT)
    && (forall u: nat :: u < PORTS ==> outs[u].iackbuf == [] && |outs[u].obuf| <= 1)
    && !outs[LOCAL_PORT].ackEnabled && outs[q].ackEnabled
    && outs[PORTS - q].obuf == [] && NoCounts(outs[PORTS - q]) && (!both ==> NoCounts(outs[q]))
    && (ph != Flowing ==> forall u: nat :: u < PORTS ==> outs[u].obuf == [])
  }

  predicate Track(r: RouterState, q: nat, both: bool, ph: Phase)
    requires Sized(r)
  {
    && TrackIn(r, q, both, ph) && Outputs(r.outs, q, both, ph)
    && (forall u: nat :: u < PORTS ==> !r.closing[u] && r.out[u] == [])
  }

  function Todo(r: RouterState, p: nat): seq<Flit>
    requires Sized(r) && p < PORTS
  {
    r.ins[p].vcs[V].ibuf + FlitsOf(r.wires[p])
  }

  function FlitsOf(w: seq<Entry>): (s: seq<Flit>)
    ensures |s| == |w| && forall k :: 0 <= k < |w| ==> s[k] == w[k].flit
  {
    seq(|w|, k requires 0 <= k < |w| => w[k].flit)
  }

  /** A buffer is empty only when nothing is coming. */
  predicate Eager(r: RouterState, p: nat)
    requires Sized(r) && p < PORTS
  {
    r.wires[p] != [] ==> r.ins[p].vcs[V].ibuf != []
  }

  lemma TodoDrawn(r: RouterState, r': RouterState, p: nat, ph: Phase)
    requires Sized(r) && Sized(r') && p < PORTS && Drawn(r, r', p, ph)
    ensures Todo(r', p) == if Pops(r, p, ph) then Todo(r, p)[1..] else Todo(r, p)
    ensures r.wires[p] != [] ==> r'.ins[p].vcs[V].ibuf != []
    ensures Eager(r, p) || r.wires[p] != [] ==> Eager(r', p)
  {
    Joined(r.ins[p].vcs[V].ibuf, r.wires[p]);
    if Pops(r, p, ph) { Joined(r.ins[p].vcs[V].ibuf[1..], r.wires[p]); }
  }

  lemma Joined(s: seq<Flit>, w: seq<Entry>)
    ensures s + First(w) + FlitsOf(Rest(w)) == s + FlitsOf(w)
    ensures s != [] ==> (s + FlitsOf(w))[1..] == s[1..] + FlitsOf(w)
  {
    assert FlitsOf(w) == First(w) + FlitsOf(Rest(w));
  }

  lemma CrossedIs(r: RouterState, p: nat, q: nat, f: Flit)
    requires Sized(r) && p < PORTS && q < PORTS
    ensures var outs := Crossed(r, p, q, f);
            && outs[q].obuf == r.outs[q].obuf + [Entry(f, V)]
            && outs[p].ackCount == r.outs[p].ackCount[V := r.outs[p].ackCount[V] + 1]
            && (forall u: nat :: u < PORTS && u != q ==> outs[u].obuf == r.outs[u].obuf)
            && (forall u: nat :: u < PORTS && u != p ==> outs[u].ackCount == r.outs[u].ackCount)
            && (forall u: nat :: u < PORTS ==> outs[u].iackbuf == r.outs[u].iackbuf && outs[u].ackEnabled == r.outs[u].ackEnabled
                                               && outs[u].ready == r.outs[u].ready)
  {
  }

  /** The three inputs of a router, in the sequence of the source. */
  function InputsDone(cfg: Config, r: RouterState, now: nat): (r': RouterState)
    requires Sized(r)
    ensures Sized(r')
  {
    InputStep(cfg, InputStep(cfg, InputStep(cfg, r, LOCAL_PORT, now), UPPER_PORT, now), LOWER_PORT, now)
  }

  predicate Fitting(r: RouterState, q: nat, both: bool, ph: Phase)
    requires Sized(r) && q < PORTS
  {
    && Fits(r.ins[LOCAL_PORT].vcs[V].ibuf, r.id, q, ph)
    && (both ==> Fits(r.ins[q].vcs[V].ibuf, r.id, LOCAL_PORT, ph))
    && (both ==> (r.ins[LOCAL_PORT].vcs[V].ibuf == [] <==> r.ins[q].vcs[V].ibuf == []))
  }

  /** An input with nothing to do. */
  lemma IdleStep(cfg: Config, r: RouterState, p: nat, now: nat)
    requires Sized(r) && p < PORTS && InPhase(r.ins[p], LOCAL_PORT, Idle) && now > 0
    requires r.ins[p].vcs[V].ibuf == [] && r.wires[p] == []
    ensures var r' := InputStep(cfg, r, p, now);
            && InPhase(r'.ins[p], LOCAL_PORT, Idle) && r'.ins[p].vcs[V].ibuf == []
            && r'.outs == r.outs && r'.lock == r.lock && r'.wires == r.wires && Beside(r, r', p)
  {
    hide SizedOut, InPhase, Fits, InputStep;
    NothingFits(r.id, LOCAL_PORT);
    PortStep(cfg, r, p, LOCAL_PORT, Idle, now);
    assert r.wires[p := []] == r.wires;
  }

  lemma NothingFits(id: nat, q: nat)
    ensures Fits([], id, q, Idle) && First([]) == []
  {
  }

  /** Router 0: one packet, from the local port to the lower one. */
  lemma OneMoves(cfg: Config, r: RouterState, ph: Phase, now: nat)
    requires Sized(r) && TrackIn(r, LOWER_PORT, false, ph) && now > 0 && Fitting(r, LOWER_PORT, false, ph)
    ensures var r' := InputsDone(cfg, r, now);
            var have := r.ins[LOCAL_PORT].vcs[V].ibuf != [];
            && TrackIn(r', LOWER_PORT, false, NextPhase(ph, have)) && Drawn(r, r', LOCAL_PORT, ph)
            && r'.out == r.out && r'.closing == r.closing && r'.id == r.id
            && r'.outs == if Pops(r, LOCAL_PORT, ph) then Crossed(r, LOCAL_PORT, LOWER_PORT, r.ins[LOCAL_PORT].vcs[V].ibuf[0]) else r.outs
  {
    hide SizedOut, InPhase, Fits, InputStep, OnV, Crossed;
    var x := InputStep(cfg, r, LOCAL_PORT, now);
    PortStep(cfg, r, LOCAL_PORT, LOWER_PORT, ph, now);
    IdleStep(cfg, x, UPPER_PORT, now);
    IdleStep(cfg, InputStep(cfg, x, UPPER_PORT, now), LOWER_PORT, now);
    OnRest(r.wires[LOCAL_PORT]);
  }

  lemma OnRest(w: seq<Entry>)
    requires OnV(w)
    ensures OnV(Rest(w))
  {
  }

  /** The outputs after a flit has crossed in each direction. */
  function Exchanged(r: RouterState, q: nat): (outs: seq<Output>)
    requires Sized(r) && q < PORTS && r.ins[LOCAL_PORT].vcs[V].ibuf != [] && r.ins[q].vcs[V].ibuf != []
    ensures |outs| == PORTS
  {
    var a := Crossed(r, LOCAL_PORT, q, r.ins[LOCAL_PORT].vcs[V].ibuf[0]);
    CountAck(Push(a, LOCAL_PORT, Entry(r.ins[q].vcs[V].ibuf[0], V)), q, V)
  }

  /** Router 1: a packet in each direction between the local port and the upper one. */
  lemma BothMove(cfg: Config, r: RouterState, ph: Phase, now: nat)
    requires Sized(r) && TrackIn(r, UPPER_PORT, true, ph) && now > 0 && Fitting(r, UPPER_PORT, true, ph)
    ensures var r' := InputsDone(cfg, r, now);
            var have := r.ins[LOCAL_PORT].vcs[V].ibuf != [];
            && TrackIn(r', UPPER_PORT, true, NextPhase(ph, have)) && Drawn(r, r', LOCAL_PORT, ph) && Drawn(r, r', UPPER_PORT, ph)
            && r'.out == r.out && r'.closing == r.closing && r'.id == r.id
            && r'.outs == if Pops(r, LOCAL_PORT, ph) then Exchanged(r, UPPER_PORT) else r.outs
  {
    hide SizedOut, InPhase, Fits, InputStep, OnV, Push, CountAck;
    var x := InputStep(cfg, r, LOCAL_PORT, now);
    PortStep(cfg, r, LOCAL_PORT, UPPER_PORT, ph, now);
    ReadyKept(r, x, LOCAL_PORT, UPPER_PORT, ph);
    PortStep(cfg, x, UPPER_PORT, LOCAL_PORT, ph, now);
    IdleStep(cfg, InputStep(cfg, x, UPPER_PORT, now), LOWER_PORT, now);
    OnRest(r.wires[LOCAL_PORT]);
    OnRest(r.wires[UPPER_PORT]);
  }

  lemma ReadyKept(r: RouterState, r': RouterState, p: nat, q: nat, ph: Phase)
    requires Sized(r) && Sized(r') && p < PORTS && q < PORTS && Stepped(r, r', p, q, ph)
    ensures forall u: nat :: u < PORTS ==> r'.outs[u].ready == r.outs[u].ready
  {
    hide SizedOut, InPhase;
  }

  // ---- one cycle ----

  predicate AllPrimed(outs: seq<Output>) { forall k :: 0 <= k < |outs| ==> Primed(outs[k]) }

  /** The outputs while the inputs are stepped: all have sent. */
  predicate HaveSent(outs: seq<Output>, sent: seq<Output>) {
    && |outs| == PORTS && |sent| == PORTS
    && forall u: nat :: u < PORTS ==>
         && sent[u].obuf == [] && sent[u].iackbuf == [] && sent[u].ackCount == outs[u].ackCount
         && sent[u].ackEnabled == outs[u].ackEnabled
  }

  lemma OutputsTrack(cfg: Config, r: RouterState, q: nat, both: bool, ph: Phase, now: nat)
    requires Sized(r) && Track(r, q, both, ph) && AllPrimed(r.outs)
    ensures var o := OutputsOnly(cfg, r, now);
            && TrackIn(o, q, both, ph) && o.ins == r.ins && o.wires == r.wires && o.closing == r.closing && o.id == r.id
            && HaveSent(r.outs, o.outs) && forall u: nat :: u < PORTS ==> o.out[u] == r.outs[u].obuf
  {
    hide SizedOut, SizedVcs, InPhase, OnV, OutputsOnly, Primed, NoCounts;
    OutputsSend(cfg, r, now);
  }

  /** A router after a cycle, its flits delivered. */
  function Next(cfg: Config, r: RouterState, now: nat): (c: RouterState)
    requires Sized(r)
    ensures Sized(c)
  {
    Cleared(RouterStep(cfg, r, now))
  }

  predicate Holds(r: RouterState, p: nat)
    requires Sized(r) && p < PORTS
  {
    r.ins[p].vcs[V].ibuf != []
  }

  /** One more acknowledgement is due, and a flit waits; or neither. */
  predicate Counted(r: RouterState, c: RouterState, pops: bool)
    requires Sized(r) && Sized(c)
  {
    var before, after := r.outs[UPPER_PORT], c.outs[UPPER_PORT];
    && |after.obuf| == (if pops then 1 else 0)
    && after.ackCount == if pops then before.ackCount[V := before.ackCount[V] + 1] else before.ackCount
  }

  lemma AfterCrossbar(cfg: Config, r: RouterState, i: RouterState, now: nat)
    requires Sized(r) && Sized(i) && i == InputsDone(cfg, OutputsOnly(cfg, r, now), now)
    requires forall u: nat :: u < PORTS ==> !i.closing[u]
    ensures var c := Next(cfg, r, now);
            && c == i.(closing := [false, false, false], out := [[], [], []])
            && RouterStep(cfg, r, now).out == i.out
  {
    hide InputStep, OutputPhase, SizedOut, SizedVcs;
    var k := CrossbarStep(i);
    assert k == RouterStep(cfg, r, now);
    assert k.lock == i.lock && k.closing == [false, false, false];
  }

  /** The outputs of router 0 after its inputs, which passed on f if there is one. */
  lemma OneOutputs(r: RouterState, o: RouterState, ph: Phase, next: Phase, pops: bool, f: Flit)
    requires pops ==> next == Flowing
    requires Sized(r) && Sized(o) && Outputs(r.outs, LOWER_PORT, false, ph) && HaveSent(r.outs, o.outs)
    ensures var outs := if pops then Crossed(o, LOCAL_PORT, LOWER_PORT, f) else o.outs;
            && Outputs(outs, LOWER_PORT, false, next) && AllPrimed(outs)
            && outs[LOWER_PORT].obuf == if pops then [Entry(f, V)] else []
  {
    hide SizedVcs;
    CrossedIs(o, LOCAL_PORT, LOWER_PORT, f);
  }

  lemma OnTrack(r: RouterState, i: RouterState, q: nat, both: bool, ph: Phase)
    requires Sized(r) && Sized(i) && TrackIn(i, q, both, ph) && Outputs(i.outs, q, both, ph)
    requires Sized(i.(closing := [false, false, false], out := [[], [], []]))
    ensures Track(i.(closing := [false, false, false], out := [[], [], []]), q, both, ph)
  {
    hide SizedVcs, SizedOut, InPhase, OnV, NoCounts;
  }

  /** Router 0 sends what waits in its lower output and draws the next flit. */
  lemma OneCycle(cfg: Config, r: RouterState, ph: Phase, now: nat)
    requires Sized(r) && Track(r, LOWER_PORT, false, ph) && AllPrimed(r.outs) && now > 0 && Fitting(r, LOWER_PORT, false, ph)
    ensures var c := Next(cfg, r, now);
            && c.id == r.id && Track(c, LOWER_PORT, false, NextPhase(ph, Holds(r, LOCAL_PORT))) && AllPrimed(c.outs)
            && Drawn(r, c, LOCAL_PORT, ph)
            && c.outs[LOWER_PORT].obuf == (if Pops(r, LOCAL_PORT, ph) then [Entry(r.ins[LOCAL_PORT].vcs[V].ibuf[0], V)] else [])
            && (forall u: nat :: u < PORTS ==> RouterStep(cfg, r, now).out[u] == r.outs[u].obuf)
  {
    hide SizedOut, InPhase, Fits, OnV, OutputsOnly, InputsDone, RouterStep, TrackIn, Outputs, AllPrimed, HaveSent, Crossed;
    var o := OutputsOnly(cfg, r, now);
    var i := InputsDone(cfg, o, now);
    OutputsTrack(cfg, r, LOWER_PORT, false, ph, now);
    OneMoves(cfg, o, ph, now);
    AfterCrossbar(cfg, r, i, now);
    var s := r.ins[LOCAL_PORT].vcs[V].ibuf;
    OneOutputs(r, o, ph, NextPhase(ph, s != []), Pops(r, LOCAL_PORT, ph), if s != [] then s[0] else Flit(FIdle, 0));
    OnTrack(r, i, LOWER_PORT, false, NextPhase(ph, s != []));
  }

  lemma BothOutputs(r: RouterState, o: RouterState, ph: Phase, next: Phase, pops: bool)
    requires Sized(r) && Sized(o) && Outputs(r.outs, UPPER_PORT, true, ph) && HaveSent(r.outs, o.outs)
    requires pops ==> next == Flowing && o.ins[LOCAL_PORT].vcs[V].ibuf != [] && o.ins[UPPER_PORT].vcs[V].ibuf != []
    ensures var outs := if pops then Exchanged(o, UPPER_PORT) else o.outs;
            && Outputs(outs, UPPER_PORT, true, next) && (pops || NoCounts(r.outs[UPPER_PORT]) ==> AllPrimed(outs))
            && (|outs[UPPER_PORT].obuf| == if pops then 1 else 0)
            && outs[UPPER_PORT].ackCount ==
                 if pops then r.outs[UPPER_PORT].ackCount[V := r.outs[UPPER_PORT].ackCount[V] + 1] else r.outs[UPPER_PORT].ackCount
  {
    hide SizedVcs;
  }

  /** Router 1 sends what waits in its upper output, and draws a flit in each direction. */
  lemma BothCycle(cfg: Config, r: RouterState, ph: Phase, now: nat)
    requires Sized(r) && Track(r, UPPER_PORT, true, ph) && AllPrimed(r.outs) && now > 0 && Fitting(r, UPPER_PORT, true, ph)
    ensures var c := Next(cfg, r, now);
            var pops := Pops(r, LOCAL_PORT, ph);
            && c.id == r.id && Track(c, UPPER_PORT, true, NextPhase(ph, Holds(r, LOCAL_PORT)))
            && (pops || NoCounts(r.outs[UPPER_PORT]) ==> AllPrimed(c.outs))
            && Drawn(r, c, LOCAL_PORT, ph) && Drawn(r, c, UPPER_PORT, ph) && Counted(r, c, pops)
  {
    hide SizedOut, InPhase, Fits, OnV, OutputsOnly, InputsDone, RouterStep, TrackIn, Outputs, AllPrimed, HaveSent, Exchanged;
    var o := OutputsOnly(cfg, r, now);
    var i := InputsDone(cfg, o, now);
    OutputsTrack(cfg, r, UPPER_PORT, true, ph, now);
    BothMove(cfg, o, ph, now);
    AfterCrossbar(cfg, r, i, now);
    var s := r.ins[LOCAL_PORT].vcs[V].ibuf;
    BothOutputs(r, o, ph, NextPhase(ph, s != []), Pops(r, LOCAL_PORT, ph));
    OnTrack(r, i, UPPER_PORT, true, NextPhase(ph, s != []));
  }

  // ---- the same, in terms of what is still to cross ----

  function Left(r: RouterState, p: nat, ph: Phase): seq<Flit>
    requires Sized(r) && p < PORTS
  {
    if Pops(r, p, ph) then Todo(r, p)[1..] else Todo(r, p)
  }

  predicate Supplied(r: RouterState, p: nat)
    requires Sized(r) && p < PORTS
  {
    Eager(r, p) || r.wires[p] != []
  }

  lemma OneNext(cfg: Config, r: RouterState, ph: Phase, now: nat)
    requires Sized(r) && Track(r, LOWER_PORT, false, ph) && AllPrimed(r.outs) && now > 0 && Fitting(r, LOWER_PORT, false, ph)
    ensures var c := Next(cfg, r, now);
            && c.id == r.id && Track(c, LOWER_PORT, false, NextPhase(ph, Holds(r, LOCAL_PORT))) && AllPrimed(c.outs)
            && Todo(c, LOCAL_PORT) == Left(r, LOCAL_PORT, ph) && (Supplied(r, LOCAL_PORT) ==> Eager(c, LOCAL_PORT))
            && c.outs[LOWER_PORT].obuf == (if Pops(r, LOCAL_PORT, ph) then [Entry(Todo(r, LOCAL_PORT)[0], V)] else [])
            && (forall u: nat :: u < PORTS ==> RouterStep(cfg, r, now).out[u] == r.outs[u].obuf)
  {
    hide SizedOut, OnV, RouterStep, Track, AllPrimed, Fitting, Drawn;
    OneCycle(cfg, r, ph, now);
    TodoDrawn(r, Next(cfg, r, now), LOCAL_PORT, ph);
  }

  /** Both directions are equally far. */
  predicate Paired(r: RouterState)
    requires Sized(r)
  {
    && |r.wires[LOCAL_PORT]| == |r.wires[UPPER_PORT]|
    && |r.ins[LOCAL_PORT].vcs[V].ibuf| == |r.ins[UPPER_PORT].vcs[V].ibuf|
  }

  lemma BothNext(cfg: Config, r: RouterState, ph: Phase, now: nat)
    requires Sized(r) && Track(r, UPPER_PORT, true, ph) && AllPrimed(r.outs) && now > 0 && Fitting(r, UPPER_PORT, true, ph)
    ensures var c := Next(cfg, r, now);
            var pops := Pops(r, LOCAL_PORT, ph);
            && c.id == r.id && Track(c, UPPER_PORT, true, NextPhase(ph, Holds(r, LOCAL_PORT)))
            && (pops || NoCounts(r.outs[UPPER_PORT]) ==> AllPrimed(c.outs))
            && Todo(c, LOCAL_PORT) == Left(r, LOCAL_PORT, ph) && (Supplied(r, LOCAL_PORT) ==> Eager(c, LOCAL_PORT))
            && Todo(c, UPPER_PORT) == Left(r, UPPER_PORT, ph)
  {
    hide SizedOut, OnV, RouterStep, Track, AllPrimed, Fitting, NoCounts, Drawn, Todo;
    BothCycle(cfg, r, ph, now);
    var c := Next(cfg, r, now);
    TodoDrawn(r, c, LOCAL_PORT, ph);
    TodoDrawn(r, c, UPPER_PORT, ph);
  }

  lemma BothPaired(cfg: Config, r: RouterState, ph: Phase, now: nat)
    requires Sized(r) && Track(r, UPPER_PORT, true, ph) && AllPrimed(r.outs) && now > 0 && Fitting(r, UPPER_PORT, true, ph)
    requires Paired(r)
    ensures Paired(Next(cfg, r, now))
  {
    hide SizedOut, OnV, RouterStep, Track, AllPrimed, Fitting, NoCounts, NextPhase;
    BothCycle(cfg, r, ph, now);
  }

  lemma BothCount(cfg: Config, r: RouterState, ph: Phase, now: nat)
    requires Sized(r) && Track(r, UPPER_PORT, true, ph) && AllPrimed(r.outs) && now > 0 && Fitting(r, UPPER_PORT, true, ph)
    ensures Counted(r, Next(cfg, r, now), Pops(r, LOCAL_PORT, ph))
    ensures Next(cfg, r, now).outs[UPPER_PORT].ackEnabled && |r.outs[UPPER_PORT].ackCount| == VCH_SIZE
  {
    hide SizedOut, OnV, RouterStep, Track, AllPrimed, Fitting, NoCounts, Drawn, NextPhase;
    BothCycle(cfg, r, ph, now);
    UpperEnabled(Next(cfg, r, now), NextPhase(ph, Holds(r, LOCAL_PORT)));
    UpperEnabled(r, ph);
  }

  lemma UpperEnabled(r: RouterState, ph: Phase)
    requires Sized(r) && Track(r, UPPER_PORT, true, ph)
    ensures r.outs[UPPER_PORT].ackEnabled && |r.outs[UPPER_PORT].ackCount| == VCH_SIZE
  {
    hide InPhase, OnV;
  }
}
