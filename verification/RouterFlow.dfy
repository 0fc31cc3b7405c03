/** What crosses a router: every channel in order, every packet whole, and never
    more than the receiver has room for. */
module RouterFlow {
  import opened Flits
  import opened Router
  import opened Packets
  import opened RouterWormhole

  // ---- flows ----

  /** Data flits that have arrived for channel i of input p and not yet crossed. */
  function Waiting(r: RouterState, p: nat, i: nat): seq<Flit>
    requires Sized(r) && p < PORTS && i < VCH_SIZE
  {
    DataOf(r.ins[p].vcs[i].ibuf) + WireOf(r.wires[p], i)
  }

  /** Everything that ever arrived for that channel, in order. */
  function Arrived(r: RouterState, p: nat, i: nat): seq<Flit>
    requires Sized(r) && p < PORTS && i < VCH_SIZE
  {
    LogFrom(r.log, p, i) + Waiting(r, p, i)
  }

  /** Data flits of channel v that crossed to output q and are not yet delivered. */
  function Leaving(r: RouterState, q: nat, v: nat): seq<Flit>
    requires Sized(r) && q < PORTS && v < VCH_SIZE
  {
    WireOf(r.out[q], v) + WireOf(r.outs[q].obuf, v)
  }

  /** Packets arrive whole, one after the other, in every channel. */
  predicate WellFed(cfg: Config, r: RouterState)
    requires Sized(r)
  {
    forall a: nat, j: nat :: a < PORTS && j < VCH_SIZE ==> Legal(cfg.packetMax, Arrived(r, a, j), 0)
  }

  /** What crossed from each channel is a sequence of packets, the last one as far as `taken` says. */
  predicate FromOk(cfg: Config, r: RouterState)
    requires Sized(r)
  {
    forall a: nat, j: nat :: a < PORTS && j < VCH_SIZE ==>
      Legal(cfg.packetMax, LogFrom(r.log, a, j), 0) && After(LogFrom(r.log, a, j), 0) == r.ins[a].vcs[j].taken
  }

  /** What crossed to output q on channel v is a sequence of packets, the last one
      as far as its sender has come. */
  predicate ToOk(cfg: Config, r: RouterState, q: nat, v: nat)
    requires Sized(r) && q < PORTS && v < VCH_SIZE
  {
    && Legal(cfg.packetMax, LogTo(r.log, q, v), 0)
    && (forall a: nat :: a < PORTS && SendingTo(r, a, v, q) ==> After(LogTo(r.log, q, v), 0) == r.ins[a].vcs[v].taken)
    && ((forall a: nat :: a < PORTS ==> !SendingTo(r, a, v, q)) ==> After(LogTo(r.log, q, v), 0) == 0)
  }

  predicate AllToOk(cfg: Config, r: RouterState)
    requires Sized(r)
  {
    forall q: nat, v: nat :: q < PORTS && v < VCH_SIZE ==> ToOk(cfg, r, q, v)
  }

  lemma {:induction false} AfterJoin(a: seq<Flit>, b: seq<Flit>, k: nat)
    ensures After(a + b, k) == After(b, After(a, k))
  {
    if a == [] {
      assert a + b == b;
    } else {
      assert (a + b)[1..] == a[1..] + b;
      AfterJoin(a[1..], b, if IsTail(a[0]) then 0 else k + 1);
    }
  }

  /** The next data flit of a channel continues its packet. */
  lemma NextFlit(cfg: Config, r: RouterState, p: nat, i: nat)
    requires Sized(r) && p < PORTS && i < VCH_SIZE && WellFed(cfg, r) && FromOk(cfg, r)
    requires r.ins[p].vcs[i].ibuf != [] && !IsAck(r.ins[p].vcs[i].ibuf[0])
    ensures var f := r.ins[p].vcs[i].ibuf[0];
            var k := r.ins[p].vcs[i].taken;
            && Legal(cfg.packetMax, [f], k) && After([f], k) == (if IsTail(f) then 0 else k + 1)
            && k < cfg.packetMax && (IsTail(f) || k + 1 < cfg.packetMax) && (k == 0 <==> IsHead(f))
  {
    hide Legal, After, LogFrom, WireOf;
    var ibuf := r.ins[p].vcs[i].ibuf;
    var rest := DataOf(ibuf[1..]) + WireOf(r.wires[p], i);
    assert Waiting(r, p, i) == [ibuf[0]] + rest;
    assert Legal(cfg.packetMax, Arrived(r, p, i), 0);
    LegalCut(cfg.packetMax, LogFrom(r.log, p, i), [ibuf[0]] + rest, 0);
    LegalOne(cfg.packetMax, ibuf[0], rest, r.ins[p].vcs[i].taken);
  }

  lemma Appended(packetMax: int, log: seq<Flit>, f: Flit, k: nat)
    requires Legal(packetMax, log, 0) && After(log, 0) == k && Legal(packetMax, [f], k)
    ensures Legal(packetMax, log + [f], 0) && After(log + [f], 0) == After([f], k)
  {
    LegalJoin(packetMax, log, [f], 0);
    AfterJoin(log, [f], 0);
  }

  // ---- traversal ----

  lemma TraverseLog(r: RouterState, p: nat, i: nat, now: nat, u: nat, v: nat)
    requires Sized(r) && p < PORTS && i < VCH_SIZE && r.ins[p].vcs[i].ibuf != []
    ensures var f := r.ins[p].vcs[i].ibuf[0];
            var q := r.ins[p].vcs[i].port;
            var log := Traverse(r, p, i, now).log;
            && LogFrom(log, u, v) == LogFrom(r.log, u, v) + (if u == p && v == i then [f] else [])
            && LogTo(log, u, v) == LogTo(r.log, u, v) + (if u == q && v == i then [f] else [])
  {
    hide LogFrom, LogTo;
    var e := Sent(p, i, r.ins[p].vcs[i].port, r.ins[p].vcs[i].ibuf[0]);
    LogMore(r.log, e, u, v);
    assert Traverse(r, p, i, now).log == r.log + [e];
  }

  /** Crossing changes no flow: the flit moves from waiting to crossed, in order. */
  lemma TraverseArrived(r: RouterState, p: nat, i: nat, now: nat, a: nat, j: nat)
    requires Sized(r) && p < PORTS && i < VCH_SIZE && r.ins[p].vcs[i].ibuf != [] && !IsAck(r.ins[p].vcs[i].ibuf[0])
    requires a < PORTS && j < VCH_SIZE
    ensures Arrived(Traverse(r, p, i, now), a, j) == Arrived(r, a, j)
  {
    hide LogFrom, LogTo, WireOf;
    TraverseLog(r, p, i, now, a, j);
  }

  lemma TraverseFrom(cfg: Config, r: RouterState, p: nat, i: nat, now: nat, a: nat, j: nat)
    requires Sized(r) && p < PORTS && i < VCH_SIZE && r.ins[p].vcs[i].ibuf != [] && !IsAck(r.ins[p].vcs[i].ibuf[0])
    requires a < PORTS && j < VCH_SIZE && WellFed(cfg, r) && FromOk(cfg, r)
    ensures var r' := Traverse(r, p, i, now);
            Legal(cfg.packetMax, LogFrom(r'.log, a, j), 0) && After(LogFrom(r'.log, a, j), 0) == r'.ins[a].vcs[j].taken
  {
    hide Legal, After, LogFrom, LogTo, WellFed;
    NextFlit(cfg, r, p, i);
    TraverseLog(r, p, i, now, a, j);
    assert LogFrom(r.log, a, j) + [] == LogFrom(r.log, a, j);
    if a == p && j == i {
      Appended(cfg.packetMax, LogFrom(r.log, p, i), r.ins[p].vcs[i].ibuf[0], r.ins[p].vcs[i].taken);
    }
  }

  lemma TraverseTo(cfg: Config, r: RouterState, p: nat, i: nat, now: nat, q: nat, v: nat)
    requires Sized(r) && p < PORTS && i < VCH_SIZE && r.ins[p].vcs[i].ibuf != [] && !IsAck(r.ins[p].vcs[i].ibuf[0])
    requires q < PORTS && v < VCH_SIZE && WellFed(cfg, r) && FromOk(cfg, r) && Locked(r, p, i) && Streaming(r, p, i)
    requires ToOk(cfg, r, q, v)
    ensures ToOk(cfg, Traverse(r, p, i, now), q, v)
  {
    hide Legal, After, LogFrom, LogTo, WellFed, FromOk, Locked;
    NextFlit(cfg, r, p, i);
    SenderFacts(r, p, i);
    TraverseLog(r, p, i, now, q, v);
    assert LogTo(r.log, q, v) + [] == LogTo(r.log, q, v);
    var r' := Traverse(r, p, i, now);
    if q == r.ins[p].vcs[i].port && v == i {
      assert SendingTo(r, p, v, q);
      Appended(cfg.packetMax, LogTo(r.log, q, v), r.ins[p].vcs[i].ibuf[0], r.ins[p].vcs[i].taken);
      assert SendingTo(r', p, v, q) <==> !IsTail(r.ins[p].vcs[i].ibuf[0]);
      forall a: nat | a < PORTS && a != p
        ensures !SendingTo(r', a, v, q)
      {
        assert !(Streaming(r, a, i) && r.ins[a].vcs[i].port == q);
      }
    } else {
      forall a: nat | a < PORTS
        ensures SendingTo(r', a, v, q) == SendingTo(r, a, v, q) && (SendingTo(r, a, v, q) ==> r'.ins[a].vcs[v].taken == r.ins[a].vcs[v].taken)
      {
      }
    }
  }

  /** The flit that crossed is the last one leaving. */
  lemma TraverseLeaving(r: RouterState, p: nat, i: nat, now: nat, q: nat, v: nat)
    requires Sized(r) && p < PORTS && i < VCH_SIZE && r.ins[p].vcs[i].ibuf != [] && !IsAck(r.ins[p].vcs[i].ibuf[0])
    requires q < PORTS && v < VCH_SIZE
    ensures Leaving(Traverse(r, p, i, now), q, v) ==
              Leaving(r, q, v) + (if q == r.ins[p].vcs[i].port && v == i then [r.ins[p].vcs[i].ibuf[0]] else [])
  {
    hide WireOf;
    var f := r.ins[p].vcs[i].ibuf[0];
    var to := r.ins[p].vcs[i].port;
    WireJoin(r.outs[to].obuf, [Entry(f, i)], v);
    WireOne(Entry(f, i), v);
  }

  // ---- everything else leaves the histories alone ----

  predicate FlowOk(cfg: Config, r: RouterState)
    requires Sized(r)
  {
    WellFed(cfg, r) && FromOk(cfg, r) && AllToOk(cfg, r)
  }

  /** The same flits in the same order, and the same senders. */
  predicate SameFlow(r: RouterState, r': RouterState)
    requires Sized(r) && Sized(r')
  {
    && r'.log == r.log
    && (forall a: nat, j: nat :: a < PORTS && j < VCH_SIZE ==>
          Waiting(r', a, j) == Waiting(r, a, j) && r'.ins[a].vcs[j].taken == r.ins[a].vcs[j].taken
          && (Streaming(r', a, j) <==> Streaming(r, a, j))
          && (Streaming(r, a, j) ==> r'.ins[a].vcs[j].port == r.ins[a].vcs[j].port))
  }

  lemma FlowKept(cfg: Config, r: RouterState, r': RouterState)
    requires Sized(r) && Sized(r') && FlowOk(cfg, r) && SameFlow(r, r')
    ensures FlowOk(cfg, r')
  {
    hide Legal, After, LogFrom, LogTo, Waiting;
    forall a: nat, j: nat | a < PORTS && j < VCH_SIZE
      ensures Legal(cfg.packetMax, Arrived(r', a, j), 0)
    {
      assert Arrived(r', a, j) == Arrived(r, a, j);
    }
    forall q: nat, v: nat | q < PORTS && v < VCH_SIZE
      ensures ToOk(cfg, r', q, v)
    {
      assert ToOk(cfg, r, q, v);
      assert forall a: nat :: a < PORTS ==> SendingTo(r', a, v, q) == SendingTo(r, a, v, q);
    }
  }

  lemma ForwardSame(r: RouterState, p: nat, i: nat)
    requires Sized(r) && p < PORTS && i < VCH_SIZE && r.ins[p].vcs[i].ibuf != [] && IsAck(r.ins[p].vcs[i].ibuf[0])
    ensures SameFlow(r, ForwardAck(r, p, i))
  {
    hide WireOf;
    var ibuf := r.ins[p].vcs[i].ibuf;
    assert DataOf(ibuf) == [] + DataOf(ibuf[1..]) == DataOf(ibuf[1..]);
  }

  /** An output reserved for p, or for nobody, has no sender when p's granted channel is not sending. */
  lemma NoOtherSender(r: RouterState, p: nat, i: nat, q: nat, v: nat)
    requires Sized(r) && p < PORTS && i < VCH_SIZE && q < PORTS && v < VCH_SIZE && Locked(r, p, i)
    requires !Streaming(r, p, i) && r.ins[p].granted == i && (r.lock[q] == p as int || r.lock[q] == NOBODY)
    ensures forall a: nat :: a < PORTS ==> !SendingTo(r, a, v, q)
  {
  }

  lemma AllocateFrame(r: RouterState, p: nat, i: nat)
    requires Sized(r) && p < PORTS && i < VCH_SIZE && Locked(r, p, i) && r.ins[p].vcs[i].state == VSA
    ensures var r' := Allocate(r, p, i);
            && r'.log == r.log && r'.wires == r.wires && r'.out == r.out && r'.outs == r.outs
            && (forall a: nat, j: nat :: a < PORTS && j < VCH_SIZE ==>
                  var vc, vc' := r.ins[a].vcs[j], r'.ins[a].vcs[j];
                  vc'.ibuf == vc.ibuf && vc'.taken == vc.taken && vc'.port == vc.port
                  && ((a, j) != (p, i) ==> vc'.state == vc.state))
            && (Streaming(r', p, i) ==>
                  var q := r.ins[p].vcs[i].port;
                  r.ins[p].granted == i && Admits(r, p, i, q) && (r.lock[q] == p as int || r.lock[q] == NOBODY))
  {
    hide Locked, Admits;
  }

  /** A newly admitted channel starts a packet on an output between packets. */
  lemma AllocateTo(cfg: Config, r: RouterState, p: nat, i: nat, q: nat, v: nat)
    requires Sized(r) && p < PORTS && i < VCH_SIZE && Locked(r, p, i) && r.ins[p].vcs[i].state == VSA
    requires q < PORTS && v < VCH_SIZE && ToOk(cfg, r, q, v)
    ensures ToOk(cfg, Allocate(r, p, i), q, v)
  {
    hide Legal, After, LogFrom, LogTo, Allocate, Admits, Locked;
    AllocateFrame(r, p, i);
    LockedIdle(r, p, i);
    var r' := Allocate(r, p, i);
    if Streaming(r', p, i) && q == r.ins[p].vcs[i].port && v == i {
      assert SendingTo(r', p, i, q);
      NoOtherSender(r, p, i, q, v);
    } else {
      assert forall a: nat :: a < PORTS ==> SendingTo(r', a, v, q) == SendingTo(r, a, v, q);
    }
  }

  lemma AllocateFlow(cfg: Config, r: RouterState, p: nat, i: nat)
    requires Sized(r) && p < PORTS && i < VCH_SIZE && Locked(r, p, i) && r.ins[p].vcs[i].state == VSA && FlowOk(cfg, r)
    ensures FlowOk(cfg, Allocate(r, p, i))
    ensures forall a: nat, j: nat :: a < PORTS && j < VCH_SIZE ==> Arrived(Allocate(r, p, i), a, j) == Arrived(r, a, j)
  {
    hide Legal, After, LogFrom, LogTo, WireOf, DataOf, Allocate, Locked, ToOk;
    AllocateFrame(r, p, i);
    forall q: nat, v: nat | q < PORTS && v < VCH_SIZE
      ensures ToOk(cfg, Allocate(r, p, i), q, v)
    {
      AllocateTo(cfg, r, p, i, q, v);
    }
    assert forall a: nat, j: nat :: a < PORTS && j < VCH_SIZE ==> Arrived(Allocate(r, p, i), a, j) == Arrived(r, a, j);
  }

  // ---- one cycle of a router ----

  /** What a router keeps while it works: packets stay whole and in order, nothing
      is lost on the way from an input to an output. */
  ghost predicate Carries(r: RouterState, r': RouterState)
    requires Sized(r) && Sized(r')
  {
    && (forall a: nat, j: nat :: a < PORTS && j < VCH_SIZE ==> Arrived(r', a, j) == Arrived(r, a, j))
    && (forall q: nat, v: nat, base: seq<Flit> :: q < PORTS && v < VCH_SIZE && LogTo(r.log, q, v) == base + Leaving(r, q, v) ==>
          LogTo(r'.log, q, v) == base + Leaving(r', q, v))
  }

  lemma CarriesOn(r: RouterState, r1: RouterState, r2: RouterState)
    requires Sized(r) && Sized(r1) && Sized(r2) && Carries(r, r1) && Carries(r1, r2)
    ensures Carries(r, r2)
  {
    hide Arrived, Leaving, LogTo, Sized;
  }

  /** Nothing crossed and nothing left. */
  lemma QuietCarries(r: RouterState, r': RouterState)
    requires Sized(r) && Sized(r') && r'.log == r.log
    requires forall a: nat, j: nat :: a < PORTS && j < VCH_SIZE ==> Waiting(r', a, j) == Waiting(r, a, j)
    requires forall q: nat, v: nat :: q < PORTS && v < VCH_SIZE ==> Leaving(r', q, v) == Leaving(r, q, v)
    ensures Carries(r, r')
  {
    hide Waiting, Leaving, LogTo, LogFrom, Sized;
  }

  lemma TraverseCarries(r: RouterState, p: nat, i: nat, now: nat)
    requires Sized(r) && p < PORTS && i < VCH_SIZE && r.ins[p].vcs[i].ibuf != [] && !IsAck(r.ins[p].vcs[i].ibuf[0])
    ensures Carries(r, Traverse(r, p, i, now))
  {
    hide Waiting, Leaving, LogTo, LogFrom, Traverse, Arrived;
    var r' := Traverse(r, p, i, now);
    forall a: nat, j: nat | a < PORTS && j < VCH_SIZE
      ensures Arrived(r', a, j) == Arrived(r, a, j)
    {
      TraverseArrived(r, p, i, now, a, j);
    }
    forall q: nat, v: nat, base: seq<Flit> | q < PORTS && v < VCH_SIZE && LogTo(r.log, q, v) == base + Leaving(r, q, v)
      ensures LogTo(r'.log, q, v) == base + Leaving(r', q, v)
    {
      TraverseLog(r, p, i, now, q, v);
      TraverseLeaving(r, p, i, now, q, v);
    }
  }

  lemma TraverseFlow(cfg: Config, r: RouterState, p: nat, i: nat, now: nat)
    requires Sized(r) && p < PORTS && i < VCH_SIZE && r.ins[p].vcs[i].ibuf != [] && !IsAck(r.ins[p].vcs[i].ibuf[0])
    requires Locked(r, p, i) && Streaming(r, p, i) && FlowOk(cfg, r)
    ensures FlowOk(cfg, Traverse(r, p, i, now))
  {
    hide Legal, After, LogFrom, LogTo, Traverse, Locked, ToOk, Arrived;
    var r' := Traverse(r, p, i, now);
    forall a: nat, j: nat | a < PORTS && j < VCH_SIZE
      ensures Legal(cfg.packetMax, Arrived(r', a, j), 0)
      ensures Legal(cfg.packetMax, LogFrom(r'.log, a, j), 0) && After(LogFrom(r'.log, a, j), 0) == r'.ins[a].vcs[j].taken
    {
      TraverseArrived(r, p, i, now, a, j);
      TraverseFrom(cfg, r, p, i, now, a, j);
    }
    forall q: nat, v: nat | q < PORTS && v < VCH_SIZE
      ensures ToOk(cfg, r', q, v)
    {
      TraverseTo(cfg, r, p, i, now, q, v);
    }
  }

  lemma ForwardLeaving(r: RouterState, p: nat, i: nat)
    requires Sized(r) && p < PORTS && i < VCH_SIZE && r.ins[p].vcs[i].ibuf != []
    ensures var r' := ForwardAck(r, p, i);
            r'.log == r.log && forall q: nat, v: nat :: q < PORTS && v < VCH_SIZE ==> Leaving(r', q, v) == Leaving(r, q, v)
  {
    hide WireOf;
  }

  lemma VcStepFlow(cfg: Config, r: RouterState, p: nat, i: nat, hold: bool, now: nat)
    requires Sized(r) && p < PORTS && i < VCH_SIZE && Locked(r, p, i) && FlowOk(cfg, r)
    ensures FlowOk(cfg, VcStep(r, p, i, hold, now).0) && Carries(r, VcStep(r, p, i, hold, now).0)
  {
    hide SizedOut, Locked, ForwardAck, Traverse, Allocate, RouteTo, HeadDst, IsAck, IsHead, FlowOk, Waiting, Carries, Leaving;
    var vc := r.ins[p].vcs[i];
    var r' := VcStep(r, p, i, hold, now).0;
    if vc.ibuf == [] {
      QuietCarries(r, r);
    } else if IsAck(vc.ibuf[0]) {
      ForwardSame(r, p, i);
      FlowKept(cfg, r, r');
      ForwardLeaving(r, p, i);
      QuietCarries(r, r');
    } else if vc.state == ST {
      TraverseFlow(cfg, r, p, i, now);
      TraverseCarries(r, p, i, now);
    } else if vc.state == VSA && (r.ins[p].granted == i || hold) {
      AllocateFlow(cfg, r, p, i);
      AllocateCarries(r, p, i);
    } else {
      VcStepSet(r, p, i, hold, now);
      FlowKept(cfg, r, r');
      QuietCarries(r, r');
    }
  }

  lemma AllocateCarries(r: RouterState, p: nat, i: nat)
    requires Sized(r) && p < PORTS && i < VCH_SIZE && Locked(r, p, i) && r.ins[p].vcs[i].state == VSA
    ensures Carries(r, Allocate(r, p, i))
  {
    hide Allocate, Locked, Carries, WireOf, DataOf;
    AllocateFrame(r, p, i);
    QuietCarries(r, Allocate(r, p, i));
  }

  lemma VcStepSet(r: RouterState, p: nat, i: nat, hold: bool, now: nat)
    requires Sized(r) && p < PORTS && i < VCH_SIZE && r.ins[p].vcs[i].ibuf != [] && !IsAck(r.ins[p].vcs[i].ibuf[0])
    requires var vc := r.ins[p].vcs[i];
             vc.state == RC || (vc.state == VSA && r.ins[p].granted != i && !hold)
    ensures var r' := VcStep(r, p, i, hold, now).0;
            && SameFlow(r, r')
            && forall q: nat, v: nat :: q < PORTS && v < VCH_SIZE ==> Leaving(r', q, v) == Leaving(r, q, v)
  {
    hide WireOf, DataOf, HeadDst;
  }

  lemma {:induction false} LoopFlow(cfg: Config, r: RouterState, p: nat, i: nat, hold: bool, now: nat)
    requires Sized(r) && p < PORTS && i <= VCH_SIZE && Locked(r, p, i) && FlowOk(cfg, r)
    ensures FlowOk(cfg, VcLoop(r, p, i, hold, now)) && Carries(r, VcLoop(r, p, i, hold, now))
    decreases VCH_SIZE - i
  {
    hide Sized, Locked, VcStep, FlowOk, Carries, Waiting, Leaving;
    QuietCarries(r, r);
    if i < VCH_SIZE {
      var r1 := VcStep(r, p, i, hold, now).0;
      VcStepFlow(cfg, r, p, i, hold, now);
      LockedVcStep(r, p, i, hold, now);
      LoopFlow(cfg, r1, p, i + 1, VcStep(r, p, i, hold, now).1, now);
      CarriesOn(r, r1, VcLoop(r, p, i, hold, now));
    }
  }

  lemma ReceiveSame(r: RouterState, p: nat)
    requires Sized(r) && p < PORTS
    ensures var r' := Receive(r, p);
            SameFlow(r, r') && forall q: nat, v: nat :: q < PORTS && v < VCH_SIZE ==> Leaving(r', q, v) == Leaving(r, q, v)
  {
    var r' := Receive(r, p);
    if r.wires[p] != [] {
      var e := r.wires[p][0];
      DataMore(r.ins[p].vcs[e.vch].ibuf, e.flit);
      forall a: nat, j: nat | a < PORTS && j < VCH_SIZE
        ensures Waiting(r', a, j) == Waiting(r, a, j)
      {
      }
    }
  }

  lemma ArbitrateSame(r: RouterState, p: nat, now: nat)
    requires Sized(r) && p < PORTS
    ensures var r' := Arbitrate(r, p, now);
            SameFlow(r, r') && forall q: nat, v: nat :: q < PORTS && v < VCH_SIZE ==> Leaving(r', q, v) == Leaving(r, q, v)
  {
    hide WireOf, DataOf, FirstPending;
  }

  lemma ReadySame(cfg: Config, r: RouterState)
    requires Sized(r)
    ensures var r' := LocalReady(cfg, r);
            && Sized(r') && SameFlow(r, r')
            && forall q: nat, v: nat :: q < PORTS && v < VCH_SIZE ==> Leaving(r', q, v) == Leaving(r, q, v)
  {
    hide WireOf, DataOf;
  }

  lemma CrossbarSame(r: RouterState)
    requires Sized(r)
    ensures var r' := CrossbarStep(r);
            SameFlow(r, r') && forall q: nat, v: nat :: q < PORTS && v < VCH_SIZE ==> Leaving(r', q, v) == Leaving(r, q, v)
  {
    hide WireOf, DataOf;
  }

  /** An output channel moves flits to the link in order; acknowledgements are not data. */
  lemma OutputSame(cfg: Config, r: RouterState, q: nat, now: nat)
    requires Sized(r) && q < PORTS
    ensures var r' := OutputPhase(cfg, r, q, now);
            SameFlow(r, r') && forall u: nat, v: nat :: u < PORTS && v < VCH_SIZE ==> Leaving(r', u, v) == Leaving(r, u, v)
  {
    hide WireOf, DataOf, OutputStep;
    var (o, flits) := OutputStep(cfg, r.outs[q], now % 2 != 0);
    forall v: nat | v < VCH_SIZE
      ensures WireOf(r.out[q] + flits, v) + WireOf(o.obuf, v) == WireOf(r.out[q], v) + WireOf(r.outs[q].obuf, v)
    {
      OutputMoves(cfg, r.outs[q], now % 2 != 0, v);
      WireJoin(r.out[q], flits, v);
    }
  }

  lemma OutputMoves(cfg: Config, o: Output, upper: bool, v: nat)
    requires SizedOut(o) && v < VCH_SIZE
    ensures var (o', flits) := OutputStep(cfg, o, upper);
            WireOf(flits, v) + WireOf(o'.obuf, v) == WireOf(o.obuf, v)
  {
    hide DecodeAck, AnyAck, AfterAck;
    if o.obuf != [] {
      WireOne(o.obuf[0], v);
      assert o.obuf == [o.obuf[0]] + o.obuf[1..];
    } else if o.ackEnabled && AnyAck(o.ackCount, upper) {
      WireOne(Entry(MakeAck(if upper then FAck2 else FAck1, Half(o.ackCount, upper)), ACK_VCH), v);
    }
  }

  lemma QuietFlow(cfg: Config, r: RouterState, r': RouterState)
    requires Sized(r) && Sized(r') && FlowOk(cfg, r) && SameFlow(r, r')
    requires forall q: nat, v: nat :: q < PORTS && v < VCH_SIZE ==> Leaving(r', q, v) == Leaving(r, q, v)
    ensures FlowOk(cfg, r') && Carries(r, r')
  {
    hide FlowOk, Carries, Waiting, Leaving, Sized;
    FlowKept(cfg, r, r');
    QuietCarries(r, r');
  }

  lemma InputFlow(cfg: Config, r: RouterState, p: nat, now: nat)
    requires Sized(r) && p < PORTS && Locked(r, p, 0) && FlowOk(cfg, r)
    ensures FlowOk(cfg, InputStep(cfg, r, p, now)) && Carries(r, InputStep(cfg, r, p, now))
  {
    hide Sized, Locked, VcLoop, Receive, LocalReady, Arbitrate, FlowOk, Carries, SameFlow, Leaving;
    var a := VcLoop(r, p, 0, false, now);
    var b := Receive(a, p);
    LoopFlow(cfg, r, p, 0, false, now);
    ReceiveSame(a, p);
    QuietFlow(cfg, a, b);
    ReadySame(cfg, b);
    QuietFlow(cfg, b, LocalReady(cfg, b));
    var c := if p == LOCAL_PORT then LocalReady(cfg, b) else b;
    ArbitrateSame(c, p, now);
    QuietFlow(cfg, c, Arbitrate(c, p, now));
    CarriesOn(r, a, b);
    CarriesOn(r, b, LocalReady(cfg, b));
    CarriesOn(r, c, Arbitrate(c, p, now));
  }

  lemma OutputsFlow(cfg: Config, r: RouterState, now: nat)
    requires Sized(r) && FlowOk(cfg, r)
    ensures FlowOk(cfg, OutputsDone(cfg, r, now)) && Carries(r, OutputsDone(cfg, r, now))
  {
    hide Sized, FlowOk, Carries, SameFlow, Leaving, OutputPhase;
    var a := OutputPhase(cfg, r, LOCAL_PORT, now);
    var b := OutputPhase(cfg, a, UPPER_PORT, now);
    OutputSame(cfg, r, LOCAL_PORT, now);
    QuietFlow(cfg, r, a);
    OutputSame(cfg, a, UPPER_PORT, now);
    QuietFlow(cfg, a, b);
    OutputSame(cfg, b, LOWER_PORT, now);
    QuietFlow(cfg, b, OutputsDone(cfg, r, now));
    CarriesOn(r, a, b);
    CarriesOn(r, b, OutputsDone(cfg, r, now));
  }

  /** In one cycle, a router fed with whole packets passes flits on in order,
      packet by packet on every output channel, losing and inventing nothing. */
  lemma StepFlow(cfg: Config, r: RouterState, now: nat)
    requires Sized(r) && AtRest(r) && FlowOk(cfg, r)
    ensures FlowOk(cfg, RouterStep(cfg, r, now)) && Carries(r, RouterStep(cfg, r, now))
  {
    hide Sized, AtRest, Locked, OutputPhase, InputStep, CrossbarStep, FlowOk, Carries, SameFlow, Leaving;
    var o := OutputsDone(cfg, r, now);
    var x := InputStep(cfg, o, LOCAL_PORT, now);
    var y := InputStep(cfg, x, UPPER_PORT, now);
    var z := InputStep(cfg, y, LOWER_PORT, now);
    LockedStart(cfg, r, now);
    OutputsFlow(cfg, r, now);
    LockedInput(cfg, o, LOCAL_PORT, now, UPPER_PORT);
    InputFlow(cfg, o, LOCAL_PORT, now);
    LockedInput(cfg, x, UPPER_PORT, now, LOWER_PORT);
    InputFlow(cfg, x, UPPER_PORT, now);
    InputFlow(cfg, y, LOWER_PORT, now);
    CrossbarSame(z);
    QuietFlow(cfg, z, CrossbarStep(z));
    CarriesOn(r, o, x);
    CarriesOn(r, x, y);
    CarriesOn(r, y, z);
    CarriesOn(r, z, CrossbarStep(z));
  }
}
