/** Routing on the chain: every packet head crosses towards its destination. */
module RouterRoute {
  import opened Flits
  import opened Router
  import opened Packets
  import opened RouterWormhole
  import opened RouterFlow
  import opened RouterTidy

  function DstOf(f: Flit): nat { HeadDst(f) as int }

  /** A channel that is about to send a packet has routed the head at its front. */
  predicate PortOk(id: nat, vc: Vc) {
    vc.state == VSA || (vc.state == ST && vc.taken == 0) ==>
      vc.ibuf != [] && IsHead(vc.ibuf[0]) && vc.port == RouteTo(id, DstOf(vc.ibuf[0]))
  }

  predicate Routed(r: RouterState)
    requires Sized(r)
  {
    && (forall a: nat, j: nat :: a < PORTS && j < VCH_SIZE ==> PortOk(r.id, r.ins[a].vcs[j]))
    && (forall k :: 0 <= k < |r.log| && IsHead(r.log[k].flit) ==> r.log[k].to == RouteTo(r.id, DstOf(r.log[k].flit)))
  }

  /** Heads start packets: a channel between packets has a head to send, and a
      channel within a packet has none. */
  predicate HeadsStart(r: RouterState, p: nat, i: nat)
    requires Sized(r) && p < PORTS && i < VCH_SIZE
  {
    var vc := r.ins[p].vcs[i];
    vc.ibuf != [] && !IsAck(vc.ibuf[0]) ==> (vc.taken == 0 <==> IsHead(vc.ibuf[0]))
  }

  lemma RoutedForward(r: RouterState, p: nat, i: nat)
    requires Sized(r) && p < PORTS && i < VCH_SIZE && Routed(r) && r.ins[p].vcs[i].ibuf != [] && IsAck(r.ins[p].vcs[i].ibuf[0])
    ensures Routed(ForwardAck(r, p, i)) && ForwardAck(r, p, i).id == r.id
  {
    hide RouteTo, HeadDst;
    assert PortOk(r.id, r.ins[p].vcs[i]);
  }

  lemma RoutedTraverse(r: RouterState, p: nat, i: nat, now: nat)
    requires Sized(r) && p < PORTS && i < VCH_SIZE && Routed(r) && r.ins[p].vcs[i].ibuf != [] && !IsAck(r.ins[p].vcs[i].ibuf[0])
    requires r.ins[p].vcs[i].state == ST && HeadsStart(r, p, i)
    ensures Routed(Traverse(r, p, i, now)) && Traverse(r, p, i, now).id == r.id
  {
    hide RouteTo, HeadDst, IsTail, IsHead;
    assert PortOk(r.id, r.ins[p].vcs[i]);
  }

  lemma RoutedAllocate(r: RouterState, p: nat, i: nat)
    requires Sized(r) && p < PORTS && i < VCH_SIZE && Routed(r) && r.ins[p].vcs[i].state == VSA
    ensures Routed(Allocate(r, p, i)) && Allocate(r, p, i).id == r.id
  {
    hide RouteTo, HeadDst, IsHead, Admits;
    assert PortOk(r.id, r.ins[p].vcs[i]);
  }

  lemma RoutedSet(r: RouterState, p: nat, i: nat, vc: Vc)
    requires Sized(r) && p < PORTS && i < VCH_SIZE && Routed(r) && vc.port < PORTS && PortOk(r.id, vc)
    ensures Routed(SetVc(r, p, i, vc)) && SetVc(r, p, i, vc).id == r.id
  {
    hide RouteTo, HeadDst, IsHead, PortOk;
  }

  lemma RoutedVcStep(r: RouterState, p: nat, i: nat, hold: bool, now: nat)
    requires Sized(r) && p < PORTS && i < VCH_SIZE && Routed(r)
    requires r.ins[p].vcs[i].state == ST ==> HeadsStart(r, p, i)
    ensures Routed(VcStep(r, p, i, hold, now).0) && VcStep(r, p, i, hold, now).0.id == r.id
  {
    hide RouteTo, HeadDst, SizedOut, ForwardAck, Traverse, Allocate, SetVc, Routed, HeadsStart, IsAck;
    var vc := r.ins[p].vcs[i];
    RoutedPort(r, p, i);
    if vc.ibuf != [] {
      if IsAck(vc.ibuf[0]) {
        RoutedForward(r, p, i);
      } else if vc.state == ST {
        RoutedTraverse(r, p, i, now);
      } else if vc.state == VSA && (r.ins[p].granted == i || hold) {
        RoutedAllocate(r, p, i);
      } else if vc.state == VSA {
        RoutedSet(r, p, i, vc.(pending := true));
      } else if IsHead(vc.ibuf[0]) {
        RouteInRange(r.id, HeadDst(vc.ibuf[0]) as int);
        RoutedSet(r, p, i, vc.(state := VSA, port := RouteTo(r.id, HeadDst(vc.ibuf[0]) as int)));
      }
    }
  }

  lemma RoutedPort(r: RouterState, p: nat, i: nat)
    requires Sized(r) && p < PORTS && i < VCH_SIZE && Routed(r)
    ensures PortOk(r.id, r.ins[p].vcs[i])
  {
    hide PortOk;
  }

  lemma RoutedReceive(r: RouterState, p: nat)
    requires Sized(r) && p < PORTS && Routed(r)
    ensures Routed(Receive(r, p)) && Receive(r, p).id == r.id
  {
    hide RouteTo, HeadDst;
    if r.wires[p] != [] {
      assert PortOk(r.id, r.ins[p].vcs[r.wires[p][0].vch]);
    }
  }

  lemma RoutedOthers(cfg: Config, r: RouterState, p: nat, now: nat)
    requires Sized(r) && p < PORTS && Routed(r)
    ensures Sized(LocalReady(cfg, r)) && Routed(LocalReady(cfg, r)) && LocalReady(cfg, r).id == r.id
    ensures Routed(Arbitrate(r, p, now)) && Arbitrate(r, p, now).id == r.id
    ensures Routed(CrossbarStep(r)) && CrossbarStep(r).id == r.id
    ensures Routed(OutputPhase(cfg, r, p, now)) && OutputPhase(cfg, r, p, now).id == r.id
  {
    hide RouteTo, HeadDst, FirstPending, OutputStep;
    assert forall a: nat, j: nat :: a < PORTS && j < VCH_SIZE ==> PortOk(r.id, r.ins[a].vcs[j]);
  }

  lemma FlowHeads(cfg: Config, r: RouterState, p: nat, i: nat)
    requires Sized(r) && FlowOk(cfg, r) && p < PORTS && i < VCH_SIZE
    ensures HeadsStart(r, p, i)
  {
    hide FlowOk;
    FlowParts(cfg, r);
    var ibuf := r.ins[p].vcs[i].ibuf;
    if ibuf != [] && !IsAck(ibuf[0]) { NextFlit(cfg, r, p, i); }
  }

  lemma {:induction false} RoutedLoop(cfg: Config, r: RouterState, p: nat, i: nat, hold: bool, now: nat)
    requires Sized(r) && p < PORTS && i <= VCH_SIZE && Locked(r, p, i) && FlowOk(cfg, r) && Routed(r)
    ensures Routed(VcLoop(r, p, i, hold, now)) && VcLoop(r, p, i, hold, now).id == r.id
    decreases VCH_SIZE - i
  {
    hide SizedOut, Locked, VcStep, FlowOk, Routed, Carries, HeadsStart;
    if i < VCH_SIZE {
      FlowHeads(cfg, r, p, i);
      RoutedVcStep(r, p, i, hold, now);
      VcStepFlow(cfg, r, p, i, hold, now);
      LockedVcStep(r, p, i, hold, now);
      RoutedLoop(cfg, VcStep(r, p, i, hold, now).0, p, i + 1, VcStep(r, p, i, hold, now).1, now);
    }
  }

  lemma RoutedInput(cfg: Config, r: RouterState, p: nat, now: nat)
    requires Sized(r) && p < PORTS && Locked(r, p, 0) && FlowOk(cfg, r) && Routed(r)
    ensures Routed(InputStep(cfg, r, p, now)) && InputStep(cfg, r, p, now).id == r.id
  {
    hide Sized, Locked, VcLoop, Receive, LocalReady, Arbitrate, FlowOk, Routed;
    var a := VcLoop(r, p, 0, false, now);
    var b := Receive(a, p);
    RoutedLoop(cfg, r, p, 0, false, now);
    RoutedReceive(a, p);
    RoutedOthers(cfg, b, p, now);
    var c := if p == LOCAL_PORT then LocalReady(cfg, b) else b;
    RoutedOthers(cfg, c, p, now);
  }

  lemma RoutedStep(cfg: Config, r: RouterState, now: nat)
    requires Sized(r) && AtRest(r) && FlowOk(cfg, r) && Routed(r)
    ensures Routed(RouterStep(cfg, r, now)) && RouterStep(cfg, r, now).id == r.id
  {
    hide Sized, AtRest, Locked, OutputPhase, InputStep, CrossbarStep, FlowOk, Carries, Routed;
    var u := OutputPhase(cfg, r, LOCAL_PORT, now);
    var w := OutputPhase(cfg, u, UPPER_PORT, now);
    var o := OutputsDone(cfg, r, now);
    var x := InputStep(cfg, o, LOCAL_PORT, now);
    var y := InputStep(cfg, x, UPPER_PORT, now);
    var z := InputStep(cfg, y, LOWER_PORT, now);
    RoutedOthers(cfg, r, LOCAL_PORT, now);
    RoutedOthers(cfg, u, UPPER_PORT, now);
    RoutedOthers(cfg, w, LOWER_PORT, now);
    LockedStart(cfg, r, now);
    OutputsFlow(cfg, r, now);
    LockedInput(cfg, o, LOCAL_PORT, now, UPPER_PORT);
    InputFlow(cfg, o, LOCAL_PORT, now);
    RoutedInput(cfg, o, LOCAL_PORT, now);
    LockedInput(cfg, x, UPPER_PORT, now, LOWER_PORT);
    InputFlow(cfg, x, UPPER_PORT, now);
    RoutedInput(cfg, x, UPPER_PORT, now);
    RoutedInput(cfg, y, LOWER_PORT, now);
    RoutedOthers(cfg, z, LOCAL_PORT, now);
  }

  // ---- the chain ----

  function Distance(id: nat, dst: nat): nat { if dst >= id then dst - id else id - dst }

  /** The neighbour that a port leads to. */
  function Neighbour(id: nat, q: nat): nat
    requires q == UPPER_PORT ==> id > 0
  {
    if q == LOWER_PORT then id + 1 else if q == UPPER_PORT then id - 1 else id
  }

  /** Each hop brings a packet one router closer, and it leaves the network exactly
      at its destination. */
  lemma HopsCloser(id: nat, dst: nat)
    ensures var q := RouteTo(id, dst);
            && (q == LOCAL_PORT <==> dst == id)
            && (q == UPPER_PORT ==> id > 0)
            && (q != LOCAL_PORT ==> Distance(Neighbour(id, q), dst) == Distance(id, dst) - 1)
  {
  }

  /** The number of hops from id to dst along the routing decisions. */
  function Hops(id: nat, dst: nat): nat
    decreases Distance(id, dst)
  {
    var q := RouteTo(id, dst);
    HopsCloser(id, dst);
    if q == LOCAL_PORT then 0 else 1 + Hops(Neighbour(id, q), dst)
  }

  /** A packet takes exactly as many hops as its endpoints are apart. */
  lemma {:induction false} ShortestPath(id: nat, dst: nat)
    ensures Hops(id, dst) == Distance(id, dst)
    decreases Distance(id, dst)
  {
    HopsCloser(id, dst);
    if dst != id { ShortestPath(Neighbour(id, RouteTo(id, dst)), dst); }
  }

  /** A packet never turns back: the next router sends it on in the same direction. */
  lemma NoTurn(id: nat, dst: nat)
    ensures RouteTo(id, dst) == LOWER_PORT ==> RouteTo(id + 1, dst) != UPPER_PORT
    ensures RouteTo(id, dst) == UPPER_PORT && id > 0 ==> RouteTo(id - 1, dst) != LOWER_PORT
  {
  }
}
