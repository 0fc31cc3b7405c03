/** Wormhole switching: at most one packet crosses to an output at a time, and an
    admitted packet finds room at the receiver. */
module RouterWormhole {
  import opened Flits
  import opened Router
  import opened Packets

  /** Inputs are served in the order local, upper, lower. */
  function Rank(p: nat): nat {
    if p == LOCAL_PORT then 0 else if p == UPPER_PORT then 1 else if p == LOWER_PORT then 2 else 3
  }

  predicate Streaming(r: RouterState, p: nat, i: nat)
    requires Sized(r) && p < PORTS && i < VCH_SIZE
  {
    r.ins[p].vcs[i].state == ST
  }

  /** Channel i of input p is sending a packet to output q. */
  predicate SendingTo(r: RouterState, p: nat, i: nat, q: nat)
    requires Sized(r) && p < PORTS && i < VCH_SIZE
  {
    Streaming(r, p, i) && r.ins[p].vcs[i].port == q
  }

  // ---- locks ----

  /** A sending channel holds its input and has its output reserved. */
  predicate Holding(r: RouterState)
    requires Sized(r)
  {
    && (forall a: nat, j: nat :: a < PORTS && j < VCH_SIZE && Streaming(r, a, j) ==>
          var q := r.ins[a].vcs[j].port;
          r.ins[a].holding && r.ins[a].granted == j && r.lock[q] == a as int && !r.closing[q])
    && (forall a: nat, j: nat :: a < PORTS && j < VCH_SIZE && !Streaming(r, a, j) ==> r.ins[a].vcs[j].taken == 0)
  }

  /** The flits that crossed in this cycle came from channels served before (p, i). */
  predicate Crossed(r: RouterState, p: nat, i: nat)
    requires Sized(r)
  {
    && (forall q: nat :: q < PORTS ==> NOBODY <= r.lock[q] < PORTS)
    && (forall q: nat :: q < PORTS ==> |r.outs[q].obuf| <= 1 && (r.closing[q] ==> r.outs[q].obuf != []))
    && (forall q: nat :: q < PORTS && r.outs[q].obuf != [] ==>
          r.lock[q] != NOBODY
          && (Rank(r.lock[q]) < Rank(p)
              || (r.lock[q] == p && r.outs[q].obuf[0].vch == r.ins[p].granted && r.outs[q].obuf[0].vch < i)))
  }

  predicate Locked(r: RouterState, p: nat, i: nat)
    requires Sized(r)
  {
    Holding(r) && Crossed(r, p, i)
  }

  lemma LockedForward(r: RouterState, p: nat, i: nat)
    requires Sized(r) && p < PORTS && i < VCH_SIZE && Locked(r, p, i) && r.ins[p].vcs[i].ibuf != []
    ensures Locked(ForwardAck(r, p, i), p, i + 1)
  {
  }

  lemma SenderFacts(r: RouterState, p: nat, i: nat)
    requires Sized(r) && p < PORTS && i < VCH_SIZE && Locked(r, p, i) && Streaming(r, p, i)
    ensures var q := r.ins[p].vcs[i].port;
            && r.ins[p].granted == i && r.lock[q] == p as int && !r.closing[q] && r.outs[q].obuf == []
    ensures forall a: nat, j: nat :: a < PORTS && j < VCH_SIZE && Streaming(r, a, j) && (a, j) != (p, i) ==>
              a != p && r.ins[a].vcs[j].port != r.ins[p].vcs[i].port
  {
  }

  lemma HoldingTraverse(r: RouterState, p: nat, i: nat, now: nat)
    requires Sized(r) && p < PORTS && i < VCH_SIZE && Locked(r, p, i) && r.ins[p].vcs[i].ibuf != [] && Streaming(r, p, i)
    ensures Holding(Traverse(r, p, i, now))
  {
    hide Rank, IsTail, Crossed;
    SenderFacts(r, p, i);
  }

  lemma CrossedTraverse(r: RouterState, p: nat, i: nat, now: nat)
    requires Sized(r) && p < PORTS && i < VCH_SIZE && Locked(r, p, i) && r.ins[p].vcs[i].ibuf != [] && Streaming(r, p, i)
    ensures r.outs[r.ins[p].vcs[i].port].obuf == []
    ensures Crossed(Traverse(r, p, i, now), p, i + 1)
  {
    hide Rank, IsTail, Holding;
    SenderFacts(r, p, i);
  }

  lemma LockedTraverse(r: RouterState, p: nat, i: nat, now: nat)
    requires Sized(r) && p < PORTS && i < VCH_SIZE && Locked(r, p, i) && r.ins[p].vcs[i].ibuf != [] && Streaming(r, p, i)
    ensures r.outs[r.ins[p].vcs[i].port].obuf == []
    ensures Locked(Traverse(r, p, i, now), p, i + 1)
  {
    hide Holding, Crossed, Traverse;
    HoldingTraverse(r, p, i, now);
    CrossedTraverse(r, p, i, now);
  }

  lemma LockedTake(r: RouterState, p: nat, i: nat, q: nat)
    requires Sized(r) && p < PORTS && i < VCH_SIZE && Locked(r, p, i) && q < PORTS
    ensures Locked(TakeLock(r, p, i, q), p, i)
  {
    hide Admits;
  }

  /** An output reserved for p has carried nothing in this cycle, unless p's
      granted channel has been served already. */
  lemma ReservedEmpty(r: RouterState, p: nat, i: nat, q: nat)
    requires Sized(r) && p < PORTS && i < VCH_SIZE && Locked(r, p, i) && q < PORTS
    requires r.lock[q] == p as int && r.ins[p].granted == i
    ensures r.outs[q].obuf == [] && !r.closing[q]
  {
  }

  lemma LockedHold(r: RouterState, p: nat, i: nat)
    requires Sized(r) && p < PORTS && i < VCH_SIZE && Locked(r, p, i) && !Streaming(r, p, i)
    requires r.lock[r.ins[p].vcs[i].port] == p as int && r.ins[p].granted == i
    ensures var held := SetVc(r, p, i, r.ins[p].vcs[i].(state := ST));
            Sized(held) && Sized(held.(ins := held.ins[p := held.ins[p].(holding := true)]))
            && Locked(held.(ins := held.ins[p := held.ins[p].(holding := true)]), p, i + 1)
  {
    hide Rank;
    ReservedEmpty(r, p, i, r.ins[p].vcs[i].port);
  }

  lemma LockedAllocate(r: RouterState, p: nat, i: nat)
    requires Sized(r) && p < PORTS && i < VCH_SIZE && Locked(r, p, i) && r.ins[p].vcs[i].state == VSA
    ensures Locked(Allocate(r, p, i), p, i + 1)
    ensures Streaming(Allocate(r, p, i), p, i) ==> r.outs[r.ins[p].vcs[i].port].obuf == []
  {
    hide Locked, SizedOut, SetVc, Admits;
    var q := r.ins[p].vcs[i].port;
    var asked := TakeLock(r, p, i, q);
    LockedTake(r, p, i, q);
    LockedNext(asked, p, i);
    if asked.ins[p].granted == i && asked.lock[q] == p as int {
      ReservedEmpty(asked, p, i, q);
      LockedHold(asked, p, i);
    }
  }

  lemma LockedNext(r: RouterState, p: nat, i: nat)
    requires Sized(r) && Locked(r, p, i)
    ensures Locked(r, p, i + 1)
  {
  }

  /** Any other change to one channel that leaves it not sending. */
  lemma LockedSet(r: RouterState, p: nat, i: nat, vc: Vc)
    requires Sized(r) && p < PORTS && i < VCH_SIZE && Locked(r, p, i) && vc.port < PORTS
    requires !Streaming(r, p, i) && vc.state != ST && vc.taken == 0
    ensures Locked(SetVc(r, p, i, vc), p, i + 1)
  {
  }

  lemma LockedVcStep(r: RouterState, p: nat, i: nat, hold: bool, now: nat)
    requires Sized(r) && p < PORTS && i < VCH_SIZE && Locked(r, p, i)
    ensures Locked(VcStep(r, p, i, hold, now).0, p, i + 1)
  {
    hide Sized, Locked, ForwardAck, Traverse, Allocate, RouteTo, HeadDst, SetVc, IsAck, IsHead;
    LockedNext(r, p, i);
    SizedFacts(r, p, i);
    LockedIdle(r, p, i);
    var vc := r.ins[p].vcs[i];
    if vc.ibuf != [] {
      if IsAck(vc.ibuf[0]) {
        LockedForward(r, p, i);
      } else if vc.state == ST {
        LockedTraverse(r, p, i, now);
      } else if vc.state == VSA {
        LockedAllocate(r, p, i);
        LockedSet(r, p, i, vc.(pending := true));
      } else {
        RouteInRange(r.id, HeadDst(vc.ibuf[0]) as int);
        LockedSet(r, p, i, vc.(state := VSA, port := RouteTo(r.id, HeadDst(vc.ibuf[0]) as int)));
      }
    }
  }

  lemma SizedFacts(r: RouterState, p: nat, i: nat)
    requires Sized(r) && p < PORTS && i < VCH_SIZE
    ensures |r.ins| == PORTS && |r.ins[p].vcs| == VCH_SIZE && r.ins[p].vcs[i].port < PORTS
  {
  }

  lemma LockedIdle(r: RouterState, p: nat, i: nat)
    requires Sized(r) && p < PORTS && i < VCH_SIZE && Locked(r, p, i)
    ensures !Streaming(r, p, i) ==> r.ins[p].vcs[i].taken == 0
  {
  }

  lemma RouteInRange(id: nat, dst: nat)
    ensures RouteTo(id, dst) < PORTS
  {
  }

  lemma {:induction false} LockedLoop(r: RouterState, p: nat, i: nat, hold: bool, now: nat)
    requires Sized(r) && p < PORTS && i <= VCH_SIZE && Locked(r, p, i)
    ensures Locked(VcLoop(r, p, i, hold, now), p, VCH_SIZE)
    decreases VCH_SIZE - i
  {
    hide Sized, Locked, VcStep;
    if i < VCH_SIZE {
      LockedVcStep(r, p, i, hold, now);
      LockedLoop(VcStep(r, p, i, hold, now).0, p, i + 1, VcStep(r, p, i, hold, now).1, now);
    }
  }

  lemma LockedReceive(r: RouterState, p: nat)
    requires Sized(r) && p < PORTS && Locked(r, p, VCH_SIZE)
    ensures Locked(Receive(r, p), p, VCH_SIZE)
  {
  }

  lemma LockedReady(cfg: Config, r: RouterState, p: nat)
    requires Sized(r) && Locked(r, p, VCH_SIZE)
    ensures Sized(LocalReady(cfg, r)) && Locked(LocalReady(cfg, r), p, VCH_SIZE)
  {
  }

  /** Arbitration touches an input only when no channel of it is sending. */
  lemma LockedArbitrate(r: RouterState, p: nat, now: nat, next: nat)
    requires Sized(r) && p < PORTS && Locked(r, p, VCH_SIZE) && Rank(next) > Rank(p)
    ensures Locked(Arbitrate(r, p, now), next, 0)
  {
    hide FirstPending;
  }

  lemma LockedInput(cfg: Config, r: RouterState, p: nat, now: nat, next: nat)
    requires Sized(r) && p < PORTS && Locked(r, p, 0) && Rank(next) > Rank(p)
    ensures Locked(InputStep(cfg, r, p, now), next, 0)
  {
    hide Sized, Locked, VcLoop, Receive, LocalReady, Arbitrate;
    var a := VcLoop(r, p, 0, false, now);
    LockedLoop(r, p, 0, false, now);
    LockedReceive(a, p);
    LockedReady(cfg, Receive(a, p), p);
    LockedArbitrate(if p == LOCAL_PORT then LocalReady(cfg, Receive(a, p)) else Receive(a, p), p, now, next);
  }

  /** Between two cycles: no output is closing, and at most one flit waits in each. */
  predicate AtRest(r: RouterState)
    requires Sized(r)
  {
    && (forall a: nat, j: nat :: a < PORTS && j < VCH_SIZE && Streaming(r, a, j) ==>
          r.ins[a].holding && r.ins[a].granted == j && r.lock[r.ins[a].vcs[j].port] == a as int)
    && (forall a: nat, j: nat :: a < PORTS && j < VCH_SIZE && !Streaming(r, a, j) ==> r.ins[a].vcs[j].taken == 0)
    && (forall q: nat :: q < PORTS ==> NOBODY <= r.lock[q] < PORTS && !r.closing[q] && |r.outs[q].obuf| <= 1)
  }

  lemma OutputDrains(cfg: Config, o: Output, upper: bool)
    requires SizedOut(o) && |o.obuf| <= 1
    ensures OutputStep(cfg, o, upper).0.obuf == []
  {
    hide MakeAck, DecodeAck, AnyAck, AfterAck;
  }

  lemma RestOutput(cfg: Config, r: RouterState, q: nat, now: nat)
    requires Sized(r) && AtRest(r) && q < PORTS
    ensures AtRest(OutputPhase(cfg, r, q, now)) && OutputPhase(cfg, r, q, now).outs[q].obuf == []
    ensures forall u: nat :: u < PORTS && u != q ==> OutputPhase(cfg, r, q, now).outs[u] == r.outs[u]
  {
    hide OutputStep;
    OutputDrains(cfg, r.outs[q], now % 2 != 0);
  }

  function OutputsDone(cfg: Config, r: RouterState, now: nat): (r': RouterState)
    requires Sized(r)
    ensures Sized(r')
  {
    OutputPhase(cfg, OutputPhase(cfg, OutputPhase(cfg, r, LOCAL_PORT, now), UPPER_PORT, now), LOWER_PORT, now)
  }

  lemma LockedStart(cfg: Config, r: RouterState, now: nat)
    requires Sized(r) && AtRest(r)
    ensures Locked(OutputsDone(cfg, r, now), LOCAL_PORT, 0)
    ensures forall q: nat :: q < PORTS ==> OutputsDone(cfg, r, now).outs[q].obuf == []
  {
    hide OutputPhase;
    var a := OutputPhase(cfg, r, LOCAL_PORT, now);
    var b := OutputPhase(cfg, a, UPPER_PORT, now);
    RestOutput(cfg, r, LOCAL_PORT, now);
    RestOutput(cfg, a, UPPER_PORT, now);
    RestOutput(cfg, b, LOWER_PORT, now);
  }

  lemma RestCrossbar(r: RouterState)
    requires Sized(r) && Locked(r, PORTS, 0)
    ensures AtRest(CrossbarStep(r))
  {
  }

  /** Between any two cycles at most one channel sends to each output. */
  lemma RestStep(cfg: Config, r: RouterState, now: nat)
    requires Sized(r) && AtRest(r)
    ensures AtRest(RouterStep(cfg, r, now))
  {
    hide Sized, AtRest, Locked, OutputPhase, InputStep, CrossbarStep;
    var o := OutputsDone(cfg, r, now);
    LockedStart(cfg, r, now);
    LockedInput(cfg, o, LOCAL_PORT, now, UPPER_PORT);
    var i := InputStep(cfg, o, LOCAL_PORT, now);
    LockedInput(cfg, i, UPPER_PORT, now, LOWER_PORT);
    LockedInput(cfg, InputStep(cfg, i, UPPER_PORT, now), LOWER_PORT, now, PORTS);
    RestCrossbar(InputStep(cfg, InputStep(cfg, i, UPPER_PORT, now), LOWER_PORT, now));
  }
}
