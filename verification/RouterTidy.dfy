/** The order in which flits cross to an output: one packet at a time. */
module RouterTidy {
  import opened Flits
  import opened Router
  import opened Packets
  import opened RouterWormhole
  import opened RouterFlow

  datatype Owner = Nobody | Packet(from: nat, vch: nat)

  /** Whose packet is under way on output q. */
  function OwnerOf(log: seq<Sent>, q: nat): Owner {
    if log == [] then Nobody
    else
      var e := log[|log| - 1];
      if e.to != q then OwnerOf(log[..|log| - 1], q)
      else if IsTail(e.flit) then Nobody
      else Packet(e.from, e.vch)
  }

  /** Between a packet's head and its tail only flits of that packet cross to q. */
  predicate NonInterleaved(log: seq<Sent>, q: nat) {
    if log == [] then true
    else
      var rest, e := log[..|log| - 1], log[|log| - 1];
      && NonInterleaved(rest, q)
      && (e.to == q ==>
            match OwnerOf(rest, q)
            case Nobody => IsHead(e.flit)
            case Packet(from, vch) => e.from == from && e.vch == vch && !IsHead(e.flit))
  }

  predicate TidyAt(r: RouterState, q: nat)
    requires Sized(r) && q < PORTS
  {
    && NonInterleaved(r.log, q)
    && match OwnerOf(r.log, q)
       case Nobody => forall a: nat, j: nat :: a < PORTS && j < VCH_SIZE && SendingTo(r, a, j, q) ==> r.ins[a].vcs[j].taken == 0
       case Packet(a, j) => a < PORTS && j < VCH_SIZE && SendingTo(r, a, j, q) && r.ins[a].vcs[j].taken > 0
  }

  predicate Tidy(r: RouterState)
    requires Sized(r)
  {
    forall q: nat :: q < PORTS ==> TidyAt(r, q)
  }

  lemma OwnerMore(log: seq<Sent>, e: Sent, q: nat)
    ensures OwnerOf(log + [e], q) == if e.to != q then OwnerOf(log, q) else if IsTail(e.flit) then Nobody else Packet(e.from, e.vch)
    ensures NonInterleaved(log + [e], q) <==>
              NonInterleaved(log, q)
              && (e.to == q ==> match OwnerOf(log, q)
                                case Nobody => IsHead(e.flit)
                                case Packet(from, vch) => e.from == from && e.vch == vch && !IsHead(e.flit))
  {
    assert (log + [e])[..|log|] == log;
  }

  lemma TidyElsewhere(cfg: Config, r: RouterState, p: nat, i: nat, now: nat, q: nat)
    requires Sized(r) && p < PORTS && i < VCH_SIZE && r.ins[p].vcs[i].ibuf != [] && !IsAck(r.ins[p].vcs[i].ibuf[0])
    requires Locked(r, p, i) && Streaming(r, p, i) && FlowOk(cfg, r) && q < PORTS && TidyAt(r, q) && q != r.ins[p].vcs[i].port
    ensures TidyAt(Traverse(r, p, i, now), q)
  {
    hide Locked, Holding, Crossed, FlowOk, OwnerOf, NonInterleaved, SizedOut;
    var to := r.ins[p].vcs[i].port;
    SenderFacts(r, p, i);
    OwnerMore(r.log, Sent(p, i, to, r.ins[p].vcs[i].ibuf[0]), q);
    var r' := Traverse(r, p, i, now);
    assert r'.log == r.log + [Sent(p, i, to, r.ins[p].vcs[i].ibuf[0])];
    assert forall a: nat, j: nat :: a < PORTS && j < VCH_SIZE && (a, j) != (p, i) ==> r'.ins[a].vcs[j] == r.ins[a].vcs[j];
  }

  lemma TidyHere(cfg: Config, r: RouterState, p: nat, i: nat, now: nat, q: nat)
    requires Sized(r) && p < PORTS && i < VCH_SIZE && r.ins[p].vcs[i].ibuf != [] && !IsAck(r.ins[p].vcs[i].ibuf[0])
    requires Locked(r, p, i) && Streaming(r, p, i) && FlowOk(cfg, r) && q < PORTS && TidyAt(r, q) && q == r.ins[p].vcs[i].port
    ensures TidyAt(Traverse(r, p, i, now), q)
  {
    hide Locked, Holding, Crossed, FlowOk, OwnerOf, NonInterleaved, SizedOut;
    FlowParts(cfg, r);
    NextFlit(cfg, r, p, i);
    SenderFacts(r, p, i);
    OwnerMore(r.log, Sent(p, i, q, r.ins[p].vcs[i].ibuf[0]), q);
    var r' := Traverse(r, p, i, now);
    assert r'.log == r.log + [Sent(p, i, q, r.ins[p].vcs[i].ibuf[0])];
    assert forall a: nat, j: nat :: a < PORTS && j < VCH_SIZE && SendingTo(r', a, j, q) ==> a == p && j == i;
  }

  lemma TidyTraverse(cfg: Config, r: RouterState, p: nat, i: nat, now: nat, q: nat)
    requires Sized(r) && p < PORTS && i < VCH_SIZE && r.ins[p].vcs[i].ibuf != [] && !IsAck(r.ins[p].vcs[i].ibuf[0])
    requires Locked(r, p, i) && Streaming(r, p, i) && FlowOk(cfg, r) && q < PORTS && TidyAt(r, q)
    ensures TidyAt(Traverse(r, p, i, now), q)
  {
    hide Locked, Streaming, FlowOk, TidyAt, Traverse;
    if q != r.ins[p].vcs[i].port {
      TidyElsewhere(cfg, r, p, i, now, q);
    } else {
      TidyHere(cfg, r, p, i, now, q);
    }
  }

  lemma FlowParts(cfg: Config, r: RouterState)
    requires Sized(r) && FlowOk(cfg, r)
    ensures WellFed(cfg, r) && FromOk(cfg, r)
  {
    hide WellFed, FromOk, AllToOk;
  }

  lemma TidyAllocate(r: RouterState, p: nat, i: nat, q: nat)
    requires Sized(r) && p < PORTS && i < VCH_SIZE && Locked(r, p, i) && r.ins[p].vcs[i].state == VSA && q < PORTS && TidyAt(r, q)
    ensures TidyAt(Allocate(r, p, i), q)
  {
    hide Locked, OwnerOf, NonInterleaved, Allocate, Admits;
    AllocateFrame(r, p, i);
    LockedIdle(r, p, i);
  }

  lemma TidySame(r: RouterState, r': RouterState)
    requires Sized(r) && Sized(r') && Tidy(r) && SameFlow(r, r')
    ensures Tidy(r')
  {
    hide OwnerOf, NonInterleaved, Waiting;
    forall q: nat | q < PORTS
      ensures TidyAt(r', q)
    {
      assert TidyAt(r, q);
      assert forall a: nat, j: nat :: a < PORTS && j < VCH_SIZE ==> SendingTo(r', a, j, q) == SendingTo(r, a, j, q);
    }
  }

  lemma TidyVcStep(cfg: Config, r: RouterState, p: nat, i: nat, hold: bool, now: nat)
    requires Sized(r) && p < PORTS && i < VCH_SIZE && Locked(r, p, i) && FlowOk(cfg, r) && Tidy(r)
    ensures Tidy(VcStep(r, p, i, hold, now).0)
  {
    hide SizedOut, Locked, ForwardAck, Traverse, Allocate, RouteTo, HeadDst, IsAck, IsHead, FlowOk, TidyAt, SameFlow;
    var vc := r.ins[p].vcs[i];
    var r' := VcStep(r, p, i, hold, now).0;
    if vc.ibuf == [] {
    } else if IsAck(vc.ibuf[0]) {
      ForwardSame(r, p, i);
      TidySame(r, r');
    } else if vc.state == ST {
      forall q: nat | q < PORTS
        ensures TidyAt(r', q)
      {
        TidyTraverse(cfg, r, p, i, now, q);
      }
    } else if vc.state == VSA && (r.ins[p].granted == i || hold) {
      forall q: nat | q < PORTS
        ensures TidyAt(r', q)
      {
        TidyAllocate(r, p, i, q);
      }
    } else {
      VcStepSet(r, p, i, hold, now);
      TidySame(r, r');
    }
  }

  lemma {:induction false} TidyLoop(cfg: Config, r: RouterState, p: nat, i: nat, hold: bool, now: nat)
    requires Sized(r) && p < PORTS && i <= VCH_SIZE && Locked(r, p, i) && FlowOk(cfg, r) && Tidy(r)
    ensures Tidy(VcLoop(r, p, i, hold, now))
    decreases VCH_SIZE - i
  {
    hide Sized, Locked, VcStep, FlowOk, Tidy, Carries;
    if i < VCH_SIZE {
      TidyVcStep(cfg, r, p, i, hold, now);
      VcStepFlow(cfg, r, p, i, hold, now);
      LockedVcStep(r, p, i, hold, now);
      TidyLoop(cfg, VcStep(r, p, i, hold, now).0, p, i + 1, VcStep(r, p, i, hold, now).1, now);
    }
  }

  lemma TidyInput(cfg: Config, r: RouterState, p: nat, now: nat)
    requires Sized(r) && p < PORTS && Locked(r, p, 0) && FlowOk(cfg, r) && Tidy(r)
    ensures Tidy(InputStep(cfg, r, p, now))
  {
    hide Sized, Locked, VcLoop, Receive, LocalReady, Arbitrate, FlowOk, SameFlow, Tidy, Leaving;
    var a := VcLoop(r, p, 0, false, now);
    var b := Receive(a, p);
    TidyLoop(cfg, r, p, 0, false, now);
    ReceiveSame(a, p);
    TidySame(a, b);
    ReadySame(cfg, b);
    TidySame(b, LocalReady(cfg, b));
    var c := if p == LOCAL_PORT then LocalReady(cfg, b) else b;
    ArbitrateSame(c, p, now);
    TidySame(c, Arbitrate(c, p, now));
  }

  lemma TidyOutputs(cfg: Config, r: RouterState, now: nat)
    requires Sized(r) && Tidy(r)
    ensures Tidy(OutputsDone(cfg, r, now))
  {
    hide Sized, Tidy, SameFlow, Leaving, OutputPhase;
    var a := OutputPhase(cfg, r, LOCAL_PORT, now);
    var b := OutputPhase(cfg, a, UPPER_PORT, now);
    OutputSame(cfg, r, LOCAL_PORT, now);
    TidySame(r, a);
    OutputSame(cfg, a, UPPER_PORT, now);
    TidySame(a, b);
    OutputSame(cfg, b, LOWER_PORT, now);
    TidySame(b, OutputsDone(cfg, r, now));
  }

  /** Over every cycle, packets are never interleaved on an output. */
  lemma TidyStep(cfg: Config, r: RouterState, now: nat)
    requires Sized(r) && AtRest(r) && FlowOk(cfg, r) && Tidy(r)
    ensures Tidy(RouterStep(cfg, r, now))
  {
    hide Sized, AtRest, Locked, OutputPhase, InputStep, CrossbarStep, FlowOk, Carries, SameFlow, Leaving, Tidy;
    var o := OutputsDone(cfg, r, now);
    var x := InputStep(cfg, o, LOCAL_PORT, now);
    var y := InputStep(cfg, x, UPPER_PORT, now);
    var z := InputStep(cfg, y, LOWER_PORT, now);
    LockedStart(cfg, r, now);
    OutputsFlow(cfg, r, now);
    TidyOutputs(cfg, r, now);
    LockedInput(cfg, o, LOCAL_PORT, now, UPPER_PORT);
    InputFlow(cfg, o, LOCAL_PORT, now);
    TidyInput(cfg, o, LOCAL_PORT, now);
    LockedInput(cfg, x, UPPER_PORT, now, LOWER_PORT);
    InputFlow(cfg, x, UPPER_PORT, now);
    TidyInput(cfg, x, UPPER_PORT, now);
    TidyInput(cfg, y, LOWER_PORT, now);
    CrossbarSame(z);
    TidySame(z, CrossbarStep(z));
  }
}
