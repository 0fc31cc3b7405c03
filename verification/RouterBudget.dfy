/** Admission at switch allocation is enough: the send count, which bounds what
    the receiver holds, never exceeds the receiver's buffer. */
module RouterBudget {
  import opened Flits
  import opened Router
  import opened Packets
  import opened RouterWormhole
  import opened RouterFlow
  import opened RouterTidy

  /** Whether the flit waiting in an output belongs to channel v. */
  function Queued(o: Output, v: nat): nat { if o.obuf != [] && o.obuf[0].vch == v then 1 else 0 }

  predicate ChannelBudget(cfg: Config, o: Output, v: nat)
    requires SizedOut(o) && v < VCH_SIZE
  {
    && (o.ready[v] ==> cfg.bufMax - o.sendCount[v] >= cfg.packetMax)
    && o.sendCount[v] + Queued(o, v) <= cfg.bufMax
  }

  /** Output q keeps room for the flits its sender has still to send. */
  predicate BudgetAt(cfg: Config, r: RouterState, q: nat)
    requires Sized(r) && q < PORTS
  {
    r.outs[q].ackEnabled ==>
      && (forall v: nat :: v < VCH_SIZE ==> ChannelBudget(cfg, r.outs[q], v))
      && (forall a: nat, j: nat :: a < PORTS && j < VCH_SIZE && SendingTo(r, a, j, q) ==>
            r.outs[q].sendCount[j] + Queued(r.outs[q], j) + cfg.packetMax - r.ins[a].vcs[j].taken <= cfg.bufMax)
  }

  predicate Budget(cfg: Config, r: RouterState)
    requires Sized(r)
  {
    forall q: nat :: q < PORTS ==> BudgetAt(cfg, r, q)
  }

  lemma TraverseFrame(r: RouterState, p: nat, i: nat, now: nat)
    requires Sized(r) && p < PORTS && i < VCH_SIZE && r.ins[p].vcs[i].ibuf != []
    ensures var r' := Traverse(r, p, i, now);
            var f := r.ins[p].vcs[i].ibuf[0];
            && (forall q: nat :: q < PORTS ==>
                  && r'.outs[q].sendCount == r.outs[q].sendCount && r'.outs[q].ready == r.outs[q].ready
                  && r'.outs[q].ackEnabled == r.outs[q].ackEnabled
                  && r'.outs[q].obuf == r.outs[q].obuf + (if q == r.ins[p].vcs[i].port then [Entry(f, i)] else []))
            && (forall a: nat, j: nat :: a < PORTS && j < VCH_SIZE && (a, j) != (p, i) ==> r'.ins[a].vcs[j] == r.ins[a].vcs[j])
            && r'.ins[p].vcs[i].port == r.ins[p].vcs[i].port
            && r'.ins[p].vcs[i].state == (if IsTail(f) then RC else ST)
            && r'.ins[p].vcs[i].taken == (if IsTail(f) then 0 else r.ins[p].vcs[i].taken + 1)
  {
    hide IsTail;
  }

  lemma BudgetTraverse(cfg: Config, r: RouterState, p: nat, i: nat, now: nat, q: nat)
    requires Sized(r) && p < PORTS && i < VCH_SIZE && r.ins[p].vcs[i].ibuf != [] && !IsAck(r.ins[p].vcs[i].ibuf[0])
    requires Locked(r, p, i) && Streaming(r, p, i) && FlowOk(cfg, r) && q < PORTS && BudgetAt(cfg, r, q)
    ensures BudgetAt(cfg, Traverse(r, p, i, now), q)
  {
    hide Locked, FlowOk, Traverse, IsTail, IsHead, IsAck;
    FlowParts(cfg, r);
    NextFlit(cfg, r, p, i);
    SenderFacts(r, p, i);
    TraverseFrame(r, p, i, now);
    var r' := Traverse(r, p, i, now);
    if r.outs[q].ackEnabled {
      assert q == r.ins[p].vcs[i].port ==> SendingTo(r, p, i, q);
      forall v: nat | v < VCH_SIZE
        ensures ChannelBudget(cfg, r'.outs[q], v)
      {
        assert ChannelBudget(cfg, r.outs[q], v);
      }
      forall a: nat, j: nat | a < PORTS && j < VCH_SIZE && SendingTo(r', a, j, q)
        ensures r'.outs[q].sendCount[j] + Queued(r'.outs[q], j) + cfg.packetMax - r'.ins[a].vcs[j].taken <= cfg.bufMax
      {
        assert SendingTo(r, a, j, q);
      }
    }
  }

  lemma BudgetAllocate(cfg: Config, r: RouterState, p: nat, i: nat, q: nat)
    requires Sized(r) && p < PORTS && i < VCH_SIZE && Locked(r, p, i) && r.ins[p].vcs[i].state == VSA && q < PORTS && BudgetAt(cfg, r, q)
    ensures BudgetAt(cfg, Allocate(r, p, i), q)
  {
    hide Locked, Allocate;
    AllocateFrame(r, p, i);
    LockedIdle(r, p, i);
    LockedAllocate(r, p, i);
    var r' := Allocate(r, p, i);
    if r.outs[q].ackEnabled {
      assert ChannelBudget(cfg, r.outs[q], i);
      forall a: nat, j: nat | a < PORTS && j < VCH_SIZE && SendingTo(r', a, j, q)
        ensures r'.outs[q].sendCount[j] + Queued(r'.outs[q], j) + cfg.packetMax - r'.ins[a].vcs[j].taken <= cfg.bufMax
      {
        if (a, j) != (p, i) { assert SendingTo(r, a, j, q); }
      }
    }
  }

  /** Counts and queues are untouched. */
  predicate SameOuts(r: RouterState, r': RouterState)
    requires Sized(r) && Sized(r')
  {
    forall q: nat :: q < PORTS ==>
      r'.outs[q].ackEnabled == r.outs[q].ackEnabled && r'.outs[q].ready == r.outs[q].ready
      && r'.outs[q].sendCount == r.outs[q].sendCount && r'.outs[q].obuf == r.outs[q].obuf
  }

  lemma BudgetSame(cfg: Config, r: RouterState, r': RouterState)
    requires Sized(r) && Sized(r') && Budget(cfg, r) && SameFlow(r, r') && SameOuts(r, r')
    ensures Budget(cfg, r')
  {
    hide Waiting;
    forall q: nat | q < PORTS
      ensures BudgetAt(cfg, r', q)
    {
      assert BudgetAt(cfg, r, q);
      assert forall a: nat, j: nat :: a < PORTS && j < VCH_SIZE ==> SendingTo(r', a, j, q) == SendingTo(r, a, j, q);
      if r.outs[q].ackEnabled {
        forall v: nat | v < VCH_SIZE
          ensures ChannelBudget(cfg, r'.outs[q], v)
        {
          assert ChannelBudget(cfg, r.outs[q], v);
        }
      }
    }
  }

  lemma BudgetVcStep(cfg: Config, r: RouterState, p: nat, i: nat, hold: bool, now: nat)
    requires Sized(r) && p < PORTS && i < VCH_SIZE && Locked(r, p, i) && FlowOk(cfg, r) && Budget(cfg, r)
    ensures Budget(cfg, VcStep(r, p, i, hold, now).0)
  {
    hide SizedOut, Locked, Traverse, Allocate, RouteTo, HeadDst, IsAck, IsHead, FlowOk, BudgetAt, SameFlow;
    var vc := r.ins[p].vcs[i];
    var r' := VcStep(r, p, i, hold, now).0;
    if vc.ibuf == [] {
    } else if IsAck(vc.ibuf[0]) {
      ForwardSame(r, p, i);
      BudgetSame(cfg, r, r');
    } else if vc.state == ST {
      forall q: nat | q < PORTS
        ensures BudgetAt(cfg, r', q)
      {
        BudgetTraverse(cfg, r, p, i, now, q);
      }
    } else if vc.state == VSA && (r.ins[p].granted == i || hold) {
      forall q: nat | q < PORTS
        ensures BudgetAt(cfg, r', q)
      {
        BudgetAllocate(cfg, r, p, i, q);
      }
    } else {
      VcStepSet(r, p, i, hold, now);
      BudgetSame(cfg, r, r');
    }
  }

  lemma {:induction false} BudgetLoop(cfg: Config, r: RouterState, p: nat, i: nat, hold: bool, now: nat)
    requires Sized(r) && p < PORTS && i <= VCH_SIZE && Locked(r, p, i) && FlowOk(cfg, r) && Budget(cfg, r)
    ensures Budget(cfg, VcLoop(r, p, i, hold, now))
    decreases VCH_SIZE - i
  {
    hide Sized, Locked, VcStep, FlowOk, Budget, Carries;
    if i < VCH_SIZE {
      BudgetVcStep(cfg, r, p, i, hold, now);
      VcStepFlow(cfg, r, p, i, hold, now);
      LockedVcStep(r, p, i, hold, now);
      BudgetLoop(cfg, VcStep(r, p, i, hold, now).0, p, i + 1, VcStep(r, p, i, hold, now).1, now);
    }
  }

  lemma ReceiveOuts(r: RouterState, p: nat)
    requires Sized(r) && p < PORTS
    ensures SameOuts(r, Receive(r, p))
  {
  }

  lemma OtherOuts(cfg: Config, r: RouterState, p: nat, now: nat)
    requires Sized(r) && p < PORTS
    ensures Sized(LocalReady(cfg, r)) && SameOuts(r, LocalReady(cfg, r)) && SameOuts(r, Arbitrate(r, p, now))
    ensures SameOuts(r, CrossbarStep(r))
  {
    hide FirstPending;
  }

  lemma BudgetInput(cfg: Config, r: RouterState, p: nat, now: nat)
    requires Sized(r) && p < PORTS && Locked(r, p, 0) && FlowOk(cfg, r) && Budget(cfg, r)
    ensures Budget(cfg, InputStep(cfg, r, p, now))
  {
    hide Sized, Locked, VcLoop, Receive, LocalReady, Arbitrate, FlowOk, SameFlow, SameOuts, Budget, Leaving;
    var a := VcLoop(r, p, 0, false, now);
    var b := Receive(a, p);
    BudgetLoop(cfg, r, p, 0, false, now);
    ReceiveSame(a, p);
    ReceiveOuts(a, p);
    BudgetSame(cfg, a, b);
    ReadySame(cfg, b);
    OtherOuts(cfg, b, p, now);
    BudgetSame(cfg, b, LocalReady(cfg, b));
    var c := if p == LOCAL_PORT then LocalReady(cfg, b) else b;
    ArbitrateSame(c, p, now);
    OtherOuts(cfg, c, p, now);
    BudgetSame(cfg, c, Arbitrate(c, p, now));
  }

  /** An output channel's own step: a queued flit becomes a counted one. */
  lemma OutputBudget(cfg: Config, o: Output, upper: bool, v: nat)
    requires SizedOut(o) && v < VCH_SIZE && |o.obuf| <= 1 && o.ackEnabled && ChannelBudget(cfg, o, v)
    ensures var o' := OutputStep(cfg, o, upper).0;
            && SizedOut(o') && o'.ackEnabled && ChannelBudget(cfg, o', v)
            && o'.sendCount[v] + Queued(o', v) <= o.sendCount[v] + Queued(o, v)
  {
    hide DecodeAck, MakeAck, AnyAck, AfterAck;
  }

  lemma BudgetOutput(cfg: Config, r: RouterState, q: nat, now: nat)
    requires Sized(r) && AtRest(r) && q < PORTS && Budget(cfg, r)
    ensures Budget(cfg, OutputPhase(cfg, r, q, now))
  {
    hide OutputStep;
    var r' := OutputPhase(cfg, r, q, now);
    OutputEnabledSame(cfg, r.outs[q], now % 2 != 0);
    forall u: nat | u < PORTS
      ensures BudgetAt(cfg, r', u)
    {
      assert BudgetAt(cfg, r, u);
      assert forall a: nat, j: nat :: a < PORTS && j < VCH_SIZE ==> SendingTo(r', a, j, u) == SendingTo(r, a, j, u);
      if u == q && r.outs[q].ackEnabled {
        forall v: nat | v < VCH_SIZE
          ensures ChannelBudget(cfg, r'.outs[q], v)
          ensures r'.outs[q].sendCount[v] + Queued(r'.outs[q], v) <= r.outs[q].sendCount[v] + Queued(r.outs[q], v)
        {
          OutputBudget(cfg, r.outs[q], now % 2 != 0, v);
        }
      }
    }
  }

  lemma OutputEnabledSame(cfg: Config, o: Output, upper: bool)
    requires SizedOut(o)
    ensures OutputStep(cfg, o, upper).0.ackEnabled == o.ackEnabled
  {
    hide MakeAck, DecodeAck, AnyAck, AfterAck;
  }

  lemma BudgetOutputs(cfg: Config, r: RouterState, now: nat)
    requires Sized(r) && AtRest(r) && Budget(cfg, r)
    ensures Budget(cfg, OutputsDone(cfg, r, now))
  {
    hide Sized, Budget, AtRest, OutputPhase;
    var a := OutputPhase(cfg, r, LOCAL_PORT, now);
    var b := OutputPhase(cfg, a, UPPER_PORT, now);
    BudgetOutput(cfg, r, LOCAL_PORT, now);
    RestOutput(cfg, r, LOCAL_PORT, now);
    BudgetOutput(cfg, a, UPPER_PORT, now);
    RestOutput(cfg, a, UPPER_PORT, now);
    BudgetOutput(cfg, b, LOWER_PORT, now);
  }

  /** Every cycle keeps every send count within the receiver's buffer. */
  lemma BudgetStep(cfg: Config, r: RouterState, now: nat)
    requires Sized(r) && AtRest(r) && FlowOk(cfg, r) && Budget(cfg, r)
    ensures Budget(cfg, RouterStep(cfg, r, now))
  {
    hide Sized, AtRest, Locked, OutputPhase, InputStep, CrossbarStep, FlowOk, Carries, SameFlow, SameOuts, Leaving, Budget;
    var o := OutputsDone(cfg, r, now);
    var x := InputStep(cfg, o, LOCAL_PORT, now);
    var y := InputStep(cfg, x, UPPER_PORT, now);
    var z := InputStep(cfg, y, LOWER_PORT, now);
    LockedStart(cfg, r, now);
    OutputsFlow(cfg, r, now);
    BudgetOutputs(cfg, r, now);
    LockedInput(cfg, o, LOCAL_PORT, now, UPPER_PORT);
    InputFlow(cfg, o, LOCAL_PORT, now);
    BudgetInput(cfg, o, LOCAL_PORT, now);
    LockedInput(cfg, x, UPPER_PORT, now, LOWER_PORT);
    InputFlow(cfg, x, UPPER_PORT, now);
    BudgetInput(cfg, x, UPPER_PORT, now);
    BudgetInput(cfg, y, LOWER_PORT, now);
    CrossbarSame(z);
    OtherOuts(cfg, z, LOCAL_PORT, now);
    BudgetSame(cfg, z, CrossbarStep(z));
  }
}
