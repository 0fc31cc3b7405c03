/** A chain of routers: what holds in every reachable state of the network. */
module RouterNetwork {
  import opened Flits
  import opened Router
  import opened Packets
  import opened RouterCredit
  import opened RouterWormhole
  import opened RouterFlow
  import opened RouterTidy
  import opened RouterBudget
  import opened RouterRoute

  /** Router k's upper port is wired to router k - 1's lower port. */
  type Network = seq<RouterState>

  predicate NetSized(n: Network) { forall k :: 0 <= k < |n| ==> Sized(n[k]) }

  predicate Tagged(w: seq<Entry>) { forall k :: 0 <= k < |w| ==> w[k].vch < VCH_SIZE }

  /** A fresh router: every buffer empty, every output ready. */
  function Fresh(id: nat): RouterState {
    var vc := Vc(RC, LOCAL_PORT, false, [], 0);
    var input := Input(seq(VCH_SIZE, _ => vc), 0, false, 0);
    var local := Output(false, seq(VCH_SIZE, _ => true), [], [], seq(VCH_SIZE, _ => 0), seq(VCH_SIZE, _ => 0));
    RouterState(id, [input, input, input], [local, local.(ackEnabled := true), local.(ackEnabled := true)],
                [NOBODY, NOBODY, NOBODY], [false, false, false], [[], [], []], [[], [], []], seq(VCH_SIZE, _ => true), [])
  }

  // ---- one router with its surroundings ----

  /** What holds of every router between two cycles. */
  predicate RouterOk(cfg: Config, r: RouterState)
    requires Sized(r)
  {
    && AtRest(r) && FlowOk(cfg, r) && Tidy(r) && Budget(cfg, r) && AcksOnZero(r) && Routed(r)
    && r.outs[LOWER_PORT].ackEnabled && r.outs[UPPER_PORT].ackEnabled
    && (forall q: nat :: q < PORTS ==> r.out[q] == [])
  }

  /** The same, while the flits just sent are still to be delivered. */
  predicate Delivering(cfg: Config, r: RouterState)
    requires Sized(r)
  {
    && AtRest(r) && FlowOk(cfg, r) && Tidy(r) && Budget(cfg, r) && AcksOnZero(r) && Routed(r)
    && r.outs[LOWER_PORT].ackEnabled && r.outs[UPPER_PORT].ackEnabled
    && (forall q: nat :: q < PORTS ==> AcksLeaveOnZero(r.out[q]) && Tagged(r.out[q]))
  }

  lemma NoAcksYet(r: RouterState)
    requires Sized(r) && forall q: nat :: q < PORTS ==> r.out[q] == []
    ensures forall q: nat :: q < PORTS ==> AcksLeaveOnZero(r.out[q])
  {
  }

  lemma StepDelivers(cfg: Config, r: RouterState, now: nat)
    requires Sized(r) && RouterOk(cfg, r)
    ensures Delivering(cfg, RouterStep(cfg, r, now)) && Carries(r, RouterStep(cfg, r, now))
    ensures RouterStep(cfg, r, now).id == r.id
  {
    hide Sized, AtRest, FlowOk, Tidy, Budget, AcksOnZero, Routed, RouterStep, Carries, AcksLeaveOnZero, OwedAt, OutstandingAt, Leak;
    RestStep(cfg, r, now);
    StepFlow(cfg, r, now);
    TidyStep(cfg, r, now);
    BudgetStep(cfg, r, now);
    RoutedStep(cfg, r, now);
    OkSizes(r);
    RouterLedger(cfg, r, now, LOWER_PORT, 0);
    NoAcksYet(r);
    StepOut(cfg, r, now);
    StepTagged(cfg, r, now);
  }

  lemma OkSizes(r: RouterState)
    requires Sized(r)
    ensures |r.out| == PORTS && |r.outs| == PORTS && |r.wires| == PORTS
  {
  }

  lemma OutputTagged(cfg: Config, r: RouterState, q: nat, now: nat)
    requires Sized(r) && q < PORTS && forall u: nat :: u < PORTS ==> Tagged(r.out[u])
    ensures forall u: nat :: u < PORTS ==> Tagged(OutputPhase(cfg, r, q, now).out[u])
  {
    hide DecodeAck, MakeAck, AnyAck, AfterAck, UpdateReady, TakeCredit;
  }

  lemma StepTagged(cfg: Config, r: RouterState, now: nat)
    requires Sized(r) && forall u: nat :: u < PORTS ==> r.out[u] == []
    ensures forall u: nat :: u < PORTS ==> Tagged(RouterStep(cfg, r, now).out[u])
  {
    hide OutputPhase, InputStep, SizedOut, Tagged;
    var a := OutputPhase(cfg, r, LOCAL_PORT, now);
    var b := OutputPhase(cfg, a, UPPER_PORT, now);
    var o := OutputsDone(cfg, r, now);
    EmptyTagged();
    OutputTagged(cfg, r, LOCAL_PORT, now);
    OutputTagged(cfg, a, UPPER_PORT, now);
    OutputTagged(cfg, b, LOWER_PORT, now);
    var x := InputStep(cfg, o, LOCAL_PORT, now);
    var y := InputStep(cfg, x, UPPER_PORT, now);
    InputOut(cfg, o, LOCAL_PORT, now);
    InputOut(cfg, x, UPPER_PORT, now);
    InputOut(cfg, y, LOWER_PORT, now);
  }

  lemma EmptyTagged()
    ensures Tagged([])
  {
  }

  // ---- links ----

  /** Channels whose counts an acknowledgement flit can always carry: 0 to 3,
      whose counts are sent in instalments, or all when no buffer exceeds 15. */
  predicate CreditSafe(cfg: Config, v: nat) { v < ACK_ENTRY || cfg.bufMax <= ACK_COUNT_MAX }

  /** The link from output pa of a to input pb of b.  Everything that a sent is
      either at b or on its way, in order; and what a counts as outstanding is
      what b has not yet acknowledged. */
  predicate LinkOk(cfg: Config, a: RouterState, pa: nat, b: RouterState, pb: nat)
    requires Sized(a) && Sized(b) && pa < PORTS && pb < PORTS
  {
    forall v: nat :: v < VCH_SIZE ==>
      LogTo(a.log, pa, v) == Arrived(b, pb, v) + Leaving(a, pa, v)
      && (CreditSafe(cfg, v) ==> OutstandingAt(a, pa, v) == OwedAt(b, pb, v))
  }

  /** With small buffers, no count outgrows its field. */
  lemma SafeCount(cfg: Config, a: RouterState, pa: nat, b: RouterState, pb: nat, upper: bool, v: nat)
    requires Sized(a) && Sized(b) && pa < PORTS && pb < PORTS && v < VCH_SIZE && CreditSafe(cfg, v)
    requires LinkOk(cfg, b, pb, a, pa) && a.out[pa] == [] && b.out[pb] == [] && Budget(cfg, b) && b.outs[pb].ackEnabled
    ensures Leak(a.outs[pa], upper, v) == 0
  {
    hide DataIn, Credits, WireData, WireCredits, LogTo, Leaving, Arrived;
    NothingSent(v);
    assert BudgetAt(cfg, b, pb);
    assert ChannelBudget(cfg, b.outs[pb], v);
    assert OutstandingAt(b, pb, v) == OwedAt(a, pa, v);
  }

  /** A router's cycle keeps both directions of a link. */
  lemma StepLink(cfg: Config, a: RouterState, pa: nat, b: RouterState, pb: nat, now: nat)
    requires Sized(a) && Sized(b) && RouterOk(cfg, a) && RouterOk(cfg, b)
    requires (pa == LOWER_PORT && pb == UPPER_PORT) || (pa == UPPER_PORT && pb == LOWER_PORT)
    requires LinkOk(cfg, a, pa, b, pb) && LinkOk(cfg, b, pb, a, pa)
    ensures LinkOk(cfg, RouterStep(cfg, a, now), pa, b, pb) && LinkOk(cfg, b, pb, RouterStep(cfg, a, now), pa)
  {
    hide SizedOut, AtRest, FlowOk, Tidy, Budget, AcksOnZero, Routed, RouterStep, OwedAt, OutstandingAt, Leak, LogTo, LogFrom, Leaving, Waiting,
         CreditSafe, Arrived;
    var a' := RouterStep(cfg, a, now);
    StepFlow(cfg, a, now);
    forall v: nat | v < VCH_SIZE
      ensures LogTo(a'.log, pa, v) == Arrived(b, pb, v) + Leaving(a', pa, v)
      ensures LogTo(b.log, pb, v) == Arrived(a', pa, v) + Leaving(b, pb, v)
      ensures CreditSafe(cfg, v) ==> OutstandingAt(a', pa, v) == OwedAt(b, pb, v) && OutstandingAt(b, pb, v) == OwedAt(a', pa, v)
    {
      RouterLedger(cfg, a, now, pa, v);
      if CreditSafe(cfg, v) { SafeCount(cfg, a, pa, b, pb, now % 2 != 0, v); }
    }
  }

  function Emptied(a: RouterState, pa: nat): RouterState
    requires Sized(a) && pa < PORTS
  {
    a.(out := a.out[pa := []])
  }

  function Fed(b: RouterState, pb: nat, flits: seq<Entry>): RouterState
    requires Sized(b) && pb < PORTS
  {
    b.(wires := b.wires[pb := b.wires[pb] + flits])
  }

  lemma FedSized(b: RouterState, pb: nat, flits: seq<Entry>)
    requires Sized(b) && pb < PORTS && Tagged(flits)
    ensures Sized(Fed(b, pb, flits))
  {
  }

  lemma EmptiedSized(a: RouterState, pa: nat)
    requires Sized(a) && pa < PORTS
    ensures Sized(Emptied(a, pa))
  {
  }

  /** Delivery keeps both directions of a link. */
  lemma MoveLink(cfg: Config, a: RouterState, pa: nat, b: RouterState, pb: nat)
    requires Sized(a) && Sized(b) && pa < PORTS && pb < PORTS && Tagged(a.out[pa])
    requires LinkOk(cfg, a, pa, b, pb) && LinkOk(cfg, b, pb, a, pa)
    ensures Sized(Emptied(a, pa)) && Sized(Fed(b, pb, a.out[pa]))
    ensures LinkOk(cfg, Emptied(a, pa), pa, Fed(b, pb, a.out[pa]), pb)
    ensures LinkOk(cfg, Fed(b, pb, a.out[pa]), pb, Emptied(a, pa), pa)
  {
    hide SizedOut, LogTo, LogFrom, DataOf, WireOf, DataIn, Credits, WireData, WireCredits, CreditSafe;
    EmptiedSized(a, pa);
    FedSized(b, pb, a.out[pa]);
    var a', b' := Emptied(a, pa), Fed(b, pb, a.out[pa]);
    forall v: nat | v < VCH_SIZE
      ensures LogTo(a'.log, pa, v) == Arrived(b', pb, v) + Leaving(a', pa, v)
      ensures LogTo(b'.log, pb, v) == Arrived(a', pa, v) + Leaving(b', pb, v)
      ensures CreditSafe(cfg, v) ==> OutstandingAt(a', pa, v) == OwedAt(b', pb, v) && OutstandingAt(b', pb, v) == OwedAt(a', pa, v)
    {
      WireJoin(b.wires[pb], a.out[pa], v);
      WiresJoin(b.wires[pb], a.out[pa], v);
      NothingSent(v);
      NoWire(v);
    }
  }

  lemma NoWire(v: nat)
    ensures WireOf([], v) == []
  {
  }

  /** The port p of a router, and its history, are the same in two states. */
  predicate SamePort(a: RouterState, a': RouterState, p: nat)
    requires Sized(a) && Sized(a') && p < PORTS
  {
    a'.log == a.log && a'.ins[p] == a.ins[p] && a'.outs[p] == a.outs[p] && a'.wires[p] == a.wires[p] && a'.out[p] == a.out[p]
  }

  lemma LinkSame(cfg: Config, a: RouterState, a': RouterState, pa: nat, b: RouterState, b': RouterState, pb: nat)
    requires Sized(a) && Sized(a') && Sized(b) && Sized(b') && pa < PORTS && pb < PORTS
    requires SamePort(a, a', pa) && SamePort(b, b', pb) && LinkOk(cfg, a, pa, b, pb)
    ensures LinkOk(cfg, a', pa, b', pb)
  {
    hide LogTo, LogFrom, DataOf, WireOf, DataIn, Credits, WireData, WireCredits, CreditSafe;
  }

  function Cleared(a: RouterState): RouterState { a.(out := [[], [], []]) }

  lemma ClearedOk(cfg: Config, a: RouterState)
    requires Sized(a) && Delivering(cfg, a)
    ensures Sized(Cleared(a)) && RouterOk(cfg, Cleared(a))
  {
    hide Legal, After, LogFrom, LogTo, DataOf, WireOf, OwnerOf, NonInterleaved, Queued, RouteTo, HeadDst, FlowOk, Tidy, Budget;
    assert SameFlow(a, Cleared(a));
    FlowKept(cfg, a, Cleared(a));
    TidySame(a, Cleared(a));
    BudgetSame(cfg, a, Cleared(a));
  }

  /** A router that is fed what its neighbour sent stays in order. */
  lemma FedOk(cfg: Config, a: RouterState, pa: nat, b: RouterState, pb: nat, flits: seq<Entry>)
    requires Sized(a) && Sized(b) && pa < PORTS && pb < PORTS && Tagged(flits) && AcksLeaveOnZero(flits)
    requires RouterOk(cfg, b) && AllToOk(cfg, a) && Sized(Fed(b, pb, flits)) && LinkOk(cfg, a, pa, Fed(b, pb, flits), pb)
    ensures RouterOk(cfg, Fed(b, pb, flits))
  {
    hide Legal, After, LogFrom, LogTo, OwnerOf, NonInterleaved, Queued, RouteTo, HeadDst, Arrived, Leaving;
    var b' := Fed(b, pb, flits);
    forall i: nat, j: nat | i < PORTS && j < VCH_SIZE
      ensures Legal(cfg.packetMax, Arrived(b', i, j), 0)
    {
      if i == pb {
        assert ToOk(cfg, a, pa, j);
        LegalPrefix(cfg.packetMax, Arrived(b', pb, j), Leaving(a, pa, j), 0);
      } else {
        assert Arrived(b', i, j) == Arrived(b, i, j) by { FedArrived(b, pb, flits, i, j); }
      }
    }
    FedRest(cfg, b, pb, flits);
  }

  lemma FedArrived(b: RouterState, pb: nat, flits: seq<Entry>, i: nat, j: nat)
    requires Sized(b) && pb < PORTS && Sized(Fed(b, pb, flits)) && i < PORTS && j < VCH_SIZE
    ensures i != pb ==> Arrived(Fed(b, pb, flits), i, j) == Arrived(b, i, j)
    ensures Arrived(Fed(b, pb, flits), pb, j) == Arrived(b, pb, j) + WireOf(flits, j)
  {
    hide LogFrom, DataOf, WireOf;
    WireJoin(b.wires[pb], flits, j);
  }

  lemma FedRest(cfg: Config, b: RouterState, pb: nat, flits: seq<Entry>)
    requires Sized(b) && pb < PORTS && Sized(Fed(b, pb, flits)) && AcksLeaveOnZero(flits) && RouterOk(cfg, b)
    ensures var b' := Fed(b, pb, flits);
            && AtRest(b') && FromOk(cfg, b') && AllToOk(cfg, b') && Tidy(b') && Budget(cfg, b') && AcksOnZero(b') && Routed(b')
            && b'.outs == b.outs && b'.out == b.out
  {
    hide Legal, After, LogFrom, LogTo, OwnerOf, NonInterleaved, Queued, RouteTo, HeadDst, Arrived, Leaving, WellFed;
    FedZero(b, pb, flits);
    var b' := Fed(b, pb, flits);
    forall q: nat, v: nat | q < PORTS && v < VCH_SIZE
      ensures ToOk(cfg, b', q, v)
    {
      assert ToOk(cfg, b, q, v);
      assert forall a: nat :: a < PORTS ==> SendingTo(b', a, v, q) == SendingTo(b, a, v, q);
    }
    forall q: nat | q < PORTS
      ensures TidyAt(b', q) && BudgetAt(cfg, b', q)
    {
      assert TidyAt(b, q) && BudgetAt(cfg, b, q);
      assert forall a: nat, j: nat :: a < PORTS && j < VCH_SIZE ==> SendingTo(b', a, j, q) == SendingTo(b, a, j, q);
    }
  }

  lemma FedZero(b: RouterState, pb: nat, flits: seq<Entry>)
    requires Sized(b) && pb < PORTS && Sized(Fed(b, pb, flits)) && AcksLeaveOnZero(flits) && AcksOnZero(b)
    ensures AcksOnZero(Fed(b, pb, flits))
  {
    hide IsAck;
  }

  // ---- the whole chain ----

  /** Both directions of the link between router a and the next one. */
  predicate Duplex(cfg: Config, a: RouterState, b: RouterState)
    requires Sized(a) && Sized(b)
  {
    LinkOk(cfg, a, LOWER_PORT, b, UPPER_PORT) && LinkOk(cfg, b, UPPER_PORT, a, LOWER_PORT)
  }

  predicate NetOk(cfg: Config, n: Network) {
    && NetSized(n)
    && (forall k :: 0 <= k < |n| ==> RouterOk(cfg, n[k]) && n[k].id == k)
    && (forall k :: 0 < k < |n| ==> Duplex(cfg, n[k - 1], n[k]))
  }

  /** Router k works for one cycle; its neighbours find its flits at their ports. */
  function StepNet(cfg: Config, n: Network, k: nat, now: nat): Network
    requires NetSized(n) && k < |n|
  {
    var r := RouterStep(cfg, n[k], now);
    var here := n[k := Cleared(r)];
    var below := if k + 1 < |n| then here[k + 1 := Fed(n[k + 1], UPPER_PORT, r.out[LOWER_PORT])] else here;
    if k > 0 then below[k - 1 := Fed(n[k - 1], LOWER_PORT, r.out[UPPER_PORT])] else below
  }

  /** The network interface of router k hands over a flit. */
  function FeedNet(n: Network, k: nat, e: Entry): Network
    requires NetSized(n) && k < |n|
  {
    n[k := Fed(n[k], LOCAL_PORT, [e])]
  }

  /** A network interface sends whole packets on each channel. */
  predicate FeedLegal(cfg: Config, n: Network, k: nat, e: Entry)
    requires NetSized(n) && k < |n|
  {
    e.vch < VCH_SIZE && !IsAck(e.flit) && Legal(cfg.packetMax, Arrived(n[k], LOCAL_PORT, e.vch) + [e.flit], 0)
  }

  /** The stepping router and a neighbour b, before and after. */
  lemma NeighbourStep(cfg: Config, a: RouterState, pa: nat, b: RouterState, pb: nat, now: nat)
    requires Sized(a) && Sized(b) && RouterOk(cfg, a) && RouterOk(cfg, b)
    requires (pa == LOWER_PORT && pb == UPPER_PORT) || (pa == UPPER_PORT && pb == LOWER_PORT)
    requires LinkOk(cfg, a, pa, b, pb) && LinkOk(cfg, b, pb, a, pa)
    ensures var r := RouterStep(cfg, a, now);
            var b' := Fed(b, pb, r.out[pa]);
            && Sized(Cleared(r)) && Sized(b') && RouterOk(cfg, b') && b'.id == b.id
            && LinkOk(cfg, Cleared(r), pa, b', pb) && LinkOk(cfg, b', pb, Cleared(r), pa)
  {
    hide SizedOut, AtRest, FlowOk, Tidy, Budget, AcksOnZero, Routed, RouterStep, LinkOk, AllToOk, Tagged, AcksLeaveOnZero, WellFed, FromOk;
    var r := RouterStep(cfg, a, now);
    StepDelivers(cfg, a, now);
    StepLink(cfg, a, pa, b, pb, now);
    MoveLink(cfg, r, pa, b, pb);
    ClearedOk(cfg, r);
    var b' := Fed(b, pb, r.out[pa]);
    LinkSame(cfg, Emptied(r, pa), Cleared(r), pa, b', b', pb);
    LinkSame(cfg, b', b', pb, Emptied(r, pa), Cleared(r), pa);
    ToOkOf(cfg, Cleared(r));
    FedOk(cfg, Cleared(r), pa, b, pb, r.out[pa]);
  }

  lemma ToOkOf(cfg: Config, r: RouterState)
    requires Sized(r) && RouterOk(cfg, r)
    ensures AllToOk(cfg, r)
  {
    hide AllToOk, WellFed, FromOk, AtRest, Tidy, Budget, AcksOnZero, Routed;
  }

  /** Feeding one port leaves the links at the other ports alone. */
  lemma FarLink(cfg: Config, b: RouterState, pb: nat, flits: seq<Entry>, p: nat, c: RouterState, pc: nat)
    requires Sized(b) && pb < PORTS && Sized(Fed(b, pb, flits)) && Sized(c) && p < PORTS && pc < PORTS && p != pb
    requires LinkOk(cfg, b, p, c, pc) && LinkOk(cfg, c, pc, b, p)
    ensures LinkOk(cfg, Fed(b, pb, flits), p, c, pc) && LinkOk(cfg, c, pc, Fed(b, pb, flits), p)
  {
    hide LinkOk, SizedOut;
    LinkSame(cfg, b, Fed(b, pb, flits), p, c, c, pc);
    LinkSame(cfg, c, c, pc, b, Fed(b, pb, flits), p);
  }

  lemma SelfOk(cfg: Config, a: RouterState, now: nat)
    requires Sized(a) && RouterOk(cfg, a)
    ensures Sized(Cleared(RouterStep(cfg, a, now))) && RouterOk(cfg, Cleared(RouterStep(cfg, a, now)))
    ensures Cleared(RouterStep(cfg, a, now)).id == a.id
  {
    hide RouterOk, RouterStep, Delivering, Sized;
    StepDelivers(cfg, a, now);
    ClearedOk(cfg, RouterStep(cfg, a, now));
  }

  /** A cycle of any router keeps the whole network in order. */
  lemma NetStep(cfg: Config, n: Network, k: nat, now: nat)
    requires NetOk(cfg, n) && k < |n|
    ensures NetOk(cfg, StepNet(cfg, n, k, now))
  {
    hide RouterOk, RouterStep, SizedOut, LinkOk, SizedVcs;
    var r := RouterStep(cfg, n[k], now);
    SelfOk(cfg, n[k], now);
    if k + 1 < |n| {
      assert Duplex(cfg, n[k + 1 - 1], n[k + 1]);
      NeighbourStep(cfg, n[k], LOWER_PORT, n[k + 1], UPPER_PORT, now);
      if k + 2 < |n| {
        assert Duplex(cfg, n[k + 2 - 1], n[k + 2]);
        FarLink(cfg, n[k + 1], UPPER_PORT, r.out[LOWER_PORT], LOWER_PORT, n[k + 2], UPPER_PORT);
      }
    }
    if k > 0 {
      assert Duplex(cfg, n[k - 1], n[k]);
      NeighbourStep(cfg, n[k], UPPER_PORT, n[k - 1], LOWER_PORT, now);
      if k > 1 {
        assert Duplex(cfg, n[k - 1 - 1], n[k - 1]);
        FarLink(cfg, n[k - 1], LOWER_PORT, r.out[UPPER_PORT], UPPER_PORT, n[k - 2], LOWER_PORT);
      }
    }
  }

  lemma LocalFeedOk(cfg: Config, n: Network, k: nat, e: Entry)
    requires NetOk(cfg, n) && k < |n| && FeedLegal(cfg, n, k, e)
    ensures Sized(Fed(n[k], LOCAL_PORT, [e])) && RouterOk(cfg, Fed(n[k], LOCAL_PORT, [e]))
  {
    hide Legal, After, LogFrom, LogTo, OwnerOf, NonInterleaved, Queued, RouteTo, HeadDst, Arrived, Leaving, LinkOk;
    var b := n[k];
    FedSized(b, LOCAL_PORT, [e]);
    var b' := Fed(b, LOCAL_PORT, [e]);
    FedRest(cfg, b, LOCAL_PORT, [e]);
    forall i: nat, j: nat | i < PORTS && j < VCH_SIZE
      ensures Legal(cfg.packetMax, Arrived(b', i, j), 0)
    {
      FedArrived(b, LOCAL_PORT, [e], i, j);
      WireOne(e, j);
      assert Legal(cfg.packetMax, Arrived(b, i, j), 0);
      assert Arrived(b, LOCAL_PORT, j) + [] == Arrived(b, LOCAL_PORT, j);
    }
  }

  lemma NetFeed(cfg: Config, n: Network, k: nat, e: Entry)
    requires NetOk(cfg, n) && k < |n| && FeedLegal(cfg, n, k, e)
    ensures NetOk(cfg, FeedNet(n, k, e))
  {
    hide RouterOk, SizedOut, LinkOk, SizedVcs, FeedLegal;
    LocalFeedOk(cfg, n, k, e);
    if k + 1 < |n| {
      assert Duplex(cfg, n[k + 1 - 1], n[k + 1]);
      FarLink(cfg, n[k], LOCAL_PORT, [e], LOWER_PORT, n[k + 1], UPPER_PORT);
    }
    if k > 0 {
      assert Duplex(cfg, n[k - 1], n[k]);
      FarLink(cfg, n[k], LOCAL_PORT, [e], UPPER_PORT, n[k - 1], LOWER_PORT);
    }
  }

  // ---- runs ----

  /** A router works at some time, or a network interface hands over a flit. */
  datatype Event = Step(k: nat, now: nat) | Feed(k: nat, e: Entry)

  function Happen(cfg: Config, n: Network, e: Event): Network
    requires NetSized(n) && e.k < |n|
  {
    match e
    case Step(k, now) => StepNet(cfg, n, k, now)
    case Feed(k, entry) => FeedNet(n, k, entry)
  }

  /** The events of a run, with every network interface sending whole packets. */
  predicate RunOf(cfg: Config, n: Network, events: seq<Event>, end: Network)
    decreases |events|
  {
    if events == [] then end == n
    else
      && NetSized(n) && events[0].k < |n|
      && (events[0].Feed? ==> FeedLegal(cfg, n, events[0].k, events[0].e))
      && RunOf(cfg, Happen(cfg, n, events[0]), events[1..], end)
  }

  function Chain(count: nat): Network { seq(count, k requires 0 <= k < count => Fresh(k)) }

  lemma FreshFlow(cfg: Config, id: nat)
    requires 1 <= cfg.packetMax <= cfg.bufMax
    ensures Sized(Fresh(id)) && AtRest(Fresh(id)) && FlowOk(cfg, Fresh(id)) && Tidy(Fresh(id)) && Budget(cfg, Fresh(id))
  {
    hide RouteTo, HeadDst;
    var r := Fresh(id);
    assert forall a: nat, j: nat :: a < PORTS && j < VCH_SIZE ==> r.ins[a].vcs[j] == Vc(RC, LOCAL_PORT, false, [], 0);
    assert forall q: nat :: q < PORTS ==> r.outs[q].obuf == [] && r.wires[q] == [] && r.out[q] == [];
  }

  lemma FreshRouter(cfg: Config, id: nat)
    requires 1 <= cfg.packetMax <= cfg.bufMax
    ensures Sized(Fresh(id)) && RouterOk(cfg, Fresh(id))
  {
    hide AtRest, FlowOk, Tidy, Budget, RouteTo, HeadDst;
    FreshFlow(cfg, id);
    var r := Fresh(id);
    assert forall a: nat, j: nat :: a < PORTS && j < VCH_SIZE ==> r.ins[a].vcs[j] == Vc(RC, LOCAL_PORT, false, [], 0);
    assert forall q: nat :: q < PORTS ==> r.outs[q].obuf == [] && r.outs[q].iackbuf == [] && r.wires[q] == [] && r.out[q] == [];
  }

  lemma FreshOrder(i: nat, j: nat, pa: nat, pb: nat, v: nat)
    requires pa < PORTS && pb < PORTS && v < VCH_SIZE && Sized(Fresh(i)) && Sized(Fresh(j))
    ensures LogTo(Fresh(i).log, pa, v) == Arrived(Fresh(j), pb, v) + Leaving(Fresh(i), pa, v)
  {
    var a, b := Fresh(i), Fresh(j);
    assert a.outs[pa].obuf == [] && a.wires[pa] == [] && a.out[pa] == [];
    assert b.ins[pb].vcs[v].ibuf == [];
  }

  lemma FreshCredit(i: nat, j: nat, pa: nat, pb: nat, v: nat)
    requires pa < PORTS && pb < PORTS && v < VCH_SIZE && Sized(Fresh(i)) && Sized(Fresh(j))
    ensures OutstandingAt(Fresh(i), pa, v) == OwedAt(Fresh(j), pb, v)
  {
    var a, b := Fresh(i), Fresh(j);
    assert a.outs[pa].obuf == [] && a.outs[pa].iackbuf == [] && a.wires[pa] == [] && a.out[pa] == [];
    assert b.outs[pb].obuf == [] && b.outs[pb].iackbuf == [] && b.wires[pb] == [] && b.out[pb] == [];
    assert a.ins[pa].vcs[v].ibuf == [] && b.ins[pb].vcs[v].ibuf == [];
  }

  lemma FreshLink(cfg: Config, i: nat, j: nat, pa: nat, pb: nat)
    requires pa < PORTS && pb < PORTS && Sized(Fresh(i)) && Sized(Fresh(j))
    ensures LinkOk(cfg, Fresh(i), pa, Fresh(j), pb)
  {
    hide Fresh, LogTo, Arrived, Leaving, OutstandingAt, OwedAt, Sized;
    forall v: nat | v < VCH_SIZE
      ensures LogTo(Fresh(i).log, pa, v) == Arrived(Fresh(j), pb, v) + Leaving(Fresh(i), pa, v)
      ensures OutstandingAt(Fresh(i), pa, v) == OwedAt(Fresh(j), pb, v)
    {
      FreshOrder(i, j, pa, pb, v);
      FreshCredit(i, j, pa, pb, v);
    }
  }

  lemma FreshNet(cfg: Config, count: nat)
    requires 1 <= cfg.packetMax <= cfg.bufMax
    ensures NetOk(cfg, Chain(count))
  {
    hide RouterOk, LinkOk, Fresh;
    forall k: nat | k < count
      ensures Sized(Fresh(k)) && RouterOk(cfg, Fresh(k)) && Fresh(k).id == k
    {
      FreshRouter(cfg, k);
      FreshId(k);
    }
    forall k | 0 < k < count
      ensures Duplex(cfg, Fresh(k - 1), Fresh(k))
    {
      FreshLink(cfg, k - 1, k, LOWER_PORT, UPPER_PORT);
      FreshLink(cfg, k, k - 1, UPPER_PORT, LOWER_PORT);
    }
  }

  lemma FreshId(k: nat)
    ensures Fresh(k).id == k
  {
  }

  lemma {:induction false} RunKeeps(cfg: Config, n: Network, events: seq<Event>, end: Network)
    requires NetOk(cfg, n) && RunOf(cfg, n, events, end)
    ensures NetOk(cfg, end)
    decreases |events|
  {
    hide NetOk, NetSized, StepNet, FeedNet, FeedLegal;
    if events != [] {
      match events[0] {
        case Step(k, now) => NetStep(cfg, n, k, now);
        case Feed(k, e) => NetFeed(cfg, n, k, e);
      }
      RunKeeps(cfg, Happen(cfg, n, events[0]), events[1..], end);
    }
  }

  /** Main theorem.  In every state that a chain of any length reaches, under any
      schedule of its routers and any whole packets from its network interfaces,
      every router and every link is in order. */
  lemma NetworkSafe(cfg: Config, count: nat, events: seq<Event>, end: Network)
    requires 1 <= cfg.packetMax <= cfg.bufMax && RunOf(cfg, Chain(count), events, end)
    ensures NetOk(cfg, end)
  {
    hide NetOk, RunOf, Chain;
    FreshNet(cfg, count);
    RunKeeps(cfg, Chain(count), events, end);
  }
}
