/** The leak of the ACK2 branch is reached.  Two routers exchange packets on
    channel 4; router 1 sends in every cycle, so it acknowledges nothing, and its
    count outgrows the field. */
module RouterLeak {
  import opened Flits
  import opened Router
  import opened Packets
  import opened RouterCredit
  import opened RouterFlow
  import opened RouterNetwork
  import opened RouterTheorems
  import opened RouterTrack
  import RouterWormhole
  import RouterTidy
  import RouterBudget
  import RouterRoute

  const COUNT: nat := 16

  /** The first 16 flits of a packet. */
  function Packet(dst: Bits): (s: seq<Flit>)
    ensures |s| == COUNT && s[0] == Flit(FHead, dst) && forall k :: 0 < k < COUNT ==> s[k] == Flit(FData, 0)
  {
    seq(COUNT, k requires 0 <= k < COUNT => if k == 0 then Flit(FHead, dst) else Flit(FData, 0))
  }

  function Entries(s: seq<Flit>): (w: seq<Entry>)
    ensures |w| == |s| && forall k :: 0 <= k < |s| ==> w[k] == Entry(s[k], V)
  {
    seq(|s|, k requires 0 <= k < |s| => Entry(s[k], V))
  }

  lemma {:induction false} DataLegal(packetMax: int, s: seq<Flit>, j: nat)
    requires 0 < j && j + |s| < packetMax && forall k :: 0 <= k < |s| ==> s[k] == Flit(FData, 0)
    ensures Legal(packetMax, s, j)
  {
    if s != [] { DataLegal(packetMax, s[1..], j + 1); }
  }

  lemma PacketLegal(packetMax: int, dst: Bits, k: nat)
    requires packetMax > COUNT && k <= COUNT
    ensures Legal(packetMax, Packet(dst)[..k], 0)
  {
    if k > 0 { DataLegal(packetMax, Packet(dst)[..k][1..], 1); }
  }

  lemma {:induction false} EntriesOnWire(s: seq<Flit>)
    requires forall k :: 0 <= k < |s| ==> !IsAck(s[k])
    ensures WireOf(Entries(s), V) == s
  {
    if s != [] {
      assert Entries(s)[1..] == Entries(s[1..]);
      EntriesOnWire(s[1..]);
    }
  }

  // ---- runs, one event longer ----

  predicate Reached(cfg: Config, events: seq<Event>, n: Network) {
    RunOf(cfg, Chain(2), events, n) && NetSized(n) && |n| == 2
  }

  lemma {:induction false} Longer(cfg: Config, a: Network, events: seq<Event>, b: Network, e: Event)
    requires RunOf(cfg, a, events, b) && NetSized(b) && e.k < |b| && (e.Feed? ==> FeedLegal(cfg, b, e.k, e.e))
    ensures RunOf(cfg, a, events + [e], Happen(cfg, b, e))
    decreases |events|
  {
    hide NetSized, FeedLegal, Happen;
    if events == [] {
      assert (events + [e])[1..] == [];
    } else {
      assert (events + [e])[1..] == events[1..] + [e];
      Longer(cfg, Happen(cfg, a, events[0]), events[1..], b, e);
    }
  }

  lemma Extend(cfg: Config, events: seq<Event>, n: Network, e: Event)
    requires 1 <= cfg.packetMax <= cfg.bufMax
    requires Reached(cfg, events, n) && e.k < 2 && (e.Feed? ==> FeedLegal(cfg, n, e.k, e.e))
    ensures Reached(cfg, events + [e], Happen(cfg, n, e))
  {
    hide Chain, FeedLegal, NetSized, RunOf, RouterOk, Duplex, RouterStep;
    Longer(cfg, Chain(2), events, n, e);
    NetworkSafe(cfg, 2, events + [e], Happen(cfg, n, e));
  }

  // ---- the packets are handed over ----

  function Fed0(id: nat, w: seq<Entry>): RouterState { Fresh(id).(wires := [w, [], []]) }

  lemma FeedOne(cfg: Config, id: nat, dst: Bits, k: nat)
    requires cfg.packetMax > COUNT && k < COUNT && Sized(Fed0(id, Entries(Packet(dst)[..k])))
    ensures Legal(cfg.packetMax, Arrived(Fed0(id, Entries(Packet(dst)[..k])), LOCAL_PORT, V) + [Packet(dst)[k]], 0)
    ensures Fed(Fed0(id, Entries(Packet(dst)[..k])), LOCAL_PORT, [Entry(Packet(dst)[k], V)]) == Fed0(id, Entries(Packet(dst)[..k + 1]))
  {
    hide Legal, WireOf;
    var r := Fed0(id, Entries(Packet(dst)[..k]));
    EntriesOnWire(Packet(dst)[..k]);
    assert Arrived(r, LOCAL_PORT, V) == Packet(dst)[..k];
    assert Packet(dst)[..k] + [Packet(dst)[k]] == Packet(dst)[..k + 1];
    PacketLegal(cfg.packetMax, dst, k + 1);
    assert Entries(Packet(dst)[..k]) + [Entry(Packet(dst)[k], V)] == Entries(Packet(dst)[..k + 1]);
  }

  lemma Start(id: nat)
    ensures Fed0(id, Entries(Packet(0)[..0])) == Fresh(id) && Sized(Fresh(id))
    ensures Packet(1)[..0] == Packet(0)[..0]
  {
    assert Entries(Packet(0)[..0]) == [];
  }

  lemma FeedStep(cfg: Config, events: seq<Event>, n: Network, id: nat, dst: Bits, k: nat)
    requires COUNT < cfg.packetMax <= cfg.bufMax && id < 2 && k < COUNT
    requires Reached(cfg, events, n) && n[id] == Fed0(id, Entries(Packet(dst)[..k]))
    ensures var e := Event.Feed(id, Entry(Packet(dst)[k], V));
            Reached(cfg, events + [e], n[id := Fed0(id, Entries(Packet(dst)[..k + 1]))])
  {
    hide Fresh, Fed0, Legal, RunOf, Sized, Arrived;
    FeedOne(cfg, id, dst, k);
    Extend(cfg, events, n, Event.Feed(id, Entry(Packet(dst)[k], V)));
  }

  lemma {:induction false} FeedPacket(cfg: Config, events: seq<Event>, n: Network, id: nat, dst: Bits, k: nat) returns (es: seq<Event>)
    requires COUNT < cfg.packetMax <= cfg.bufMax && id < 2 && k <= COUNT
    requires Reached(cfg, events, n) && n[id] == Fed0(id, Entries(Packet(dst)[..k]))
    ensures Reached(cfg, es, n[id := Fed0(id, Entries(Packet(dst)))])
    decreases COUNT - k
  {
    hide Fresh, Fed0, RunOf, NetSized;
    if k == COUNT {
      es := events;
      assert Packet(dst)[..k] == Packet(dst);
      assert n[id := n[id]] == n;
    } else {
      FeedStep(cfg, events, n, id, dst, k);
      var n' := n[id := Fed0(id, Entries(Packet(dst)[..k + 1]))];
      es := FeedPacket(cfg, events + [Event.Feed(id, Entry(Packet(dst)[k], V))], n', id, dst, k + 1);
      assert n'[id := Fed0(id, Entries(Packet(dst)))] == n[id := Fed0(id, Entries(Packet(dst)))];
    }
  }

  lemma FeedBoth(cfg: Config) returns (es: seq<Event>)
    requires COUNT < cfg.packetMax <= cfg.bufMax
    ensures Reached(cfg, es, [Fed0(0, Entries(Packet(1))), Fed0(1, Entries(Packet(0)))])
  {
    hide Fresh, Fed0, NetSized;
    Start(0);
    Start(1);
    NetworkSafe(cfg, 2, [], Chain(2));
    assert Reached(cfg, [], Chain(2)) by { hide Fed0; }
    assert Chain(2) == [Fresh(0), Fresh(1)];
    es := FeedPacket(cfg, [], Chain(2), 0, 1, 0);
    var n := Chain(2)[0 := Fed0(0, Entries(Packet(1)))];
    es := FeedPacket(cfg, es, n, 1, 0, 0);
    assert n[1 := Fed0(1, Entries(Packet(0)))] == [Fed0(0, Entries(Packet(1))), Fed0(1, Entries(Packet(0)))];
  }

  // ---- router 0 sends its packet ----

  /** Router 1 before it has worked, with w at its upper port. */
  function Ahead(w: seq<Entry>): RouterState { Fresh(1).(wires := [Entries(Packet(0)), [], w]) }

  /** The packet of router 0: what has reached the link, what waits in the output,
      what is still to cross. */
  predicate Crossing(n: Network, w: seq<Entry>, ph: Phase)
    requires NetSized(n)
  {
    && |n| == 2 && n[0].id == 0 && n[1] == Ahead(w)
    && Track(n[0], LOWER_PORT, false, ph) && AllPrimed(n[0].outs)
    && w + n[0].outs[LOWER_PORT].obuf + Entries(Todo(n[0], LOCAL_PORT)) == Entries(Packet(1))
    && (ph != Flowing ==> w == [])
  }

  lemma TailFits(w: seq<Entry>, s: seq<Flit>, b: seq<Flit>, ph: Phase)
    requires w + Entries(s) == Entries(Packet(1)) && (ph == Idle ==> w == []) && (b != [] ==> s != [] && b[0] == s[0])
    ensures Fits(b, 0, LOWER_PORT, ph)
  {
    if s != [] {
      assert (w + Entries(s))[|w|] == Entries(s)[0];
      assert Entries(Packet(1))[|w|].flit == s[0];
    }
  }

  lemma CrossStep(cfg: Config, n: Network, m: Network, w: seq<Entry>, ph: Phase, now: nat)
    requires NetSized(n) && Crossing(n, w, ph) && now > 0 && m == StepNet(cfg, n, 0, now) && NetSized(m)
    ensures Crossing(m, w + n[0].outs[LOWER_PORT].obuf, NextPhase(ph, Holds(n[0], LOCAL_PORT)))
    ensures Todo(m[0], LOCAL_PORT) == Left(n[0], LOCAL_PORT, ph) && (Supplied(n[0], LOCAL_PORT) ==> Eager(m[0], LOCAL_PORT))
    ensures |m[0].outs[LOWER_PORT].obuf| == if Pops(n[0], LOCAL_PORT, ph) then 1 else 0
  {
    hide Track, RouterStep, SizedOut, Fresh, AllPrimed, Fits;
    var r := n[0];
    BufferEmpty(r, ph);
    TailFits(w + r.outs[LOWER_PORT].obuf, Todo(r, LOCAL_PORT), r.ins[LOCAL_PORT].vcs[V].ibuf, ph);
    OneNext(cfg, r, ph, now);
    assert m[0] == Next(cfg, r, now) && m[1] == Ahead(w + r.outs[LOWER_PORT].obuf);
    Shift(w, r.outs[LOWER_PORT].obuf, Todo(r, LOCAL_PORT), Pops(r, LOCAL_PORT, ph));
  }

  lemma Shift(w: seq<Entry>, b: seq<Entry>, s: seq<Flit>, pops: bool)
    requires pops ==> s != []
    ensures w + b + Entries(s) == if pops then (w + b) + [Entry(s[0], V)] + Entries(s[1..]) else (w + b) + [] + Entries(s)
  {
    if pops { assert Entries(s) == [Entry(s[0], V)] + Entries(s[1..]); }
  }

  function Rank(ph: Phase): nat {
    match ph
    case Idle => 3
    case Steered => 2
    case Picked => 1
    case Flowing => 0
  }

  lemma CrossStart(n: Network)
    requires n == [Fed0(0, Entries(Packet(1))), Fed0(1, Entries(Packet(0)))] && NetSized(n)
    ensures Crossing(n, [], Idle) && n[0].wires[LOCAL_PORT] != []
  {
    assert n[0].ins[LOCAL_PORT].vcs[V].ibuf == [];
    assert Todo(n[0], LOCAL_PORT) == Packet(1);
  }

  /** Router 0 works until its packet is on the link. */
  lemma Cross(cfg: Config, events: seq<Event>, n: Network, w: seq<Entry>, ph: Phase, now: nat) returns (es: seq<Event>, m: Network, later: nat)
    requires 1 <= cfg.packetMax <= cfg.bufMax && now > 0
    requires Reached(cfg, events, n) && Crossing(n, w, ph)
    requires Supplied(n[0], LOCAL_PORT)
    ensures Reached(cfg, es, m) && m[1] == Ahead(Entries(Packet(1))) && later > 0
    decreases !Eager(n[0], LOCAL_PORT), Rank(ph) + 2 * |Todo(n[0], LOCAL_PORT)| + |n[0].outs[LOWER_PORT].obuf|
  {
    hide Track, RouterStep, SizedOut, Fresh, AllPrimed, RunOf, StepNet;
    if Todo(n[0], LOCAL_PORT) == [] && n[0].outs[LOWER_PORT].obuf == [] {
      assert Entries([]) == [];
      assert w + [] + [] == w;
      es, m, later := events, n, now;
    } else {
      Extend(cfg, events, n, Step(0, now));
      var n' := StepNet(cfg, n, 0, now);
      CrossStep(cfg, n, n', w, ph, now);
      es, m, later := Cross(cfg, events + [Step(0, now)], n', w + n[0].outs[LOWER_PORT].obuf,
                            NextPhase(ph, Holds(n[0], LOCAL_PORT)), now + 1);
    }
  }

  lemma BufferEmpty(r: RouterState, ph: Phase)
    requires Sized(r) && Track(r, LOWER_PORT, false, ph)
    ensures ph != Flowing ==> r.outs[LOWER_PORT].obuf == []
  {
  }

  // ---- router 1 exchanges its packet for the one that has arrived ----

  /** Both packets have lost their first j flits, and j acknowledgements are due. */
  predicate Exchange(r: RouterState, ph: Phase, j: nat)
    requires Sized(r)
  {
    && r.id == 1 && j <= COUNT && Track(r, UPPER_PORT, true, ph) && AllPrimed(r.outs) && Paired(r)
    && Todo(r, LOCAL_PORT) == Packet(0)[j..] && Todo(r, UPPER_PORT) == Packet(1)[j..]
    && r.outs[UPPER_PORT].ackCount[V] == j
    && (ph != Flowing ==> j == 0) && (j == 0 ==> NoCounts(r.outs[UPPER_PORT]))
    && (Eager(r, LOCAL_PORT) || (ph == Idle && r.wires[LOCAL_PORT] != []))
  }

  lemma PacketFits(dst: Bits, j: nat, b: seq<Flit>, w: seq<Flit>, q: nat, ph: Phase)
    requires j <= COUNT && b + w == Packet(dst)[j..] && (ph == Idle ==> j == 0 && RouteTo(1, (dst & 3) as int) == q)
    ensures Fits(b, 1, q, ph)
  {
    if b != [] {
      assert (b + w)[0] == b[0];
      assert Packet(dst)[j..][0] == Packet(dst)[j];
    }
  }

  /** j == COUNT: the last flit leaves, and the count stays. */
  predicate Full(r: RouterState)
    requires Sized(r)
  {
    var o := r.outs[UPPER_PORT];
    o.obuf == [] && o.ackEnabled && o.ackCount[V] == COUNT
  }

  lemma ExchangeFits(r: RouterState, ph: Phase, j: nat)
    requires Sized(r) && Exchange(r, ph, j)
    ensures Fitting(r, UPPER_PORT, true, ph) && Supplied(r, LOCAL_PORT)
    ensures j <= COUNT && Pops(r, UPPER_PORT, ph) == Pops(r, LOCAL_PORT, ph)
    ensures j < COUNT && Eager(r, LOCAL_PORT) ==> Holds(r, LOCAL_PORT)
    ensures Holds(r, LOCAL_PORT) ==> j < COUNT
    ensures !Holds(r, LOCAL_PORT) && j < COUNT ==> !Eager(r, LOCAL_PORT) && j == 0
  {
    hide Track, SizedOut, AllPrimed, Fits, NoCounts;
    PacketFits(0, j, r.ins[LOCAL_PORT].vcs[V].ibuf, FlitsOf(r.wires[LOCAL_PORT]), UPPER_PORT, ph);
    PacketFits(1, j, r.ins[UPPER_PORT].vcs[V].ibuf, FlitsOf(r.wires[UPPER_PORT]), LOCAL_PORT, ph);
    assert |Todo(r, LOCAL_PORT)| == COUNT - j;
  }

  lemma ExchangeStep(cfg: Config, r: RouterState, ph: Phase, j: nat, now: nat)
    requires Sized(r) && Exchange(r, ph, j) && now > 0
    ensures var c := Next(cfg, r, now);
            Eager(c, LOCAL_PORT) &&
            if j < COUNT then Exchange(c, NextPhase(ph, Holds(r, LOCAL_PORT)), if Pops(r, LOCAL_PORT, ph) then j + 1 else j)
            else Full(c)
  {
    hide Track, RouterStep, SizedOut, AllPrimed, Fitting, Next, Todo, Eager, Paired;
    ExchangeFits(r, ph, j);
    BothNext(cfg, r, ph, now);
    BothPaired(cfg, r, ph, now);
    BothCount(cfg, r, ph, now);
  }

  lemma WorkedAt(cfg: Config, n: Network, now: nat)
    requires NetSized(n) && |n| == 2
    ensures StepNet(cfg, n, 1, now)[1] == Next(cfg, n[1], now)
  {
    hide RouterStep, SizedOut;
  }

  /** Router 1 works until both packets have crossed. */
  lemma ExchangeAll(cfg: Config, events: seq<Event>, n: Network, ph: Phase, j: nat, now: nat) returns (es: seq<Event>, m: Network)
    requires 1 <= cfg.packetMax <= cfg.bufMax && now > 0
    requires Reached(cfg, events, n) && Exchange(n[1], ph, j)
    ensures Reached(cfg, es, m) && Full(m[1])
    decreases !Eager(n[1], LOCAL_PORT), Rank(ph) + COUNT - j
  {
    hide Exchange, RouterStep, SizedOut, RunOf, Full, StepNet, Next, Todo, Eager;
    Extend(cfg, events, n, Step(1, now));
    ExchangeFits(n[1], ph, j);
    ExchangeStep(cfg, n[1], ph, j, now);
    WorkedAt(cfg, n, now);
    var n' := StepNet(cfg, n, 1, now);
    if j == COUNT {
      es, m := events + [Step(1, now)], n';
    } else {
      es, m := ExchangeAll(cfg, events + [Step(1, now)], n', NextPhase(ph, Holds(n[1], LOCAL_PORT)),
                           if Pops(n[1], LOCAL_PORT, ph) then j + 1 else j, now + 1);
    }
  }

  lemma ExchangeStart(r: RouterState)
    requires r == Ahead(Entries(Packet(1))) && Sized(r)
    ensures Exchange(r, Idle, 0)
  {
    assert r.ins[LOCAL_PORT].vcs[V].ibuf == [] && r.ins[UPPER_PORT].vcs[V].ibuf == [];
    assert Todo(r, LOCAL_PORT) == Packet(0) && Todo(r, UPPER_PORT) == Packet(1);
  }

  /** Two routers reach a state, covered by NetworkSafe, in which the count of
      channel 4 has outgrown its field and nothing waits to be sent: from the
      packet length of 17 flits on, that is, from cache blocks of 64 bytes.
      The next acknowledgement duplicates 15 credits. */
  lemma LeakReached(cfg: Config) returns (events: seq<Event>, end: Network)
    requires COUNT < cfg.packetMax <= cfg.bufMax
    ensures RunOf(cfg, Chain(2), events, end) && NetOk(cfg, end) && |end| == 2
    ensures Full(end[1])
    ensures forall now: nat :: now % 2 == 1 ==>
              OwedAt(RouterStep(cfg, end[1], now), UPPER_PORT, V) == OwedAt(end[1], UPPER_PORT, V) + ACK_COUNT_MAX
  {
    hide Track, RouterStep, SizedOut, AllPrimed, RunOf, RouterOk, Duplex, OwedAt, Exchange, Crossing, Todo;
    var es := FeedBoth(cfg);
    var n := [Fed0(0, Entries(Packet(1))), Fed0(1, Entries(Packet(0)))];
    CrossStart(n);
    var now;
    es, n, now := Cross(cfg, es, n, [], Idle, 1);
    ExchangeStart(n[1]);
    events, end := ExchangeAll(cfg, es, n, Idle, 0, now);
    NetworkSafe(cfg, 2, events, end);
    forall now: nat | now % 2 == 1
      ensures OwedAt(RouterStep(cfg, end[1], now), UPPER_PORT, V) == OwedAt(end[1], UPPER_PORT, V) + ACK_COUNT_MAX
    {
      OkAcks(cfg, end[1]);
      RouterLedger(cfg, end[1], now, UPPER_PORT, V);
    }
  }

  lemma OkAcks(cfg: Config, r: RouterState)
    requires Sized(r) && RouterOk(cfg, r)
    ensures AcksOnZero(r)
  {
    hide AcksOnZero, RouterWormhole.AtRest, FlowOk, RouterTidy.Tidy, RouterBudget.Budget, RouterRoute.Routed;
  }
}
