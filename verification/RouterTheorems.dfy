/** What the network invariant means, property by property. */
module RouterTheorems {
  import opened Flits
  import opened Router
  import opened Packets
  import opened RouterCredit
  import opened RouterWormhole
  import opened RouterFlow
  import opened RouterTidy
  import opened RouterBudget
  import opened RouterRoute
  import opened RouterNetwork

  /** The account of a sender's count, item by item. */
  function Account(a: RouterState, pa: nat, b: RouterState, pb: nat, v: nat): int
    requires Sized(a) && Sized(b) && pa < PORTS && pb < PORTS && v < VCH_SIZE
  {
    WireData(b.wires[pb], v) + DataIn(b.ins[pb].vcs[v].ibuf) + b.outs[pb].ackCount[v]
    + WireCredits(a.wires[pa], v) + Credits(a.ins[pa].vcs[ACK_VCH].ibuf, v) + Credits(a.outs[pa].iackbuf, v)
  }

  lemma LinkAccount(cfg: Config, a: RouterState, pa: nat, b: RouterState, pb: nat, v: nat)
    requires Sized(a) && Sized(b) && pa < PORTS && pb < PORTS && v < VCH_SIZE && CreditSafe(cfg, v)
    requires LinkOk(cfg, a, pa, b, pb) && a.out[pa] == [] && b.out[pb] == []
    ensures a.outs[pa].sendCount[v] == Account(a, pa, b, pb, v)
  {
    hide WireData, WireCredits, DataIn, Credits, LogTo, Arrived, Leaving, CreditSafe;
    NothingSent(v);
    assert OutstandingAt(a, pa, v) == OwedAt(b, pb, v);
  }

  lemma LinksOf(cfg: Config, n: Network, k: nat)
    requires NetOk(cfg, n) && 0 < k < |n|
    ensures var a, b := n[k - 1], n[k];
            && RouterOk(cfg, a) && RouterOk(cfg, b) && a.id == k - 1 && b.id == k
            && LinkOk(cfg, a, LOWER_PORT, b, UPPER_PORT) && LinkOk(cfg, b, UPPER_PORT, a, LOWER_PORT)
  {
    hide RouterOk, LinkOk, SizedVcs, SizedOut;
    assert Duplex(cfg, n[k - 1], n[k]);
  }

  /** Credit conservation, in both directions of every link: the sender's count of
      a channel is the flits on the wire, the flits buffered, the acknowledgements
      not yet sent and those on their way back. */
  lemma CreditConservation(cfg: Config, n: Network, k: nat, v: nat)
    requires NetOk(cfg, n) && 0 < k < |n| && v < VCH_SIZE && CreditSafe(cfg, v)
    ensures n[k - 1].outs[LOWER_PORT].sendCount[v] == Account(n[k - 1], LOWER_PORT, n[k], UPPER_PORT, v)
    ensures n[k].outs[UPPER_PORT].sendCount[v] == Account(n[k], UPPER_PORT, n[k - 1], LOWER_PORT, v)
  {
    hide LinkOk, Account, AtRest, FlowOk, Tidy, Budget, AcksOnZero, Routed, SizedOut;
    LinksOf(cfg, n, k);
    LinkAccount(cfg, n[k - 1], LOWER_PORT, n[k], UPPER_PORT, v);
    LinkAccount(cfg, n[k], UPPER_PORT, n[k - 1], LOWER_PORT, v);
  }

  /** No buffer fed by a link ever holds, or has coming, more flits than it has room for. */
  lemma BufferBound(cfg: Config, n: Network, k: nat, v: nat)
    requires NetOk(cfg, n) && 0 < k < |n| && v < VCH_SIZE && CreditSafe(cfg, v)
    ensures WireData(n[k].wires[UPPER_PORT], v) + DataIn(n[k].ins[UPPER_PORT].vcs[v].ibuf) <= cfg.bufMax
    ensures WireData(n[k - 1].wires[LOWER_PORT], v) + DataIn(n[k - 1].ins[LOWER_PORT].vcs[v].ibuf) <= cfg.bufMax
  {
    hide LinkOk, AtRest, FlowOk, Tidy, AcksOnZero, Routed, WireData, DataIn, WireCredits, Credits, CreditSafe;
    LinksOf(cfg, n, k);
    CreditConservation(cfg, n, k, v);
    assert BudgetAt(cfg, n[k - 1], LOWER_PORT) && BudgetAt(cfg, n[k], UPPER_PORT);
    assert ChannelBudget(cfg, n[k - 1].outs[LOWER_PORT], v) && ChannelBudget(cfg, n[k].outs[UPPER_PORT], v);
  }

  /** In order and complete: what a router has put on a channel of a link is, in
      this order, what the next router has passed on, what it holds, what is on
      the wire and what still waits in the output. */
  lemma InOrder(cfg: Config, n: Network, k: nat, v: nat)
    requires NetOk(cfg, n) && 0 < k < |n| && v < VCH_SIZE
    ensures var a, b := n[k - 1], n[k];
            LogTo(a.log, LOWER_PORT, v) ==
              LogFrom(b.log, UPPER_PORT, v) + DataOf(b.ins[UPPER_PORT].vcs[v].ibuf) + WireOf(b.wires[UPPER_PORT], v)
              + WireOf(a.outs[LOWER_PORT].obuf, v)
    ensures var a, b := n[k - 1], n[k];
            LogTo(b.log, UPPER_PORT, v) ==
              LogFrom(a.log, LOWER_PORT, v) + DataOf(a.ins[LOWER_PORT].vcs[v].ibuf) + WireOf(a.wires[LOWER_PORT], v)
              + WireOf(b.outs[UPPER_PORT].obuf, v)
  {
    hide AtRest, FlowOk, Tidy, Budget, AcksOnZero, Routed, LogTo, LogFrom, DataOf, WireOf, CreditSafe, OwedAt, OutstandingAt;
    LinksOf(cfg, n, k);
    NoWire(v);
    var a, b := n[k - 1], n[k];
    assert LogTo(a.log, LOWER_PORT, v) == Arrived(b, UPPER_PORT, v) + Leaving(a, LOWER_PORT, v);
    assert LogTo(b.log, UPPER_PORT, v) == Arrived(a, LOWER_PORT, v) + Leaving(b, UPPER_PORT, v);
  }

  /** On every output, and so on every link, packets follow one another whole. */
  lemma WholePackets(cfg: Config, n: Network, k: nat, q: nat, v: nat)
    requires NetOk(cfg, n) && k < |n| && q < PORTS && v < VCH_SIZE
    ensures NonInterleaved(n[k].log, q) && Legal(cfg.packetMax, LogTo(n[k].log, q, v), 0)
  {
    hide AtRest, Budget, AcksOnZero, Routed, LogTo, Legal, NonInterleaved, OwnerOf, WellFed, FromOk;
    assert RouterOk(cfg, n[k]);
    assert TidyAt(n[k], q) && ToOk(cfg, n[k], q, v);
  }

  /** At most one channel of one input sends to an output, and it holds both. */
  lemma OneSenderPerOutput(cfg: Config, n: Network, k: nat, a: nat, j: nat, b: nat, i: nat, q: nat)
    requires NetOk(cfg, n) && k < |n| && a < PORTS && b < PORTS && j < VCH_SIZE && i < VCH_SIZE && q < PORTS
    requires SendingTo(n[k], a, j, q) && SendingTo(n[k], b, i, q)
    ensures a == b && j == i && n[k].lock[q] == a as int && n[k].ins[a].granted == j
  {
    hide FlowOk, Tidy, Budget, AcksOnZero, Routed, SizedOut;
    assert RouterOk(cfg, n[k]);
  }

  // ---- the leak ----

  /** An ACK2 flit leaks credit exactly when it is sent in a cycle without data and
      a count of channels 4 to 7 exceeds its field: then what the router owes
      grows by 15.  Otherwise the account is kept. */
  lemma LeakIff(cfg: Config, r: RouterState, now: nat, u: nat, v: nat)
    requires Sized(r) && u < PORTS && v < VCH_SIZE && AcksOnZero(r)
    ensures var o := r.outs[u];
            OwedAt(RouterStep(cfg, r, now), u, v) == OwedAt(r, u, v)
            <==> !(o.ackEnabled && o.obuf == [] && now % 2 == 1 && v >= ACK_ENTRY && o.ackCount[v] > ACK_COUNT_MAX)
  {
    hide OwedAt, OutstandingAt, RouterStep, AcksOnZero;
    RouterLedger(cfg, r, now, u, v);
  }

  // ---- routing ----

  lemma {:induction false} LoggedTo(log: seq<Sent>, q: nat, v: nat, f: Flit)
    requires f in LogTo(log, q, v)
    ensures exists k :: 0 <= k < |log| && log[k].to == q && log[k].flit == f
  {
    if log != [] {
      var e := log[|log| - 1];
      if !(e.to == q && e.vch == v && e.flit == f) {
        LoggedTo(log[..|log| - 1], q, v, f);
        var k :| 0 <= k < |log| - 1 && log[..|log| - 1][k].to == q && log[..|log| - 1][k].flit == f;
        assert log[k].to == q && log[k].flit == f;
      }
    }
  }

  lemma {:induction false} LoggedFrom(log: seq<Sent>, k: nat)
    requires k < |log|
    ensures log[k].flit in LogFrom(log, log[k].from, log[k].vch)
    decreases |log|
  {
    if k < |log| - 1 {
      assert log[..|log| - 1][k] == log[k];
      LoggedFrom(log[..|log| - 1], k);
    }
  }

  /** A packet that came from above never goes back up, and it leaves the network
      at its destination only. */
  lemma NeverTurnsBack(cfg: Config, n: Network, k: nat, i: nat)
    requires NetOk(cfg, n) && 0 < k < |n| && i < |n[k].log|
    requires n[k].log[i].from == UPPER_PORT && n[k].log[i].vch < VCH_SIZE && IsHead(n[k].log[i].flit)
    ensures n[k].log[i].to != UPPER_PORT
    ensures n[k].log[i].to == LOCAL_PORT <==> DstOf(n[k].log[i].flit) == k
  {
    hide AtRest, FlowOk, Tidy, Budget, AcksOnZero, LogTo, LogFrom, DataOf, WireOf, HeadDst;
    LinksOf(cfg, n, k);
    var e := n[k].log[i];
    InOrder(cfg, n, k, e.vch);
    LoggedFrom(n[k].log, i);
    LoggedTo(n[k - 1].log, LOWER_PORT, e.vch, e.flit);
    NoTurn(k - 1, DstOf(e.flit));
  }

  lemma NeverTurnsDown(cfg: Config, n: Network, k: nat, i: nat)
    requires NetOk(cfg, n) && k + 1 < |n| && i < |n[k].log|
    requires n[k].log[i].from == LOWER_PORT && n[k].log[i].vch < VCH_SIZE && IsHead(n[k].log[i].flit)
    ensures n[k].log[i].to != LOWER_PORT
    ensures n[k].log[i].to == LOCAL_PORT <==> DstOf(n[k].log[i].flit) == k
  {
    hide AtRest, FlowOk, Tidy, Budget, AcksOnZero, LogTo, LogFrom, DataOf, WireOf, HeadDst;
    LinksOf(cfg, n, k + 1);
    var e := n[k].log[i];
    InOrder(cfg, n, k + 1, e.vch);
    LoggedFrom(n[k].log, i);
    LoggedTo(n[k + 1].log, UPPER_PORT, e.vch, e.flit);
    NoTurn(k + 1, DstOf(e.flit));
  }
}
