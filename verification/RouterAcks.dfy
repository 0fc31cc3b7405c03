/** What an output channel sends and credits in a cycle, exactly: safety alone
    would also hold of a router that keeps silent. */
module RouterAcks {
  import opened Flits
  import opened Router
  import opened RouterCredit

  /** Channels 0 to 3 are acknowledged in even cycles, 4 to 7 in odd ones. */
  predicate Due(upper: bool, v: nat) { upper <==> 4 <= v }

  predicate SomeDue(o: Output, upper: bool)
    requires SizedOut(o)
  {
    exists v :: 0 <= v < VCH_SIZE && Due(upper, v) && o.ackCount[v] != 0
  }

  /** e acknowledges the due counts, as much of each as its field can carry. */
  predicate Acknowledges(e: Entry, o: Output, upper: bool)
    requires SizedOut(o)
  {
    && IsAck(e.flit) && e.vch == 0
    && forall v: nat :: v < VCH_SIZE ==>
         DecodeAck(e.flit, v) == if !Due(upper, v) then 0 else if o.ackCount[v] <= 15 then o.ackCount[v] else 15
  }

  /** What an acknowledgement leaves of a count: in channels 4 to 7 one above 15 stays. */
  predicate Reduced(o: Output, o': Output, upper: bool)
    requires SizedOut(o) && SizedOut(o')
  {
    forall v: nat :: v < VCH_SIZE ==>
      o'.ackCount[v] == if !Due(upper, v) then o.ackCount[v]
                        else if o.ackCount[v] <= 15 then 0
                        else if v < 4 then o.ackCount[v] - 15 else o.ackCount[v]
  }

  /** What is sent: the flit that waits, or else the acknowledgements that are due. */
  predicate Sends(o: Output, upper: bool, o': Output, flits: seq<Entry>)
    requires SizedOut(o) && SizedOut(o')
  {
    if o.obuf != [] then flits == [o.obuf[0]] && o'.obuf == o.obuf[1..] && o'.ackCount == o.ackCount
    else
      && o'.obuf == []
      && if o.ackEnabled && SomeDue(o, upper) then |flits| == 1 && Acknowledges(flits[0], o, upper) && Reduced(o, o', upper)
         else flits == [] && o'.ackCount == o.ackCount
  }

  /** What is counted: a flit sent adds one, one received acknowledgement takes off
      what it carries. */
  predicate CountsCredit(o: Output, o': Output)
    requires SizedOut(o) && SizedOut(o')
  {
    && o'.iackbuf == (if o.iackbuf == [] then [] else o.iackbuf[1..])
    && forall v: nat :: v < VCH_SIZE ==>
         o'.sendCount[v] ==
           o.sendCount[v] + (if o.ackEnabled && o.obuf != [] && o.obuf[0].vch == v then 1 else 0)
           - (if o.iackbuf == [] then 0 else DecodeAck(o.iackbuf[0], v))
  }

  /** Ready means room for a whole packet. */
  predicate ReadyIff(cfg: Config, o: Output)
    requires SizedOut(o)
  {
    o.ackEnabled ==> forall v: nat :: v < VCH_SIZE ==> (o.ready[v] <==> o.sendCount[v] + cfg.packetMax <= cfg.bufMax)
  }

  lemma AnyIsDue(o: Output, upper: bool)
    requires SizedOut(o)
    ensures AnyAck(o.ackCount, upper) <==> SomeDue(o, upper)
  {
    if AnyAck(o.ackCount, upper) {
      var k :| 0 <= k < ACK_ENTRY && Half(o.ackCount, upper)[k] != 0;
      assert o.ackCount[if upper then k + ACK_ENTRY else k] != 0;
    }
    if SomeDue(o, upper) {
      var v :| 0 <= v < VCH_SIZE && Due(upper, v) && o.ackCount[v] != 0;
      assert Half(o.ackCount, upper)[if upper then v - ACK_ENTRY else v] != 0;
    }
  }

  lemma AckMeans(o: Output, upper: bool)
    requires SizedOut(o)
    ensures var e := Entry(MakeAck(if upper then FAck2 else FAck1, Half(o.ackCount, upper)), ACK_VCH); Acknowledges(e, o, upper)
  {
    hide DecodeAck;
    var counts := Half(o.ackCount, upper);
    var ftype := if upper then FAck2 else FAck1;
    AckFlit(ftype, counts);
    forall v: nat | v < VCH_SIZE
      ensures DecodeAck(MakeAck(ftype, counts), v) ==
                if !Due(upper, v) then 0 else if o.ackCount[v] <= 15 then o.ackCount[v] else 15
    {
      hide MakeAck;
      AckRoundTrip(ftype, counts, v);
    }
  }

  /** One step of an output channel. */
  lemma OutputMeans(cfg: Config, o: Output, upper: bool)
    requires SizedOut(o)
    ensures var (o', flits) := OutputStep(cfg, o, upper);
            && SizedOut(o') && Sends(o, upper, o', flits) && CountsCredit(o, o') && o'.ackEnabled == o.ackEnabled
            && (ReadyIff(cfg, o) ==> ReadyIff(cfg, o'))
  {
    hide MakeAck, DecodeAck, AnyAck, Acknowledges, SomeDue, Half;
    AnyIsDue(o, upper);
    AckMeans(o, upper);
  }

  // ---- the router ----

  /** The inputs touch neither the counts of what was sent nor the ready signals. */
  predicate SameCounts(r: RouterState, r': RouterState)
    requires Sized(r) && Sized(r')
  {
    r'.out == r.out && forall u: nat :: u < PORTS ==>
      r'.outs[u].sendCount == r.outs[u].sendCount && r'.outs[u].ready == r.outs[u].ready && r'.outs[u].ackEnabled == r.outs[u].ackEnabled
  }

  lemma TraverseCounts(r: RouterState, p: nat, i: nat, now: nat)
    requires Sized(r) && p < PORTS && i < VCH_SIZE && r.ins[p].vcs[i].ibuf != []
    ensures SameCounts(r, Traverse(r, p, i, now))
  {
    hide IsTail;
  }

  lemma AllocateCounts(r: RouterState, p: nat, i: nat)
    requires Sized(r) && p < PORTS && i < VCH_SIZE
    ensures SameCounts(r, Allocate(r, p, i))
  {
    hide Admits;
  }

  lemma ForwardCounts(r: RouterState, p: nat, i: nat)
    requires Sized(r) && p < PORTS && i < VCH_SIZE && r.ins[p].vcs[i].ibuf != []
    ensures SameCounts(r, ForwardAck(r, p, i))
  {
  }

  lemma VcStepCounts(r: RouterState, p: nat, i: nat, hold: bool, now: nat)
    requires Sized(r) && p < PORTS && i < VCH_SIZE
    ensures SameCounts(r, VcStep(r, p, i, hold, now).0)
  {
    hide IsAck, IsHead, HeadDst, Traverse, Allocate, ForwardAck, RouteTo;
    if r.ins[p].vcs[i].ibuf != [] {
      TraverseCounts(r, p, i, now);
      ForwardCounts(r, p, i);
    }
    AllocateCounts(r, p, i);
  }

  lemma {:induction false} LoopCounts(r: RouterState, p: nat, i: nat, hold: bool, now: nat)
    requires Sized(r) && p < PORTS && i <= VCH_SIZE
    ensures SameCounts(r, VcLoop(r, p, i, hold, now))
    decreases VCH_SIZE - i
  {
    hide VcStep;
    if i < VCH_SIZE {
      VcStepCounts(r, p, i, hold, now);
      LoopCounts(VcStep(r, p, i, hold, now).0, p, i + 1, VcStep(r, p, i, hold, now).1, now);
    }
  }

  lemma InputCounts(cfg: Config, r: RouterState, p: nat, now: nat)
    requires Sized(r) && p < PORTS
    ensures SameCounts(r, InputStep(cfg, r, p, now))
  {
    hide VcLoop;
    LoopCounts(r, p, 0, false, now);
  }

  lemma OutputsCounts(cfg: Config, r: RouterState, now: nat, q: nat)
    requires Sized(r) && q < PORTS
    ensures var (o', flits) := OutputStep(cfg, r.outs[q], now % 2 != 0);
            OutputsOnly(cfg, r, now).outs[q] == o' && OutputsOnly(cfg, r, now).out[q] == r.out[q] + flits
  {
    hide OutputStep, SizedVcs, SizedOut;
  }

  /** In every cycle each output of a router sends what waits, or else the counts
      that are due, and credits one acknowledgement. */
  lemma RouterSends(cfg: Config, r: RouterState, now: nat, q: nat)
    requires Sized(r) && q < PORTS
    ensures var r' := RouterStep(cfg, r, now);
            exists o' ::
              && SizedOut(o') && |r.out[q]| <= |r'.out[q]| && r'.out[q][..|r.out[q]|] == r.out[q]
              && Sends(r.outs[q], now % 2 == 1, o', r'.out[q][|r.out[q]|..])
              && CountsCredit(r.outs[q], o')
              && r'.outs[q].sendCount == o'.sendCount && r'.outs[q].ready == o'.ready && r'.outs[q].ackEnabled == o'.ackEnabled
              && (ReadyIff(cfg, r.outs[q]) ==> ReadyIff(cfg, r'.outs[q]))
  {
    hide OutputStep, InputStep, SizedVcs, SizedOut, Sends, CountsCredit, OutputPhase;
    var o := OutputsOnly(cfg, r, now);
    var x := InputStep(cfg, o, LOCAL_PORT, now);
    var y := InputStep(cfg, x, UPPER_PORT, now);
    OutputsCounts(cfg, r, now, q);
    OutputMeans(cfg, r.outs[q], now % 2 != 0);
    InputCounts(cfg, o, LOCAL_PORT, now);
    InputCounts(cfg, x, UPPER_PORT, now);
    InputCounts(cfg, y, LOWER_PORT, now);
    var r' := RouterStep(cfg, r, now);
    var (o', flits) := OutputStep(cfg, r.outs[q], now % 2 != 0);
    assert r'.out[q][|r.out[q]|..] == flits;
  }
}
