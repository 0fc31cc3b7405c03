/** The channels of router.cc as objects, each step proved equal to its function. */
module RouterObjects {
  import opened Flits
  import opened Router

  // ---- OutputChannel ----

  class OutputChannel {
    const ackEnabled: bool
    const readyStat: array<bool>
    var obuf: seq<Entry>
    var iackbuf: seq<Flit>
    const sendCount: array<int>
    const ackCount: array<nat>

    ghost predicate Valid()
      reads this
    {
      && readyStat.Length == VCH_SIZE && sendCount.Length == VCH_SIZE && ackCount.Length == VCH_SIZE
      && forall k :: 0 <= k < |obuf| ==> obuf[k].vch < VCH_SIZE
    }

    ghost function View(): Output
      reads this, readyStat, sendCount, ackCount
    {
      Output(ackEnabled, readyStat[..], obuf, iackbuf, sendCount[..], ackCount[..])
    }

    /** pushData. */
    method PushData(e: Entry)
      requires Valid() && e.vch < VCH_SIZE
      modifies `obuf
      ensures Valid() && View() == old(View()).(obuf := old(obuf) + [e])
    {
      obuf := obuf + [e];
    }

    /** pushAck. */
    method PushAck(f: Flit)
      requires Valid()
      modifies `iackbuf
      ensures Valid() && View() == old(View()).(iackbuf := old(iackbuf) + [f])
    {
      iackbuf := iackbuf + [f];
    }

    /** ackIncrement. */
    method AckIncrement(v: nat)
      requires Valid() && v < VCH_SIZE
      modifies ackCount
      ensures Valid() && View() == old(View()).(ackCount := old(ackCount[..])[v := old(ackCount[v]) + 1])
    {
      ackCount[v] := ackCount[v] + 1;
    }

    /** Any count to acknowledge in this half? */
    method AckPending(first: nat) returns (any: bool)
      requires Valid() && (first == 0 || first == ACK_ENTRY)
      ensures any == AnyAck(ackCount[..], first == ACK_ENTRY)
    {
      any := false;
      var i := first;
      while i < first + ACK_ENTRY && !any
        invariant first <= i <= first + ACK_ENTRY
        invariant any ==> first <= i < first + ACK_ENTRY && ackCount[i] != 0
        invariant !any ==> forall k :: first <= k < i ==> ackCount[k] == 0
        decreases first + ACK_ENTRY - i, if any then 0 else 1
      {
        if ackCount[i] != 0 { any := true; } else { i := i + 1; }
      }
      ghost var half := Half(ackCount[..], first == ACK_ENTRY);
      assert forall k :: 0 <= k < ACK_ENTRY ==> half[k] == ackCount[first + k];
      if any { assert half[i - first] != 0; }
    }

    /** The counts just sent are reduced, except, in the ACK2 branch, those beyond the field. */
    method ReduceAcks(first: nat)
      requires Valid() && (first == 0 || first == ACK_ENTRY)
      modifies ackCount
      ensures Valid() && ackCount[..] == AfterAck(old(ackCount[..]), first == ACK_ENTRY)
    {
      ghost var was := ackCount[..];
      var i := first;
      while i < first + ACK_ENTRY
        invariant first <= i <= first + ACK_ENTRY && Valid()
        invariant forall k :: 0 <= k < VCH_SIZE ==>
                    ackCount[k] == if first <= k < i then Unsent(was[k], first == ACK_ENTRY) else was[k]
      {
        if ackCount[i] > ACK_COUNT_MAX {
          if first == 0 { ackCount[i] := ackCount[i] - ACK_COUNT_MAX; }
        } else {
          ackCount[i] := 0;
        }
        i := i + 1;
      }
      assert forall k :: 0 <= k < VCH_SIZE ==> ackCount[..][k] == AfterAck(was, first == ACK_ENTRY)[k];
    }

    /** ackSend. */
    method AckSend(upper: bool) returns (sent: seq<Entry>)
      requires Valid()
      modifies ackCount
      ensures Valid() && (View(), sent) == Router.AckSend(old(View()), upper)
    {
      hide MakeAck, AnyAck, AfterAck, Half;
      sent := [];
      var first := if upper then ACK_ENTRY else 0;
      var any := AckPending(first);
      if any {
        sent := [Entry(MakeAck(if upper then FAck2 else FAck1, Half(ackCount[..], upper)), ACK_VCH)];
        ReduceAcks(first);
      }
    }

    /** The received credits are taken off the counts. */
    method Credit(f: Flit)
      requires Valid()
      modifies sendCount
      ensures Valid()
      ensures forall v :: 0 <= v < VCH_SIZE ==> sendCount[v] == old(sendCount[v]) - DecodeAck(f, v)
    {
      hide DecodeAck;
      var i := 0;
      while i < VCH_SIZE
        invariant 0 <= i <= VCH_SIZE && Valid()
        invariant forall v :: 0 <= v < VCH_SIZE ==>
                    sendCount[v] == if v < i then old(sendCount[v]) - DecodeAck(f, v) else old(sendCount[v])
      {
        sendCount[i] := sendCount[i] - DecodeAck(f, i);
        i := i + 1;
      }
    }

    /** readyStat is recomputed. */
    method RefreshReady(cfg: Config)
      requires Valid()
      modifies readyStat
      ensures Valid()
      ensures forall v :: 0 <= v < VCH_SIZE ==> readyStat[v] == (cfg.bufMax - sendCount[v] >= cfg.packetMax)
    {
      var i := 0;
      while i < VCH_SIZE
        invariant 0 <= i <= VCH_SIZE && Valid()
        invariant forall v :: 0 <= v < i ==> readyStat[v] == (cfg.bufMax - sendCount[v] >= cfg.packetMax)
      {
        readyStat[i] := cfg.bufMax - sendCount[i] >= cfg.packetMax;
        i := i + 1;
      }
    }

    method SendFlit(upper: bool) returns (sent: seq<Entry>)
      requires Valid()
      modifies this, sendCount, ackCount
      ensures Valid() && (View(), sent) == SendOne(old(View()), upper)
    {
      hide Router.AckSend;
      sent := [];
      if obuf != [] {
        var e := obuf[0];
        sent := [e];
        obuf := obuf[1..];
        if ackEnabled { sendCount[e.vch] := sendCount[e.vch] + 1; }
      } else if ackEnabled {
        sent := AckSend(upper);
      }
    }

    /** step. */
    method Step(cfg: Config, upper: bool) returns (sent: seq<Entry>)
      requires Valid()
      modifies this, readyStat, sendCount, ackCount
      ensures Valid() && (View(), sent) == OutputStep(cfg, old(View()), upper)
    {
      hide SendOne, DecodeAck;
      var counterChange := ackEnabled && obuf != [];
      sent := SendFlit(upper);
      ghost var mid := View();
      SendKeepsAcks(old(View()), upper);
      if iackbuf != [] {
        var flit := iackbuf[0];
        iackbuf := iackbuf[1..];
        Credit(flit);
        counterChange := true;
      }
      assert View() == TakeCredit(mid);
      if counterChange && ackEnabled { RefreshReady(cfg); }
      assert counterChange && ackEnabled ==> View() == UpdateReady(cfg, TakeCredit(mid));
    }
  }

  lemma SendKeepsAcks(o: Output, upper: bool)
    requires SizedOut(o)
    ensures SendOne(o, upper).0.iackbuf == o.iackbuf && SizedOut(SendOne(o, upper).0)
    ensures SendOne(o, upper).0.ackEnabled == o.ackEnabled
  {
    hide MakeAck, AnyAck, AfterAck;
  }

  // ---- InputChannel and Crossbar ----

  class RouterCore {
    var id: nat
    var ins: seq<Input>
    var outs: seq<Output>
    var ocLastSender: seq<int>
    var closePending: seq<bool>
    var wires: seq<seq<Entry>>
    var sent: seq<seq<Entry>>
    var localReady: seq<bool>
    ghost var log: seq<Router.Sent>

    ghost function View(): RouterState
      reads this
    {
      RouterState(id, ins, outs, ocLastSender, closePending, wires, sent, localReady, log)
    }

    ghost predicate Valid()
      reads this
    {
      Sized(View())
    }

    method SetChannel(p: nat, i: nat, vc: Vc)
      requires Valid() && p < PORTS && i < VCH_SIZE && vc.port < PORTS
      modifies `ins
      ensures Valid() && View() == SetVc(old(View()), p, i, vc)
    {
      hide SizedOut;
      ghost var r := SetVc(View(), p, i, vc);
      ins := ins[p := ins[p].(vcs := ins[p].vcs[i := vc])];
      assert View() == r;
    }

    /** Crossbar::forwardAck, and the flit leaves the buffer. */
    method ForwardAck(p: nat, i: nat)
      requires Valid() && p < PORTS && i < VCH_SIZE && ins[p].vcs[i].ibuf != []
      modifies `ins, `outs
      ensures Valid() && View() == Router.ForwardAck(old(View()), p, i)
    {
      ghost var r := Router.ForwardAck(View(), p, i);
      var vc := ins[p].vcs[i];
      outs := outs[p := outs[p].(iackbuf := outs[p].iackbuf + [vc.ibuf[0]])];
      ins := ins[p := ins[p].(vcs := ins[p].vcs[i := vc.(ibuf := vc.ibuf[1..])])];
      assert View() == r;
    }

    /** Crossbar::send. */
    method Send(p: nat, i: nat, f: Flit, port: nat)
      requires Valid() && p < PORTS && i < VCH_SIZE && port < PORTS
      modifies `outs, `log
      ensures outs == CountAck(Push(old(outs), port, Entry(f, i)), p, i)
      ensures log == old(log) + [Router.Sent(p, i, port, f)]
    {
      outs := outs[port := outs[port].(obuf := outs[port].obuf + [Entry(f, i)])];
      outs := outs[p := outs[p].(ackCount := outs[p].ackCount[i := outs[p].ackCount[i] + 1])];
      log := log + [Router.Sent(p, i, port, f)];
    }

    /** Switch traversal. */
    method Traverse(p: nat, i: nat, now: nat)
      requires Valid() && p < PORTS && i < VCH_SIZE && ins[p].vcs[i].ibuf != []
      modifies `ins, `outs, `closePending, `log
      ensures Valid() && View() == Router.Traverse(old(View()), p, i, now)
    {
      hide SizedOut, CountAck, Push, IsTail;
      ghost var r := Router.Traverse(View(), p, i, now);
      var vc := ins[p].vcs[i];
      var flit := vc.ibuf[0];
      Send(p, i, flit, vc.port);
      if IsTail(flit) {
        ins := ins[p := ins[p].(vcs := ins[p].vcs[i := vc.(ibuf := vc.ibuf[1..], state := RC, taken := 0)],
                                holding := false, releaseTime := now)];
        closePending := closePending[vc.port := true];
      } else {
        ins := ins[p := ins[p].(vcs := ins[p].vcs[i := vc.(ibuf := vc.ibuf[1..], state := ST, taken := vc.taken + 1)])];
      }
      assert View() == r;
    }

    /** Crossbar::ready: it may reserve the output. */
    method Ready(p: nat, i: nat, port: nat) returns (ready: bool)
      requires Valid() && p < PORTS && i < VCH_SIZE && port < PORTS
      modifies `ocLastSender
      ensures Valid() && View() == TakeLock(old(View()), p, i, port)
      ensures ready == (Admits(old(View()), p, i, port) && ocLastSender[port] == p as int)
    {
      ghost var r := TakeLock(View(), p, i, port);
      if !outs[port].ackEnabled || outs[port].ready[i] {
        if ocLastSender[port] == NOBODY { ocLastSender := ocLastSender[port := p as int]; }
        ready := ocLastSender[port] == p as int;
      } else {
        ready := false;
      }
      assert View() == r;
    }

    /** Switch allocation. */
    method Allocate(p: nat, i: nat)
      requires Valid() && p < PORTS && i < VCH_SIZE
      modifies `ins, `ocLastSender
      ensures Valid() && View() == Router.Allocate(old(View()), p, i)
    {
      hide SizedOut, Admits;
      ghost var r := Router.Allocate(View(), p, i);
      var vc := ins[p].vcs[i];
      var granted := ins[p].granted == i;
      var ready := Ready(p, i, vc.port);
      if granted && ready {
        ins := ins[p := ins[p].(vcs := ins[p].vcs[i := vc.(state := ST)], holding := true)];
      }
      assert View() == r;
    }

    /** One iteration of the loop over the virtual channels. */
    method ServeChannel(p: nat, i: nat, vcHold: bool, now: nat) returns (hold: bool)
      requires Valid() && p < PORTS && i < VCH_SIZE
      modifies this
      ensures Valid() && (View(), hold) == VcStep(old(View()), p, i, vcHold, now)
    {
      hide SizedOut, Router.ForwardAck, Router.Traverse, Router.Allocate, SetVc, IsAck, IsHead, HeadDst, RouteTo;
      hold := vcHold;
      var vc := ins[p].vcs[i];
      if vc.ibuf != [] {
        var flit := vc.ibuf[0];
        if IsAck(flit) {
          ForwardAck(p, i);
        } else {
          match vc.state {
            case ST =>
              hold := true;
              Traverse(p, i, now);
            case VSA =>
              if ins[p].granted != i && !vcHold {
                SetChannel(p, i, vc.(pending := true));
                hold := true;
              } else {
                Allocate(p, i);
                if ins[p].vcs[i].state == ST { hold := true; }
              }
            case RC =>
              if IsHead(flit) {
                Routes(id, HeadDst(flit) as int);
                SetChannel(p, i, vc.(state := VSA, port := RouteTo(id, HeadDst(flit) as int)));
              }
          }
        }
      }
    }

    /** InputChannel::step: the loop, one arriving flit, the ready signal, arbitration. */
    method InputStep(cfg: Config, p: nat, now: nat)
      requires Valid() && p < PORTS
      modifies this
      ensures Valid() && View() == Router.InputStep(cfg, old(View()), p, now)
    {
      hide Sized, VcStep, Router.Receive, Router.Arbitrate, Router.LocalReady;
      ghost var r := View();
      var i := 0;
      var hold := false;
      while i < VCH_SIZE
        invariant 0 <= i <= VCH_SIZE && Valid()
        invariant VcLoop(View(), p, i, hold, now) == VcLoop(r, p, 0, false, now)
      {
        hold := ServeChannel(p, i, hold, now);
        i := i + 1;
      }
      ReceiveFlit(p);
      if p == LOCAL_PORT { SignalReady(cfg); }
      Arbitrate(p, now);
    }

    method ReceiveFlit(p: nat)
      requires Valid() && p < PORTS
      modifies `ins, `wires
      ensures Valid() && View() == Router.Receive(old(View()), p)
    {
      ghost var r := Router.Receive(View(), p);
      if wires[p] != [] {
        var e := wires[p][0];
        wires := wires[p := wires[p][1..]];
        var vc := ins[p].vcs[e.vch];
        ins := ins[p := ins[p].(vcs := ins[p].vcs[e.vch := vc.(ibuf := vc.ibuf + [e.flit])])];
      }
      assert View() == r;
    }

    method SignalReady(cfg: Config)
      requires Valid()
      modifies `localReady
      ensures Valid() && View() == Router.LocalReady(cfg, old(View()))
    {
      ghost var r := Router.LocalReady(cfg, View());
      var i := 0;
      localReady := seq(VCH_SIZE, _ => true);
      while i < VCH_SIZE
        invariant 0 <= i <= VCH_SIZE && Valid() && |localReady| == VCH_SIZE
        invariant forall k :: 0 <= k < i ==> localReady[k] == (cfg.bufMax - |ins[LOCAL_PORT].vcs[k].ibuf| >= cfg.packetMax)
      {
        localReady := localReady[i := cfg.bufMax - |ins[LOCAL_PORT].vcs[i].ibuf| >= cfg.packetMax];
        i := i + 1;
      }
      assert localReady == r.localReady;
    }

    /** Virtual channel arbitration: the lowest pending channel wins. */
    method Arbitrate(p: nat, now: nat)
      requires Valid() && p < PORTS
      modifies `ins
      ensures Valid() && View() == Router.Arbitrate(old(View()), p, now)
    {
      hide SizedOut;
      ghost var r := Router.Arbitrate(View(), p, now);
      if !ins[p].holding && now > ins[p].releaseTime {
        var i := 0;
        while i < VCH_SIZE && !ins[p].vcs[i].pending
          invariant 0 <= i <= VCH_SIZE
          invariant FirstPending(ins[p].vcs, i) == FirstPending(ins[p].vcs, 0)
        {
          i := i + 1;
        }
        if i < VCH_SIZE {
          ins := ins[p := ins[p].(vcs := ins[p].vcs[i := ins[p].vcs[i].(pending := false)], granted := i)];
        }
      }
      assert View() == r;
    }

    /** Crossbar::step. */
    method CrossbarStep()
      requires Valid()
      modifies `ocLastSender, `closePending
      ensures Valid() && View() == Router.CrossbarStep(old(View()))
    {
      ghost var r := Router.CrossbarStep(View());
      var q := 0;
      ghost var closing, lock := closePending, ocLastSender;
      while q < PORTS
        invariant 0 <= q <= PORTS && Valid()
        invariant forall k :: 0 <= k < PORTS ==> closePending[k] == (k >= q && closing[k])
        invariant forall k :: 0 <= k < PORTS ==> ocLastSender[k] == if k < q && closing[k] then NOBODY else lock[k]
      {
        if closePending[q] {
          closePending := closePending[q := false];
          ocLastSender := ocLastSender[q := NOBODY];
        }
        q := q + 1;
      }
      assert ocLastSender == r.lock && closePending == r.closing;
    }

    /** The output channel of port q takes its step. */
    method OutputStep(cfg: Config, q: nat, now: nat)
      requires Valid() && q < PORTS
      modifies `outs, `sent
      ensures Valid() && View() == OutputPhase(cfg, old(View()), q, now)
    {
      hide SizedVcs, Router.OutputStep;
      ghost var r := OutputPhase(cfg, View(), q, now);
      var (o, flits) := Router.OutputStep(cfg, outs[q], now % 2 != 0);
      outs := outs[q := o];
      sent := sent[q := sent[q] + flits];
      assert View() == r;
    }

    /** Router::step. */
    method Step(cfg: Config, now: nat)
      requires Valid()
      modifies this
      ensures Valid() && View() == RouterStep(cfg, old(View()), now)
    {
      hide Sized, OutputPhase, Router.InputStep, Router.CrossbarStep;
      OutputStep(cfg, LOCAL_PORT, now);
      OutputStep(cfg, UPPER_PORT, now);
      OutputStep(cfg, LOWER_PORT, now);
      InputStep(cfg, LOCAL_PORT, now);
      InputStep(cfg, UPPER_PORT, now);
      InputStep(cfg, LOWER_PORT, now);
      CrossbarStep();
    }
  }

  lemma Routes(id: nat, dst: nat)
    ensures RouteTo(id, dst) < PORTS
  {
  }
}
