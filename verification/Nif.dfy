/** The network interface of a stacked chip: it answers reads, stores what write
    packets bring, and copies a block of its own memory to another node. */
module NifModel {

  const SPACE: nat := 0x1_0000_0000
  const LOCAL_SPACE: nat := 0x40_0000

  const MTYPE_SW: nat := 1
  const MTYPE_BW: nat := 2
  const MTYPE_SR: nat := 3
  const MTYPE_BR: nat := 4
  const MTYPE_DONE: nat := 7

  const DONE_NOTIF_ADDR: nat := 0
  const DMAC_NOTIF_ADDR: nat := 1
  const CONFIG_SIZE: nat := 0x900

  /** A flit as the interface sees it: head fields, each cut to its width, or a
      data word.  Flits.HeadRoundTrip is about the packing into 32 bits. */
  datatype Flit = Head(addr: nat, mtype: nat, vch: nat, src: nat, dst: nat, tail: bool) | Word(word: nat, last: bool)

  /** A flit handed to the router, with the channel it goes to. */
  datatype Sent = Sent(flit: Flit, vch: nat)

  function MakeHead(addr: nat, mtype: nat, vch: nat, src: nat, dst: nat, tail: bool): Flit {
    Head(addr % LOCAL_SPACE, mtype % 8, vch % 8, src % 4, dst % 4, tail)
  }

  /** flit.data, whatever the type of the flit. */
  function Raw(f: Flit): nat {
    match f
    case Head(addr, mtype, vch, src, dst, _) => addr * 0x400 + mtype * 0x80 + vch * 0x10 + src * 4 + dst
    case Word(word, _) => word
  }

  datatype Config = Config(dst: nat, src: nat, len: nat, vcNormal: nat, vcDma: nat, vcDmaDone: nat, vcDone: nat, kicked: bool)

  datatype State = Idle | SrHead | BrHead | SrData | BrData | SwData | BwData | DmaHead | DmaData | DmaDone | Done

  predicate Receives(s: State) { s == Idle || s == SwData || s == BwData }

  /** What is fixed for a node. */
  datatype Node = Node(id: nat, packetMaxSize: nat, bandwidth: nat, configBase: nat, dmaEn: bool)

  /** The local bus: the configuration registers and a flat memory. */
  datatype Local = Local(mem: seq<nat>, config: Config)

  /** NetworkInterfaceConfig::store_word */
  function StoreConfig(c: Config, offset: nat, data: nat): Config {
    if offset == 0 then c.(kicked := true)
    else if offset == 0x100 then c.(dst := data % 0x100_0000)
    else if offset == 0x200 then c.(src := data % LOCAL_SPACE)
    else if offset == 0x300 then c.(len := data % 16)
    else if offset == 0x400 then
      c.(vcNormal := (data / 0x200) % 8, vcDma := (data / 0x40) % 8, vcDmaDone := (data / 8) % 8, vcDone := data % 8)
    else c
  }

  function FetchConfig(c: Config, offset: nat): nat {
    if offset == 0 then 0
    else if offset == 0x100 then c.dst
    else if offset == 0x200 then c.src
    else if offset == 0x300 then c.len
    else if offset == 0x400 then c.vcNormal * 0x200 + c.vcDma * 0x40 + c.vcDmaDone * 8 + c.vcDone
    else 0xFFFF_FFFF
  }

  predicate InConfig(n: Node, addr: nat) { n.configBase <= addr < n.configBase + CONFIG_SIZE }

  function Store(n: Node, l: Local, addr: nat, data: nat): (l': Local)
    ensures |l'.mem| == |l.mem|
  {
    if InConfig(n, addr) then l.(config := StoreConfig(l.config, addr - n.configBase, data))
    else if addr / 4 < |l.mem| then l.(mem := l.mem[addr / 4 := data])
    else l
  }

  function Fetch(n: Node, l: Local, addr: nat): nat {
    if InConfig(n, addr) then FetchConfig(l.config, addr - n.configBase)
    else if addr / 4 < |l.mem| then l.mem[addr / 4]
    else 0xFFFF_FFFF
  }

  function At(base: nat, i: nat): nat { (base + 4 * i) % SPACE }

  function DmaDstAddr(c: Config): nat { c.dst % LOCAL_SPACE }

  function DmaDstId(c: Config): nat { c.dst / LOCAL_SPACE }

  // ---- what a node has to send ----

  function Times(a: nat, b: nat): nat { a * b }

  /** The words from .. packetMaxSize of a packet read at base, the last one a tail. */
  function Burst(n: Node, l: Local, base: nat, from: nat, vch: nat): (r: seq<Sent>)
    requires from <= n.packetMaxSize
    ensures |r| == n.packetMaxSize - from
  {
    seq(n.packetMaxSize - from, i requires 0 <= i < n.packetMaxSize - from =>
      Sent(Word(Fetch(n, l, At(base, from + i)), from + i + 1 == n.packetMaxSize), vch))
  }

  /** Where block b of a remote DMA is read, and its head. */
  function BlockBase(n: Node, c: Config, b: nat): nat { c.src + 4 * Times(n.packetMaxSize, b) }

  function BlockHead(n: Node, c: Config, b: nat, me: nat): Sent {
    Sent(MakeHead(DmaDstAddr(c) + 4 * Times(n.packetMaxSize, b), MTYPE_BW, c.vcDma, me, DmaDstId(c), false), c.vcDma)
  }

  /** Blocks b .. of a remote DMA, each a head and its words. */
  function Blocks(n: Node, l: Local, b: nat, me: nat): seq<Sent>
    decreases l.config.len - b
  {
    if b >= l.config.len then []
    else [BlockHead(n, l.config, b, me)] + Burst(n, l, BlockBase(n, l.config, b), 0, l.config.vcDma) + Blocks(n, l, b + 1, me)
  }

  function DmaNotice(c: Config, me: nat, requester: nat): Sent {
    Sent(MakeHead(DMAC_NOTIF_ADDR, MTYPE_DONE, c.vcDmaDone, me, requester, true), c.vcDmaDone)
  }

  function DoneNotice(n: Node, c: Config): Sent {
    Sent(MakeHead(DONE_NOTIF_ADDR, MTYPE_DONE, c.vcDone, n.id, 0, true), c.vcDone)
  }

  // ---- what a node takes in ----

  /** The part of an interface that receiving works on. */
  datatype View = View(state: State, mema: nat, mtype: nat, vch: nat, src: nat, dst: nat,
                       dcount: nat, remain: nat, local: Local)

  predicate Kicked(n: Node, c: Config) { c.kicked && n.dmaEn && c.len > 0 }

  /** After the last word of a write: a DMA that has been set up begins. */
  function Finish(n: Node, v: View): View {
    if Kicked(n, v.local.config) then v.(state := DmaHead, remain := v.local.config.len) else v.(state := Idle)
  }

  /** One flit from the router, in a state that receives. */
  function Take(n: Node, v: View, f: Flit): View
    requires Receives(v.state)
    requires v.state == BwData ==> 0 < v.dcount <= n.packetMaxSize
  {
    match v.state
    case SwData => Finish(n, v.(local := Store(n, v.local, v.mema, Raw(f))))
    case BwData =>
      var v' := v.(local := Store(n, v.local, At(v.mema, n.packetMaxSize - v.dcount), Raw(f)), dcount := v.dcount - 1);
      if v'.dcount == 0 then Finish(n, v') else v'
    case _ =>
      match f
      case Word(_, _) => v
      case Head(addr, mtype, vch, src, dst, _) =>
        var v' := v.(mema := addr, mtype := mtype, vch := vch, src := src, dst := dst);
        if mtype == MTYPE_SW then v'.(state := SwData)
        else if mtype == MTYPE_BW then v'.(state := BwData, dcount := n.packetMaxSize)
        else if mtype == MTYPE_SR then v'.(state := SrHead)
        else if mtype == MTYPE_BR then v'.(state := BrHead, dcount := n.packetMaxSize)
        else v'
  }

  predicate ViewOk(n: Node, v: View) {
    && n.packetMaxSize > 0
    && (v.state == BwData || v.state == BrHead || v.state == BrData || v.state == DmaData ==> 0 < v.dcount <= n.packetMaxSize)
    && (v.state == DmaHead || v.state == DmaData ==> 0 < v.remain <= v.local.config.len)
  }

  lemma TakeOk(n: Node, v: View, f: Flit)
    requires ViewOk(n, v) && Receives(v.state)
    ensures ViewOk(n, Take(n, v, f))
  {
  }

  /** All the flits in order, until the interface turns to sending. */
  function Absorb(n: Node, v: View, flits: seq<Flit>): (r: (View, seq<Flit>))
    requires ViewOk(n, v)
    ensures ViewOk(n, r.0)
    decreases |flits|
  {
    if flits == [] || !Receives(v.state) then (v, flits)
    else
      TakeOk(n, v, flits[0]);
      Absorb(n, Take(n, v, flits[0]), flits[1..])
  }

  /** The flits a state still has to send. */
  function Pending(n: Node, v: View, dmaAfterDone: bool): seq<Sent>
    requires ViewOk(n, v)
  {
    var c := v.local.config;
    match v.state
    case SrHead => [Sent(MakeHead(v.mema, MTYPE_SW, c.vcNormal, v.dst, v.src, false), c.vcNormal)]
                   + [Sent(Word(Fetch(n, v.local, v.mema), true), c.vcNormal)]
    case SrData => [Sent(Word(Fetch(n, v.local, v.mema), true), c.vcNormal)]
    case BrHead => [Sent(MakeHead(v.mema, MTYPE_BW, c.vcNormal, v.dst, v.src, false), c.vcNormal)]
                   + Burst(n, v.local, v.mema, n.packetMaxSize - v.dcount, c.vcNormal)
    case BrData => Burst(n, v.local, v.mema, n.packetMaxSize - v.dcount, c.vcNormal)
    case DmaHead => Blocks(n, v.local, c.len - v.remain, v.dst) + [DmaNotice(c, v.dst, v.src)]
    case DmaData =>
      Burst(n, v.local, BlockBase(n, c, c.len - v.remain), n.packetMaxSize - v.dcount, c.vcDma)
      + Blocks(n, v.local, c.len - v.remain + 1, v.dst) + [DmaNotice(c, v.dst, v.src)]
    case DmaDone => [DmaNotice(c, v.dst, v.src)]
    case Done => [DoneNotice(n, c)] + if dmaAfterDone && c.len > 0 then Blocks(n, v.local, 0, v.dst) + [DmaNotice(c, v.dst, v.src)] else []
    case _ => []
  }

  /** One word of a burst. */
  lemma BurstStep(n: Node, l: Local, base: nat, from: nat, vch: nat)
    requires from < n.packetMaxSize
    ensures Burst(n, l, base, from, vch)
         == [Sent(Word(Fetch(n, l, At(base, from)), from + 1 == n.packetMaxSize), vch)] + Burst(n, l, base, from + 1, vch)
  {
    hide Fetch, At;
  }

  lemma BurstEnd(n: Node, l: Local, base: nat, vch: nat)
    ensures Burst(n, l, base, n.packetMaxSize, vch) == []
  {
  }

  lemma AbsorbOne(n: Node, v: View, flits: seq<Flit>)
    requires ViewOk(n, v) && Receives(v.state) && flits != []
    ensures ViewOk(n, Take(n, v, flits[0]))
    ensures Absorb(n, v, flits) == Absorb(n, Take(n, v, flits[0]), flits[1..])
  {
    TakeOk(n, v, flits[0]);
  }

  lemma KickedHasLength(n: Node, c: Config)
    ensures Kicked(n, c) ==> c.len > 0
  {
  }

  lemma BlocksEnd(n: Node, l: Local, me: nat)
    ensures Blocks(n, l, l.config.len, me) == []
  {
  }

  lemma BlocksStep(n: Node, l: Local, b: nat, me: nat)
    requires b < l.config.len
    ensures Blocks(n, l, b, me)
         == [BlockHead(n, l.config, b, me)] + Burst(n, l, BlockBase(n, l.config, b), 0, l.config.vcDma) + Blocks(n, l, b + 1, me)
  {
  }

  /** A remote DMA of L blocks sends L packets, one after the other: packet k is its
      head and packetMaxSize words, the last a tail. */
  lemma {:induction false} PacketAt(n: Node, l: Local, b: nat, me: nat, k: nat)
    requires b <= k < l.config.len
    ensures |Blocks(n, l, b, me)| == Times(n.packetMaxSize + 1, l.config.len - b)
    ensures var p := n.packetMaxSize + 1;
            && Times(p, k - b) + p <= |Blocks(n, l, b, me)|
            && Blocks(n, l, b, me)[Times(p, k - b)..Times(p, k - b) + p]
               == [BlockHead(n, l.config, k, me)] + Burst(n, l, BlockBase(n, l.config, k), 0, l.config.vcDma)
    decreases l.config.len - b
  {
    hide Blocks, Burst, BlockHead, BlockBase;
    var p := n.packetMaxSize + 1;
    BlocksStep(n, l, b, me);
    var first := [BlockHead(n, l.config, b, me)] + Burst(n, l, BlockBase(n, l.config, b), 0, l.config.vcDma);
    if b + 1 == l.config.len {
      BlocksEnd(n, l, me);
    } else {
      PacketAt(n, l, b + 1, me, if k > b then k else b + 1);
      if k > b {
        assert Times(p, k - b) == Times(p, k - (b + 1)) + p;
        var from := Times(p, k - (b + 1));
        assert Blocks(n, l, b, me)[from + p..from + p + p] == Blocks(n, l, b + 1, me)[from..from + p];
      }
    }
  }

  lemma NoticeIgnoresKick(c: Config, me: nat, requester: nat)
    ensures DmaNotice(c.(kicked := false), me, requester) == DmaNotice(c, me, requester)
  {
  }

  /** Where one word of a block leaves the interface. */
  function AfterWord(v: View): View
    requires v.dcount > 0 && v.remain > 0
  {
    if v.dcount > 1 then v.(dcount := v.dcount - 1)
    else if v.remain > 1 then v.(dcount := 0, remain := v.remain - 1, state := DmaHead)
    else v.(dcount := 0, remain := 0, state := DmaDone, local := v.local.(config := v.local.config.(kicked := false)))
  }

  function NextWord(n: Node, v: View): Sent
    requires ViewOk(n, v) && v.state == DmaData
  {
    var c := v.local.config;
    Sent(Word(Fetch(n, v.local, At(BlockBase(n, c, c.len - v.remain), n.packetMaxSize - v.dcount)), v.dcount == 1), c.vcDma)
  }

  lemma PendingWord(n: Node, v: View, dmaAfterDone: bool)
    requires ViewOk(n, v) && v.state == DmaData
    ensures ViewOk(n, AfterWord(v))
    ensures Pending(n, v, dmaAfterDone) == [NextWord(n, v)] + Pending(n, AfterWord(v), dmaAfterDone)
  {
    hide Fetch, At, Burst, Blocks, BlockBase, DmaNotice;
    var c := v.local.config;
    var base := BlockBase(n, c, c.len - v.remain);
    var rest := Burst(n, v.local, base, n.packetMaxSize - v.dcount + 1, c.vcDma);
    var later := Blocks(n, v.local, c.len - v.remain + 1, v.dst) + [DmaNotice(c, v.dst, v.src)];
    BurstStep(n, v.local, base, n.packetMaxSize - v.dcount, c.vcDma);
    assert Pending(n, v, dmaAfterDone) == [NextWord(n, v)] + (rest + later);
    if v.dcount == 1 {
      BurstEnd(n, v.local, base, c.vcDma);
      assert rest + later == later;
      BlocksEnd(n, v.local, v.dst);
      NoticeIgnoresKick(c, v.dst, v.src);
    }
  }

  /** What the two notices leave to be sent. */
  lemma NoticePending(n: Node, v: View, dmaAfterDone: bool)
    requires ViewOk(n, v) && (v.state == DmaDone || v.state == Done)
    ensures forall after: bool :: Pending(n, v.(state := Idle), after) == []
    ensures v.state == DmaDone ==> Pending(n, v, dmaAfterDone) == [DmaNotice(v.local.config, v.dst, v.src)]
    ensures v.state == Done ==>
              Pending(n, v, dmaAfterDone) ==
                [DoneNotice(n, v.local.config)]
                + if dmaAfterDone && v.local.config.len > 0
                  then Pending(n, v.(state := DmaHead, remain := v.local.config.len), false) else []
  {
    hide Blocks, MakeHead;
  }

  class Nif {
    const node: Node
    var state: State
    var mema: nat
    var mtype: nat
    var vch: nat
    var src: nat
    var dst: nat
    var dcount: nat
    var remain: nat
    var local: Local
    var donePending: bool
    var dmaAfterDone: bool
    var iready: bool
    var rx: seq<Flit> // rtRx: flits waiting to be read
    var tx: seq<Sent> // all flits sent so far

    ghost function Seen(): View
      reads this
    {
      View(state, mema, mtype, vch, src, dst, dcount, remain, local)
    }

    ghost predicate Valid()
      reads this
    {
      ViewOk(node, Seen())
    }

    constructor (node: Node, mem: seq<nat>)
      requires node.packetMaxSize > 0
      ensures Valid() && state == Idle && rx == [] && tx == [] && local.mem == mem && !donePending
      ensures this.node == node && local.config == Config(0, 0, 0, 0, 0, 0, 0, false)
    {
      this.node, state, local := node, Idle, Local(mem, Config(0, 0, 0, 0, 0, 0, 0, false));
      mema, mtype, vch, src, dst, dcount, remain := 0, 0, 0, 0, 0, 0, 0;
      donePending, dmaAfterDone, iready, rx, tx := false, false, false, [], [];
    }

    method Send(f: Sent)
      modifies `tx
      ensures tx == old(tx) + [f]
    {
      tx := tx + [f];
    }

    /** CNIF_IDLE and CNIF_SW_DATA */
    method StepReceive()
      requires Valid() && (state == Idle || state == SwData)
      modifies `state, `mema, `mtype, `vch, `src, `dst, `dcount, `remain, `local, `rx
      ensures old(rx) != [] ==> |rx| < |old(rx)|
      ensures old(rx) == [] ==> Seen() == old(Seen()) && rx == []
      ensures Valid() && state != Done
      ensures Absorb(node, Seen(), rx) == old(Absorb(node, Seen(), rx))
    {
      hide Store, Kicked, Absorb, Raw;
      if rx != [] {
        var flit := rx[0];
        ghost var v, all := Seen(), rx;
        rx := rx[1..];
        if state == Idle {
          if flit.Head? {
            mema, mtype, vch, src, dst := flit.addr, flit.mtype, flit.vch, flit.src, flit.dst;
            if mtype == MTYPE_SW {
              state := SwData;
            } else if mtype == MTYPE_BW {
              state, dcount := BwData, node.packetMaxSize;
            } else if mtype == MTYPE_SR {
              state := SrHead;
            } else if mtype == MTYPE_BR {
              state, dcount := BrHead, node.packetMaxSize;
            }
          }
        } else {
          local := Store(node, local, mema, Raw(flit));
          KickedHasLength(node, local.config);
          if Kicked(node, local.config) {
            state, remain := DmaHead, local.config.len;
          } else {
            state := Idle;
          }
        }
        assert Seen() == Take(node, v, flit);
        AbsorbOne(node, v, all);
      }
    }

    /** One word of a write packet. */
    method StoreOne()
      requires Valid() && state == BwData && rx != []
      modifies `state, `dcount, `remain, `local, `rx
      ensures |rx| < |old(rx)|
      ensures Valid() && (state == BwData || state == Idle || state == DmaHead)
      ensures Absorb(node, Seen(), rx) == old(Absorb(node, Seen(), rx))
    {
      hide Store, Kicked, Absorb, Raw, At;
      ghost var v, all := Seen(), rx;
      var flit := rx[0];
      rx := rx[1..];
      local := Store(node, local, At(mema, node.packetMaxSize - dcount), Raw(flit));
      dcount := dcount - 1;
      if dcount == 0 {
        KickedHasLength(node, local.config);
        if Kicked(node, local.config) {
          state, remain := DmaHead, local.config.len;
        } else {
          state := Idle;
        }
      }
      assert Seen() == Take(node, v, flit);
      AbsorbOne(node, v, all);
    }

    /** CNIF_BW_DATA: up to mem_bandwidth words of a write packet are stored. */
    method StepBurstIn()
      requires Valid() && state == BwData
      modifies `state, `dcount, `remain, `local, `rx
      ensures |rx| <= |old(rx)| && (old(rx) != [] && node.bandwidth > 0 ==> |rx| < |old(rx)|)
      ensures Valid() && (state == BwData || state == Idle || state == DmaHead)
      ensures Absorb(node, Seen(), rx) == old(Absorb(node, Seen(), rx))
    {
      hide Absorb, Take, ViewOk;
      var i := 0;
      while i < node.bandwidth && state == BwData
        invariant 0 <= i && Valid() && (state == BwData || state == Idle || state == DmaHead)
        invariant state == BwData || i > 0
        invariant |rx| <= |old(rx)| && (old(rx) != [] && i > 0 ==> |rx| < |old(rx)|)
        invariant Absorb(node, Seen(), rx) == old(Absorb(node, Seen(), rx))
      {
        if rx != [] {
          StoreOne();
        }
        i := i + 1;
      }
    }

    /** CNIF_BR_DATA: up to mem_bandwidth words of a reply. */
    method StepBurstOut()
      requires Valid() && state == BrData
      modifies `state, `dcount, `tx
      ensures |tx| >= |old(tx)| && (node.bandwidth > 0 ==> |tx| > |old(tx)|)
      ensures Valid() && (state == BrData || state == Idle)
      ensures tx + Pending(node, Seen(), dmaAfterDone) == old(tx + Pending(node, Seen(), dmaAfterDone))
      ensures node.bandwidth > 0 ==> dcount < old(dcount)
    {
      hide Fetch, At, Burst;
      ghost var all := tx + Pending(node, Seen(), dmaAfterDone);
      var i := 0;
      while i < node.bandwidth
        invariant 0 <= i && Valid() && state == BrData && (i > 0 ==> dcount < old(dcount)) && dcount <= old(dcount)
        invariant tx + Pending(node, Seen(), dmaAfterDone) == all
        invariant |tx| >= |old(tx)| && (i > 0 ==> |tx| > |old(tx)|)
      {
        BurstStep(node, local, mema, node.packetMaxSize - dcount, local.config.vcNormal);
        var word := Fetch(node, local, At(mema, node.packetMaxSize - dcount));
        dcount := dcount - 1;
        Send(Sent(Word(word, dcount == 0), local.config.vcNormal));
        if dcount == 0 {
          BurstEnd(node, local, mema, local.config.vcNormal);
          state := Idle;
          return;
        }
        i := i + 1;
      }
    }

    /** One word of a block; behind the last one the next block or the notice is due. */
    method SendBlockWord()
      requires Valid() && state == DmaData
      modifies `state, `dcount, `remain, `local, `tx
      ensures Valid() && (state == DmaData || state == DmaHead || state == DmaDone)
      ensures local.mem == old(local.mem) && |tx| == |old(tx)| + 1
      ensures tx + Pending(node, Seen(), dmaAfterDone) == old(tx + Pending(node, Seen(), dmaAfterDone))
    {
      hide Fetch, At, BlockBase, Pending;
      PendingWord(node, Seen(), dmaAfterDone);
      var c := local.config;
      var word := Fetch(node, local, At(BlockBase(node, c, c.len - remain), node.packetMaxSize - dcount));
      dcount := dcount - 1;
      Send(Sent(Word(word, dcount == 0), c.vcDma));
      if dcount == 0 {
        remain := remain - 1;
        if remain == 0 {
          state, local := DmaDone, local.(config := c.(kicked := false));
        } else {
          state := DmaHead;
        }
      }
      assert Seen() == AfterWord(old(Seen()));
    }

    /** CNIF_DMA_DATA: up to mem_bandwidth words of a block, not past its end. */
    method StepBlockOut()
      requires Valid() && state == DmaData
      modifies `state, `dcount, `remain, `local, `tx
      ensures Valid() && (state == DmaData || state == DmaHead || state == DmaDone)
      ensures local.mem == old(local.mem)
      ensures |tx| >= |old(tx)| && (node.bandwidth > 0 ==> |tx| > |old(tx)|)
      ensures tx + Pending(node, Seen(), dmaAfterDone) == old(tx + Pending(node, Seen(), dmaAfterDone))
    {
      hide Pending, ViewOk;
      var i := 0;
      while i < node.bandwidth && state == DmaData
        invariant 0 <= i && Valid() && (state == DmaData || state == DmaHead || state == DmaDone) && local.mem == old(local.mem)
        invariant state == DmaData || i > 0
        invariant |tx| >= |old(tx)| && (i > 0 ==> |tx| > |old(tx)|)
        invariant tx + Pending(node, Seen(), dmaAfterDone) == old(tx + Pending(node, Seen(), dmaAfterDone))
      {
        SendBlockWord();
        i := i + 1;
      }
    }

    /** The head of a reply, and the single word that may follow it. */
    method StepReply(ready: bool)
      requires Valid() && (state == SrHead || state == BrHead || state == SrData)
      modifies `state, `tx
      ensures |tx| >= |old(tx)| && (ready ==> |tx| > |old(tx)|)
      ensures Valid() && (Receives(state) ==> state == Idle) && state != Done
      ensures tx + Pending(node, Seen(), dmaAfterDone) == old(tx + Pending(node, Seen(), dmaAfterDone))
    {
      hide Fetch, At, Burst, Blocks, BlockBase, BlockHead, DmaNotice, DoneNotice, MakeHead;
      if state == SrData {
        Send(Sent(Word(Fetch(node, local, mema), true), local.config.vcNormal));
        state := Idle;
      } else if ready {
        var mt := if state == BrHead then MTYPE_BW else MTYPE_SW;
        Send(Sent(MakeHead(mema, mt, local.config.vcNormal, dst, src, false), local.config.vcNormal));
        state := if state == SrHead then SrData else BrData;
      }
    }

    /** The head of the next block. */
    method StepDmaHead(ready: bool)
      requires Valid() && state == DmaHead
      modifies `state, `dcount, `tx
      ensures |tx| >= |old(tx)| && (ready ==> |tx| > |old(tx)|)
      ensures Valid() && (state == DmaHead || state == DmaData)
      ensures tx + Pending(node, Seen(), dmaAfterDone) == old(tx + Pending(node, Seen(), dmaAfterDone))
    {
      hide Fetch, At, Burst, Blocks, BlockBase, DmaNotice;
      if ready {
        BlocksStep(node, local, local.config.len - remain, dst);
        Send(Sent(MakeHead(DmaDstAddr(local.config) + 4 * Times(node.packetMaxSize, local.config.len - remain), MTYPE_BW,
                           local.config.vcDma, dst, DmaDstId(local.config), false), local.config.vcDma));
        state, dcount := DmaData, node.packetMaxSize;
      }
    }

    /** The two notices; the second may start a DMA. */
    method StepNotice(ready: bool)
      requires Valid() && (state == DmaDone || state == Done)
      modifies `state, `remain, `donePending, `dmaAfterDone, `tx
      ensures |tx| >= |old(tx)| && (ready ==> |tx| > |old(tx)|)
      ensures Valid() && (ready ==> state == Idle || state == DmaHead) && (!ready ==> state == old(state))
      ensures donePending ==> old(donePending)
      ensures ready && old(state) == Done ==> !donePending
      ensures tx + Pending(node, Seen(), dmaAfterDone) == old(tx + Pending(node, Seen(), dmaAfterDone))
    {
      hide Pending, MakeHead;
      NoticePending(node, Seen(), dmaAfterDone);
      if ready {
        if state == DmaDone {
          Send(Sent(MakeHead(DMAC_NOTIF_ADDR, MTYPE_DONE, local.config.vcDmaDone, dst, src, true), local.config.vcDmaDone));
          state := Idle;
        } else {
          Send(Sent(MakeHead(DONE_NOTIF_ADDR, MTYPE_DONE, local.config.vcDone, node.id, 0, true), local.config.vcDone));
          if dmaAfterDone && local.config.len > 0 {
            state, remain := DmaHead, local.config.len;
          } else {
            state := Idle;
          }
          donePending, dmaAfterDone := false, false;
        }
      }
    }

    /** The receiving cases of the switch. */
    method Receive()
      requires Valid() && Receives(state)
      modifies `state, `mema, `mtype, `vch, `src, `dst, `dcount, `remain, `local, `rx
      ensures |rx| <= |old(rx)| && (old(rx) != [] && node.bandwidth > 0 ==> |rx| < |old(rx)|)
      ensures Valid() && state != Done
      ensures Absorb(node, Seen(), rx) == old(Absorb(node, Seen(), rx))
    {
      hide Absorb, Take, ViewOk, Pending;
      if state == BwData {
        StepBurstIn();
      } else {
        StepReceive();
      }
    }

    /** The sending cases. */
    method Transmit(ready: bool)
      requires Valid() && !Receives(state)
      modifies `state, `dcount, `remain, `local, `donePending, `dmaAfterDone, `tx
      ensures |tx| >= |old(tx)| && (ready && node.bandwidth > 0 ==> |tx| > |old(tx)|)
      ensures Valid() && (state == Done ==> old(state) == Done) && (Receives(state) ==> state == Idle)
      ensures donePending ==> old(donePending)
      ensures old(state) == Done && state != Done ==> !donePending
      ensures local.mem == old(local.mem)
      ensures tx + Pending(node, Seen(), dmaAfterDone) == old(tx + Pending(node, Seen(), dmaAfterDone))
    {
      hide Absorb, Take, ViewOk, Pending;
      if state == BrData {
        StepBurstOut();
      } else if state == DmaHead {
        StepDmaHead(ready);
      } else if state == DmaData {
        StepBlockOut();
      } else if state == DmaDone || state == Done {
        StepNotice(ready);
      } else {
        StepReply(ready);
      }
    }

    lemma IdleSendsNothing()
      requires Valid() && state == Idle
      ensures Pending(node, Seen(), dmaAfterDone) == []
    {
    }

    lemma MayBeDone()
      requires Valid()
      ensures ViewOk(node, Seen().(state := Done))
    {
    }

    /** nif_step; `ready` answers the question whether the router takes a packet on
        the channel the state is about to use. */
    method Step(ready: bool)
      requires Valid()
      modifies this
      ensures Valid()
      // receiving: what the waiting flits will do to this node stays what it was
      ensures Receives(old(state)) && !old(donePending) ==>
                && Absorb(node, Seen(), rx) == old(Absorb(node, Seen(), rx))
                && tx == old(tx) && !donePending && dmaAfterDone == old(dmaAfterDone)
      // sending: nothing of what has to be sent is lost, added or reordered
      ensures !Receives(old(state)) && (old(state) == Done || state != Done) ==>
                tx + Pending(node, Seen(), dmaAfterDone) == old(tx + Pending(node, Seen(), dmaAfterDone))
      ensures !Receives(old(state)) && old(state) != Done && state == Done ==>
                tx == old(tx + Pending(node, Seen(), dmaAfterDone))
      ensures !Receives(old(state)) ==>
                && rx == old(rx) && local.mem == old(local.mem)
                && (Receives(state) ==> state == Idle) && (donePending ==> old(donePending))
                && (state == Done ==> old(state) == Done || old(donePending))
      // progress
      ensures !Receives(old(state)) ==> |tx| >= |old(tx)| && (ready && node.bandwidth > 0 ==> |tx| > |old(tx)|)
      ensures Receives(old(state)) ==> |rx| <= |old(rx)| && (old(rx) != [] && node.bandwidth > 0 ==> |rx| < |old(rx)|)
      // the signal to the processor, and the notice that waits for an idle interface
      ensures iready <==> state == Idle || (state == Done && old(state) != Done)
      ensures state == Idle ==> !donePending
    {
      hide Absorb, Take, ViewOk, Pending;
      if Receives(state) {
        Receive();
      } else {
        Transmit(ready);
      }
      iready := state == Idle;
      if state == Idle && donePending {
        IdleSendsNothing();
        MayBeDone();
        state := Done;
      }
    }
  }
}
