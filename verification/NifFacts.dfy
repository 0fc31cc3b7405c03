/** What a network interface puts on the network, flit by flit and field by field,
    and what its registers mean. */
module NifFacts {
  import opened NifModel

  lemma HeadFields(n: Node, c: Config, k: nat, me: nat, r: nat, a: nat)
    requires c.dst == r * 0x40_0000 + a && r < 4 && a < 0x40_0000 && c.vcDma < 8 && me < 4
    ensures BlockHead(n, c, k, me) ==
              Sent(Head((a + 4 * Times(n.packetMaxSize, k)) % 0x40_0000, 2, c.vcDma, me, r, false), c.vcDma)
  {
    hide Times;
    assert c.dst % 0x40_0000 == a && c.dst / 0x40_0000 == r;
  }

  /** Packet k of a remote DMA, for a destination register that holds node r and
      address a: its head, and its words, all on the DMA channel. */
  lemma DmaPacket(n: Node, l: Local, me: nat, k: nat, r: nat, a: nat)
    requires k < l.config.len && l.config.dst == r * 0x40_0000 + a && r < 4 && a < 0x40_0000 && l.config.vcDma < 8 && me < 4
    ensures var p, from := n.packetMaxSize + 1, Times(n.packetMaxSize + 1, k);
            var stream := Blocks(n, l, 0, me);
            && |stream| == Times(p, l.config.len) && from + p <= |stream|
            && stream[from] ==
                 Sent(Head((a + 4 * Times(n.packetMaxSize, k)) % 0x40_0000, 2, l.config.vcDma, me, r, false), l.config.vcDma)
            && forall i :: 0 <= i < n.packetMaxSize ==>
                 stream[from + 1 + i] ==
                   Sent(Word(Fetch(n, l, (l.config.src + 4 * Times(n.packetMaxSize, k) + 4 * i) % 0x1_0000_0000), i + 1 == n.packetMaxSize),
                        l.config.vcDma)
  {
    hide Blocks, Fetch, Times, BlockHead, Burst, BlockBase;
    var p, from := n.packetMaxSize + 1, Times(n.packetMaxSize + 1, k);
    PacketAt(n, l, 0, me, k);
    HeadFields(n, l.config, k, me, r, a);
    var stream := Blocks(n, l, 0, me);
    var packet := [BlockHead(n, l.config, k, me)] + Burst(n, l, BlockBase(n, l.config, k), 0, l.config.vcDma);
    assert stream[from..from + p] == packet;
    assert stream[from] == packet[0];
    forall i | 0 <= i < n.packetMaxSize
      ensures stream[from + 1 + i] ==
                Sent(Word(Fetch(n, l, (l.config.src + 4 * Times(n.packetMaxSize, k) + 4 * i) % 0x1_0000_0000), i + 1 == n.packetMaxSize),
                     l.config.vcDma)
    {
      BurstAt(n, l, k, i);
      assert stream[from..from + p][1 + i] == packet[1 + i];
    }
  }

  lemma BurstAt(n: Node, l: Local, k: nat, i: nat)
    requires i < n.packetMaxSize
    ensures Burst(n, l, BlockBase(n, l.config, k), 0, l.config.vcDma)[i] ==
              Sent(Word(Fetch(n, l, (l.config.src + 4 * Times(n.packetMaxSize, k) + 4 * i) % 0x1_0000_0000), i + 1 == n.packetMaxSize),
                   l.config.vcDma)
  {
    hide Fetch, Times;
  }

  /** Behind its packets a remote DMA tells the requester, and nobody else. */
  lemma DmaStream(n: Node, v: View, dmaAfterDone: bool)
    requires ViewOk(n, v) && v.state == DmaHead && v.remain == v.local.config.len
    requires v.local.config.vcDmaDone < 8 && v.src < 4 && v.dst < 4
    ensures var c := v.local.config;
            Pending(n, v, dmaAfterDone) ==
              Blocks(n, v.local, 0, v.dst) + [Sent(Head(1, 7, c.vcDmaDone, v.dst, v.src, true), c.vcDmaDone)]
  {
    hide Blocks;
  }

  /** A read of one word is answered to the node that asked, from the node that was
      asked: a write packet for the address that was read. */
  lemma SingleReply(n: Node, v: View, addr: nat, vch: nat, from: nat, me: nat, tail: bool, dmaAfterDone: bool)
    requires ViewOk(n, v) && v.state == Idle && addr < 0x40_0000 && from < 4 && me < 4 && v.local.config.vcNormal < 8
    ensures var w := Take(n, v, Head(addr, 3, vch, from, me, tail));
            var c := v.local.config.vcNormal;
            && ViewOk(n, w) && w.local == v.local && !Receives(w.state)
            && Pending(n, w, dmaAfterDone) ==
                 [Sent(Head(addr, 1, c, me, from, false), c), Sent(Word(Fetch(n, v.local, addr), true), c)]
  {
    hide Fetch;
  }

  /** A read of a block is answered with packetMaxSize words from the address on. */
  lemma BlockReply(n: Node, v: View, addr: nat, vch: nat, from: nat, me: nat, tail: bool, dmaAfterDone: bool)
    requires ViewOk(n, v) && v.state == Idle && addr < 0x40_0000 && from < 4 && me < 4 && v.local.config.vcNormal < 8
    ensures var w := Take(n, v, Head(addr, 4, vch, from, me, tail));
            var c := v.local.config.vcNormal;
            && ViewOk(n, w) && w.local == v.local && !Receives(w.state)
            && (var reply := Pending(n, w, dmaAfterDone);
                && |reply| == n.packetMaxSize + 1 && reply[0] == Sent(Head(addr, 2, c, me, from, false), c)
                && forall i :: 0 <= i < n.packetMaxSize ==>
                     reply[1 + i] == Sent(Word(Fetch(n, v.local, (addr + 4 * i) % 0x1_0000_0000), i + 1 == n.packetMaxSize), c))
  {
    hide Fetch;
    var w := Take(n, v, Head(addr, 4, vch, from, me, tail));
    var c := v.local.config.vcNormal;
    var burst := Burst(n, v.local, addr, 0, c);
    assert Pending(n, w, dmaAfterDone) == [Sent(Head(addr, 2, c, me, from, false), c)] + burst;
    assert forall i :: 0 <= i < n.packetMaxSize ==>
             ([Sent(Head(addr, 2, c, me, from, false), c)] + burst)[1 + i] == burst[i];
  }

  /** The end of the core's run is told to node 0; a DMA may follow. */
  lemma DoneMessage(n: Node, v: View, dmaAfterDone: bool)
    requires ViewOk(n, v) && v.state == Done && v.local.config.vcDone < 8 && n.id < 4
    ensures var c := v.local.config;
            var message := Pending(n, v, dmaAfterDone);
            && message != [] && message[0] == Sent(Head(0, 7, c.vcDone, n.id, 0, true), c.vcDone)
            && message[1..] ==
                 (if dmaAfterDone && c.len > 0 then Pending(n, v.(state := DmaHead, remain := c.len), dmaAfterDone) else [])
  {
    hide Blocks;
  }

  /** A packet of any other type, or a word without a head, is dropped. */
  lemma OthersDropped(n: Node, v: View, addr: nat, mtype: nat, vch: nat, from: nat, me: nat, tail: bool, word: nat, last: bool)
    requires ViewOk(n, v) && v.state == Idle && (mtype == 0 || mtype > 4)
    ensures var w := Take(n, v, Head(addr, mtype, vch, from, me, tail)); w.state == Idle && w.local == v.local
    ensures Take(n, v, Word(word, last)) == v
  {
  }

  // ---- what a write packet does ----

  /** A single write to memory. */
  lemma WriteWord(n: Node, v: View, addr: nat, vch: nat, from: nat, me: nat, tail: bool, f: Flit)
    requires ViewOk(n, v) && v.state == Idle && !InConfig(n, addr) && addr / 4 < |v.local.mem| && !v.local.config.kicked
    ensures var w := Take(n, v, Head(addr, 1, vch, from, me, tail));
            && Receives(w.state) && ViewOk(n, w)
            && (var x := Take(n, w, f); x.state == Idle && x.local == v.local.(mem := v.local.mem[addr / 4 := Raw(f)]))
  {
    hide Raw;
  }

  /** The registers by their addresses. */
  lemma RegistersWritten(n: Node, l: Local, data: nat)
    ensures Store(n, l, n.configBase, data) == l.(config := l.config.(kicked := true))
    ensures Store(n, l, n.configBase + 0x100, data) == l.(config := l.config.(dst := data % 0x100_0000))
    ensures Store(n, l, n.configBase + 0x200, data) == l.(config := l.config.(src := data % 0x40_0000))
    ensures Store(n, l, n.configBase + 0x300, data) == l.(config := l.config.(len := data % 16))
    ensures Store(n, l, n.configBase + 0x400, data) ==
              l.(config := l.config.(vcNormal := (data / 512) % 8, vcDma := (data / 64) % 8,
                                     vcDmaDone := (data / 8) % 8, vcDone := data % 8))
  {
  }

  lemma RegistersRead(n: Node, l: Local)
    ensures Fetch(n, l, n.configBase) == 0
    ensures Fetch(n, l, n.configBase + 0x100) == l.config.dst
    ensures Fetch(n, l, n.configBase + 0x200) == l.config.src
    ensures Fetch(n, l, n.configBase + 0x300) == l.config.len
    ensures Fetch(n, l, n.configBase + 0x400) ==
              512 * l.config.vcNormal + 64 * l.config.vcDma + 8 * l.config.vcDmaDone + l.config.vcDone
  {
  }

  /** Reading where there is nothing returns ones, writing there does nothing. */
  lemma Unmapped(n: Node, l: Local, addr: nat, data: nat)
    requires if InConfig(n, addr) then addr - n.configBase !in {0, 0x100, 0x200, 0x300, 0x400} else addr / 4 >= |l.mem|
    ensures Fetch(n, l, addr) == 0xFFFF_FFFF && Store(n, l, addr, data) == l
  {
  }

  /** The registers hide what lies under them; elsewhere there is memory. */
  lemma Mapped(n: Node, l: Local, addr: nat, data: nat, other: nat)
    requires addr / 4 < |l.mem| && other / 4 < |l.mem| && !InConfig(n, other)
    requires !(n.configBase <= addr < n.configBase + 0x900)
    ensures Fetch(n, Store(n, l, addr, data), other) == if other / 4 == addr / 4 then data else Fetch(n, l, other)
    ensures Store(n, l, addr, data).config == l.config
  {
  }

  lemma Channels(data: nat)
    requires data < 0x1000
    ensures 512 * ((data / 512) % 8) + 64 * ((data / 64) % 8) + 8 * ((data / 8) % 8) + data % 8 == data
  {
    var a := data / 8;
    var b := a / 8;
    var c := b / 8;
    assert data / 64 == b && data / 512 == c && c < 8;
    assert data == 8 * a + data % 8;
    assert a == 8 * b + a % 8;
    assert b == 8 * c + b % 8;
  }

  /** The channel register reads as it was written. */
  lemma ChannelsReadBack(n: Node, l: Local, data: nat)
    requires data < 0x1000
    ensures Fetch(n, Store(n, l, n.configBase + 0x400, data), n.configBase + 0x400) == data
  {
    hide Store, Fetch;
    RegistersWritten(n, l, data);
    RegistersRead(n, Store(n, l, n.configBase + 0x400, data));
    Channels(data);
  }

  /** The write of the kick register by a remote node starts a DMA, if there is one
      to start; the word itself does not matter. */
  lemma RemoteKick(n: Node, v: View, vch: nat, from: nat, me: nat, tail: bool, f: Flit)
    requires ViewOk(n, v) && v.state == Idle
    ensures var w := Take(n, v, Head(n.configBase, 1, vch, from, me, tail));
            && Receives(w.state) && ViewOk(n, w)
            && (var x := Take(n, w, f);
                && x.local.config.kicked && x.src == from && x.dst == me
                && if n.dmaEn && v.local.config.len > 0 then x.state == DmaHead && x.remain == v.local.config.len else x.state == Idle)
  {
    hide Raw;
  }
}
