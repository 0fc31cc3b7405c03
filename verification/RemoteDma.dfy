/** Remote DMA from one network interface to another, end to end. */
module RemoteDma {
  import opened NifModel

  // ---- taking in a stream ----

  lemma {:induction false} AbsorbAppend(n: Node, v: View, a: seq<Flit>, b: seq<Flit>)
    requires ViewOk(n, v) && Absorb(n, v, a).1 == []
    ensures Absorb(n, v, a + b) == Absorb(n, Absorb(n, v, a).0, b)
    decreases |a|
  {
    hide Take;
    if a == [] {
      assert a + b == b;
    } else if Receives(v.state) {
      TakeOk(n, v, a[0]);
      assert (a + b)[1..] == a[1..] + b;
      AbsorbAppend(n, Take(n, v, a[0]), a[1..], b);
    }
  }

  /** What is taken in as a whole is taken in bit by bit. */
  lemma {:induction false} AbsorbPrefix(n: Node, v: View, a: seq<Flit>, b: seq<Flit>)
    requires ViewOk(n, v) && Absorb(n, v, a + b).1 == []
    ensures Absorb(n, v, a).1 == []
    decreases |a|
  {
    hide Take;
    if a != [] {
      assert a + b != [];
      TakeOk(n, v, a[0]);
      assert (a + b)[1..] == a[1..] + b;
      AbsorbPrefix(n, Take(n, v, a[0]), a[1..], b);
    }
  }

  lemma AbsorbEndsIdle(n: Node, v: View, flits: seq<Flit>)
    requires ViewOk(n, v) && Absorb(n, v, flits).1 == [] && Absorb(n, v, flits).0.state == Idle
    ensures Receives(v.state)
  {
  }

  /** Memory with the words ws in place from word j on. */
  function Put(mem: seq<nat>, j: nat, ws: seq<nat>): (m: seq<nat>)
    requires j + |ws| <= |mem|
    ensures |m| == |mem|
  {
    mem[..j] + ws + mem[j + |ws|..]
  }

  lemma PutOne(mem: seq<nat>, j: nat, ws: seq<nat>)
    requires ws != [] && j + |ws| <= |mem|
    ensures Put(mem[j := ws[0]], j + 1, ws[1..]) == Put(mem, j, ws)
  {
  }

  lemma PutTwice(mem: seq<nat>, j: nat, a: seq<nat>, b: seq<nat>)
    requires j + |a| + |b| <= |mem|
    ensures Put(Put(mem, j, a), j + |a|, b) == Put(mem, j, a + b)
  {
  }

  /** n words from base on lie in memory, clear of the configuration registers and
      of the end of the address space. */
  predicate Plain(node: Node, mem: seq<nat>, base: nat, n: nat) {
    && base / 4 + n <= |mem| && base + 4 * n <= SPACE
    && (base + 4 * n <= node.configBase || node.configBase + CONFIG_SIZE <= base)
  }

  lemma AtPlain(node: Node, mem: seq<nat>, base: nat, n: nat, i: nat)
    requires Plain(node, mem, base, n) && i < n
    ensures At(base, i) == base + 4 * i && At(base, i) / 4 == base / 4 + i && !InConfig(node, At(base, i))
  {
  }

  function AsWords(ws: seq<nat>): seq<Flit> { seq(|ws|, i requires 0 <= i < |ws| => Word(ws[i], i + 1 == |ws|)) }

  /** The words of a write packet go where its head said. */
  lemma {:induction false} AbsorbWords(n: Node, v: View, ws: seq<nat>)
    requires ViewOk(n, v) && v.state == BwData && |ws| == v.dcount && !Kicked(n, v.local.config)
    requires Plain(n, v.local.mem, v.mema, n.packetMaxSize)
    ensures v.mema / 4 + n.packetMaxSize <= |v.local.mem|
    ensures Absorb(n, v, AsWords(ws))
         == (v.(state := Idle, dcount := 0,
                local := v.local.(mem := Put(v.local.mem, v.mema / 4 + n.packetMaxSize - v.dcount, ws))), [])
    decreases |ws|
  {
    hide At, Put, Kicked;
    var k := n.packetMaxSize - v.dcount;
    AtPlain(n, v.local.mem, v.mema, n.packetMaxSize, k);
    var flits := AsWords(ws);
    AbsorbOne(n, v, flits);
    var v' := Take(n, v, flits[0]);
    assert v'.local == v.local.(mem := v.local.mem[v.mema / 4 + k := ws[0]]);
    PutOne(v.local.mem, v.mema / 4 + k, ws);
    assert flits[1..] == AsWords(ws[1..]);
    if v.dcount == 1 {
      assert ws[1..] == [] && flits[1..] == [];
      PutNothing(v'.local.mem, v.mema / 4 + k + 1);
    } else {
      AbsorbWords(n, v', ws[1..]);
    }
  }

  lemma PutNothing(mem: seq<nat>, j: nat)
    requires j <= |mem|
    ensures Put(mem, j, []) == mem
  {
  }

  // ---- the network ----

  /** The flits of packets whose head names node `to`; `open`: the packet under way
      is one of them. */
  function Mine(s: seq<Sent>, to: nat, open: bool): seq<Flit> {
    if s == [] then []
    else (if IsMine(s[0].flit, to, open) then [s[0].flit] else []) + Mine(s[1..], to, Opened(s[0].flit, to, open))
  }

  predicate IsMine(f: Flit, to: nat, open: bool) {
    match f
    case Head(_, _, _, _, dst, _) => dst == to
    case Word(_, _) => open
  }

  /** Whether a packet for `to` is under way after flit f. */
  predicate Opened(f: Flit, to: nat, open: bool) {
    match f
    case Head(_, _, _, _, dst, tail) => dst == to && !tail
    case Word(_, last) => open && !last
  }

  function OpenAfter(s: seq<Sent>, to: nat, open: bool): bool {
    if s == [] then open else OpenAfter(s[1..], to, Opened(s[0].flit, to, open))
  }

  lemma MineStep(s: seq<Sent>, to: nat, open: bool)
    requires s != []
    ensures Mine(s, to, open) == (if IsMine(s[0].flit, to, open) then [s[0].flit] else []) + Mine(s[1..], to, Opened(s[0].flit, to, open))
    ensures OpenAfter(s, to, open) == OpenAfter(s[1..], to, Opened(s[0].flit, to, open))
  {
  }

  lemma {:induction false} MineAppend(a: seq<Sent>, b: seq<Sent>, to: nat, open: bool)
    ensures Mine(a + b, to, open) == Mine(a, to, open) + Mine(b, to, OpenAfter(a, to, open))
    ensures OpenAfter(a + b, to, open) == OpenAfter(b, to, OpenAfter(a, to, open))
    decreases |a|
  {
    if a == [] {
      assert a + b == b;
    } else {
      hide Mine, OpenAfter, IsMine, Opened;
      assert (a + b)[1..] == a[1..] + b;
      MineStep(a, to, open);
      MineStep(a + b, to, open);
      MineAppend(a[1..], b, to, Opened(a[0].flit, to, open));
    }
  }

  lemma MineOne(s: Sent, to: nat, open: bool)
    ensures Mine([s], to, open) == if IsMine(s.flit, to, open) then [s.flit] else []
    ensures OpenAfter([s], to, open) == Opened(s.flit, to, open)
  {
    hide IsMine, Opened;
    assert [s][1..] == [];
  }

  lemma {:induction false} MineWords(s: seq<Sent>, to: nat)
    requires s != [] && forall i :: 0 <= i < |s| ==> s[i].flit.Word? && (s[i].flit.last <==> i + 1 == |s|)
    ensures Mine(s, to, true) == seq(|s|, i requires 0 <= i < |s| => s[i].flit) && !OpenAfter(s, to, true)
    decreases |s|
  {
    if |s| == 1 {
      assert s == [s[0]];
      MineOne(s[0], to, true);
    } else {
      MineWords(s[1..], to);
    }
  }

  // ---- the blocks of a transfer ----

  /** The words of the source, from block b to the end. */
  function Source(n: Node, l: Local, b: nat): seq<nat>
    requires b <= l.config.len && Plain(n, l.mem, l.config.src, Times(n.packetMaxSize, l.config.len))
    requires Times(n.packetMaxSize, b) <= Times(n.packetMaxSize, l.config.len)
  {
    l.mem[l.config.src / 4 + Times(n.packetMaxSize, b)..l.config.src / 4 + Times(n.packetMaxSize, l.config.len)]
  }

  lemma TimesStep(p: nat, b: nat, len: nat)
    requires b < len
    ensures Times(p, b + 1) == Times(p, b) + p && Times(p, b + 1) <= Times(p, len) && Times(p, 0) == 0
  {
    var more := len - (b + 1);
    TimesAdd(p, b + 1, more);
    TimesAdd(p, b, 1);
  }

  lemma TimesAdd(p: nat, b: nat, more: nat)
    ensures Times(p, b + more) == Times(p, b) + p * more && p * more >= 0
  {
  }

  lemma BurstWords(n: Node, l: Local, b: nat, to: nat)
    requires b < l.config.len && Plain(n, l.mem, l.config.src, Times(n.packetMaxSize, l.config.len)) && n.packetMaxSize > 0
    ensures var s := l.config.src / 4 + Times(n.packetMaxSize, b);
            var burst := Burst(n, l, BlockBase(n, l.config, b), 0, l.config.vcDma);
            && s + n.packetMaxSize <= |l.mem|
            && Mine(burst, to, true) == AsWords(l.mem[s..s + n.packetMaxSize]) && !OpenAfter(burst, to, true)
  {
    hide Times, Mine, OpenAfter;
    TimesStep(n.packetMaxSize, b, l.config.len);
    var base := BlockBase(n, l.config, b);
    var s := l.config.src / 4 + Times(n.packetMaxSize, b);
    assert base / 4 == s;
    var burst := Burst(n, l, base, 0, l.config.vcDma);
    var flits := seq(|burst|, i requires 0 <= i < |burst| => burst[i].flit);
    MineWords(burst, to);
    forall i | 0 <= i < n.packetMaxSize
      ensures flits[i] == Word(l.mem[s + i], i + 1 == n.packetMaxSize)
    {
      AtPlain(n, l.mem, base, n.packetMaxSize, i);
    }
  }

  /** The destination register names the node and the place in its memory. */
  predicate Addressed(c: Config, to: nat) { c.dst / 0x40_0000 == to < 4 }

  function Target(c: Config): nat { c.dst % 0x40_0000 }

  /** The whole stream, from block b on, leaves the source words at the destination
      and nothing else. */
  lemma {:induction false} AbsorbBlocks(n: Node, l: Local, b: nat, me: nat, m: Node, v: View)
    requires n.packetMaxSize == m.packetMaxSize > 0 && ViewOk(m, v) && v.state == Idle && !Kicked(m, v.local.config)
    requires Addressed(l.config, m.id)
    requires b <= l.config.len && Plain(n, l.mem, l.config.src, Times(n.packetMaxSize, l.config.len))
    requires Plain(m, v.local.mem, Target(l.config), Times(n.packetMaxSize, l.config.len))
    requires Target(l.config) + 4 * Times(n.packetMaxSize, l.config.len) <= LOCAL_SPACE
    requires Times(n.packetMaxSize, b) <= Times(n.packetMaxSize, l.config.len)
    ensures var r := Absorb(m, v, Mine(Blocks(n, l, b, me), m.id, false));
            && r.1 == [] && r.0.state == Idle && r.0.local.config == v.local.config
            && r.0.local.mem == Put(v.local.mem, Target(l.config) / 4 + Times(n.packetMaxSize, b), Source(n, l, b))
    ensures !OpenAfter(Blocks(n, l, b, me), m.id, false)
    decreases l.config.len - b
  {
    hide Times, Absorb, Mine, OpenAfter, Blocks, Burst, BlockHead, Put, Take, Kicked, Target, Addressed;
    var p := n.packetMaxSize;
    if b == l.config.len {
      BlocksEnd(n, l, me);
      NothingComes(m, v, m.id);
      PutNothing(v.local.mem, Target(l.config) / 4 + Times(p, b));
    } else {
      TimesStep(p, b, l.config.len);
      var s, d := l.config.src / 4 + Times(p, b), Target(l.config) / 4 + Times(p, b);
      var head, burst := BlockHead(n, l.config, b, me), Burst(n, l, BlockBase(n, l.config, b), 0, l.config.vcDma);
      BurstWords(n, l, b, m.id);
      BlocksStep(n, l, b, me);
      MineAppend([head] + burst, Blocks(n, l, b + 1, me), m.id, false);
      MineAppend([head], burst, m.id, false);
      HeadComes(n, l.config, b, me, m.id);
      var words := l.mem[s..s + p];
      var v' := AbsorbPacket(n, l, b, me, m, v, words);
      AbsorbAppend(m, v, [head.flit] + AsWords(words), Mine(Blocks(n, l, b + 1, me), m.id, false));
      AbsorbBlocks(n, l, b + 1, me, m, v');
      assert words + Source(n, l, b + 1) == Source(n, l, b);
      PutTwice(v.local.mem, d, words, Source(n, l, b + 1));
    }
  }

  lemma NothingComes(n: Node, v: View, to: nat)
    requires ViewOk(n, v)
    ensures Absorb(n, v, Mine([], to, false)) == (v, []) && !OpenAfter([], to, false)
  {
  }

  lemma HeadComes(n: Node, c: Config, b: nat, me: nat, to: nat)
    requires Addressed(c, to)
    ensures var head := BlockHead(n, c, b, me);
            Mine([head], to, false) == [head.flit] && OpenAfter([head], to, false)
  {
    MineOne(BlockHead(n, c, b, me), to, false);
  }

  lemma AbsorbPacket(n: Node, l: Local, b: nat, me: nat, m: Node, v: View, words: seq<nat>) returns (v': View)
    requires n.packetMaxSize == m.packetMaxSize == |words| > 0
    requires ViewOk(m, v) && v.state == Idle && !Kicked(m, v.local.config) && b < l.config.len
    requires Plain(m, v.local.mem, Target(l.config), Times(n.packetMaxSize, l.config.len))
    requires Target(l.config) + 4 * Times(n.packetMaxSize, l.config.len) <= LOCAL_SPACE
    ensures ViewOk(m, v') && v'.state == Idle && v'.local.config == v.local.config
    ensures Absorb(m, v, [BlockHead(n, l.config, b, me).flit] + AsWords(words)) == (v', [])
    ensures Target(l.config) / 4 + Times(n.packetMaxSize, b) + |words| <= |v.local.mem|
    ensures v'.local.mem == Put(v.local.mem, Target(l.config) / 4 + Times(n.packetMaxSize, b), words)
  {
    hide Times, Absorb, Put, Kicked;
    TimesStep(n.packetMaxSize, b, l.config.len);
    var head := BlockHead(n, l.config, b, me).flit;
    var flits := [head] + AsWords(words);
    assert flits[1..] == AsWords(words);
    AbsorbOne(m, v, flits);
    var v1 := Take(m, v, head);
    assert v1.mema == Target(l.config) + 4 * Times(n.packetMaxSize, b);
    AbsorbWords(m, v1, words);
    v' := v1.(state := Idle, dcount := 0, local := v.local.(mem := Put(v.local.mem, v1.mema / 4, words)));
  }

  /** A sender about to start on its blocks and a receiver at rest, with room for
      them on both sides. */
  ghost predicate Ready(n: Node, s: View, m: Node, r: View) {
    && ViewOk(n, s) && s.state == DmaHead && s.remain == s.local.config.len
    && ViewOk(m, r) && r.state == Idle && !Kicked(m, r.local.config)
    && n.packetMaxSize == m.packetMaxSize
    && Plain(n, s.local.mem, s.local.config.src, Times(n.packetMaxSize, s.local.config.len))
    && Addressed(s.local.config, m.id)
    && Plain(m, r.local.mem, Target(s.local.config), Times(n.packetMaxSize, s.local.config.len))
    && Target(s.local.config) + 4 * Times(n.packetMaxSize, s.local.config.len) <= LOCAL_SPACE
  }

  /** The receiver's memory with the sender's blocks in it. */
  ghost function Result(n: Node, s: View, m: Node, r: View): seq<nat>
    requires Ready(n, s, m, r)
  {
    var words := Times(n.packetMaxSize, s.local.config.len);
    var from, to := s.local.config.src / 4, Target(s.local.config) / 4;
    r.local.mem[..to] + s.local.mem[from..from + words] + r.local.mem[to + words..]
  }

  /** A notice that comes to the receiver itself does nothing to its memory. */
  lemma NoticeTaken(m: Node, v: View, c: Config, me: nat, requester: nat, to: nat)
    requires ViewOk(m, v) && v.state == Idle
    ensures var a := Absorb(m, v, Mine([DmaNotice(c, me, requester)], to, false));
            a.1 == [] && a.0.state == Idle && a.0.local == v.local
  {
    var f := DmaNotice(c, me, requester).flit;
    MineOne(DmaNotice(c, me, requester), to, false);
    if IsMine(f, to, false) {
      AbsorbOne(m, v, [f]);
      assert [f][1..] == [];
    }
  }

  lemma StreamMeans(n: Node, s: View, m: Node, r: View, dmaAfterDone: bool)
    requires Ready(n, s, m, r)
    ensures var a := Absorb(m, r, Mine(Pending(n, s, dmaAfterDone), m.id, false));
            a.1 == [] && a.0.state == Idle && a.0.local.mem == Result(n, s, m, r)
  {
    hide Times, Absorb, Blocks, Kicked, Mine, OpenAfter, DmaNotice, Target, Addressed;
    var c := s.local.config;
    var notice := DmaNotice(c, s.dst, s.src);
    var blocks := Blocks(n, s.local, 0, s.dst);
    TimesStep(n.packetMaxSize, 0, c.len);
    MineAppend(blocks, [notice], m.id, false);
    AbsorbBlocks(n, s.local, 0, s.dst, m, r);
    var mid := Absorb(m, r, Mine(blocks, m.id, false)).0;
    AbsorbAppend(m, r, Mine(blocks, m.id, false), Mine([notice], m.id, false));
    NoticeTaken(m, mid, c, s.dst, s.src, m.id);
    var words := Source(n, s.local, 0);
    assert words == s.local.mem[c.src / 4..c.src / 4 + Times(n.packetMaxSize, c.len)];
    assert Put(r.local.mem, Target(c) / 4, words) == Result(n, s, m, r);
    assert Pending(n, s, dmaAfterDone) == blocks + [notice];
  }

  /** What happens on the way: the sender runs, a flit travels, the receiver runs. */
  datatype Act = SenderStep(ready: bool) | Travel | ReceiverStep(ready: bool)

  /** Two interfaces with an order-keeping network between them, which brings the
      receiver the packets whose heads name it. */
  class Link {
    const sender: Nif
    const receiver: Nif
    var delivered: nat // flits of sender.tx that have arrived somewhere
    var open: bool // the packet under way is the receiver's

    constructor (sender: Nif, receiver: Nif)
      ensures this.sender == sender && this.receiver == receiver && delivered == 0 && !open
    {
      this.sender, this.receiver, delivered, open := sender, receiver, 0, false;
    }

    /** What the receiver will make of everything waiting, on its way or unsent. */
    ghost function Ahead(): (View, seq<Flit>)
      requires sender.Valid() && receiver.Valid() && delivered <= |sender.tx|
      reads this, sender, receiver
    {
      Absorb(receiver.node, receiver.Seen(), receiver.rx + Mine(sender.tx[delivered..] + Unsent(), receiver.node.id, open))
    }

    ghost function Unsent(): seq<Sent>
      requires sender.Valid()
      reads this, sender
    {
      Pending(sender.node, sender.Seen(), sender.dmaAfterDone)
    }

    /** The two ends are in the middle of a transfer, or at its end. */
    ghost predicate Busy()
      reads this, sender, receiver
    {
      && sender != receiver && sender.Valid() && receiver.Valid() && delivered <= |sender.tx|
      && (!Receives(sender.state) || sender.state == Idle) && sender.state != Done && !sender.donePending
      && !receiver.donePending
      && Ahead().1 == [] && Ahead().0.state == Idle
    }

    predicate Over()
      reads this, sender, receiver
    {
      sender.state == Idle && delivered == |sender.tx| && receiver.rx == []
    }

    method MoveSender(ready: bool)
      requires Busy() && sender.state != Idle
      modifies sender
      ensures Busy() && Ahead() == old(Ahead()) && sender.local.mem == old(sender.local.mem)
      ensures sender.tx + Unsent() == old(sender.tx + Unsent()) && |sender.tx| >= |old(sender.tx)|
      ensures ready && sender.node.bandwidth > 0 ==> |sender.tx| > |old(sender.tx)|
    {
      hide Absorb, Pending, Mine;
      ghost var before, was := sender.tx, sender.tx + Unsent();
      sender.Step(ready);
      assert sender.tx + Unsent() == was;
      assert was[delivered..] == sender.tx[delivered..] + Unsent();
      assert was[delivered..] == before[delivered..] + old(Unsent());
    }

    method MoveFlit()
      requires Busy() && delivered < |sender.tx|
      modifies this, receiver
      ensures Busy() && Ahead() == old(Ahead())
      ensures delivered == old(delivered) + 1 && |receiver.rx| <= |old(receiver.rx)| + 1
    {
      hide Absorb, Pending, Mine, IsMine, Opened, OpenAfter;
      var s := sender.tx[delivered];
      ghost var rest := sender.tx[delivered + 1..] + Unsent();
      assert sender.tx[delivered..] + Unsent() == [s] + rest;
      MineAppend([s], rest, receiver.node.id, open);
      MineOne(s, receiver.node.id, open);
      ghost var waiting := receiver.rx;
      delivered := delivered + 1;
      if IsMine(s.flit, receiver.node.id, open) {
        receiver.rx := receiver.rx + [s.flit];
      }
      open := Opened(s.flit, receiver.node.id, open);
      assert receiver.rx == waiting + Mine([s], receiver.node.id, old(open));
      assert receiver.rx + Mine(rest, receiver.node.id, open) == waiting + Mine([s] + rest, receiver.node.id, old(open));
    }

    method MoveReceiver(ready: bool)
      requires Busy()
      modifies receiver
      ensures Busy() && Ahead() == old(Ahead())
      ensures |receiver.rx| <= |old(receiver.rx)|
      ensures old(receiver.rx) != [] && receiver.node.bandwidth > 0 ==> |receiver.rx| < |old(receiver.rx)|
    {
      hide Absorb, Pending, Mine, Take;
      ghost var rest := Mine(sender.tx[delivered..] + Unsent(), receiver.node.id, open);
      AbsorbEndsIdle(receiver.node, receiver.Seen(), receiver.rx + rest);
      AbsorbPrefix(receiver.node, receiver.Seen(), receiver.rx, rest);
      AbsorbAppend(receiver.node, receiver.Seen(), receiver.rx, rest);
      receiver.Step(ready);
      AbsorbAppend(receiver.node, receiver.Seen(), receiver.rx, rest);
    }

    lemma OverMeans()
      requires Busy() && Over()
      ensures Ahead().0 == receiver.Seen() && Unsent() == []
    {
      hide ViewOk;
    }

    /** In whatever order sender, network and receiver get their turns, and however
        often the sender has to wait: once every side has been served, the receiver
        holds the sender's blocks, nothing else has changed, and the sender has put
        exactly its packets and one notice on the network. */
    method Transfer(acts: seq<Act>)
      requires sender != receiver && sender.Valid() && receiver.Valid()
      requires Ready(sender.node, sender.Seen(), receiver.node, receiver.Seen())
      requires delivered == |sender.tx| && !open && receiver.rx == [] && !sender.donePending && !receiver.donePending
      requires sender.node.bandwidth > 0 && receiver.node.bandwidth > 0
      modifies this, sender, receiver
      ensures receiver.local.mem == old(Result(sender.node, sender.Seen(), receiver.node, receiver.Seen()))
      ensures sender.tx == old(sender.tx) + old(Unsent()) && sender.local.mem == old(sender.local.mem)
      ensures sender.state == Idle && receiver.state == Idle
    {
      hide Absorb, Pending, ViewOk, Result;
      StreamMeans(sender.node, sender.Seen(), receiver.node, receiver.Seen(), sender.dmaAfterDone);
      assert sender.tx[delivered..] + Unsent() == Unsent();
      assert [] + Mine(Unsent(), receiver.node.id, open) == Mine(Unsent(), receiver.node.id, open);
      ghost var all := sender.tx + Unsent();
      for i := 0 to |acts|
        invariant Busy() && Ahead() == old(Ahead()) && sender.tx + Unsent() == all
        invariant sender.local.mem == old(sender.local.mem)
      {
        match acts[i] {
          case SenderStep(ready) => if sender.state != Idle { MoveSender(ready); }
          case Travel => if delivered < |sender.tx| { MoveFlit(); }
          case ReceiverStep(ready) => MoveReceiver(ready);
        }
      }
      while !Over()
        invariant Busy() && Ahead() == old(Ahead()) && sender.tx + Unsent() == all
        invariant sender.local.mem == old(sender.local.mem)
        decreases 3 * (|all| - |sender.tx|) + 2 * (|sender.tx| - delivered) + |receiver.rx|
      {
        if sender.state != Idle {
          MoveSender(true);
        } else if delivered < |sender.tx| {
          MoveFlit();
        } else {
          MoveReceiver(true);
        }
      }
      OverMeans();
    }
  }
}
