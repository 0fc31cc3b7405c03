/** The DMA controller: a state machine that reads a block into a buffer and
    writes it out, word by word, under any bus grants and any memory latency. */
module DmacModel {
  import opened BlockCopy

  datatype Status = Idle | ReadReq | Reading | ReadDone | WriteReq | Writing | WriteDone | Exit

  /** The memory-mapped registers. */
  datatype Config = Config(enabled: bool, kicked: bool, irqEn: bool, abort: bool,
                           busy: bool, done: bool, addrErr: bool, busErr: bool, endStat: bool,
                           zeroWrite: bool, burst: bool, len: nat, src: nat, dst: nat, successLen: nat)

  /** Why a transfer ended. */
  datatype Reason = Complete | Aborted | BadAddress | BusError

  /** What the bus does in a cycle: whether it grants a request, and which of the
      accesses tried in this cycle find their word ready. */
  datatype Cycle = Cycle(grant: bool, ready: seq<bool>)

  /** What can happen to the controller. */
  datatype Event = Register(offset: nat, data: nat) | Fault | Tick(cycle: Cycle)

  /** A cycle in which a waiting controller gets on. */
  ghost predicate Helpful(c: Cycle) { c.grant && exists i :: 0 <= i < |c.ready| && c.ready[i] }

  const INTEN_OFFSET := 0x04
  const CTRL_OFFSET := 0x08
  const STATUS_OFFSET := 0x0C
  const ATTR_OFFSET := 0x10
  const LEN_OFFSET := 0x14
  const SRC_OFFSET := 0x18
  const DST_OFFSET := 0x1C
  const DONELEN_OFFSET := 0x20

  predicate Bit(data: nat, weight: nat)
    requires weight > 0
  {
    (data / weight) % 2 == 1
  }

  /** DMACConfig::store_word: the registers that control the controller ... */
  function StoreControl(c: Config, offset: nat, data: nat): (after: Config)
    ensures offset != STATUS_OFFSET || !Bit(data, 4) ==> after.busErr == c.busErr
  {
    if offset == 0 then c.(enabled := Bit(data, 1))
    else if offset == INTEN_OFFSET then c.(irqEn := Bit(data, 1))
    else if offset == CTRL_OFFSET then c.(kicked := if c.busy then c.kicked else Bit(data, 1), abort := Bit(data, 2))
    else if offset == STATUS_OFFSET then
      c.(done := c.done && !Bit(data, 2), addrErr := c.addrErr && !Bit(data, 8),
         busErr := c.busErr && !Bit(data, 4), endStat := c.endStat && !Bit(data, 16))
    else c
  }

  /** ... and those that describe a transfer. */
  function StoreQuery(c: Config, offset: nat, data: nat): (after: Config)
    ensures after.busErr == c.busErr
  {
    if offset == ATTR_OFFSET then c.(zeroWrite := Bit(data, 2), burst := Bit(data, 1))
    else if offset == LEN_OFFSET then c.(len := data % SPACE)
    else if offset == SRC_OFFSET then c.(src := data % SPACE)
    else if offset == DST_OFFSET then c.(dst := data % SPACE)
    else if offset == DONELEN_OFFSET then c.(successLen := data % SPACE)
    else c
  }

  function StoreConfig(c: Config, offset: nat, data: nat): (after: Config)
    ensures offset != STATUS_OFFSET || !Bit(data, 4) ==> after.busErr == c.busErr
  {
    if offset <= STATUS_OFFSET then StoreControl(c, offset, data) else StoreQuery(c, offset, data)
  }

  /** The words moved by one block. */
  function Width(q: Query, blockWords: nat): nat { if q.burst then blockWords else 1 }

  /** address_valid */
  predicate Aligned(q: Query, blockWords: nat, addr: nat)
    requires blockWords > 0
  {
    addr % (if q.burst then blockWords * 4 else 4) == 0
  }

  /** What the controller demands of its addresses: a clearing run has its source
      checked, although it reads nothing, and its destination left unchecked. */
  predicate AddressesOk(q: Query, blockWords: nat)
    requires blockWords > 0
  {
    Aligned(q, blockWords, q.src) && (q.zeroWrite || Aligned(q, blockWords, q.dst))
  }

  /** Helpful cycles for one block, at most. */
  function BlockCost(q: Query, blockWords: nat): nat { 2 * Width(q, blockWords) + 4 }

  /** The two ways the code computes an address agree. */
  lemma AddressIs(q: Query, blockWords: nat, base: nat, k: nat, i: nat)
    requires i < Width(q, blockWords)
    ensures At(BlockAt(base, Width(q, blockWords), k), i)
         == if q.burst then At(base + blockWords * k * 4, i) else At(base + 4 * k, 0)
  {
  }

  lemma WriteOne(mem: seq<nat>, base: nat, data: seq<nat>, n: nat)
    requires |mem| == WORDS && n < |data|
    ensures Write(mem, base, data[..n + 1]) == StoreWord(Write(mem, base, data[..n]), At(base, n), data[n])
  {
    assert data[..n + 1][..n] == data[..n];
  }

  /** Helpful cycles for a whole transfer. */
  ghost function Budget(q: Query, blockWords: nat): nat {
    Offset(BlockCost(q, blockWords), if q.len > 0 then q.len else 1) + 2
  }

  /** Helpful cycles left in a given state. */
  ghost function WorkOf(st: Status, q: Query, blockWords: nat, counter: nat, wordCounter: nat): nat {
    var w := Width(q, blockWords);
    var rest := Offset(BlockCost(q, blockWords), if q.len > counter then q.len - counter - 1 else 0);
    match st
    case Idle => 0
    case ReadReq => rest + 2 * w + 5
    case Reading => rest + w + 4 + if w > wordCounter then w - wordCounter else 0
    case ReadDone => rest + w + 4
    case WriteReq => rest + w + 3
    case Writing => rest + 2 + if w > wordCounter then w - wordCounter else 0
    case WriteDone => rest + 2
    case Exit => 1
  }

  /** How the control state may move in a cycle that finds a transfer under way. */
  ghost predicate Moves(q: Query, blockWords: nat, c: Cycle, st: Status, counter: nat, wordCounter: nat,
                        st': Status, counter': nat, wordCounter': nat)
    requires blockWords > 0
  {
    var w := Width(q, blockWords);
    var some := exists i :: 0 <= i < |c.ready| && c.ready[i];
    && (st != WriteDone ==> counter' == counter)
    && match st
       case Idle => false
       case ReadReq => if c.grant then st' == Reading && wordCounter' == 0 else st' == st && wordCounter' == wordCounter
       case Reading => st' == ReadDone || (st' == st && wordCounter <= wordCounter' < w && (some ==> wordCounter < wordCounter'))
       case ReadDone => st' == if Aligned(q, blockWords, q.dst) then WriteReq else Exit
       case WriteReq => if c.grant then st' == Writing && wordCounter' == 0 else st' == st && wordCounter' == wordCounter
       case Writing => st' == WriteDone || (st' == st && wordCounter <= wordCounter' < w && (some ==> wordCounter < wordCounter'))
       case WriteDone =>
         && counter' == counter + 1
         && (counter' == q.len ==> st' == Exit)
         && (st' == Exit || (AddressesOk(q, blockWords) && st' == if q.zeroWrite then WriteReq else ReadReq))
       case Exit => st' == Idle
  }

  /** The state of a controller, as a value. */
  datatype State = State(mem: seq<nat>, config: Config, status: Status, query: Query, counter: nat, wordCounter: nat,
                         start: seq<nat>, live: bool, why: Reason, torn: nat)

  /** getQuery */
  function LatchedQuery(c: Config): Query { Query(c.src, c.dst, c.len, c.zeroWrite, c.burst) }

  /** The registers once a kick has been taken up. */
  function Taken(c: Config, refused: bool): Config {
    c.(busy := true, kicked := false, addrErr := c.addrErr || refused)
  }

  /** What an enabled cycle without an exception may do. */
  ghost predicate Ordinary(s: State, c: Cycle, s': State, blockWords: nat)
    requires blockWords > 0
  {
    && s'.config == s.config.(kicked := s'.config.kicked, busy := s'.config.busy, done := s'.config.done,
                              addrErr := s'.config.addrErr, endStat := s'.config.endStat, successLen := s'.config.successLen)
    && match s.status
       case Idle =>
         if !s.config.kicked then s' == s
         else
           && s'.query == LatchedQuery(s.config) && s'.start == s.mem && s'.mem == s.mem && s'.live && s'.counter == 0
           && s'.config.busy && !s'.config.kicked
           && (if !Aligned(s'.query, blockWords, s'.query.src) then s'.status == Exit && s'.why == BadAddress && s'.config.addrErr
               else s'.status == if s'.query.zeroWrite then WriteReq else ReadReq)
       case Exit =>
         s' == s.(status := Idle, config := s.config.(done := true, busy := false, successLen := s.counter))
       case _ =>
         && s'.query == s.query && s'.start == s.start && s'.live == s.live && s'.config.kicked == s.config.kicked
         && Moves(s.query, blockWords, c, s.status, s.counter, s.wordCounter, s'.status, s'.counter, s'.wordCounter)
         && (s'.status == Exit ==>
               !s'.why.BusError? && (s'.why.Aborted? ==> s.config.abort) && (s'.why.BadAddress? ==> s'.config.addrErr))
  }

  /** Every move keeps the work or lowers it, and a helpful cycle lowers it. */
  lemma MovesWork(q: Query, blockWords: nat, c: Cycle, st: Status, counter: nat, wordCounter: nat,
                  st': Status, counter': nat, wordCounter': nat)
    requires blockWords > 0 && Moves(q, blockWords, c, st, counter, wordCounter, st', counter', wordCounter')
    requires q.len == 0 || counter < q.len || st == Exit
    requires st == Reading || st == Writing ==> wordCounter < Width(q, blockWords)
    requires q.len > 0 || !AddressesOk(q, blockWords)
    ensures var work := WorkOf(st, q, blockWords, counter, wordCounter);
            var work' := WorkOf(st', q, blockWords, counter', wordCounter');
            work' <= work && (Helpful(c) ==> work' < work)
  {
    hide Offset, Aligned, AddressesOk;
    if st == WriteDone && counter + 1 < q.len {
      OffsetStep(BlockCost(q, blockWords), q.len - counter - 1);
    }
  }

  /** How many cycles of a run are helpful. */
  ghost function Helps(cycles: seq<Cycle>): nat {
    if cycles == [] then 0 else Helps(cycles[..|cycles| - 1]) + if Helpful(cycles[|cycles| - 1]) then 1 else 0
  }

  lemma {:induction false} HelpsGrow(cycles: seq<Cycle>, i: nat)
    requires i <= |cycles|
    ensures Helps(cycles[..i]) <= Helps(cycles)
    decreases |cycles|
  {
    if i == |cycles| {
      assert cycles[..i] == cycles;
    } else {
      HelpsGrow(cycles[..|cycles| - 1], i);
      assert cycles[..|cycles| - 1][..i] == cycles[..i];
    }
  }

  /** A transfer left to itself: not yet over, no abort, no exception. */
  ghost predicate UnderWay(s: State, q: Query, start: seq<nat>, blockWords: nat) {
    && s.status != Idle && s.query == q && s.start == start && s.live
    && s.config.enabled && !s.config.kicked && !s.config.abort
    && (s.status == Exit || q.len == 0 || s.counter < q.len)
    && (s.status == Reading || s.status == Writing ==> s.wordCounter < Width(q, blockWords))
    && (s.status == Exit ==> !s.why.BusError? && !s.why.Aborted? && (s.why.BadAddress? ==> s.config.addrErr))
  }

  /** The registers and the reason of a transfer that has ended by itself. */
  ghost predicate Over(s: State, q: Query, start: seq<nat>) {
    && s.status == Idle && s.query == q && s.start == start && s.live && !s.config.kicked
    && s.config.done && !s.config.busy && s.config.successLen == s.counter
    && !s.why.BusError? && !s.why.Aborted? && (s.why.BadAddress? ==> s.config.addrErr)
  }

  lemma Started(s: State, c: Cycle, s': State, blockWords: nat)
    requires blockWords > 0 && Ordinary(s, c, s', blockWords)
    requires s.status == Idle && s.config.kicked && s.config.enabled && !s.config.abort
    ensures var q := LatchedQuery(s.config);
            && UnderWay(s', q, s.mem, blockWords)
            && WorkOf(s'.status, q, blockWords, s'.counter, s'.wordCounter) < Budget(q, blockWords)
  {
    hide AddressesOk, Aligned, WorkOf, Budget;
    var q := LatchedQuery(s.config);
    WorkStarts(q, blockWords, s'.wordCounter);
    WorkAtExit(q, blockWords, s'.counter, s'.wordCounter, 0, 0);
  }

  lemma GoesOn(s: State, c: Cycle, s': State, q: Query, start: seq<nat>, blockWords: nat)
    requires blockWords > 0 && UnderWay(s, q, start, blockWords) && Ordinary(s, c, s', blockWords)
    ensures s.status == Exit ==> Over(s', q, start)
    ensures s.status != Exit && (s'.status == Exit || q.len == 0 || s'.counter < q.len) ==> UnderWay(s', q, start, blockWords)
    ensures (s'.status == Idle <==> s.status == Exit) && s'.query == q
    ensures q.len > 0 || !AddressesOk(q, blockWords) ==>
              var work := WorkOf(s.status, q, blockWords, s.counter, s.wordCounter);
              var work' := WorkOf(s'.status, q, blockWords, s'.counter, s'.wordCounter);
              work' <= work && (Helpful(c) ==> work' < work)
  {
    hide AddressesOk, Aligned, WorkOf;
    if q.len > 0 || !AddressesOk(q, blockWords) {
      if s.status == Exit {
        WorkAtExit(q, blockWords, s.counter, s.wordCounter, s'.counter, s'.wordCounter);
      } else {
        MovesWork(q, blockWords, c, s.status, s.counter, s.wordCounter, s'.status, s'.counter, s'.wordCounter);
      }
    }
  }

  lemma WorkAtExit(q: Query, blockWords: nat, counter: nat, wordCounter: nat, counter': nat, wordCounter': nat)
    ensures WorkOf(Exit, q, blockWords, counter, wordCounter) == 1
    ensures WorkOf(Idle, q, blockWords, counter', wordCounter') == 0
  {
  }

  lemma WorkPositive(st: Status, q: Query, blockWords: nat, counter: nat, wordCounter: nat)
    requires st != Idle
    ensures WorkOf(st, q, blockWords, counter, wordCounter) > 0
  {
  }

  lemma WorkStarts(q: Query, blockWords: nat, a: nat)
    ensures WorkOf(ReadReq, q, blockWords, 0, a) < Budget(q, blockWords)
    ensures WorkOf(WriteReq, q, blockWords, 0, a) < Budget(q, blockWords)
    ensures 1 < Budget(q, blockWords)
  {
    OffsetStep(BlockCost(q, blockWords), if q.len > 0 then q.len else 1);
  }

  // ---- a transfer in terms of the registers ----

  /** The words that the registers ask for. */
  function Asked(c: Config, blockWords: nat): nat { (if c.burst then blockWords else 1) * c.len }

  /** Word i behind an address, as an index of memory; addresses wrap around. */
  function Place(addr: nat, i: nat): (j: nat)
    ensures j < WORDS
  {
    ((addr + 4 * i) % 0x1_0000_0000) / 4
  }

  predicate OnBlock(c: Config, blockWords: nat, addr: nat)
    requires blockWords > 0
  {
    addr % (if c.burst then 4 * blockWords else 4) == 0
  }

  /** What the controller checks: of a clearing run only the source. */
  predicate Accepted(c: Config, blockWords: nat)
    requires blockWords > 0
  {
    OnBlock(c, blockWords, c.src) && (c.zeroWrite || OnBlock(c, blockWords, c.dst))
  }

  ghost predicate Disjoint(c: Config, blockWords: nat) {
    forall i: nat, j: nat :: i < Asked(c, blockWords) && j < Asked(c, blockWords) ==> Place(c.dst, i) != Place(c.src, j)
  }

  /** Nothing but the words behind dst has changed. */
  ghost predicate Elsewhere(c: Config, blockWords: nat, before: seq<nat>, after: seq<nat>)
    requires |before| == |after| == WORDS
  {
    forall j: nat :: j < WORDS && (forall i: nat :: i < Asked(c, blockWords) ==> Place(c.dst, i) != j) ==> after[j] == before[j]
  }

  /** The words behind dst are those that were behind src. */
  ghost predicate Moved(c: Config, blockWords: nat, before: seq<nat>, after: seq<nat>)
    requires |before| == |after| == WORDS
  {
    forall i: nat :: i < Asked(c, blockWords) ==> after[Place(c.dst, i)] == before[Place(c.src, i)]
  }

  ghost predicate Zeroed(c: Config, blockWords: nat, after: seq<nat>)
    requires |after| == WORDS
  {
    forall i: nat :: i < Asked(c, blockWords) ==> after[Place(c.dst, i)] == 0
  }

  /** What a transfer that has run to its end leaves. */
  ghost predicate Outcome(c: Config, blockWords: nat, before: seq<nat>, after: seq<nat>)
    requires blockWords > 0 && |before| == |after| == WORDS
  {
    && (!Accepted(c, blockWords) ==> after == before)
    && (Accepted(c, blockWords) && Asked(c, blockWords) <= WORDS ==>
          && (!c.zeroWrite && Disjoint(c, blockWords) ==> Moved(c, blockWords, before, after) && Elsewhere(c, blockWords, before, after))
          && (c.zeroWrite && c.dst % 4 == 0 ==> Zeroed(c, blockWords, after) && Elsewhere(c, blockWords, before, after))
          && (c.zeroWrite && c.dst % 4 != 0 ==> after == before))
  }

  lemma PlaceIs(addr: nat, i: nat)
    ensures Place(addr, i) == WordOf(addr, i)
  {
  }

  lemma AcceptedIs(c: Config, blockWords: nat)
    requires blockWords > 0
    ensures Accepted(c, blockWords) <==> AddressesOk(LatchedQuery(c), blockWords)
    ensures Accepted(c, blockWords) && !c.zeroWrite ==> c.dst % 4 == 0
    ensures Asked(c, blockWords) == Offset(Width(LatchedQuery(c), blockWords), c.len)
  {
    if c.burst { Multiple(c.dst, blockWords); }
  }

  lemma Multiple(a: nat, n: nat)
    requires n > 0
    ensures a % (4 * n) == 0 ==> a % 4 == 0
  {
    if a % (4 * n) == 0 {
      var k := a / (4 * n);
      assert a == (4 * n) * k == 4 * (n * k);
    }
  }

  lemma ElsewhereIs(c: Config, blockWords: nat, before: seq<nat>, after: seq<nat>)
    requires |before| == |after| == WORDS
    requires forall j: nat :: j < WORDS && !InRange(c.dst, Asked(c, blockWords), j) ==> after[j] == before[j]
    ensures Elsewhere(c, blockWords, before, after)
  {
    hide WordOf, Place, Asked;
    forall j: nat | j < WORDS && (forall i: nat :: i < Asked(c, blockWords) ==> Place(c.dst, i) != j)
      ensures after[j] == before[j]
    {
      if InRange(c.dst, Asked(c, blockWords), j) {
        var i: nat :| i < Asked(c, blockWords) && WordOf(c.dst, i) == j;
        PlaceIs(c.dst, i);
      }
    }
  }

  /** The blocks that are copied come to the outcome that the registers ask for. */
  lemma OutcomeOf(c: Config, blockWords: nat, before: seq<nat>)
    requires blockWords > 0 && |before| == WORDS
    requires Accepted(c, blockWords)
    ensures Outcome(c, blockWords, before, Copied(before, LatchedQuery(c), Width(LatchedQuery(c), blockWords), c.len))
  {
    hide WordOf, Place, Copied, Accepted, Asked, Offset, OnBlock;
    var q := LatchedQuery(c);
    var w := Width(q, blockWords);
    var after := Copied(before, q, w, c.len);
    AcceptedIs(c, blockWords);
    if Asked(c, blockWords) <= WORDS {
      forall i: nat
        ensures Place(c.dst, i) == WordOf(q.dst, i) && Place(c.src, i) == WordOf(q.src, i)
      {
        PlaceIs(c.dst, i);
        PlaceIs(c.src, i);
      }
      if !c.zeroWrite && Disjoint(c, blockWords) {
        DisjointUnspoiled(q, w, c.len);
        CopyMeans(before, q, w, c.len);
        ElsewhereIs(c, blockWords, before, after);
      } else if c.zeroWrite && c.dst % 4 == 0 {
        ClearMeans(before, q, w, c.len);
        ElsewhereIs(c, blockWords, before, after);
      } else if c.zeroWrite {
        ClearMisaligned(before, q, w, c.len);
      }
    }
  }

  lemma OutcomeRefused(c: Config, blockWords: nat, before: seq<nat>)
    requires blockWords > 0 && |before| == WORDS && !Accepted(c, blockWords)
    ensures Outcome(c, blockWords, before, before)
  {
    hide Accepted;
  }

  /** The registers by their addresses: those that describe a transfer ... */
  lemma TransferRegisters(c: Config, data: nat)
    requires data < 0x1_0000_0000
    ensures StoreConfig(c, 0x14, data) == c.(len := data)
    ensures StoreConfig(c, 0x18, data) == c.(src := data)
    ensures StoreConfig(c, 0x1C, data) == c.(dst := data)
  {
    hide StoreControl, Bit;
  }

  lemma AttributeRegister(c: Config, data: nat)
    ensures StoreConfig(c, 0x10, data) == c.(zeroWrite := (data / 2) % 2 == 1, burst := data % 2 == 1)
  {
    hide StoreControl;
  }

  /** ... and those that control it; a kick is ignored while the controller is busy. */
  lemma ControlRegisters(c: Config, data: nat)
    ensures StoreConfig(c, 0x00, data) == c.(enabled := data % 2 == 1)
    ensures StoreConfig(c, 0x04, data) == c.(irqEn := data % 2 == 1)
    ensures StoreConfig(c, 0x08, data) == c.(kicked := if c.busy then c.kicked else data % 2 == 1, abort := (data / 2) % 2 == 1)
  {
    hide StoreQuery;
  }

  /** The status register: a 1 clears its bit, a 0 leaves it. */
  lemma StatusWritten(c: Config, data: nat)
    ensures StoreConfig(c, 0x0C, data) ==
              c.(done := c.done && (data / 2) % 2 == 0, addrErr := c.addrErr && (data / 8) % 2 == 0,
                 busErr := c.busErr && (data / 4) % 2 == 0, endStat := c.endStat && (data / 16) % 2 == 0)
  {
  }

  /** The last transfer has stopped and was broken off by a bus error. */
  ghost predicate Blamed(s: State) { s.live && (s.status == Idle || s.status == Exit) && s.why.BusError? }

  lemma OrdinaryBlame(s: State, c: Cycle, s': State, blockWords: nat)
    requires blockWords > 0 && Ordinary(s, c, s', blockWords)
    ensures (Blamed(s') ==> Blamed(s)) && s'.config.busErr == s.config.busErr
  {
    hide Aligned, AddressesOk, Moves;
    if s.status != Idle && s.status != Exit { UnderWayMoves(s, c, s', blockWords); }
  }

  lemma UnderWayMoves(s: State, c: Cycle, s': State, blockWords: nat)
    requires blockWords > 0 && Ordinary(s, c, s', blockWords) && s.status != Idle && s.status != Exit
    ensures s'.status != Idle
  {
    hide Aligned, AddressesOk;
  }

  /** The bus does not fail. */
  ghost predicate NoFault(events: seq<Event>) { forall k :: 0 <= k < |events| ==> !events[k].Fault? }

  /** The CPU does not clear the bus-error bit of the status register. */
  ghost predicate BitKept(events: seq<Event>) {
    forall k :: 0 <= k < |events| && events[k].Register? && events[k].offset == STATUS_OFFSET ==> !Bit(events[k].data, 4)
  }

  class Dmac {
    const blockWords: nat
    const buffer: array<nat>
    var mem: seq<nat>
    var config: Config
    var status: Status
    var query: Query
    var counter: nat
    var wordCounter: nat
    var exceptionPending: bool
    var interrupt: bool
    ghost var start: seq<nat> // memory when the transfer was kicked
    ghost var live: bool // a transfer has been kicked since reset
    ghost var why: Reason
    ghost var torn: nat // words written of a block that was not finished

    function W(): nat
      reads `query
    {
      Width(query, blockWords)
    }

    ghost predicate Shape()
      reads `mem, `start
    {
      |mem| == WORDS && |start| == WORDS && blockWords > 0 && buffer.Length == blockWords
    }

    /** Memory after the blocks counted so far. */
    ghost function Done(): (m: seq<nat>)
      requires Shape()
      reads `mem, `start, `query, `counter
      ensures |m| == WORDS
    {
      Copied(start, query, W(), counter)
    }

    /** What the block in hand has to write. */
    ghost function Current(): (d: seq<nat>)
      requires Shape()
      reads `mem, `start, `query, `counter
      ensures |d| == W()
    {
      Block(Done(), query, W(), counter)
    }

    /** Memory with n words of the block in hand written as well. */
    ghost function Partly(n: nat): (m: seq<nat>)
      requires Shape() && n <= W()
      reads `mem, `start, `query, `counter
      ensures |m| == WORDS
    {
      Write(Done(), BlockAt(query.dst, W(), counter), Current()[..n])
    }

    ghost predicate Buffered(n: nat)
      requires Shape() && n <= W()
      reads `mem, `start, `query, `counter, buffer
    {
      !query.zeroWrite ==> buffer[..n] == Current()[..n]
    }

    /** A transfer that has ended left exactly `counter` blocks and, after a bus
        error only, some words of the next. */
    ghost predicate Finished()
      requires Shape()
      reads `mem, `start, `query, `counter, `torn, `why
    {
      && torn <= W() && mem == Partly(torn)
      && (!why.BusError? ==> torn == 0)
      && (why.Complete? ==> counter == query.len > 0 && AddressesOk(query, blockWords))
      && (why.BadAddress? ==> counter == 0 && !AddressesOk(query, blockWords))
    }

    /** Blocks are only ever in hand when the addresses are good and some are left. */
    ghost predicate InHand()
      requires blockWords > 0
      reads `query, `counter
    {
      && Aligned(query, blockWords, query.src)
      && (counter > 0 ==> AddressesOk(query, blockWords))
      && (query.len == 0 || counter < query.len)
    }

    ghost predicate Valid()
      reads `mem, `start, `query, `counter, `torn, `why, `status, `wordCounter, `live, buffer
    {
      && Shape()
      && match status
         case Idle => live ==> Finished()
         case ReadReq => InHand() && !query.zeroWrite && mem == Done()
         case Reading => InHand() && !query.zeroWrite && mem == Done() && wordCounter < W() && Buffered(wordCounter)
         case ReadDone => InHand() && !query.zeroWrite && mem == Done() && Buffered(W())
         case WriteReq => InHand() && AddressesOk(query, blockWords) && mem == Done() && Buffered(W())
         case Writing =>
           && InHand() && AddressesOk(query, blockWords) && Buffered(W())
           && wordCounter < W() && mem == Partly(wordCounter)
         case WriteDone => InHand() && AddressesOk(query, blockWords) && mem == Partly(W())
         case Exit => live ==> Finished()
    }

    constructor (blockWords: nat, mem: seq<nat>)
      requires blockWords > 0 && |mem| == WORDS
      ensures Valid() && fresh(buffer) && status == Idle && !live && this.mem == mem && !config.kicked
    {
      this.blockWords, this.mem := blockWords, mem;
      buffer := new nat[blockWords];
      config := Config(false, false, false, false, false, false, false, false, false, false, false, 0, 0, 0, 0);
      status, query, counter, wordCounter := Idle, Query(0, 0, 0, false, false), 0, 0;
      exceptionPending, interrupt := false, false;
      start, live, why, torn := mem, false, Complete, 0;
    }

    /** A store by the CPU to one of the registers.  A transfer under way has its
        own copy of the query, so all it can notice is enable and abort. */
    method WriteRegister(offset: nat, data: nat)
      requires Valid()
      modifies `config
      ensures Valid() && config == StoreConfig(old(config), offset, data)
    {
      hide *;
      config := StoreConfig(config, offset, data);
    }

    /** One burst of reads into the buffer: as many words as are found ready. */
    method StepReading(ready: seq<bool>)
      requires Valid() && status == Reading
      modifies `status, `wordCounter, buffer
      ensures Valid() && (status == Reading || status == ReadDone)
      ensures status == Reading ==> old(wordCounter) <= wordCounter < W()
      ensures status == Reading && (exists i :: 0 <= i < |ready| && ready[i]) ==> wordCounter > old(wordCounter)
    {
      hide Copied, Write;
      var i := 0;
      while i < |ready|
        invariant 0 <= i <= |ready| && status == Reading && old(wordCounter) <= wordCounter < W()
        invariant Buffered(wordCounter)
        invariant (exists k :: 0 <= k < i && ready[k]) ==> wordCounter > old(wordCounter)
      {
        if ready[i] {
          var addr := if query.burst then At(query.src + blockWords * counter * 4, wordCounter)
                      else At(query.src + 4 * counter, 0);
          AddressIs(query, blockWords, query.src, counter, wordCounter);
          buffer[wordCounter] := FetchWord(mem, addr);
          wordCounter := wordCounter + 1;
          if wordCounter == blockWords || !query.burst {
            status := ReadDone;
            break;
          }
        }
        i := i + 1;
      }
    }

    lemma WordToWrite(n: nat)
      requires Shape() && n < W() && Buffered(W())
      ensures (if query.zeroWrite then 0 else buffer[n]) == Current()[n]
    {
      hide Copied;
      if !query.zeroWrite {
        assert buffer[n] == buffer[..W()][n];
      }
    }

    /** One burst of writes. */
    method StepWriting(ready: seq<bool>)
      requires Valid() && status == Writing
      modifies `status, `wordCounter, `mem
      ensures Valid() && (status == Writing || status == WriteDone)
      ensures status == Writing ==> old(wordCounter) <= wordCounter < W()
      ensures status == Writing && (exists i :: 0 <= i < |ready| && ready[i]) ==> wordCounter > old(wordCounter)
    {
      hide Copied, Write, Block, At, BlockAt, AddressesOk, Aligned, Finished;
      ghost var before, base, data := Done(), BlockAt(query.dst, W(), counter), Current();
      var i := 0;
      while i < |ready|
        invariant 0 <= i <= |ready| && status == Writing && old(wordCounter) <= wordCounter < W()
        invariant |mem| == WORDS && mem == Write(before, base, data[..wordCounter])
        invariant (exists k :: 0 <= k < i && ready[k]) ==> wordCounter > old(wordCounter)
      {
        if ready[i] {
          AddressIs(query, blockWords, query.dst, counter, wordCounter);
          WriteOne(before, base, data, wordCounter);
          var word := if query.zeroWrite then 0 else buffer[wordCounter];
          WordToWrite(wordCounter);
          mem := StoreWord(mem, if query.burst then At(query.dst + blockWords * counter * 4, wordCounter)
                                else At(query.dst + 4 * counter, 0), word);
          wordCounter := wordCounter + 1;
          if wordCounter == blockWords || !query.burst {
            status := WriteDone;
            break;
          }
        }
        i := i + 1;
      }
    }

    /** A bus error reported to the controller. */
    method Exception()
      requires Valid()
      modifies `exceptionPending
      ensures Valid() && exceptionPending
    {
      hide *;
      exceptionPending := true;
    }

    /** IDLE with a kick: the query is latched and its source address checked. */
    method StepIdle()
      requires Valid() && status == Idle && config.kicked
      modifies `status, `config, `query, `counter, `wordCounter, `start, `live, `why, `torn
      ensures Valid() && live && start == mem && counter == 0
      ensures query == LatchedQuery(old(config))
      ensures config == Taken(old(config), status == Exit)
      ensures status == (if !Aligned(query, blockWords, query.src) then Exit else if query.zeroWrite then WriteReq else ReadReq)
      ensures status == Exit ==> why == BadAddress
    {
      hide Valid, Aligned, Finished, InHand, Taken, LatchedQuery;
      ValidShape();
      query, counter, wordCounter := LatchedQuery(config), 0, 0;
      var ok := Aligned(query, blockWords, query.src);
      status := if !ok then Exit else if query.zeroWrite then WriteReq else ReadReq;
      config := Taken(config, !ok);
      start, live, torn, why := mem, true, 0, if ok then why else BadAddress;
      Begun();
    }

    lemma ValidShape()
      requires Valid()
      ensures Shape()
    {
    }

    lemma Begun()
      requires Shape() && counter == 0 && start == mem && torn == 0
      requires status == (if !Aligned(query, blockWords, query.src) then Exit else if query.zeroWrite then WriteReq else ReadReq)
      requires status == Exit ==> why == BadAddress
      ensures Valid()
    {
      hide Copied, Write, Block, BlockAt, Aligned, Partly, Done, Current, Buffered;
      NothingCopied();
      NothingWritten();
      NothingBuffered();
    }

    lemma NothingCopied()
      requires Shape() && counter == 0
      ensures Done() == start
    {
    }

    lemma NothingWritten()
      requires Shape()
      ensures Partly(0) == Done()
    {
      assert Current()[..0] == [];
    }

    lemma NothingBuffered()
      requires Shape()
      ensures Buffered(0) && (query.zeroWrite ==> Buffered(W()))
    {
      hide Copied, Block;
      assert buffer[..0] == [] && Current()[..0] == [];
    }

    /** READ_REQ: once the bus is granted the words of a block are requested. */
    method StepReadReq(grant: bool)
      requires Valid() && status == ReadReq
      modifies `status, `wordCounter
      ensures Valid()
      ensures if grant then status == Reading && wordCounter == 0 else status == ReadReq && wordCounter == old(wordCounter)
    {
      hide Copied, Write, Block, Buffered, Current;
      if grant {
        NothingBuffered();
        status, wordCounter := Reading, 0;
      }
    }

    method StepWriteReq(grant: bool)
      requires Valid() && status == WriteReq
      modifies `status, `wordCounter
      ensures Valid()
      ensures if grant then status == Writing && wordCounter == 0 else status == WriteReq && wordCounter == old(wordCounter)
    {
      hide Copied, Write, Block, Buffered, Current, Partly;
      if grant {
        NothingWritten();
        status, wordCounter := Writing, 0;
      }
    }

    method StepReadDone()
      requires Valid() && status == ReadDone
      modifies `status, `config, `why, `torn
      ensures Valid() && config == old(config).(endStat := config.endStat, addrErr := config.addrErr)
      ensures status == if Aligned(query, blockWords, query.dst) then WriteReq else Exit
      ensures status == Exit ==> why == if config.abort then Aborted else BadAddress
      ensures status == Exit && why == BadAddress ==> config.addrErr
      ensures status != Exit ==> config.addrErr == old(config.addrErr)
    {
      hide Copied, Write, Block, BlockAt;
      if Aligned(query, blockWords, query.dst) {
        config := config.(endStat := false);
        status := WriteReq;
      } else {
        NothingWritten();
        torn, status := 0, Exit;
        if config.abort {
          why := Aborted;
        } else {
          config := config.(endStat := true, addrErr := true);
          why := BadAddress;
        }
      }
    }

    method StepWriteDone()
      requires Valid() && status == WriteDone
      modifies `status, `config, `counter, `why, `torn
      ensures Valid() && counter == old(counter) + 1 && config == old(config).(endStat := true)
      ensures AddressesOk(query, blockWords)
      ensures status == (if counter == query.len || config.abort then Exit else if query.zeroWrite then WriteReq else ReadReq)
      ensures status == Exit ==> why == if counter == query.len then Complete else Aborted
    {
      hide Write, BlockAt;
      BlockWritten();
      counter, torn := counter + 1, 0;
      NothingWritten();
      if counter == query.len {
        status, why := Exit, Complete;
      } else if config.abort {
        status, why := Exit, Aborted;
      } else {
        status := if query.zeroWrite then WriteReq else ReadReq;
      }
      config := config.(endStat := true);
    }

    lemma BlockWritten()
      requires Shape()
      ensures Partly(W()) == Copied(start, query, W(), counter + 1)
    {
      hide Write;
      assert Current()[..W()] == Current();
    }

    method StepExit()
      requires Valid() && status == Exit
      modifies `status, `config
      ensures Valid() && status == Idle && config == old(config).(done := true, busy := false, successLen := counter)
    {
      hide Finished;
      config := config.(done := true, busy := false, successLen := counter);
      status := Idle;
    }

    /** An exception ends whatever is going on.  The words already written stay. */
    method Abandon()
      requires Valid()
      modifies `status, `why, `torn, `config, `exceptionPending
      ensures Valid() && status == Exit && !exceptionPending && config == old(config).(busErr := true)
      ensures old(status) != Idle && old(status) != Exit ==> why == BusError
      ensures old(status) == Idle || old(status) == Exit ==> why == old(why)
    {
      hide Copied, Write, Block, BlockAt, AddressesOk;
      NothingWritten();
      match status {
        case Idle =>
        case Exit =>
        case Writing => why, torn := BusError, wordCounter;
        case WriteDone => why, torn := BusError, W();
        case ReadReq => why, torn := BusError, 0;
        case Reading => why, torn := BusError, 0;
        case ReadDone => why, torn := BusError, 0;
        case WriteReq => why, torn := BusError, 0;
      }
      status, exceptionPending := Exit, false;
      config := config.(busErr := true);
    }

    ghost function Snapshot(): State
      reads `mem, `config, `status, `query, `counter, `wordCounter, `start, `live, `why, `torn
    {
      State(mem, config, status, query, counter, wordCounter, start, live, why, torn)
    }

    /** The cases of the switch in which a transfer is under way: reading ... */
    method SwitchReading(c: Cycle)
      requires Valid() && (status == ReadReq || status == Reading || status == ReadDone)
      modifies `status, `config, `wordCounter, `why, `torn, buffer
      ensures Valid() && Ordinary(old(Snapshot()), c, Snapshot(), blockWords)
    {
      hide Valid, InHand, Shape, Aligned, Done, Current, Partly, Buffered;
      if status == ReadReq {
        StepReadReq(c.grant);
      } else if status == Reading {
        StepReading(c.ready);
      } else {
        StepReadDone();
      }
    }

    /** ... and writing. */
    method SwitchWriting(c: Cycle)
      requires Valid() && (status == WriteReq || status == Writing || status == WriteDone)
      modifies `status, `config, `counter, `wordCounter, `mem, `why, `torn
      ensures Valid() && Ordinary(old(Snapshot()), c, Snapshot(), blockWords)
    {
      hide Valid, InHand, Shape, Aligned, Done, Current, Partly, Buffered;
      if status == WriteReq {
        StepWriteReq(c.grant);
      } else if status == Writing {
        StepWriting(c.ready);
      } else {
        StepWriteDone();
      }
    }

    /** The switch of DMAC::step, for an enabled controller. */
    method Switch(c: Cycle)
      requires Valid()
      modifies `status, `config, `query, `counter, `wordCounter, `mem, `start, `live, `why, `torn, buffer
      ensures Valid() && Ordinary(old(Snapshot()), c, Snapshot(), blockWords)
    {
      hide Valid, InHand, Shape, Aligned, Moves;
      match status {
        case Idle =>
          if config.kicked {
            StepIdle();
          }
        case ReadReq => SwitchReading(c);
        case Reading => SwitchReading(c);
        case ReadDone => SwitchReading(c);
        case WriteReq => SwitchWriting(c);
        case Writing => SwitchWriting(c);
        case WriteDone => SwitchWriting(c);
        case Exit => StepExit();
      }
    }

    /** DMAC::step */
    method Step(c: Cycle)
      requires Valid()
      modifies this, buffer
      ensures Valid() && interrupt == (config.done && config.irqEn)
      ensures !old(config.enabled) ==> Snapshot() == old(Snapshot()) && exceptionPending == old(exceptionPending)
      ensures old(config.enabled) && old(exceptionPending) ==> status == Exit && config.busErr && !exceptionPending
      ensures old(config.enabled) && !old(exceptionPending) ==>
                Ordinary(old(Snapshot()), c, Snapshot(), blockWords) && !exceptionPending
    {
      hide *;
      if config.enabled {
        Switch(c);
        if exceptionPending {
          Abandon();
        }
      }
      interrupt := config.done && config.irqEn;
    }

    lemma ValidCounters()
      requires Valid()
      ensures blockWords > 0 && |mem| == WORDS
      ensures status == Reading || status == Writing ==> wordCounter < W()
      ensures status != Idle && status != Exit ==> query.len == 0 || counter < query.len
    {
    }

    /** What a transfer that ended by itself has done. */
    lemma OverMeans(q: Query, start: seq<nat>)
      requires Valid() && Over(Snapshot(), q, start) && |start| == WORDS
      ensures AddressesOk(q, blockWords) ==>
                && q.len > 0 && config.successLen == q.len
                && mem == Copied(start, q, Width(q, blockWords), q.len)
      ensures !AddressesOk(q, blockWords) ==> mem == start && config.successLen == 0 && config.addrErr
    {
      hide Copied, Aligned, AddressesOk, Write, Block, BlockAt;
      NothingWritten();
      if counter == 0 {
        NothingCopied();
      }
    }

    /** A kicked transfer left to itself ends after its budget of helpful cycles,
        with everything copied when the addresses are good and nothing touched when
        they are not.  A length of zero with good addresses never ends. */
    method Run(cycles: seq<Cycle>) returns (finished: bool)
      requires Valid() && status == Idle && config.kicked && config.enabled && !config.abort && !exceptionPending
      modifies this, buffer
      ensures Valid()
      ensures var q := LatchedQuery(old(config));
              && (finished ==> status == Idle && config.done && !config.busy)
              && (finished && AddressesOk(q, blockWords) ==>
                    && q.len > 0 && config.successLen == q.len
                    && mem == Copied(old(mem), q, Width(q, blockWords), q.len))
              && (finished && !AddressesOk(q, blockWords) ==> mem == old(mem) && config.successLen == 0 && config.addrErr)
              && ((q.len > 0 || !AddressesOk(q, blockWords)) && Helps(cycles) >= Budget(q, blockWords) ==> finished)
      ensures blockWords > 0 && |mem| == |old(mem)| == WORDS
      ensures finished ==> Outcome(old(config), blockWords, old(mem), mem)
      ensures finished ==> if Accepted(old(config), blockWords) then config.successLen == old(config).len else config.addrErr
    {
      hide Valid, Aligned, AddressesOk, WorkOf, Budget, Copied, Ordinary, Outcome, Accepted;
      ghost var q, start0 := LatchedQuery(config), mem;
      ValidCounters();
      WorkStarts(q, blockWords, 0);
      if cycles == [] {
        return false;
      }
      Step(cycles[0]);
      Started(old(Snapshot()), cycles[0], Snapshot(), blockWords);
      var i := 1;
      while i < |cycles|
        invariant 1 <= i <= |cycles| && Valid() && !exceptionPending
        invariant UnderWay(Snapshot(), q, start0, blockWords)
        invariant q.len > 0 || !AddressesOk(q, blockWords) ==>
                    WorkOf(status, q, blockWords, counter, wordCounter) + Helps(cycles[..i]) <= Budget(q, blockWords)
      {
        ghost var s := Snapshot();
        assert cycles[..i + 1][..i] == cycles[..i];
        Step(cycles[i]);
        ValidCounters();
        GoesOn(s, cycles[i], Snapshot(), q, start0, blockWords);
        i := i + 1;
        if status == Idle {
          HelpsGrow(cycles, i);
          OverMeans(q, start0);
          AcceptedIs(old(config), blockWords);
          if Accepted(old(config), blockWords) {
            OutcomeOf(old(config), blockWords, start0);
          } else {
            OutcomeRefused(old(config), blockWords, start0);
          }
          return true;
        }
      }
      assert cycles[..i] == cycles;
      ValidCounters();
      WorkPositive(status, q, blockWords, counter, wordCounter);
      return false;
    }

    /** Whatever the CPU writes to the registers, whenever the bus fails: a transfer
        that has stopped, aborted or not, has moved exactly the blocks it counts;
        only a bus error can leave part of the next one behind.  Without a fault
        there is none, and one that happened shows in the status register until
        the CPU clears it there. */
    method Drive(events: seq<Event>)
      requires Valid()
      modifies this, buffer
      ensures Valid()
      ensures live && (status == Idle || status == Exit) ==>
                && torn <= W() && mem == Partly(torn)
                && (!why.BusError? ==> mem == Copied(start, query, W(), counter))
                && (why.Complete? ==> counter == query.len > 0)
      ensures NoFault(events) && !old(exceptionPending) && !old(Blamed(Snapshot())) ==> !Blamed(Snapshot())
      ensures BitKept(events) && (old(Blamed(Snapshot())) ==> old(config.busErr)) ==> (Blamed(Snapshot()) ==> config.busErr)
    {
      hide *;
      for i := 0 to |events|
        invariant Valid()
        invariant NoFault(events) && !old(exceptionPending) && !old(Blamed(Snapshot())) ==> !Blamed(Snapshot()) && !exceptionPending
        invariant BitKept(events) && (old(Blamed(Snapshot())) ==> old(config.busErr)) ==> (Blamed(Snapshot()) ==> config.busErr)
      {
        match events[i] {
          case Register(offset, data) =>
            EventKeepsBit(events, i);
            WriteBlamed(offset, data);
          case Fault =>
            EventFault(events, i);
            FaultBlamed();
          case Tick(cycle) =>
            StepBlamed(cycle);
        }
      }
      Stopped();
    }

    /** The events, and what they say of the reason. */
    method WriteBlamed(offset: nat, data: nat)
      requires Valid()
      modifies `config
      ensures Valid() && Blamed(Snapshot()) == old(Blamed(Snapshot()))
      ensures offset != STATUS_OFFSET || !Bit(data, 4) ==> config.busErr == old(config.busErr)
    {
      hide Valid, Bit, StoreConfig;
      WriteRegister(offset, data);
    }

    method FaultBlamed()
      requires Valid()
      modifies `exceptionPending
      ensures Valid() && Snapshot() == old(Snapshot())
    {
      hide Valid;
      Exception();
    }

    method StepBlamed(c: Cycle)
      requires Valid()
      modifies this, buffer
      ensures Valid()
      ensures !old(exceptionPending) ==> !exceptionPending && (Blamed(Snapshot()) ==> old(Blamed(Snapshot())))
      ensures Blamed(Snapshot()) ==> config.busErr || (old(Blamed(Snapshot())) && config.busErr == old(config.busErr))
    {
      hide Valid, Ordinary, Blamed;
      ghost var s := Snapshot();
      ValidCounters();
      ghost var enabled, pending := config.enabled, exceptionPending;
      Step(c);
      if enabled && !pending { OrdinaryBlame(s, c, Snapshot(), blockWords); }
    }

    lemma EventKeepsBit(events: seq<Event>, i: nat)
      requires i < |events| && events[i].Register?
      ensures BitKept(events) && events[i].offset == STATUS_OFFSET ==> !Bit(events[i].data, 4)
    {
    }

    lemma EventFault(events: seq<Event>, i: nat)
      requires i < |events| && events[i].Fault?
      ensures !NoFault(events)
    {
    }

    lemma Stopped()
      requires Valid()
      ensures Shape()
      ensures live && (status == Idle || status == Exit) ==>
                && torn <= W() && mem == Partly(torn)
                && (!why.BusError? ==> mem == Copied(start, query, W(), counter))
                && (why.Complete? ==> counter == query.len > 0)
    {
      hide Copied, Write, Block, BlockAt, AddressesOk;
      NothingWritten();
    }
  }
}
