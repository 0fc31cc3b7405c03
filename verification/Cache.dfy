/** The write-back set-associative cache.  `flat` is the memory that a processor
    without a cache would see; the invariant ties it to the cached lines and to
    physical memory through partial write-backs and partial refills. */
module CacheModel {
  import opened Isa
  import opened CacheGeometry
  import opened UnalignedAccess

  datatype Entry = Entry(valid: bool, dirty: bool, lastAccess: nat, tag: nat, data: seq<Word>)

  datatype Status = Idle | WriteBack | Fetch | OpWriteBack

  /** CacheOpState: the transfer under way. */
  datatype Op = Op(counter: nat, requested: nat, way: nat, index: nat, lastInvalidate: bool)

  /** Memory cut into lines. */
  type Lines = seq<seq<Word>>

  /** The memory system's answers in one cycle: the bus, and the word asked for. */
  datatype Answer = Answer(granted: bool, ready: bool)

  datatype CacheOp = HitInv | HitWb | HitWbInv | HitFwb | HitFwbInv

  predicate Shaped(lines: Lines, words: nat) { forall l :: 0 <= l < |lines| ==> |lines[l]| == words }

  /** The lines a and b agree on their first n words. */
  predicate Agree(a: seq<Word>, b: seq<Word>, n: nat)
    requires n <= |a| && n <= |b|
  {
    forall k :: 0 <= k < n ==> a[k] == b[k]
  }

  /** An entry against memory; `filling`: it is being overwritten by a refill. */
  predicate EntryOk(e: Entry, line: nat, filling: bool, mem: Lines, flat: Lines, words: nat) {
    && |e.data| == words
    && (e.valid ==> line < |flat| == |mem|)
    && (e.valid && !filling ==> e.data == flat[line])
    && (e.valid && (filling || !e.dirty) ==> mem[line] == flat[line])
  }

  class Cache {
    const ways: nat
    const count: nat
    const words: nat
    const blocks: array2<Entry>
    var status: Status
    var nextStatus: Status
    var lastUpdate: nat
    var op: Op
    /** The operation record is allocated. */
    var opLive: bool
    /** Physical memory. */
    var mem: Lines
    ghost var flat: Lines

    ghost predicate Geometry() {
      ways > 0 && count > 0 && words > 0 && blocks.Length0 == ways && blocks.Length1 == count
    }

    /** The line that entry (w, x) is tagged with. */
    ghost function Line(w: nat, x: nat): nat
      requires Geometry() && w < ways && x < count
      reads blocks
    {
      LineAt(count, blocks[w, x].tag, x)
    }

    ghost predicate Filling(w: nat, x: nat)
      reads `nextStatus, `op
    {
      nextStatus == Fetch && w == op.way && x == op.index
    }

    /** Way w holds line l. */
    ghost predicate Caches(w: nat, l: nat)
      requires Geometry() && w < ways
      reads blocks
    {
      var e := blocks[w, IndexOf(count, l)];
      e.valid && e.tag == TagOf(count, l)
    }

    ghost predicate Uncached(l: nat)
      requires Geometry()
      reads blocks
    {
      forall w: nat :: w < ways ==> !Caches(w, l)
    }

    /** At most one valid way of a set holds a given tag. */
    ghost predicate Unique()
      requires Geometry()
      reads blocks
    {
      forall v: nat, w: nat, x: nat :: v < ways && w < ways && x < count && v != w && blocks[v, x].valid && blocks[w, x].valid
        ==> blocks[v, x].tag != blocks[w, x].tag
    }

    ghost predicate EntriesOk()
      requires Geometry()
      reads `nextStatus, `op, `mem, `flat, blocks
    {
      forall w: nat, x: nat :: w < ways && x < count
        ==> EntryOk(blocks[w, x], Line(w, x), Filling(w, x), mem, flat, words)
    }

    /** The line that the pending refill will bring in. */
    ghost function Requested(): nat
      requires Geometry()
      reads `op
    {
      LineOf(4 * words, op.requested)
    }

    /** The pending transfer: how far it has come, and what is already equal. */
    ghost predicate OpOk(least: nat)
      requires Geometry() && EntriesOk() && |mem| == |flat| && Shaped(mem, words) && Shaped(flat, words)
      reads `nextStatus, `op, `opLive, `mem, `flat, blocks
    {
      nextStatus != Idle ==>
        && opLive && op.way < ways && op.index < count && least <= op.counter <= words
        && (nextStatus == WriteBack || nextStatus == OpWriteBack ==>
              blocks[op.way, op.index].valid
              && Agree(mem[Line(op.way, op.index)], flat[Line(op.way, op.index)], words - op.counter))
        && (nextStatus == WriteBack || nextStatus == Fetch ==>
              Requested() < |flat| && op.index == IndexOf(count, Requested()) && Uncached(Requested()))
        && (nextStatus == Fetch ==> Agree(blocks[op.way, op.index].data, flat[Requested()], words - op.counter))
    }

    /** The status register lags one cycle behind. */
    ghost predicate StatusOk()
      reads `status, `nextStatus
    {
      status == nextStatus || status == Idle || (status == WriteBack && nextStatus == Fetch) || nextStatus == Idle
    }

    ghost predicate Valid()
      reads this, blocks
    {
      ValidFrom(1)
    }

    /** Valid, except that the counter may have reached `least`. */
    ghost predicate ValidFrom(least: nat)
      reads this, blocks
    {
      && Geometry() && |mem| == |flat| && Shaped(mem, words) && Shaped(flat, words)
      && EntriesOk() && Unique()
      && (forall l: nat :: l < |flat| && Uncached(l) ==> mem[l] == flat[l])
      && OpOk(least) && StatusOk()
    }

    // ---- lookup ----

    /** addr_separete: shift and mask. */
    method AddrSeparate(addr: nat) returns (tag: nat, index: nat, offset: nat)
      requires Geometry()
      ensures tag == TagOf(count, LineOf(4 * words, addr)) && index == IndexOf(count, LineOf(4 * words, addr))
      ensures offset == addr % (4 * words)
    {
      hide TagOf, IndexOf, LineOf;
      var blockSize := 4 * words;
      Separate(blockSize, count, addr);
      tag := addr / (blockSize * count);
      index := (addr % (blockSize * count)) / blockSize;
      offset := addr % blockSize;
    }

    /** cache_hit: the way that holds the address, if any. */
    method CacheHit(addr: nat) returns (hit: bool, index: nat, way: nat, offset: nat)
      requires Geometry()
      ensures index == IndexOf(count, LineOf(4 * words, addr)) && offset == addr % (4 * words)
      ensures hit ==> way < ways && Caches(way, LineOf(4 * words, addr))
      ensures hit <==> !Uncached(LineOf(4 * words, addr))
    {
      hide TagOf, IndexOf, LineOf;
      var tag;
      tag, index, offset := AddrSeparate(addr);
      ghost var l := LineOf(4 * words, addr);
      way := 0;
      while way < ways
        invariant way <= ways
        invariant forall w: nat :: w < way ==> !Caches(w, l)
      {
        if blocks[way, index].tag == tag && blocks[way, index].valid { return true, index, way, offset; }
        way := way + 1;
      }
      hit := false;
    }

    /** ready. */
    method Ready(addr: nat) returns (hit: bool)
      requires Geometry()
      ensures hit <==> !Uncached(LineOf(4 * words, addr))
    {
      var index, way, offset;
      hit, index, way, offset := CacheHit(addr);
    }

    // ---- a miss ----

    /** The way to replace: the first invalid one, or else the least recently used
        (the first of them, should there be several). */
    method FindVictim(index: nat) returns (way: nat, found: bool)
      requires Geometry() && index < count
      ensures way < ways
      ensures found ==> !blocks[way, index].valid && forall w: nat :: w < way ==> blocks[w, index].valid
      ensures !found ==> forall w: nat :: w < ways ==> blocks[w, index].valid
      ensures !found ==> forall w: nat :: w < ways ==> blocks[way, index].lastAccess <= blocks[w, index].lastAccess
      ensures !found ==> forall w: nat :: w < way ==> blocks[way, index].lastAccess < blocks[w, index].lastAccess
    {
      var leastRecent := 0;
      way := 0;
      while way < ways
        invariant way <= ways && leastRecent < ways && leastRecent <= way
        invariant forall w: nat :: w < way ==> blocks[w, index].valid
        invariant forall w: nat :: w < way ==> blocks[leastRecent, index].lastAccess <= blocks[w, index].lastAccess
        invariant forall w: nat :: w < leastRecent ==> blocks[leastRecent, index].lastAccess < blocks[w, index].lastAccess
      {
        if blocks[leastRecent, index].lastAccess > blocks[way, index].lastAccess { leastRecent := way; }
        if !blocks[way, index].valid { return way, true; }
        way := way + 1;
      }
      way, found := leastRecent, false;
    }

    /** request_block, called after a miss; `granted`: the bus was acquired.  A
        request is ignored while a transfer is under way. */
    method RequestBlock(addr: nat, instFetch: bool, granted: bool)
      requires Valid() && LineOf(4 * words, addr) < |flat| && Uncached(LineOf(4 * words, addr))
      requires status == Idle ==> nextStatus == Idle
      requires instFetch ==> forall w: nat, x: nat :: w < ways && x < count ==> !blocks[w, x].dirty
      modifies this
      ensures Valid() && flat == old(flat) && mem == old(mem) && status == old(status) && lastUpdate == old(lastUpdate)
      ensures status != Idle || !granted ==> nextStatus == old(nextStatus) && op == old(op)
      ensures status == Idle && granted ==>
                && op.requested == addr && op.counter == words && op.index == IndexOf(count, LineOf(4 * words, addr))
                && op.way < ways && (nextStatus == WriteBack || nextStatus == Fetch)
                && (nextStatus == WriteBack <==> blocks[op.way, op.index].valid && blocks[op.way, op.index].dirty)
                && (blocks[op.way, op.index].valid ==>
                      forall w: nat :: w < ways ==>
                        blocks[w, op.index].valid && blocks[op.way, op.index].lastAccess <= blocks[w, op.index].lastAccess)
                && (forall w: nat :: w < op.way ==>
                      blocks[w, op.index].valid
                      && (blocks[op.way, op.index].valid ==> blocks[op.way, op.index].lastAccess < blocks[w, op.index].lastAccess))
    {
      hide TagOf, IndexOf, LineOf, LineAt;
      if status == Idle && granted {
        var _, index, _ := AddrSeparate(addr);
        var way, found := FindVictim(index);
        if !found && !instFetch && blocks[way, index].dirty {
          nextStatus := WriteBack;
        } else {
          nextStatus := Fetch;
        }
        op := Op(words, addr, way, index, false);
        opLive := true;
      }
    }

    // ---- one cycle of the transfer engine ----

    /** Ready cycles still needed by the pending transfer. */
    ghost function Work(): nat
      reads `nextStatus, `op
    {
      if nextStatus == Idle then 0 else if nextStatus == WriteBack then op.counter + words else op.counter
    }

    /** physmem->store_word: the address decides line and word. */
    method PhysStore(addr: nat, data: Word)
      requires words > 0 && Shaped(mem, words) && LineOf(4 * words, addr) < |mem|
      modifies `mem
      ensures var l, k := LineOf(4 * words, addr), (addr % (4 * words)) / 4;
              mem == old(mem)[l := old(mem)[l][k := data]]
      ensures Shaped(mem, words)
    {
      var l, k := LineOf(4 * words, addr), (addr % (4 * words)) / 4;
      mem := mem[l := mem[l][k := data]];
    }

    method PhysFetch(addr: nat) returns (data: Word)
      requires words > 0 && Shaped(mem, words) && LineOf(4 * words, addr) < |mem|
      ensures data == mem[LineOf(4 * words, addr)][(addr % (4 * words)) / 4]
    {
      data := mem[LineOf(4 * words, addr)][(addr % (4 * words)) / 4];
    }

    lemma DistinctLines(v: nat, x: nat, w: nat, y: nat)
      requires Geometry() && Unique() && v < ways && w < ways && x < count && y < count
      requires blocks[v, x].valid && blocks[w, y].valid && (v, x) != (w, y)
      ensures Line(v, x) != Line(w, y)
    {
      hide TagOf, IndexOf, LineAt;
      SplitLine(count, blocks[v, x].tag, x);
      SplitLine(count, blocks[w, y].tag, y);
    }

    lemma CachesItsLine(w: nat, x: nat)
      requires Geometry() && w < ways && x < count && blocks[w, x].valid
      ensures Caches(w, Line(w, x))
    {
      hide TagOf, IndexOf, LineAt;
      SplitLine(count, blocks[w, x].tag, x);
    }

    /** The next word of the victim goes to memory. */
    method WriteWord()
      requires Valid() && (nextStatus == WriteBack || nextStatus == OpWriteBack)
      modifies `mem, `op
      ensures ValidFrom(0) && op == old(op).(counter := old(op).counter - 1)
    {
      hide TagOf, IndexOf, LineOf, LineAt;
      var way, index := op.way, op.index;
      var k := words - op.counter;
      ghost var l := Line(way, index);
      WordAddress(words, l, k);
      CachesItsLine(way, index);
      forall w: nat, x: nat | w < ways && x < count && (w, x) != (way, index) && blocks[w, x].valid
        ensures Line(w, x) != l
      {
        DistinctLines(w, x, way, index);
      }
      PhysStore(LineAt(count, blocks[way, index].tag, index) * (4 * words) + k * 4, blocks[way, index].data[k]);
      op := op.(counter := op.counter - 1);
    }

    /** Nothing of line l has to be written back. */
    ghost predicate Clean(l: nat)
      requires Geometry()
      reads blocks
    {
      forall w: nat :: w < ways && Caches(w, l) ==> !blocks[w, IndexOf(count, l)].dirty
    }

    /** The pending transfer writes line l back at the processor's request. */
    ghost predicate Flushing(l: nat)
      requires Geometry()
      reads `nextStatus, `op, blocks
    {
      nextStatus == OpWriteBack && op.way < ways && op.index == IndexOf(count, l) && Caches(op.way, l)
    }

    lemma OneHolder(way: nat, l: nat)
      requires Geometry() && Unique() && way < ways && Caches(way, l)
      ensures forall w: nat :: w < ways && w != way ==> !Caches(w, l)
    {
      hide TagOf;
    }

    /** Every word is out: the entry is clean, or gone. */
    method FinishOpWriteBack()
      requires ValidFrom(0) && nextStatus == OpWriteBack && op.counter == 0
      modifies `nextStatus, `opLive, blocks
      ensures Valid() && nextStatus == Idle
      ensures blocks[op.way, op.index] == old(blocks[op.way, op.index]).(dirty := false, valid := !op.lastInvalidate)
      ensures forall w: nat, x: nat :: w < ways && x < count && (w, x) != (op.way, op.index) ==> blocks[w, x] == old(blocks[w, x])
      ensures forall i: nat :: old(Flushing(i)) ==> Clean(i)
      ensures forall i: nat :: Uncached(i) <==> old(Uncached(i)) || (old(Flushing(i)) && op.lastInvalidate)
    {
      hide TagOf, IndexOf, LineOf, LineAt;
      var way, index := op.way, op.index;
      ghost var l := Line(way, index);
      forall i: nat | Flushing(i)
        ensures forall w: nat :: w < ways && w != way ==> !Caches(w, i)
      {
        OneHolder(way, i);
      }
      CachesItsLine(way, index);
      SplitLine(count, blocks[way, index].tag, index);
      assert mem[l] == flat[l];
      blocks[way, index] := blocks[way, index].(dirty := false);
      if op.lastInvalidate {
        blocks[way, index] := blocks[way, index].(valid := false);
      }
      nextStatus := Idle;
      opLive := false;
      forall i: nat | i < |flat| && Uncached(i)
        ensures mem[i] == flat[i]
      {
        Recombine(count, i);
        forall w: nat | i != l && w < ways
          ensures !old(Caches(w, i))
        {
          assert !Caches(w, i);
        }
      }
      forall i: nat
        ensures Uncached(i) <==> old(Uncached(i)) || (old(Flushing(i)) && op.lastInvalidate)
      {
        assert forall w: nat :: w < ways && (w != way || !old(Flushing(i))) ==> Caches(w, i) == old(Caches(w, i));
        if old(Flushing(i)) { assert Caches(way, i) <==> !op.lastInvalidate; }
      }
    }

    /** Every word is out: the refill of the same entry begins. */
    method StartRefill()
      requires ValidFrom(0) && nextStatus == WriteBack && op.counter == 0 && status == WriteBack
      modifies `nextStatus, `op
      ensures Valid() && nextStatus == Fetch && op == old(op).(counter := words)
    {
      hide TagOf, IndexOf, LineOf, LineAt;
      ghost var l := Line(op.way, op.index);
      assert mem[l] == flat[l];
      nextStatus := Fetch;
      op := op.(counter := words);
    }

    /** The next word of the requested line arrives. */
    method ReadWord()
      requires Valid() && nextStatus == Fetch
      modifies `op, blocks
      ensures ValidFrom(0) && op == old(op).(counter := old(op).counter - 1)
      ensures blocks[op.way, op.index] == old(blocks[op.way, op.index]).(data := blocks[op.way, op.index].data)
      ensures forall w: nat, x: nat :: w < ways && x < count && (w, x) != (op.way, op.index) ==> blocks[w, x] == old(blocks[w, x])
    {
      hide TagOf, IndexOf, LineOf, LineAt;
      var way, index := op.way, op.index;
      var k := words - op.counter;
      ghost var l := Requested();
      WordAddress(words, l, k);
      var data := PhysFetch(LineOf(4 * words, op.requested) * (4 * words) + k * 4);
      var e := blocks[way, index];
      blocks[way, index] := e.(data := e.data[k := data]);
      op := op.(counter := op.counter - 1);
      forall i: nat | i < |flat| && Uncached(i)
        ensures mem[i] == flat[i]
      {
        forall w: nat | w < ways
          ensures !old(Caches(w, i))
        {
          assert !Caches(w, i);
        }
      }
      forall w: nat | w < ways
        ensures !Caches(w, l)
      {
        assert !old(Caches(w, l));
      }
    }

    /** Every word is in: the entry now holds the requested line. */
    method FinishRefill()
      requires ValidFrom(0) && nextStatus == Fetch && op.counter == 0
      modifies `nextStatus, `opLive, blocks
      ensures Valid() && nextStatus == Idle && Caches(op.way, Requested())
      ensures blocks[op.way, op.index] ==
                old(blocks[op.way, op.index]).(tag := TagOf(count, Requested()), valid := true, dirty := false)
      ensures forall w: nat, x: nat :: w < ways && x < count && (w, x) != (op.way, op.index) ==> blocks[w, x] == old(blocks[w, x])
    {
      hide TagOf, IndexOf, LineOf, LineAt;
      var way, index := op.way, op.index;
      ghost var r := Requested();
      ghost var l := Line(way, index);
      Recombine(count, r);
      var tag, _, _ := AddrSeparate(op.requested);
      assert blocks[way, index].data == flat[r];
      assert mem[r] == flat[r];
      forall w: nat | w < ways && w != way && blocks[w, index].valid
        ensures blocks[w, index].tag != tag
      {
        assert !Caches(w, r);
      }
      blocks[way, index] := blocks[way, index].(tag := tag, valid := true, dirty := false);
      nextStatus := Idle;
      opLive := false;
      assert Caches(way, r);
      forall i: nat | i < |flat| && Uncached(i)
        ensures mem[i] == flat[i]
      {
        Recombine(count, i);
        if !(old(blocks[way, index]).valid && i == l) {
          forall w: nat | w < ways
            ensures !old(Caches(w, i))
          {
            assert !Caches(w, i);
          }
        }
      }
    }

    /** cache_wb. */
    method CacheWb(busReady: bool)
      requires Valid() && status == nextStatus && (status == WriteBack || status == OpWriteBack)
      modifies `mem, `op, `opLive, `nextStatus, blocks
      ensures Valid() && Work() == old(Work()) - if busReady then 1 else 0
      ensures old(nextStatus) == WriteBack ==> (nextStatus == WriteBack || nextStatus == Fetch) && op.requested == old(op.requested)
      ensures old(nextStatus) == OpWriteBack ==> nextStatus == OpWriteBack || nextStatus == Idle
      ensures forall l: nat :: old(Flushing(l)) ==> if nextStatus == Idle then Clean(l) else Flushing(l)
      ensures op == old(op).(counter := op.counter)
      ensures forall w: nat, x: nat :: w < ways && x < count && (w, x) != (op.way, op.index) ==> blocks[w, x] == old(blocks[w, x])
      ensures blocks[op.way, op.index] ==
                if old(nextStatus) == OpWriteBack && nextStatus == Idle
                then old(blocks[op.way, op.index]).(dirty := false, valid := !op.lastInvalidate)
                else old(blocks[op.way, op.index])
      ensures old(nextStatus) == OpWriteBack ==>
                forall l: nat :: Uncached(l) <==> old(Uncached(l)) || (old(Flushing(l)) && nextStatus == Idle && op.lastInvalidate)
    {
      hide Uncached, Unique, EntriesOk, Agree, Shaped, LineOf, LineAt, TagOf, IndexOf;
      if busReady {
        WriteWord();
        if op.counter == 0 {
          if status == OpWriteBack {
            FinishOpWriteBack();
          } else {
            StartRefill();
          }
        }
      }
    }

    /** cache_fetch. */
    method CacheFetch(busReady: bool)
      requires Valid() && status == nextStatus == Fetch
      modifies `op, `opLive, `nextStatus, blocks
      ensures Valid() && Work() == old(Work()) - if busReady then 1 else 0
      ensures op.requested == old(op.requested)
      ensures op.way < ways && (nextStatus == Fetch || (nextStatus == Idle && Caches(op.way, Requested())))
      ensures op == old(op).(counter := op.counter)
      ensures forall w: nat, x: nat :: w < ways && x < count && (w, x) != (op.way, op.index) ==> blocks[w, x] == old(blocks[w, x])
    {
      hide Uncached, Unique, EntriesOk, Agree, Shaped, LineOf, LineAt, TagOf, IndexOf;
      if busReady {
        ReadWord();
        if op.counter == 0 { FinishRefill(); }
      }
    }

    lemma CachedSomewhere(w: nat, l: nat)
      requires Geometry() && w < ways && Caches(w, l)
      ensures !Uncached(l)
    {
    }

    /** step, once a cycle: more than one call a cycle would use the operation
        record after its deletion, or start the refill in the middle. */
    method Step(now: nat, busReady: bool)
      requires Valid() && now > lastUpdate
      modifies this, blocks
      ensures Valid() && flat == old(flat) && lastUpdate == now && status == old(nextStatus)
      ensures Work() == if busReady && old(Work()) > 0 then old(Work()) - 1 else old(Work())
      ensures old(nextStatus) == WriteBack || old(nextStatus) == Fetch ==>
                && op.requested == old(op.requested)
                && (nextStatus == WriteBack || nextStatus == Fetch || (nextStatus == Idle && !Uncached(Requested())))
      ensures old(nextStatus) == Idle ==> nextStatus == Idle && mem == old(mem)
      ensures old(nextStatus) == OpWriteBack ==> nextStatus == OpWriteBack || nextStatus == Idle
      ensures forall l: nat :: old(Flushing(l)) ==> if nextStatus == Idle then Clean(l) else Flushing(l)
      ensures old(nextStatus) == Idle ==> forall l: nat :: Clean(l) == old(Clean(l))
      ensures op == old(op).(counter := op.counter)
      ensures forall w: nat, x: nat :: w < ways && x < count && (old(nextStatus) == Idle || (w, x) != (op.way, op.index)) ==>
                blocks[w, x] == old(blocks[w, x])
      ensures old(nextStatus) == Idle || old(nextStatus) == OpWriteBack ==>
                forall l: nat :: Uncached(l) <==> old(Uncached(l)) || (old(Flushing(l)) && nextStatus == Idle && op.lastInvalidate)
    {
      hide Uncached, Unique, EntriesOk, Agree, Shaped, LineOf, LineAt, TagOf, IndexOf, Caches;
      if now > lastUpdate {
        status := nextStatus;
        lastUpdate := now;
      }
      if status == WriteBack || status == OpWriteBack {
        CacheWb(busReady);
      } else if status == Fetch {
        CacheFetch(busReady);
        if nextStatus == Idle { CachedSomewhere(op.way, Requested()); }
      }
    }

    // ---- accesses ----

    /** The word that a processor without a cache would see. */
    ghost function FlatWord(addr: nat): Word
      requires Geometry() && Shaped(flat, words) && LineOf(4 * words, addr) < |flat|
      reads `flat
    {
      flat[LineOf(4 * words, addr)][(addr % (4 * words)) / 4]
    }

    /** Line l sits in the entry that the pending transfer works on. */
    ghost predicate Reserved(l: nat)
      requires Geometry()
      reads `nextStatus, `op, blocks
    {
      nextStatus != Idle && op.way < ways && op.index == IndexOf(count, l) && Caches(op.way, l)
    }

    /** Line l is being overwritten by a refill. */
    ghost predicate Replacing(l: nat)
      requires Geometry()
      reads `nextStatus, `op, blocks
    {
      nextStatus == Fetch && Reserved(l)
    }

    /** An access marks the entry it uses. */
    method Touch(way: nat, index: nat, now: nat)
      requires Valid() && way < ways && index < count
      modifies blocks
      ensures Valid() && forall l: nat :: Uncached(l) == old(Uncached(l))
      ensures blocks[way, index] == old(blocks[way, index]).(lastAccess := now)
      ensures forall w: nat, x: nat :: w < ways && x < count && (w, x) != (way, index) ==> blocks[w, x] == old(blocks[w, x])
    {
      hide TagOf, IndexOf, LineOf, LineAt;
      blocks[way, index] := blocks[way, index].(lastAccess := now);
      forall l: nat
        ensures Uncached(l) == old(Uncached(l))
      {
        forall w: nat | w < ways
          ensures Caches(w, l) == old(Caches(w, l))
        {
        }
      }
    }

    /** An entry outside a refill holds the words of its line. */
    lemma HitData(way: nat, l: nat)
      requires Valid() && way < ways && Caches(way, l) && l < |flat| && !Replacing(l)
      ensures blocks[way, IndexOf(count, l)].data == flat[l]
    {
      hide TagOf, IndexOf, LineOf, LineAt;
      Recombine(count, l);
    }

    /** Entry (w, x) holds line l. */
    ghost predicate Hit(w: nat, x: nat, l: nat)
      requires Geometry() && w < ways
      reads blocks
    {
      x == IndexOf(count, l) && Caches(w, l)
    }

    lemma NoHit(l: nat)
      requires Geometry() && Uncached(l)
      ensures forall w: nat, x: nat :: w < ways ==> !Hit(w, x, l)
    {
      hide Caches, IndexOf;
    }

    lemma OneHit(way: nat, index: nat, l: nat)
      requires Geometry() && Unique() && way < ways && Hit(way, index, l)
      ensures forall w: nat, x: nat :: w < ways ==> (Hit(w, x, l) <==> w == way && x == index)
    {
      hide TagOf, IndexOf, Caches;
      OneHolder(way, l);
    }

    /** fetch_word: a hit returns the word of flat memory. */
    method FetchWord(addr: nat, now: nat) returns (data: Word, exception: bool)
      requires Valid() && LineOf(4 * words, addr) < |flat| && !Replacing(LineOf(4 * words, addr))
      modifies blocks
      ensures Valid() && forall l: nat :: Uncached(l) == old(Uncached(l))
      ensures exception <==> addr % 4 != 0
      ensures data == if addr % 4 == 0 && !Uncached(LineOf(4 * words, addr)) then FlatWord(addr) else 0xFFFFFFFF
      ensures forall w: nat, x: nat :: w < ways && x < count ==>
                blocks[w, x] == if addr % 4 == 0 && old(Hit(w, x, LineOf(4 * words, addr))) then old(blocks[w, x]).(lastAccess := now)
                                else old(blocks[w, x])
    {
      hide EntriesOk, Unique, OpOk, Agree, TagOf, IndexOf, LineOf, LineAt, Uncached;
      data, exception := 0xFFFFFFFF, addr % 4 != 0;
      if !exception {
        var hit, index, way, offset := CacheHit(addr);
        assert forall w: nat, x: nat :: w < ways ==> Hit(w, x, LineOf(4 * words, addr)) == old(Hit(w, x, LineOf(4 * words, addr)));
        if !hit { NoHit(LineOf(4 * words, addr)); }
        if hit {
          OneHit(way, index, LineOf(4 * words, addr));
          HitData(way, LineOf(4 * words, addr));
          data := blocks[way, index].data[offset / 4];
          Touch(way, index, now);
        }
      }
    }

    lemma HitLine(way: nat, l: nat)
      requires Geometry() && way < ways && Caches(way, l)
      ensures blocks[way, IndexOf(count, l)].valid && Line(way, IndexOf(count, l)) == l
    {
      hide TagOf, IndexOf, LineAt;
      Recombine(count, l);
    }

    /** A word of a valid entry that no transfer works on is written. */
    method WriteEntry(way: nat, index: nat, k: nat, data: Word, now: nat)
      requires Valid() && way < ways && index < count && k < words && blocks[way, index].valid && Line(way, index) < |flat|
      requires nextStatus == Idle || op.way != way || op.index != index
      modifies blocks, `flat
      ensures var l := old(Line(way, index)); Valid() && flat == old(flat)[l := old(flat)[l][k := data]]
      ensures blocks[way, index] ==
                old(blocks[way, index]).(data := old(blocks[way, index]).data[k := data], dirty := true, lastAccess := now)
      ensures forall w: nat, x: nat :: w < ways && x < count && (w, x) != (way, index) ==> blocks[w, x] == old(blocks[w, x])
      ensures forall i: nat :: Uncached(i) == old(Uncached(i))
    {
      hide TagOf, IndexOf, LineOf, LineAt;
      ghost var l := Line(way, index);
      forall w: nat, x: nat | w < ways && x < count && (w, x) != (way, index) && blocks[w, x].valid
        ensures Line(w, x) != l
      {
        DistinctLines(w, x, way, index);
      }
      CachesItsLine(way, index);
      var e := blocks[way, index];
      blocks[way, index] := e.(data := e.data[k := data], dirty := true, lastAccess := now);
      flat := flat[l := flat[l][k := data]];
      forall i: nat
        ensures Uncached(i) == old(Uncached(i))
      {
        forall w: nat | w < ways
          ensures Caches(w, i) == old(Caches(w, i))
        {
        }
      }
    }

    /** store_word: a hit updates flat memory; a miss is ignored. */
    method StoreWord(addr: nat, data: Word, now: nat) returns (exception: bool)
      requires Valid() && LineOf(4 * words, addr) < |flat| && !Reserved(LineOf(4 * words, addr))
      modifies blocks, `flat
      ensures Valid() && forall l: nat :: Uncached(l) == old(Uncached(l))
      ensures exception <==> addr % 4 != 0
      ensures var l := LineOf(4 * words, addr);
              flat == if addr % 4 == 0 && !Uncached(l)
                      then old(flat)[l := old(flat)[l][(addr % (4 * words)) / 4 := data]] else old(flat)
      ensures forall w: nat, x: nat :: w < ways && x < count ==>
                if addr % 4 == 0 && old(Hit(w, x, LineOf(4 * words, addr))) then blocks[w, x].lastAccess == now && blocks[w, x].dirty
                else blocks[w, x] == old(blocks[w, x])
    {
      hide EntriesOk, Unique, OpOk, Agree, TagOf, IndexOf, LineOf, LineAt, Uncached, Caches;
      exception := addr % 4 != 0;
      if !exception {
        var hit, index, way, offset := CacheHit(addr);
        assert forall w: nat, x: nat :: w < ways ==> Hit(w, x, LineOf(4 * words, addr)) == old(Hit(w, x, LineOf(4 * words, addr)));
        if !hit { NoHit(LineOf(4 * words, addr)); }
        if hit {
          OneHit(way, index, LineOf(4 * words, addr));
          HitLine(way, LineOf(4 * words, addr));
          WriteEntry(way, index, offset / 4, data, now);
        }
      }
    }

    /** fetch_halfword, without byte swapping. */
    method FetchHalfword(addr: nat, now: nat) returns (data: Word, exception: bool)
      requires Valid() && LineOf(4 * words, addr) < |flat| && !Replacing(LineOf(4 * words, addr))
      modifies blocks
      ensures Valid() && forall l: nat :: Uncached(l) == old(Uncached(l))
      ensures exception <==> addr % 2 != 0
      ensures data == if addr % 2 == 0 && !Uncached(LineOf(4 * words, addr)) then GetHalf(FlatWord(addr), (addr / 2) % 2)
                      else 0xFFFF
      ensures forall w: nat, x: nat :: w < ways && x < count ==>
                blocks[w, x] == if addr % 2 == 0 && old(Hit(w, x, LineOf(4 * words, addr))) then old(blocks[w, x]).(lastAccess := now)
                                else old(blocks[w, x])
    {
      hide EntriesOk, Unique, OpOk, Agree, TagOf, IndexOf, LineOf, LineAt, Uncached, GetHalf;
      data, exception := 0xFFFF, addr % 2 != 0;
      if !exception {
        var hit, index, way, offset := CacheHit(addr);
        assert forall w: nat, x: nat :: w < ways ==> Hit(w, x, LineOf(4 * words, addr)) == old(Hit(w, x, LineOf(4 * words, addr)));
        if !hit { NoHit(LineOf(4 * words, addr)); }
        if hit {
          OneHit(way, index, LineOf(4 * words, addr));
          SubWord(words, addr);
          HitData(way, LineOf(4 * words, addr));
          data := GetHalf(blocks[way, index].data[offset / 4], (offset / 2) % 2);
          Touch(way, index, now);
        }
      }
    }

    /** fetch_byte, without byte swapping. */
    method FetchByte(addr: nat, now: nat) returns (data: Word)
      requires Valid() && LineOf(4 * words, addr) < |flat| && !Replacing(LineOf(4 * words, addr))
      modifies blocks
      ensures Valid() && forall l: nat :: Uncached(l) == old(Uncached(l))
      ensures data == if !Uncached(LineOf(4 * words, addr)) then ByteOf(false, FlatWord(addr), addr % 4) else 0xFF
      ensures forall w: nat, x: nat :: w < ways && x < count ==>
                blocks[w, x] == if old(Hit(w, x, LineOf(4 * words, addr))) then old(blocks[w, x]).(lastAccess := now)
                                else old(blocks[w, x])
    {
      hide EntriesOk, Unique, OpOk, Agree, TagOf, IndexOf, LineOf, LineAt, Uncached, ByteOf;
      data := 0xFF;
      var hit, index, way, offset := CacheHit(addr);
      assert forall w: nat, x: nat :: w < ways ==> Hit(w, x, LineOf(4 * words, addr)) == old(Hit(w, x, LineOf(4 * words, addr)));
      if !hit { NoHit(LineOf(4 * words, addr)); }
      if hit {
        OneHit(way, index, LineOf(4 * words, addr));
        SubWord(words, addr);
        HitData(way, LineOf(4 * words, addr));
        data := ByteOf(false, blocks[way, index].data[offset / 4], offset % 4);
        Touch(way, index, now);
      }
    }

    /** store_halfword. */
    method StoreHalfword(addr: nat, data: Word, now: nat) returns (exception: bool)
      requires Valid() && LineOf(4 * words, addr) < |flat| && !Reserved(LineOf(4 * words, addr))
      modifies blocks, `flat
      ensures Valid() && forall l: nat :: Uncached(l) == old(Uncached(l))
      ensures exception <==> addr % 2 != 0
      ensures var l := LineOf(4 * words, addr);
              flat == if addr % 2 == 0 && !Uncached(l)
                      then old(flat)[l := old(flat)[l][(addr % (4 * words)) / 4 := PutHalf(old(FlatWord(addr)), (addr / 2) % 2, data)]]
                      else old(flat)
      ensures forall w: nat, x: nat :: w < ways && x < count ==>
                if addr % 2 == 0 && old(Hit(w, x, LineOf(4 * words, addr))) then blocks[w, x].lastAccess == now && blocks[w, x].dirty
                else blocks[w, x] == old(blocks[w, x])
    {
      hide EntriesOk, Unique, OpOk, Agree, TagOf, IndexOf, LineOf, LineAt, Uncached, PutHalf;
      exception := addr % 2 != 0;
      if !exception {
        var hit, index, way, offset := CacheHit(addr);
        assert forall w: nat, x: nat :: w < ways ==> Hit(w, x, LineOf(4 * words, addr)) == old(Hit(w, x, LineOf(4 * words, addr)));
        if !hit { NoHit(LineOf(4 * words, addr)); }
        if hit {
          OneHit(way, index, LineOf(4 * words, addr));
          SubWord(words, addr);
          NotReplacing(LineOf(4 * words, addr));
          HitData(way, LineOf(4 * words, addr));
          HitLine(way, LineOf(4 * words, addr));
          WriteEntry(way, index, offset / 4,
                     PutHalf(blocks[way, index].data[offset / 4], (offset / 2) % 2, data), now);
        }
      }
    }

    /** store_byte. */
    method StoreByte(addr: nat, data: Word, now: nat)
      requires Valid() && LineOf(4 * words, addr) < |flat| && !Reserved(LineOf(4 * words, addr))
      modifies blocks, `flat
      ensures Valid() && forall l: nat :: Uncached(l) == old(Uncached(l))
      ensures var l := LineOf(4 * words, addr);
              flat == if !Uncached(l)
                      then old(flat)[l := old(flat)[l][(addr % (4 * words)) / 4 := Insert(false, old(FlatWord(addr)), addr % 4, data)]]
                      else old(flat)
      ensures forall w: nat, x: nat :: w < ways && x < count ==>
                if old(Hit(w, x, LineOf(4 * words, addr))) then blocks[w, x].lastAccess == now && blocks[w, x].dirty
                else blocks[w, x] == old(blocks[w, x])
    {
      hide EntriesOk, Unique, OpOk, Agree, TagOf, IndexOf, LineOf, LineAt, Uncached, Insert;
      var hit, index, way, offset := CacheHit(addr);
      assert forall w: nat, x: nat :: w < ways ==> Hit(w, x, LineOf(4 * words, addr)) == old(Hit(w, x, LineOf(4 * words, addr)));
      if !hit { NoHit(LineOf(4 * words, addr)); }
      if hit {
        OneHit(way, index, LineOf(4 * words, addr));
        SubWord(words, addr);
        NotReplacing(LineOf(4 * words, addr));
        HitData(way, LineOf(4 * words, addr));
        HitLine(way, LineOf(4 * words, addr));
        WriteEntry(way, index, offset / 4, Insert(false, blocks[way, index].data[offset / 4], offset % 4, data), now);
      }
    }

    lemma NotReplacing(l: nat)
      requires Geometry() && !Reserved(l)
      ensures !Replacing(l)
    {
    }

    // ---- cache instructions ----

    /** A line leaves the cache; what was not written back is lost. */
    method Invalidate(way: nat, index: nat, ghost l: nat)
      requires Valid() && nextStatus == Idle && way < ways && l < |flat| && Caches(way, l) && index == IndexOf(count, l)
      modifies blocks, `flat
      ensures Valid() && flat == old(flat)[l := mem[l]]
      ensures forall i: nat :: Uncached(i) <==> old(Uncached(i)) || i == l
    {
      hide TagOf, IndexOf, LineOf, LineAt;
      Recombine(count, l);
      forall w: nat, x: nat | w < ways && x < count && (w, x) != (way, index) && blocks[w, x].valid
        ensures Line(w, x) != l
      {
        DistinctLines(w, x, way, index);
      }
      blocks[way, index] := blocks[way, index].(valid := false);
      flat := flat[l := mem[l]];
      forall w: nat | w < ways
        ensures !Caches(w, l)
      {
        if w != way { assert !blocks[w, index].valid || old(blocks[w, index]).tag != old(blocks[way, index]).tag; }
      }
      forall i: nat | i != l
        ensures Uncached(i) == old(Uncached(i))
      {
        Recombine(count, i);
        assert forall w: nat :: w < ways ==> Caches(w, i) == old(Caches(w, i));
      }
      forall i: nat | i < |flat| && Uncached(i)
        ensures mem[i] == flat[i]
      {
        Recombine(count, i);
        forall w: nat | i != l && w < ways
          ensures !old(Caches(w, i))
        {
          assert !Caches(w, i);
        }
      }
    }

    /** exec_cache_op for the operations by hit; false: the processor stalls and
        asks again.  A clean line is written back by HitFwb only, and a clean
        line is not invalidated by HitWbInv or HitFwbInv. */
    method ExecCacheOp(what: CacheOp, addr: nat, granted: bool) returns (done: bool)
      requires Valid() && LineOf(4 * words, addr) < |flat|
      requires status == Idle ==> nextStatus == Idle
      modifies this, blocks
      ensures Valid() && mem == old(mem) && status == old(status) && lastUpdate == old(lastUpdate)
      ensures var l := LineOf(4 * words, addr);
              flat == if status == Idle && granted && what == HitInv && !old(Uncached(l)) then old(flat)[l := mem[l]] else old(flat)
      ensures status != Idle || !granted ==> !done && nextStatus == old(nextStatus) && op == old(op)
      ensures status == Idle && granted ==> (done <==> nextStatus == Idle) && (!done ==> nextStatus == OpWriteBack && op.counter == words)
      ensures status == Idle && granted && old(Uncached(LineOf(4 * words, addr))) ==> done
      ensures status == Idle && granted && what != HitInv && done ==>
                mem[LineOf(4 * words, addr)] == flat[LineOf(4 * words, addr)]
      ensures status == Idle && granted && what == HitFwb && !old(Uncached(LineOf(4 * words, addr))) ==> !done
      ensures what != HitInv ==> forall l: nat :: Uncached(l) == old(Uncached(l)) && Clean(l) == old(Clean(l))
      ensures status != Idle ==> forall l: nat :: Flushing(l) == old(Flushing(l))
      ensures status == Idle && granted && (what == HitWb || what == HitWbInv) ==>
                if old(Clean(LineOf(4 * words, addr))) then done else done || Flushing(LineOf(4 * words, addr))
      ensures status == Idle && granted ==>
                (!done <==> what != HitInv && !old(Uncached(LineOf(4 * words, addr))) && (what == HitFwb || !old(Clean(LineOf(4 * words, addr)))))
      ensures status == Idle && granted && !done ==>
                Flushing(LineOf(4 * words, addr)) && (op.lastInvalidate <==> what == HitWbInv || what == HitFwbInv)
      ensures forall l: nat :: Uncached(l) <==>
                old(Uncached(l)) || (status == Idle && granted && what == HitInv && l == LineOf(4 * words, addr))
    {
      hide Unique, TagOf, IndexOf, LineOf, LineAt;
      done := false;
      if status == Idle && granted {
        ghost var l := LineOf(4 * words, addr);
        var hit, index, way, _ := CacheHit(addr);
        if hit {
          Recombine(count, l);
          OneHolder(way, l);
          if what == HitInv {
            Invalidate(way, index, l);
          } else if blocks[way, index].dirty || what == HitFwb {
            nextStatus := OpWriteBack;
          }
        }
        if nextStatus == OpWriteBack {
          op := Op(words, addr, way, index, what == HitWbInv || what == HitFwbInv);
          opLive := true;
        } else {
          done := true;
        }
      }
    }

    /** reset_stat, called on an exception: the transfer is dropped but the next
        status stays, so the cache survives exactly when no transfer is pending
        or none has started. */
    method ResetStat()
      requires Valid()
      modifies `status, `opLive
      ensures Valid() <==> old(status) == Idle || old(nextStatus) == Idle
    {
      hide EntriesOk, Unique, Agree, TagOf, IndexOf, LineOf, LineAt, Uncached;
      if status != Idle {
        status := Idle;
        opLive := false;
      }
    }

    // ---- a processor that waits for the line it needs ----

    constructor (ways: nat, count: nat, words: nat, mem: Lines)
      requires ways > 0 && count > 0 && words > 0 && Shaped(mem, words)
      ensures Valid() && fresh(blocks) && this.words == words && nextStatus == Idle
      ensures this.mem == mem && flat == mem
      ensures forall l: nat :: Uncached(l)
    {
      this.ways, this.count, this.words := ways, count, words;
      blocks := new Entry[ways, count]((w, x) => Entry(false, false, 0, 0, seq(words, _ => 0)));
      status, nextStatus, lastUpdate := Idle, Idle, 0;
      op, opLive := Op(0, 0, 0, 0, false), false;
      this.mem := mem;
      flat := mem;
    }

    /** One cycle of a waiting processor: ask again, then let the cache work. */
    method WaitCycle(addr: nat, answer: Answer)
      requires Valid() && LineOf(4 * words, addr) < |flat| && Uncached(LineOf(4 * words, addr))
      requires (nextStatus == Idle || Serving(addr)) && (status == Idle ==> nextStatus == Idle)
      modifies this, blocks
      ensures Valid() && flat == old(flat) && (status == Idle ==> nextStatus == Idle)
      ensures nextStatus == Idle || Serving(addr)
      ensures old(nextStatus) != Idle ==>
                (nextStatus == Idle <==> !Uncached(LineOf(4 * words, addr)))
                && Work() == if answer.ready then old(Work()) - 1 else old(Work())
      ensures old(nextStatus) == Idle && old(status) == Idle && answer.granted ==>
                (nextStatus == Idle <==> !Uncached(LineOf(4 * words, addr)))
                && Work() <= 2 * words - if answer.ready then 1 else 0
      ensures old(nextStatus) == Idle && !(old(status) == Idle && answer.granted) ==> nextStatus == Idle && status == Idle
    {
      hide EntriesOk, Unique, Agree, TagOf, IndexOf, LineOf, LineAt, Uncached, Caches;
      RequestBlock(addr, false, answer.granted);
      Step(lastUpdate + 1, answer.ready);
    }

    lemma ServingMisses(addr: nat)
      requires Valid() && Serving(addr)
      ensures Uncached(LineOf(4 * words, addr)) && Work() >= 1
    {
      hide EntriesOk, Unique, Agree, TagOf, IndexOf, LineOf, LineAt, Uncached, Caches;
    }

    /** A processor stalled on addr, cycle after cycle, the status register being
        up to date. */
    method WaitOn(addr: nat, answers: seq<Answer>) returns (hit: bool)
      requires Valid() && LineOf(4 * words, addr) < |flat|
      requires (nextStatus == Idle && status == Idle) || (Serving(addr) && Work() <= 2 * words && status != Idle)
               || (nextStatus == Idle && !Uncached(LineOf(4 * words, addr)))
      modifies this, blocks
      ensures Valid() && flat == old(flat)
      ensures hit ==> nextStatus == Idle && !Uncached(LineOf(4 * words, addr))
      ensures AllGranted(answers) && ReadyCount(answers) >= 2 * words ==> hit
    {
      hide EntriesOk, Unique, OpOk, Agree, TagOf, IndexOf, LineOf, LineAt, Uncached, Caches, Work, StatusOk, Shaped, ReadyCount;
      NoneReady();
      if Serving(addr) { ServingMisses(addr); }
      hit := Ready(addr);
      var i := 0;
      while !hit && i < |answers|
        invariant 0 <= i <= |answers| && Valid() && flat == old(flat)
        invariant nextStatus == Idle || Serving(addr)
        invariant status == Idle ==> nextStatus == Idle
        invariant hit <==> !Uncached(LineOf(4 * words, addr))
        invariant hit ==> nextStatus == Idle
        invariant AllGranted(answers) && !hit ==>
                    (Serving(addr) && 1 <= Work() <= 2 * words - ReadyCount(answers[..i]))
                    || (i == 0 && nextStatus == Idle && status == Idle)
      {
        CountMore(answers[..i], answers[i]);
        assert answers[..i + 1] == answers[..i] + [answers[i]];
        WaitCycle(addr, answers[i]);
        if Serving(addr) { ServingMisses(addr); }
        hit := Ready(addr);
        i := i + 1;
      }
      assert answers[..|answers|] == answers;
    }

    lemma NoneReady()
      ensures ReadyCount([]) == 0
    {
    }

    /** A processor that needs addr: it stalls until the line is there or the
        answers run out.  Two line lengths of ready cycles are enough. */
    method WaitFor(addr: nat, answers: seq<Answer>) returns (hit: bool)
      requires Valid() && LineOf(4 * words, addr) < |flat| && nextStatus == Idle
      modifies this, blocks
      ensures Valid() && flat == old(flat)
      ensures hit ==> nextStatus == Idle && !Uncached(LineOf(4 * words, addr))
      ensures AllGranted(answers) && |answers| > 0 && ReadyCount(answers[1..]) >= 2 * words ==> hit
    {
      hide EntriesOk, Unique, OpOk, Agree, TagOf, IndexOf, LineOf, LineAt, Uncached, Caches, StatusOk, Shaped, ReadyCount;
      hit := Ready(addr);
      if !hit && |answers| > 0 {
        WaitCycle(addr, answers[0]);
        if Serving(addr) { ServingMisses(addr); }
        hit := WaitOn(addr, answers[1..]);
      }
    }

    /** Where a flush of line l stands that found it uncached or not (u0) and clean or
        not (c0): not begun, under way, or over.  The line leaves the cache if it is
        invalidated and was not clean. */
    ghost predicate Fate(l: nat, invalidate: bool, u0: bool, c0: bool)
      requires Geometry()
      reads `nextStatus, `op, blocks
    {
      || (nextStatus == Idle && Uncached(l) == u0 && Clean(l) == c0)
      || (Flushing(l) && !u0 && !c0 && op.lastInvalidate == invalidate)
      || (nextStatus == Idle && Clean(l) && (Uncached(l) <==> u0 || (invalidate && !c0)))
    }

    lemma OneFlushed(l: nat)
      requires Geometry() && Flushing(l)
      ensures forall i: nat :: Flushing(i) ==> i == l
    {
      hide TagOf, IndexOf, LineAt;
      Recombine(count, l);
      forall i: nat | Flushing(i)
        ensures i == l
      {
        Recombine(count, i);
      }
    }

    lemma FlushingCached(l: nat)
      requires Geometry() && Flushing(l)
      ensures !Uncached(l)
    {
    }

    /** One cycle of a processor that flushes a line: ask again, then let the cache work. */
    method FlushCycle(addr: nat, what: CacheOp, answer: Answer, ghost u0: bool, ghost c0: bool) returns (done: bool)
      requires Valid() && LineOf(4 * words, addr) < |flat| && (what == HitWb || what == HitWbInv)
      requires (nextStatus == Idle || nextStatus == OpWriteBack) && (status == Idle ==> nextStatus == Idle)
      requires Fate(LineOf(4 * words, addr), what == HitWbInv, u0, c0)
      modifies this, blocks
      ensures Valid() && flat == old(flat)
      ensures done ==> nextStatus == Idle && mem[LineOf(4 * words, addr)] == flat[LineOf(4 * words, addr)]
      ensures Fate(LineOf(4 * words, addr), what == HitWbInv, u0, c0)
      ensures done ==> (Uncached(LineOf(4 * words, addr)) <==> u0 || (what == HitWbInv && !c0))
      ensures forall i: nat :: i != LineOf(4 * words, addr) ==> Uncached(i) == old(Uncached(i))
      ensures (nextStatus == Idle || nextStatus == OpWriteBack) && (status == Idle ==> nextStatus == Idle)
      ensures old(nextStatus) == Idle && !(old(status) == Idle && answer.granted) ==> !done && status == Idle && nextStatus == Idle
      ensures var l := LineOf(4 * words, addr);
              && (old(status) != Idle && old(nextStatus) == Idle && old(Clean(l)) ==> Clean(l))
              && (old(status) == Idle && answer.granted ==> done || Flushed(l, words, answer.ready))
              && (old(status) == Idle && answer.granted && old(Clean(l)) ==> done)
              && (old(status) != Idle && old(Flushing(l)) ==> !done && Flushed(l, old(Work()), answer.ready))
    {
      hide EntriesOk, Unique, Agree, TagOf, IndexOf, LineOf, LineAt, Uncached, Caches, Shaped, Clean;
      done := ExecCacheOp(what, addr, answer.granted);
      if Flushing(LineOf(4 * words, addr)) {
        FlushingCached(LineOf(4 * words, addr));
        OneFlushed(LineOf(4 * words, addr));
      }
      if !done { Step(lastUpdate + 1, answer.ready); }
    }

    /** The write-back of line l had `work` words to go before this cycle. */
    ghost predicate Flushed(l: nat, work: nat, ready: bool)
      requires Geometry()
      reads `status, `nextStatus, `op, blocks
    {
      && status == OpWriteBack && Work() <= work - (if ready && work > 0 then 1 else 0)
      && if nextStatus == Idle then Clean(l) else Flushing(l) && Work() >= 1
    }

    /** How far a flush has come when r ready cycles have gone by. */
    ghost predicate Progressing(l: nat, r: nat)
      requires Geometry()
      reads `status, `nextStatus, `op, blocks
    {
      || (Flushing(l) && status != Idle && 1 <= Work() <= words - r)
      || (nextStatus == Idle && status != Idle && Clean(l) && r <= words)
      || (nextStatus == Idle && status == Idle && Clean(l) && r <= words + 1)
    }

    /** A processor flushing a line, cycle after cycle, the status register being up to date. */
    method FlushOn(addr: nat, what: CacheOp, answers: seq<Answer>, ghost u0: bool, ghost c0: bool) returns (done: bool)
      requires Valid() && LineOf(4 * words, addr) < |flat| && (what == HitWb || what == HitWbInv)
      requires (nextStatus == Idle || nextStatus == OpWriteBack) && (status == Idle ==> nextStatus == Idle)
      requires (nextStatus == Idle && status == Idle) || Progressing(LineOf(4 * words, addr), 0)
      requires Fate(LineOf(4 * words, addr), what == HitWbInv, u0, c0)
      modifies this, blocks
      ensures Valid() && flat == old(flat)
      ensures done ==> (Uncached(LineOf(4 * words, addr)) <==> u0 || (what == HitWbInv && !c0))
      ensures forall i: nat :: i != LineOf(4 * words, addr) ==> Uncached(i) == old(Uncached(i))
      ensures done ==> nextStatus == Idle && mem[LineOf(4 * words, addr)] == flat[LineOf(4 * words, addr)]
      ensures AllGranted(answers) && ReadyCount(answers) >= words + 2 ==> done
    {
      hide EntriesOk, Unique, OpOk, Agree, TagOf, IndexOf, LineOf, LineAt, Uncached, Caches, Shaped, Clean, StatusOk, ReadyCount,
           Fate;
      NoneReady();
      done := false;
      var i := 0;
      while !done && i < |answers|
        invariant 0 <= i <= |answers| && Valid() && flat == old(flat)
        invariant (nextStatus == Idle || nextStatus == OpWriteBack) && (status == Idle ==> nextStatus == Idle)
        invariant done ==> nextStatus == Idle && mem[LineOf(4 * words, addr)] == flat[LineOf(4 * words, addr)]
        invariant Fate(LineOf(4 * words, addr), what == HitWbInv, u0, c0)
        invariant done ==> (Uncached(LineOf(4 * words, addr)) <==> u0 || (what == HitWbInv && !c0))
        invariant forall i: nat :: i != LineOf(4 * words, addr) ==> Uncached(i) == old(Uncached(i))
        invariant AllGranted(answers) && !done ==>
                    (i == 0 && nextStatus == Idle && status == Idle)
                    || Progressing(LineOf(4 * words, addr), ReadyCount(answers[..i]))
      {
        CountMore(answers[..i], answers[i]);
        assert answers[..i + 1] == answers[..i] + [answers[i]];
        done := FlushCycle(addr, what, answers[i], u0, c0);
        i := i + 1;
      }
      assert answers[..|answers|] == answers;
    }

    /** HIT_WB or HIT_WBINV, repeated until the processor may go on: then memory
        holds the line, and it has left the cache exactly if it was to be invalidated
        and was not clean; every other line stays or stays away.  A line length of
        ready cycles and two more are enough. */
    method FlushLine(addr: nat, invalidate: bool, answers: seq<Answer>) returns (done: bool)
      requires Valid() && LineOf(4 * words, addr) < |flat| && nextStatus == Idle
      modifies this, blocks
      ensures Valid() && flat == old(flat)
      ensures done ==> nextStatus == Idle && mem[LineOf(4 * words, addr)] == flat[LineOf(4 * words, addr)]
      ensures AllGranted(answers) && |answers| > 0 && ReadyCount(answers[1..]) >= words + 2 ==> done
      ensures var l := LineOf(4 * words, addr); done ==> (Uncached(l) <==> old(Uncached(l)) || (invalidate && !old(Clean(l))))
      ensures forall i: nat :: i != LineOf(4 * words, addr) ==> Uncached(i) == old(Uncached(i))
    {
      hide EntriesOk, Unique, OpOk, Agree, TagOf, IndexOf, LineOf, LineAt, Uncached, Caches, Shaped, Clean, StatusOk, ReadyCount;
      ghost var u0, c0 := Uncached(LineOf(4 * words, addr)), Clean(LineOf(4 * words, addr));
      var what := if invalidate then HitWbInv else HitWb;
      done := false;
      if |answers| > 0 {
        done := FlushCycle(addr, what, answers[0], u0, c0);
        if !done { done := FlushOn(addr, what, answers[1..], u0, c0); }
      }
    }

    /** One access of the waiting processor. */
    method Serve(a: Access, answers: seq<Answer>, now: nat) returns (done: bool, result: Word)
      requires Valid() && LineOf(4 * words, a.addr) < |flat| && nextStatus == Idle
      modifies this, blocks
      ensures Valid()
      ensures done ==> nextStatus == Idle && result == FlatResult(old(flat), words, a) && flat == FlatEffect(old(flat), words, a)
      ensures !done ==> flat == old(flat)
      ensures Enough(words, a, answers) ==> done
    {
      hide EntriesOk, Unique, OpOk, Agree, TagOf, IndexOf, LineOf, LineAt, Uncached, Caches, Work, Insert, ByteOf, GetHalf, PutHalf, StatusOk,
           Clean, AllGranted, ReadyCount;
      result := 0;
      if a.Flush? {
        done := FlushLine(a.addr, a.invalidate, answers);
      } else {
        done := WaitFor(a.addr, answers);
        if done {
          var exception;
          match a {
            case Read(addr) => result, exception := FetchWord(addr, now);
            case Write(addr, data) => exception := StoreWord(addr, data, now);
            case ReadHalf(addr) => result, exception := FetchHalfword(addr, now);
            case WriteHalf(addr, data) => exception := StoreHalfword(addr, data, now);
            case ReadByte(addr) => result := FetchByte(addr, now);
            case WriteByte(addr, data) => StoreByte(addr, data, now);
            case Flush(_, _) =>
          }
        }
      }
    }

    /** Main theorem.  Any run of a waiting processor, under any answers of the
        memory system, reads and leaves what it would without a cache; and it ends
        when every access gets enough of the memory. */
    method RunClient(accesses: seq<Access>, answers: seq<seq<Answer>>) returns (n: nat, results: seq<Word>)
      requires Valid() && nextStatus == Idle && |answers| == |accesses|
      requires forall i :: 0 <= i < |accesses| ==> LineOf(4 * words, accesses[i].addr) < |flat|
      modifies this, blocks
      ensures Valid() && n <= |accesses| && |results| == n
      ensures flat == FlatRun(old(flat), words, accesses[..n])
      ensures forall i :: 0 <= i < n ==> results[i] == FlatResult(FlatRun(old(flat), words, accesses[..i]), words, accesses[i])
      ensures (forall i :: 0 <= i < |accesses| ==> Enough(words, accesses[i], answers[i])) ==> n == |accesses|
    {
      hide EntriesOk, Unique, OpOk, Agree, LineOf, Work, FlatResult, FlatEffect, Shaped, Uncached, StatusOk, Enough;
      n, results := 0, [];
      while n < |accesses|
        invariant Valid() && nextStatus == Idle && 0 <= n <= |accesses| && |results| == n && |flat| == old(|flat|)
        invariant flat == FlatRun(old(flat), words, accesses[..n])
        invariant forall i :: 0 <= i < n ==> results[i] == FlatResult(FlatRun(old(flat), words, accesses[..i]), words, accesses[i])
      {
        var done, result := Serve(accesses[n], answers[n], n);
        if !done { return; }
        FlatRunMore(old(flat), words, accesses[..n], accesses[n]);
        FlatSize(FlatRun(old(flat), words, accesses[..n]), words, accesses[n]);
        assert accesses[..n] + [accesses[n]] == accesses[..n + 1];
        results := results + [result];
        n := n + 1;
      }
    }

    /** The pending transfer is a refill for this address. */
    ghost predicate Serving(addr: nat)
      reads `nextStatus, `op
    {
      (nextStatus == WriteBack || nextStatus == Fetch) && op.requested == addr
    }
  }

  ghost predicate AllGranted(answers: seq<Answer>) { forall k :: 0 <= k < |answers| ==> answers[k].granted }

  /** Cycles in which the memory delivers. */
  ghost function ReadyCount(answers: seq<Answer>): nat {
    if answers == [] then 0 else ReadyCount(answers[..|answers| - 1]) + if answers[|answers| - 1].ready then 1 else 0
  }

  /** Answers that let an access end: the bus, and the words of a line to flush, or
      of one to write back and one to fetch. */
  ghost predicate Enough(words: nat, a: Access, answers: seq<Answer>) {
    && AllGranted(answers) && |answers| > 0
    && ReadyCount(answers[1..]) >= if a.Flush? then words + 2 else 2 * words
  }

  lemma CountMore(answers: seq<Answer>, a: Answer)
    ensures ReadyCount(answers + [a]) == ReadyCount(answers) + if a.ready then 1 else 0
  {
    assert (answers + [a])[..|answers|] == answers;
  }

  // ---- memory without a cache ----

  datatype Access =
    | Read(addr: nat) | Write(addr: nat, data: Word)
    | ReadHalf(addr: nat) | WriteHalf(addr: nat, data: Word)
    | ReadByte(addr: nat) | WriteByte(addr: nat, data: Word)
    | Flush(addr: nat, invalidate: bool)

  function FlatGet(flat: Lines, words: nat, addr: nat): Word {
    if words > 0 && LineOf(4 * words, addr) < |flat| && (addr % (4 * words)) / 4 < |flat[LineOf(4 * words, addr)]|
    then flat[LineOf(4 * words, addr)][(addr % (4 * words)) / 4]
    else 0
  }

  function FlatPut(flat: Lines, words: nat, addr: nat, w: Word): (after: Lines)
    ensures |after| == |flat|
  {
    if words > 0 && LineOf(4 * words, addr) < |flat| && (addr % (4 * words)) / 4 < |flat[LineOf(4 * words, addr)]|
    then flat[LineOf(4 * words, addr) := flat[LineOf(4 * words, addr)][(addr % (4 * words)) / 4 := w]]
    else flat
  }

  /** What an access returns; a misaligned one raises an exception and returns ones. */
  function FlatResult(flat: Lines, words: nat, a: Access): Word {
    match a
    case Read(addr) => if addr % 4 == 0 then FlatGet(flat, words, addr) else 0xFFFFFFFF
    case ReadHalf(addr) => if addr % 2 == 0 then GetHalf(FlatGet(flat, words, addr), (addr / 2) % 2) else 0xFFFF
    case ReadByte(addr) => ByteOf(false, FlatGet(flat, words, addr), addr % 4)
    case _ => 0
  }

  function FlatEffect(flat: Lines, words: nat, a: Access): Lines {
    match a
    case Write(addr, data) => if addr % 4 == 0 then FlatPut(flat, words, addr, data) else flat
    case WriteHalf(addr, data) =>
      if addr % 2 == 0 then FlatPut(flat, words, addr, PutHalf(FlatGet(flat, words, addr), (addr / 2) % 2, data)) else flat
    case WriteByte(addr, data) => FlatPut(flat, words, addr, Insert(false, FlatGet(flat, words, addr), addr % 4, data))
    case _ => flat
  }

  function FlatRun(flat: Lines, words: nat, accesses: seq<Access>): Lines {
    if accesses == [] then flat
    else FlatEffect(FlatRun(flat, words, accesses[..|accesses| - 1]), words, accesses[|accesses| - 1])
  }

  lemma FlatRunMore(flat: Lines, words: nat, accesses: seq<Access>, a: Access)
    ensures FlatRun(flat, words, accesses + [a]) == FlatEffect(FlatRun(flat, words, accesses), words, a)
  {
    hide FlatEffect;
    assert (accesses + [a])[..|accesses|] == accesses;
  }

  lemma FlatSize(flat: Lines, words: nat, a: Access)
    ensures |FlatEffect(flat, words, a)| == |flat|
  {
    hide FlatPut, GetHalf, PutHalf, Insert;
  }

  // ---- halfwords ----

  function LowHalf(w: Word): Word { w & 0xFFFF }

  function HighHalf(w: Word): Word { (w >> 16) & 0xFFFF }

  function WithLow(w: Word, v: Word): Word { (w & 0xFFFF0000) | (v & 0xFFFF) }

  function WithHigh(w: Word, v: Word): Word { (v << 16) | LowHalf(w) }

  function GetHalf(w: Word, n: nat): Word
    requires n < 2
  {
    if n == 0 then LowHalf(w) else HighHalf(w)
  }

  function PutHalf(w: Word, n: nat, v: Word): Word
    requires n < 2
  {
    if n == 0 then WithLow(w, v) else WithHigh(w, v)
  }

  lemma LowWritten(w: Word, v: Word)
    ensures LowHalf(WithLow(w, v)) == LowHalf(v)
  {
  }

  lemma HighKept(w: Word, v: Word)
    ensures HighHalf(WithLow(w, v)) == HighHalf(w)
  {
  }

  lemma LowKept(w: Word, v: Word)
    ensures LowHalf(WithHigh(w, v)) == LowHalf(w)
  {
    hide LowHalf;
    Lowest(w);
    Beside(LowHalf(w), v);
  }

  lemma Lowest(w: Word)
    ensures LowHalf(w) & 0xFFFF == LowHalf(w)
  {
  }

  lemma Beside(h: Word, v: Word)
    requires h & 0xFFFF == h
    ensures LowHalf((v << 16) | h) == h
  {
  }

  lemma HighWritten(w: Word, v: Word)
    ensures HighHalf(WithHigh(w, v)) == LowHalf(v)
  {
  }

  /** A stored halfword is read back, and the other one is unchanged. */
  lemma HalfPut(w: Word, n: nat, v: Word, k: nat)
    requires n < 2 && k < 2
    ensures GetHalf(PutHalf(w, n, v), k) == if k == n then LowHalf(v) else GetHalf(w, k)
  {
    hide LowHalf, HighHalf, WithLow, WithHigh;
    LowWritten(w, v);
    HighKept(w, v);
    LowKept(w, v);
    HighWritten(w, v);
  }

  /** Halfword n of a word is made of its bytes 2n and 2n + 1, the lower one first. */
  lemma HalfBytes(w: Word)
    ensures GetHalf(w, 0) == (w & 0xFF) | (((w >> 8) & 0xFF) << 8)
    ensures GetHalf(w, 1) == ((w >> 16) & 0xFF) | (((w >> 24) & 0xFF) << 8)
  {
    LowBytes(w);
    HighBytes(w);
  }

  lemma LowBytes(w: Word)
    ensures w & 0xFFFF == (w & 0xFF) | (((w >> 8) & 0xFF) << 8)
  {
  }

  lemma HighBytes(w: Word)
    ensures (w >> 16) & 0xFFFF == ((w >> 16) & 0xFF) | (((w >> 24) & 0xFF) << 8)
  {
  }

  lemma ModAway(z: nat, off: nat, addr: nat)
    requires addr == 4 * z + off
    ensures off % 4 == addr % 4 && (off / 2) % 2 == (addr / 2) % 2
  {
    assert addr / 2 == 2 * z + off / 2;
  }

  lemma QuotientRemainder(a: nat, d: nat)
    requires d > 0
    ensures a == d * (a / d) + a % d
  {
  }

  lemma Reassociate(words: nat, q: nat)
    ensures (4 * words) * q == 4 * (words * q)
  {
  }

  lemma SubWordOf(words: nat, blockSize: nat, q: nat, off: nat, addr: nat)
    requires blockSize == 4 * words && addr == blockSize * q + off
    ensures off % 4 == addr % 4 && (off / 2) % 2 == (addr / 2) % 2
  {
    Reassociate(words, q);
    ModAway(words * q, off, addr);
  }

  function Rest(addr: nat, d: nat): nat
    requires d > 0
  {
    addr % d
  }

  function Quotient(addr: nat, d: nat): nat
    requires d > 0
  {
    addr / d
  }

  lemma Divides(addr: nat, d: nat)
    requires d > 0
    ensures addr == d * Quotient(addr, d) + Rest(addr, d)
  {
    QuotientRemainder(addr, d);
  }

  lemma SubWordRest(words: nat, addr: nat)
    requires words > 0
    ensures Rest(addr, 4 * words) % 4 == addr % 4 && (Rest(addr, 4 * words) / 2) % 2 == (addr / 2) % 2
  {
    hide Rest, Quotient;
    Divides(addr, 4 * words);
    SubWordOf(words, 4 * words, Quotient(addr, 4 * words), Rest(addr, 4 * words), addr);
  }

  /** The low bits of the offset are those of the address. */
  lemma SubWord(words: nat, addr: nat)
    requires words > 0
    ensures (addr % (4 * words)) % 4 == addr % 4 && ((addr % (4 * words)) / 2) % 2 == (addr / 2) % 2
  {
    SubWordRest(words, addr);
    assert Rest(addr, 4 * words) == addr % (4 * words);
  }
}
