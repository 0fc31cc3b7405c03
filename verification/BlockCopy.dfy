/** What a DMA transfer means: memory as words, blocks copied or cleared one after
    the other. */
module BlockCopy {

  /** A 32-bit address space in words. */
  const SPACE: nat := 0x1_0000_0000
  const WORDS: nat := 0x4000_0000

  datatype Query = Query(src: nat, dst: nat, len: nat, zeroWrite: bool, burst: bool)

  /** The address of word i behind base, in 32 bits. */
  function At(base: nat, i: nat): (a: nat)
    ensures a < SPACE
  {
    (base + 4 * i) % SPACE
  }

  /** A misaligned store is refused by the bus and changes nothing. */
  function StoreWord(mem: seq<nat>, addr: nat, data: nat): (m: seq<nat>)
    requires |mem| == WORDS && addr < SPACE
    ensures |m| == WORDS
  {
    if addr % 4 == 0 then mem[addr / 4 := data] else mem
  }

  function FetchWord(mem: seq<nat>, addr: nat): nat
    requires |mem| == WORDS && addr < SPACE
  {
    mem[addr / 4]
  }

  function Read(mem: seq<nat>, base: nat, n: nat): (r: seq<nat>)
    requires |mem| == WORDS
    ensures |r| == n
  {
    seq(n, i requires 0 <= i < n => FetchWord(mem, At(base, i)))
  }

  function Zeros(n: nat): (r: seq<nat>)
    ensures |r| == n
  {
    seq(n, _ => 0)
  }

  /** The words of data stored from base on, in order. */
  function Write(mem: seq<nat>, base: nat, data: seq<nat>): (m: seq<nat>)
    requires |mem| == WORDS
    ensures |m| == WORDS
    decreases |data|
  {
    if data == [] then mem
    else
      var n := |data| - 1;
      StoreWord(Write(mem, base, data[..n]), At(base, n), data[n])
  }

  /** How many words come before block k. */
  function Offset(w: nat, k: nat): nat { w * k }

  /** The address of block k behind base. */
  function BlockAt(base: nat, w: nat, k: nat): nat { base + 4 * Offset(w, k) }

  /** What block k of the transfer writes. */
  function Block(mem: seq<nat>, q: Query, w: nat, k: nat): (r: seq<nat>)
    requires |mem| == WORDS
    ensures |r| == w
  {
    if q.zeroWrite then Zeros(w) else Read(mem, BlockAt(q.src, w, k), w)
  }

  /** Memory after the first k blocks: each is read whole before it is written. */
  function Copied(mem: seq<nat>, q: Query, w: nat, k: nat): (m: seq<nat>)
    requires |mem| == WORDS
    ensures |m| == WORDS
  {
    if k == 0 then mem
    else
      var before := Copied(mem, q, w, k - 1);
      Write(before, BlockAt(q.dst, w, k - 1), Block(before, q, w, k - 1))
  }

  // ---- what it comes to ----

  /** The word that i words behind base stands for. */
  function WordOf(base: nat, i: nat): (j: nat)
    ensures j < WORDS
  {
    At(base, i) / 4
  }

  lemma WordOfIs(base: nat, i: nat)
    requires base % 4 == 0
    ensures At(base, i) % 4 == 0 && WordOf(base, i) == (base / 4 + i) % WORDS
  {
    var n := base / 4 + i;
    assert base + 4 * i == 4 * n;
    var a, k := (4 * n) % SPACE, (4 * n) / SPACE;
    assert 4 * n == SPACE * k + a;
    assert a == 4 * (n - WORDS * k);
    assert n - WORDS * k == n % WORDS;
  }

  lemma WordsDiffer(base: nat, i: nat, j: nat)
    requires base % 4 == 0 && i < j < i + WORDS
    ensures WordOf(base, i) != WordOf(base, j)
  {
    WordOfIs(base, i);
    WordOfIs(base, j);
    var x, y := base / 4 + i, base / 4 + j;
    assert x / WORDS * WORDS + x % WORDS == x;
    assert y / WORDS * WORDS + y % WORDS == y;
  }

  /** Among the first n words behind base. */
  ghost predicate InRange(base: nat, n: nat, j: nat) { exists i: nat :: i < n && WordOf(base, i) == j }

  lemma {:induction false} WriteMeans(mem: seq<nat>, base: nat, data: seq<nat>)
    requires |mem| == WORDS && base % 4 == 0 && |data| <= WORDS
    ensures forall i: nat :: i < |data| ==> Write(mem, base, data)[WordOf(base, i)] == data[i]
    ensures forall j: nat :: j < WORDS && !InRange(base, |data|, j) ==> Write(mem, base, data)[j] == mem[j]
    decreases |data|
  {
    if data != [] {
      var n := |data| - 1;
      var before := Write(mem, base, data[..n]);
      WriteMeans(mem, base, data[..n]);
      WordOfIs(base, n);
      var after := before[WordOf(base, n) := data[n]];
      assert Write(mem, base, data) == after;
      forall i: nat | i < |data|
        ensures after[WordOf(base, i)] == data[i]
      {
        if i < n { WordsDiffer(base, i, n); }
      }
      forall j: nat | j < WORDS && !InRange(base, |data|, j)
        ensures after[j] == mem[j]
      {
        assert WordOf(base, n) != j;
        assert !InRange(base, n, j);
      }
    }
  }

  lemma AtKeepsAlignment(base: nat, i: nat)
    ensures At(base, i) % 4 == base % 4
  {
    var x := base + 4 * i;
    assert x == SPACE * (x / SPACE) + At(base, i);
    assert At(base, i) == base + 4 * (i - WORDS * (x / SPACE));
  }

  /** Where a misaligned address is written, nothing changes. */
  lemma {:induction false} WriteMisaligned(mem: seq<nat>, base: nat, data: seq<nat>)
    requires |mem| == WORDS && base % 4 != 0
    ensures Write(mem, base, data) == mem
    decreases |data|
  {
    hide At;
    if data != [] {
      var n := |data| - 1;
      WriteMisaligned(mem, base, data[..n]);
      AtKeepsAlignment(base, n);
    }
  }

  lemma OffsetStep(w: nat, k: nat)
    requires k > 0
    ensures Offset(w, k) == Offset(w, k - 1) + w
  {
  }

  lemma OffsetGrows(w: nat, a: nat, b: nat)
    requires a <= b
    ensures Offset(w, a) <= Offset(w, b)
  {
    assert w * (b - a) >= 0;
  }

  /** Words of a block are words of the whole range. */
  lemma BlockWord(base: nat, offset: nat, i: nat)
    ensures WordOf(base + 4 * offset, i) == WordOf(base, offset + i)
    ensures At(base + 4 * offset, i) == At(base, offset + i)
  {
    assert base + 4 * offset + 4 * i == base + 4 * (offset + i);
  }

  lemma RangeSplit(base: nat, offset: nat, w: nat, j: nat)
    ensures InRange(base, offset + w, j) <==> InRange(base, offset, j) || InRange(base + 4 * offset, w, j)
  {
    hide At, WordOf;
    if InRange(base, offset + w, j) {
      var i: nat :| i < offset + w && WordOf(base, i) == j;
      if i >= offset {
        BlockWord(base, offset, i - offset);
        assert WordOf(base + 4 * offset, i - offset) == j;
      }
    }
    if InRange(base + 4 * offset, w, j) {
      var i: nat :| i < w && WordOf(base + 4 * offset, i) == j;
      BlockWord(base, offset, i);
      assert WordOf(base, offset + i) == j;
    }
  }

  /** No block writes a word that a later block still has to read. */
  ghost predicate Unspoiled(q: Query, w: nat, k: nat) {
    forall a: nat, i: nat, r: nat :: a < k && i < Offset(w, a) && r < w ==>
      WordOf(q.dst, i) != WordOf(BlockAt(q.src, w, a), r)
  }

  /** One block on top of an offset's worth of words. */
  lemma BlockStep(mem: seq<nat>, before: seq<nat>, q: Query, w: nat, offset: nat, data: seq<nat>)
    requires |mem| == WORDS == |before| && |data| == w && q.dst % 4 == 0 && offset + w <= WORDS
    requires forall j: nat :: j < WORDS && !InRange(q.dst, offset, j) ==> before[j] == mem[j]
    ensures var after := Write(before, q.dst + 4 * offset, data);
            && (forall i: nat :: i < offset ==> after[WordOf(q.dst, i)] == before[WordOf(q.dst, i)])
            && (forall i: nat :: offset <= i < offset + w ==> after[WordOf(q.dst, i)] == data[i - offset])
            && (forall j: nat :: j < WORDS && !InRange(q.dst, offset + w, j) ==> after[j] == mem[j])
  {
    hide At, WordOf, Write;
    var base := q.dst + 4 * offset;
    var after := Write(before, base, data);
    WriteMeans(before, base, data);
    forall i: nat | i < offset
      ensures after[WordOf(q.dst, i)] == before[WordOf(q.dst, i)]
    {
      if InRange(base, w, WordOf(q.dst, i)) {
        var r: nat :| r < w && WordOf(base, r) == WordOf(q.dst, i);
        BlockWord(q.dst, offset, r);
        WordsDiffer(q.dst, i, offset + r);
      }
    }
    forall i: nat | offset <= i < offset + w
      ensures after[WordOf(q.dst, i)] == data[i - offset]
    {
      BlockWord(q.dst, offset, i - offset);
    }
    forall j: nat | j < WORDS && !InRange(q.dst, offset + w, j)
      ensures after[j] == mem[j]
    {
      RangeSplit(q.dst, offset, w, j);
    }
  }

  /** A copy: the destination receives the source as it was, nothing else changes. */
  lemma {:induction false} CopyMeans(mem: seq<nat>, q: Query, w: nat, k: nat)
    requires |mem| == WORDS && !q.zeroWrite && q.dst % 4 == 0
    requires Offset(w, k) <= WORDS && Unspoiled(q, w, k)
    ensures forall i: nat :: i < Offset(w, k) ==> Copied(mem, q, w, k)[WordOf(q.dst, i)] == mem[WordOf(q.src, i)]
    ensures forall j: nat :: j < WORDS && !InRange(q.dst, Offset(w, k), j) ==> Copied(mem, q, w, k)[j] == mem[j]
  {
    hide At, WordOf, Write, Offset, Block, InRange;
    if k == 0 {
      NoOffset(w);
    } else {
      OffsetStep(w, k);
      CopyMeans(mem, q, w, k - 1);
      var offset := Offset(w, k - 1);
      var before := Copied(mem, q, w, k - 1);
      var data := Block(before, q, w, k - 1);
      BlockStep(mem, before, q, w, offset, data);
      SourceRead(mem, before, q, w, k - 1);
      forall i: nat | offset <= i < offset + w
        ensures Copied(mem, q, w, k)[WordOf(q.dst, i)] == mem[WordOf(q.src, i)]
      {
        assert data[i - offset] == mem[WordOf(q.src, offset + (i - offset))];
      }
    }
  }

  lemma SourceRead(mem: seq<nat>, before: seq<nat>, q: Query, w: nat, k: nat)
    requires |mem| == WORDS == |before| && !q.zeroWrite && Unspoiled(q, w, k + 1)
    requires forall j: nat :: j < WORDS && !InRange(q.dst, Offset(w, k), j) ==> before[j] == mem[j]
    ensures forall r: nat :: r < w ==> Block(before, q, w, k)[r] == mem[WordOf(q.src, Offset(w, k) + r)]
  {
    hide At, WordOf, Offset, InRange, Unspoiled, Block;
    forall r: nat | r < w
      ensures Block(before, q, w, k)[r] == mem[WordOf(q.src, Offset(w, k) + r)]
    {
      BlockWord(q.src, Offset(w, k), r);
      SourceKept(mem, before, q, w, k, r);
    }
  }

  lemma SourceKept(mem: seq<nat>, before: seq<nat>, q: Query, w: nat, k: nat, r: nat)
    requires |mem| == WORDS == |before| && !q.zeroWrite && r < w && Unspoiled(q, w, k + 1)
    requires forall j: nat :: j < WORDS && !InRange(q.dst, Offset(w, k), j) ==> before[j] == mem[j]
    ensures Block(before, q, w, k)[r] == mem[WordOf(BlockAt(q.src, w, k), r)]
  {
    hide At, Offset;
    var j := WordOf(BlockAt(q.src, w, k), r);
    assert !InRange(q.dst, Offset(w, k), j);
    assert before[j] == mem[j];
  }

  lemma NoOffset(w: nat)
    ensures Offset(w, 0) == 0
  {
  }

  /** A clearing run zeroes exactly its range when dst is word aligned ... */
  lemma {:induction false} ClearMeans(mem: seq<nat>, q: Query, w: nat, k: nat)
    requires |mem| == WORDS && q.zeroWrite && q.dst % 4 == 0 && Offset(w, k) <= WORDS
    ensures forall i: nat :: i < Offset(w, k) ==> Copied(mem, q, w, k)[WordOf(q.dst, i)] == 0
    ensures forall j: nat :: j < WORDS && !InRange(q.dst, Offset(w, k), j) ==> Copied(mem, q, w, k)[j] == mem[j]
  {
    hide At, WordOf, Write, Offset;
    if k == 0 {
      NoOffset(w);
    } else {
      OffsetStep(w, k);
      ClearMeans(mem, q, w, k - 1);
      var before := Copied(mem, q, w, k - 1);
      BlockStep(mem, before, q, w, Offset(w, k - 1), Block(before, q, w, k - 1));
    }
  }

  /** ... and does nothing at all when it is not. */
  lemma {:induction false} ClearMisaligned(mem: seq<nat>, q: Query, w: nat, k: nat)
    requires |mem| == WORDS && q.dst % 4 != 0
    ensures Copied(mem, q, w, k) == mem
  {
    hide Offset, Write, At, Block;
    if k > 0 {
      ClearMisaligned(mem, q, w, k - 1);
      assert BlockAt(q.dst, w, k - 1) % 4 == q.dst % 4;
      WriteMisaligned(mem, BlockAt(q.dst, w, k - 1), Block(mem, q, w, k - 1));
    }
  }

  /** A clearing run of at least one word clears its range, whatever memory held,
      exactly when dst is word aligned, and that is not what the code checks. */
  lemma ClearsIff(q: Query, w: nat, k: nat)
    requires q.zeroWrite && 0 < Offset(w, k) <= WORDS
    ensures q.dst % 4 == 0
         <==> forall mem: seq<nat>, i: nat | |mem| == WORDS && i < Offset(w, k) :: Copied(mem, q, w, k)[WordOf(q.dst, i)] == 0
  {
    hide Copied, WordOf, Offset;
    if q.dst % 4 == 0 {
      forall mem: seq<nat>, i: nat | |mem| == WORDS && i < Offset(w, k)
        ensures Copied(mem, q, w, k)[WordOf(q.dst, i)] == 0
      {
        ClearMeans(mem, q, w, k);
      }
    } else {
      var ones := seq(WORDS, _ => 1);
      ClearMisaligned(ones, q, w, k);
      assert Copied(ones, q, w, k)[WordOf(q.dst, 0)] == 1;
    }
  }

  /** Disjoint ranges are never spoiled. */
  lemma DisjointUnspoiled(q: Query, w: nat, k: nat)
    requires forall i: nat, j: nat :: i < Offset(w, k) && j < Offset(w, k) ==> WordOf(q.dst, i) != WordOf(q.src, j)
    ensures Unspoiled(q, w, k)
  {
    hide At, WordOf, Offset;
    forall a: nat, i: nat, r: nat | a < k && i < Offset(w, a) && r < w
      ensures WordOf(q.dst, i) != WordOf(BlockAt(q.src, w, a), r)
    {
      OffsetStep(w, a + 1);
      OffsetGrows(w, a + 1, k);
      BlockWord(q.src, Offset(w, a), r);
    }
  }

  /** Nor is a move to a lower address, even when the ranges overlap. */
  lemma MoveDownUnspoiled(q: Query, w: nat, k: nat)
    requires q.src % 4 == 0 && q.dst % 4 == 0 && q.dst <= q.src && q.src + 4 * Offset(w, k) <= SPACE
    ensures Unspoiled(q, w, k)
  {
    hide At, WordOf, Offset;
    forall a: nat, i: nat, r: nat | a < k && i < Offset(w, a) && r < w
      ensures WordOf(q.dst, i) != WordOf(BlockAt(q.src, w, a), r)
    {
      OffsetStep(w, a + 1);
      OffsetGrows(w, a + 1, k);
      BlockWord(q.src, Offset(w, a), r);
      WordOfIs(q.dst, i);
      WordOfIs(q.src, Offset(w, a) + r);
    }
  }
}
