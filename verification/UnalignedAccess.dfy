/** LWL/LWR and SWL/SWR: the pairs move one unaligned word, and nothing else. */
module UnalignedAccess {
  import opened Isa

  function Plus(x: Word, k: Word): Word { x + k }

  /** A word from its bytes in address order. */
  function Assemble(bigEndian: bool, b0: Word, b1: Word, b2: Word, b3: Word): Word {
    if bigEndian then (b0 << 24) | (b1 << 16) | (b2 << 8) | b3 else (b3 << 24) | (b2 << 16) | (b1 << 8) | b0
  }

  /** The word made of the four bytes at x, x+1, x+2, x+3, wherever they lie. */
  function UnalignedWord(bigEndian: bool, mem: Memory, x: Word): Word {
    Assemble(bigEndian, ByteAt(bigEndian, mem, x), ByteAt(bigEndian, mem, Plus(x, 1)),
             ByteAt(bigEndian, mem, Plus(x, 2)), ByteAt(bigEndian, mem, Plus(x, 3)))
  }

  /** Address of the most significant byte, which LWL and SWL take. */
  function LeftAddr(bigEndian: bool, x: Word): Word { if bigEndian then x else Plus(x, 3) }

  /** Address of the least significant byte, which LWR and SWR take. */
  function RightAddr(bigEndian: bool, x: Word): Word { if bigEndian then Plus(x, 3) else x }

  function LoadLeftAt(bigEndian: bool, mem: Memory, x: Word, reg: Word): Word {
    LoadLeft(bigEndian, reg, WordAt(mem, LeftAddr(bigEndian, x)), LowBits(LeftAddr(bigEndian, x)))
  }

  function LoadRightAt(bigEndian: bool, mem: Memory, x: Word, reg: Word): Word {
    LoadRight(bigEndian, reg, WordAt(mem, RightAddr(bigEndian, x)), LowBits(RightAddr(bigEndian, x)))
  }

  // ---- bytes of a word ----

  /** Byte n of a word, n counting addresses upward. */
  function ByteOf(bigEndian: bool, w: Word, n: nat): Word
    requires n < 4
  {
    Down(w, if bigEndian then 3 - n else n) & 0xFF
  }

  lemma LowBitsIs(a: Word)
    ensures a & 3 == 0 ==> LowBits(a) == 0
    ensures a & 3 == 1 ==> LowBits(a) == 1
    ensures a & 3 == 2 ==> LowBits(a) == 2
    ensures a & 3 == 3 ==> LowBits(a) == 3
    ensures a & 3 == 0 || a & 3 == 1 || a & 3 == 2 || a & 3 == 3
  {
  }

  lemma LaneIs(bigEndian: bool, a: Word)
    ensures a & 3 == 0 ==> Lane(bigEndian, a) == if bigEndian then 24 else 0
    ensures a & 3 == 1 ==> Lane(bigEndian, a) == if bigEndian then 16 else 8
    ensures a & 3 == 2 ==> Lane(bigEndian, a) == if bigEndian then 8 else 16
    ensures a & 3 == 3 ==> Lane(bigEndian, a) == if bigEndian then 0 else 24
  {
  }

  lemma ByteAtIs(bigEndian: bool, mem: Memory, a: Word)
    ensures ByteAt(bigEndian, mem, a) == ByteOf(bigEndian, WordAt(mem, a), LowBits(a))
  {
    hide WordAt, LowBits, Lane;
    LowBitsIs(a);
    LaneIs(bigEndian, a);
    if a & 3 == 0 {
    } else if a & 3 == 1 {
    } else if a & 3 == 2 {
    } else {
    }
  }

  // Where the bytes of an unaligned access lie: in the first word or in the last.

  lemma PlusLow(x: Word, k: Word)
    ensures Plus(x, k) & 3 == ((x & 3) + k) & 3
  {
  }

  lemma PlusNear(x: Word, k: Word)
    requires k <= 3 && (x & 3) + k <= 3
    ensures WordBase(Plus(x, k)) == WordBase(x)
  {
  }

  function NextBase(x: Word): Word { (x & 0xFFFFFFFC) + 4 }

  lemma PlusFar(x: Word, k: Word)
    requires k <= 3 && (x & 3) + k > 3
    ensures WordBase(Plus(x, k)) == NextBase(x)
  {
  }

  lemma PlacesAt(x: Word, k: Word)
    requires k == 1 || k == 2 || k == 3
    ensures LowBits(Plus(x, k)) == (LowBits(x) + (if k == 1 then 1 else if k == 2 then 2 else 3)) % 4
  {
    hide LowBits, Plus;
    PlusLow(x, k);
    LowBitsIs(x);
    LowBitsIs(Plus(x, k));
  }

  lemma SameWord(mem: Memory, a: Word, b: Word)
    requires WordBase(a) == WordBase(b)
    ensures WordAt(mem, a) == WordAt(mem, b)
  {
    hide WordBase;
  }

  lemma NearWord(mem: Memory, x: Word, k: Word)
    requires k <= 3 && (x & 3) + k <= 3
    ensures WordAt(mem, Plus(x, k)) == WordAt(mem, x)
  {
    hide WordAt, WordBase, Plus, NextBase;
    PlusNear(x, k);
    SameWord(mem, Plus(x, k), x);
  }

  lemma FarWord(mem: Memory, x: Word, k: Word)
    requires k <= 3 && (x & 3) + k > 3
    ensures WordAt(mem, Plus(x, k)) == WordAt(mem, Plus(x, 3))
  {
    hide WordAt, WordBase, Plus, NextBase;
    PlusFar(x, k);
    Furthest(x, k);
    PlusFar(x, 3);
    SameWord(mem, Plus(x, k), Plus(x, 3));
  }

  lemma Furthest(x: Word, k: Word)
    requires k <= 3 && (x & 3) + k > 3
    ensures (x & 3) + 3 > 3
  {
  }

  /** Byte k of an unaligned access, k places into or beyond the first word. */
  lemma StraddledByte(bigEndian: bool, mem: Memory, x: Word, k: Word, n: nat)
    requires (k == 1 && n == 1) || (k == 2 && n == 2) || (k == 3 && n == 3)
    ensures LowBits(x) + n <= 3 ==> ByteAt(bigEndian, mem, Plus(x, k)) == ByteOf(bigEndian, WordAt(mem, x), LowBits(x) + n)
    ensures LowBits(x) + n > 3 ==>
              ByteAt(bigEndian, mem, Plus(x, k)) == ByteOf(bigEndian, WordAt(mem, Plus(x, 3)), LowBits(x) + n - 4)
  {
    hide LowBits, WordAt, ByteAt, ByteOf, Plus;
    ByteAtIs(bigEndian, mem, Plus(x, k));
    PlacesAt(x, k);
    LowCases(x, k, n);
    if LowBits(x) + n <= 3 { NearWord(mem, x, k); } else { FarWord(mem, x, k); }
  }

  lemma LowCases(x: Word, k: Word, n: nat)
    requires (k == 1 && n == 1) || (k == 2 && n == 2) || (k == 3 && n == 3)
    ensures LowBits(x) + n <= 3 <==> (x & 3) + k <= 3
  {
    hide LowBits, Plus;
    LowBitsIs(x);
    if x & 3 == 0 {
    } else if x & 3 == 1 {
    } else if x & 3 == 2 {
    } else {
    }
  }

  lemma WordOf3(mem: Memory, x: Word)
    ensures LowBits(x) == 0 ==> WordAt(mem, Plus(x, 3)) == WordAt(mem, x)
  {
    hide LowBits, WordAt, Plus;
    LowCases(x, 3, 3);
    if LowBits(x) == 0 { NearWord(mem, x, 3); }
  }

  /** The unaligned word, assembled from the two words it straddles. */
  function Straddle(bigEndian: bool, first: Word, last: Word, n: nat): Word
    requires n < 4
  {
    Assemble(bigEndian, ByteOf(bigEndian, first, n),
             if n <= 2 then ByteOf(bigEndian, first, n + 1) else ByteOf(bigEndian, last, n - 3),
             if n <= 1 then ByteOf(bigEndian, first, n + 2) else ByteOf(bigEndian, last, n - 2),
             ByteOf(bigEndian, last, (n + 3) % 4))
  }

  lemma StraddleIs(bigEndian: bool, mem: Memory, x: Word)
    ensures UnalignedWord(bigEndian, mem, x) == Straddle(bigEndian, WordAt(mem, x), WordAt(mem, Plus(x, 3)), LowBits(x))
  {
    hide WordAt, LowBits, ByteAt, ByteOf, Assemble, Plus;
    ByteAtIs(bigEndian, mem, x);
    StraddledByte(bigEndian, mem, x, 1, 1);
    StraddledByte(bigEndian, mem, x, 2, 2);
    StraddledByte(bigEndian, mem, x, 3, 3);
    WordOf3(mem, x);
  }

  // ---- the load pair ----

  lemma LeftThenRightBig0(first: Word, last: Word, reg: Word)
    ensures LoadRight(true, LoadLeft(true, reg, last, 0), last, 3) == Straddle(true, last, last, 0)
  {
  }

  lemma RightThenLeftBig0(first: Word, last: Word, reg: Word)
    ensures LoadLeft(true, LoadRight(true, reg, last, 3), last, 0) == Straddle(true, last, last, 0)
  {
  }

  lemma LeftThenRightBig1(first: Word, last: Word, reg: Word)
    ensures LoadRight(true, LoadLeft(true, reg, first, 1), last, 0) == Straddle(true, first, last, 1)
  {
  }

  lemma RightThenLeftBig1(first: Word, last: Word, reg: Word)
    ensures LoadLeft(true, LoadRight(true, reg, last, 0), first, 1) == Straddle(true, first, last, 1)
  {
  }

  lemma LeftThenRightBig2(first: Word, last: Word, reg: Word)
    ensures LoadRight(true, LoadLeft(true, reg, first, 2), last, 1) == Straddle(true, first, last, 2)
  {
  }

  lemma RightThenLeftBig2(first: Word, last: Word, reg: Word)
    ensures LoadLeft(true, LoadRight(true, reg, last, 1), first, 2) == Straddle(true, first, last, 2)
  {
  }

  lemma LeftThenRightBig3(first: Word, last: Word, reg: Word)
    ensures LoadRight(true, LoadLeft(true, reg, first, 3), last, 2) == Straddle(true, first, last, 3)
  {
  }

  lemma RightThenLeftBig3(first: Word, last: Word, reg: Word)
    ensures LoadLeft(true, LoadRight(true, reg, last, 2), first, 3) == Straddle(true, first, last, 3)
  {
  }

  lemma LeftThenRightLittle0(first: Word, last: Word, reg: Word)
    ensures LoadRight(false, LoadLeft(false, reg, last, 3), last, 0) == Straddle(false, last, last, 0)
  {
  }

  lemma RightThenLeftLittle0(first: Word, last: Word, reg: Word)
    ensures LoadLeft(false, LoadRight(false, reg, last, 0), last, 3) == Straddle(false, last, last, 0)
  {
  }

  lemma LeftThenRightLittle1(first: Word, last: Word, reg: Word)
    ensures LoadRight(false, LoadLeft(false, reg, last, 0), first, 1) == Straddle(false, first, last, 1)
  {
  }

  lemma RightThenLeftLittle1(first: Word, last: Word, reg: Word)
    ensures LoadLeft(false, LoadRight(false, reg, first, 1), last, 0) == Straddle(false, first, last, 1)
  {
  }

  lemma LeftThenRightLittle2(first: Word, last: Word, reg: Word)
    ensures LoadRight(false, LoadLeft(false, reg, last, 1), first, 2) == Straddle(false, first, last, 2)
  {
  }

  lemma RightThenLeftLittle2(first: Word, last: Word, reg: Word)
    ensures LoadLeft(false, LoadRight(false, reg, first, 2), last, 1) == Straddle(false, first, last, 2)
  {
  }

  lemma LeftThenRightLittle3(first: Word, last: Word, reg: Word)
    ensures LoadRight(false, LoadLeft(false, reg, last, 2), first, 3) == Straddle(false, first, last, 3)
  {
  }

  lemma RightThenLeftLittle3(first: Word, last: Word, reg: Word)
    ensures LoadLeft(false, LoadRight(false, reg, first, 3), last, 2) == Straddle(false, first, last, 3)
  {
  }

  lemma LoadMerge(bigEndian: bool, first: Word, last: Word, n: nat, reg: Word)
    requires n < 4 && (n == 0 ==> first == last)
    ensures var l, r := if bigEndian then n else (n + 3) % 4, if bigEndian then (n + 3) % 4 else n;
            var lw, rw := if bigEndian then first else last, if bigEndian then last else first;
            && LoadRight(bigEndian, LoadLeft(bigEndian, reg, lw, l), rw, r) == Straddle(bigEndian, first, last, n)
            && LoadLeft(bigEndian, LoadRight(bigEndian, reg, rw, r), lw, l) == Straddle(bigEndian, first, last, n)
  {
    hide LoadLeft, LoadRight, Straddle;
    if bigEndian {
      LeftThenRightBig0(first, last, reg);
      RightThenLeftBig0(first, last, reg);
      LeftThenRightBig1(first, last, reg);
      RightThenLeftBig1(first, last, reg);
      LeftThenRightBig2(first, last, reg);
      RightThenLeftBig2(first, last, reg);
      LeftThenRightBig3(first, last, reg);
      RightThenLeftBig3(first, last, reg);
    } else {
      LeftThenRightLittle0(first, last, reg);
      RightThenLeftLittle0(first, last, reg);
      LeftThenRightLittle1(first, last, reg);
      RightThenLeftLittle1(first, last, reg);
      LeftThenRightLittle2(first, last, reg);
      RightThenLeftLittle2(first, last, reg);
      LeftThenRightLittle3(first, last, reg);
      RightThenLeftLittle3(first, last, reg);
    }
  }

  /** LWL and LWR, in either order, load the unaligned word at any address,
      whatever the register held before. */
  lemma LoadPair(bigEndian: bool, mem: Memory, x: Word, reg: Word)
    ensures LoadRightAt(bigEndian, mem, x, LoadLeftAt(bigEndian, mem, x, reg)) == UnalignedWord(bigEndian, mem, x)
    ensures LoadLeftAt(bigEndian, mem, x, LoadRightAt(bigEndian, mem, x, reg)) == UnalignedWord(bigEndian, mem, x)
  {
    hide WordAt, LowBits, UnalignedWord, Straddle, LoadLeft, LoadRight, Plus;
    StraddleIs(bigEndian, mem, x);
    PlacesAt(x, 3);
    WordOf3(mem, x);
    LoadMerge(bigEndian, WordAt(mem, x), WordAt(mem, Plus(x, 3)), LowBits(x), reg);
  }

  // ---- the store pair ----

  function LaneOf(bigEndian: bool, n: nat): bv6
    requires n < 4
  {
    if n == 0 then (if bigEndian then 24 else 0)
    else if n == 1 then (if bigEndian then 16 else 8)
    else if n == 2 then (if bigEndian then 8 else 16)
    else (if bigEndian then 0 else 24)
  }

  lemma LaneOfIs(bigEndian: bool, a: Word)
    ensures Lane(bigEndian, a) == LaneOf(bigEndian, LowBits(a))
  {
    hide LowBits, Lane;
    LowBitsIs(a);
    LaneIs(bigEndian, a);
  }

  /** Byte n of word w replaced. */
  function Insert(bigEndian: bool, w: Word, n: nat, v: Word): Word
    requires n < 4
  {
    SetByte(w, LaneOf(bigEndian, n), v)
  }

  lemma InsertedBig0(w: Word, v: Word)
    ensures ByteOf(true, Insert(true, w, 0, v), 0) == v & 0xFF
    ensures ByteOf(true, Insert(true, w, 0, v), 1) == ByteOf(true, w, 1)
    ensures ByteOf(true, Insert(true, w, 0, v), 2) == ByteOf(true, w, 2)
    ensures ByteOf(true, Insert(true, w, 0, v), 3) == ByteOf(true, w, 3)
  {
  }

  lemma InsertedBig1(w: Word, v: Word)
    ensures ByteOf(true, Insert(true, w, 1, v), 0) == ByteOf(true, w, 0)
    ensures ByteOf(true, Insert(true, w, 1, v), 1) == v & 0xFF
    ensures ByteOf(true, Insert(true, w, 1, v), 2) == ByteOf(true, w, 2)
    ensures ByteOf(true, Insert(true, w, 1, v), 3) == ByteOf(true, w, 3)
  {
  }

  lemma InsertedBig2(w: Word, v: Word)
    ensures ByteOf(true, Insert(true, w, 2, v), 0) == ByteOf(true, w, 0)
    ensures ByteOf(true, Insert(true, w, 2, v), 1) == ByteOf(true, w, 1)
    ensures ByteOf(true, Insert(true, w, 2, v), 2) == v & 0xFF
    ensures ByteOf(true, Insert(true, w, 2, v), 3) == ByteOf(true, w, 3)
  {
  }

  lemma InsertedBig3(w: Word, v: Word)
    ensures ByteOf(true, Insert(true, w, 3, v), 0) == ByteOf(true, w, 0)
    ensures ByteOf(true, Insert(true, w, 3, v), 1) == ByteOf(true, w, 1)
    ensures ByteOf(true, Insert(true, w, 3, v), 2) == ByteOf(true, w, 2)
    ensures ByteOf(true, Insert(true, w, 3, v), 3) == v & 0xFF
  {
  }

  lemma InsertedLittle0(w: Word, v: Word)
    ensures ByteOf(false, Insert(false, w, 0, v), 0) == v & 0xFF
    ensures ByteOf(false, Insert(false, w, 0, v), 1) == ByteOf(false, w, 1)
    ensures ByteOf(false, Insert(false, w, 0, v), 2) == ByteOf(false, w, 2)
    ensures ByteOf(false, Insert(false, w, 0, v), 3) == ByteOf(false, w, 3)
  {
  }

  lemma InsertedLittle1(w: Word, v: Word)
    ensures ByteOf(false, Insert(false, w, 1, v), 0) == ByteOf(false, w, 0)
    ensures ByteOf(false, Insert(false, w, 1, v), 1) == v & 0xFF
    ensures ByteOf(false, Insert(false, w, 1, v), 2) == ByteOf(false, w, 2)
    ensures ByteOf(false, Insert(false, w, 1, v), 3) == ByteOf(false, w, 3)
  {
  }

  lemma InsertedLittle2(w: Word, v: Word)
    ensures ByteOf(false, Insert(false, w, 2, v), 0) == ByteOf(false, w, 0)
    ensures ByteOf(false, Insert(false, w, 2, v), 1) == ByteOf(false, w, 1)
    ensures ByteOf(false, Insert(false, w, 2, v), 2) == v & 0xFF
    ensures ByteOf(false, Insert(false, w, 2, v), 3) == ByteOf(false, w, 3)
  {
  }

  lemma InsertedLittle3(w: Word, v: Word)
    ensures ByteOf(false, Insert(false, w, 3, v), 0) == ByteOf(false, w, 0)
    ensures ByteOf(false, Insert(false, w, 3, v), 1) == ByteOf(false, w, 1)
    ensures ByteOf(false, Insert(false, w, 3, v), 2) == ByteOf(false, w, 2)
    ensures ByteOf(false, Insert(false, w, 3, v), 3) == v & 0xFF
  {
  }

  lemma InsertedByte(bigEndian: bool, w: Word, n: nat, v: Word, k: nat)
    requires n < 4 && k < 4
    ensures ByteOf(bigEndian, Insert(bigEndian, w, n, v), k) == if k == n then v & 0xFF else ByteOf(bigEndian, w, k)
  {
    hide ByteOf, Insert;
    if bigEndian {
      InsertedBig0(w, v);
      InsertedBig1(w, v);
      InsertedBig2(w, v);
      InsertedBig3(w, v);
    } else {
      InsertedLittle0(w, v);
      InsertedLittle1(w, v);
      InsertedLittle2(w, v);
      InsertedLittle3(w, v);
    }
  }

  lemma StoreByteIs(bigEndian: bool, mem: Memory, a: Word, v: Word)
    ensures StoreByte(bigEndian, mem, a, v) == mem[Cell(a) := Insert(bigEndian, WordAt(mem, a), LowBits(a), v)]
  {
    hide WordAt, WordBase, LowBits, Lane, LaneOf, SetByte;
    LaneOfIs(bigEndian, a);
  }

  lemma StoredWord(mem: Memory, a: Word, w: Word, y: Word)
    ensures WordBase(y) == WordBase(a) ==> WordAt(mem[Cell(a) := w], y) == w
    ensures WordBase(y) != WordBase(a) ==> WordAt(mem[Cell(a) := w], y) == WordAt(mem, y)
  {
    hide WordBase;
  }

  /** Storing a byte changes that byte only. */
  lemma StoreByteAt(bigEndian: bool, mem: Memory, a: Word, v: Word, y: Word)
    ensures ByteAt(bigEndian, StoreByte(bigEndian, mem, a, v), y) ==
              if WordBase(y) == WordBase(a) && LowBits(y) == LowBits(a) then v & 0xFF else ByteAt(bigEndian, mem, y)
  {
    hide WordAt, WordBase, LowBits, ByteAt, StoreByte, ByteOf, Insert;
    StoreByteIs(bigEndian, mem, a, v);
    var w := Insert(bigEndian, WordAt(mem, a), LowBits(a), v);
    StoredWord(mem, a, w, y);
    ByteAtIs(bigEndian, mem, y);
    ByteAtIs(bigEndian, StoreByte(bigEndian, mem, a, v), y);
    InsertedByte(bigEndian, WordAt(mem, a), LowBits(a), v, LowBits(y));
    if WordBase(y) == WordBase(a) { SameWord(mem, y, a); }
  }

  lemma InWord0(base: Word)
    requires base & 3 == 0
    ensures WordBase(base) == base && base & 3 == 0
  {
  }

  lemma InWord1(base: Word)
    requires base & 3 == 0
    ensures WordBase(base + 1) == base && (base + 1) & 3 == 1
  {
  }

  lemma InWord2(base: Word)
    requires base & 3 == 0
    ensures WordBase(base + 2) == base && (base + 2) & 3 == 2
  {
  }

  lemma InWord3(base: Word)
    requires base & 3 == 0
    ensures WordBase(base + 3) == base && (base + 3) & 3 == 3
  {
  }

  lemma NthIs(base: Word)
    ensures Nth(base, 0) == base
    ensures Nth(base, 1) == base + 1
    ensures Nth(base, 2) == base + 2
    ensures Nth(base, 3) == base + 3
  {
  }

  lemma InWord(base: Word, k: nat)
    requires base & 3 == 0 && k < 4
    ensures WordBase(Nth(base, k)) == base && LowBits(Nth(base, k)) == k
  {
    hide LowBits, WordBase, Nth;
    NthIs(base);
    LowBitsIs(Nth(base, k));
    if k == 0 {
      InWord0(base);
    } else if k == 1 {
      InWord1(base);
    } else if k == 2 {
      InWord2(base);
    } else {
      InWord3(base);
    }
  }

  lemma {:induction false} LeftBytes(bigEndian: bool, mem: Memory, base: Word, data: Word, which: nat, k: nat, y: Word)
    requires base & 3 == 0 && which < 4 && k <= 4
    ensures ByteAt(bigEndian, StoreLeftFrom(bigEndian, mem, base, data, which, k), y) ==
              if WordBase(y) == base && k <= LowBits(y) && (bigEndian || LowBits(y) <= which)
              then SwlByte(bigEndian, data, which, LowBits(y)) & 0xFF
              else ByteAt(bigEndian, mem, y)
    decreases 4 - k
  {
    hide ByteAt, StoreByte, SwlByte, Nth, WordBase, LowBits;
    if k < 4 && (bigEndian || k <= which) {
      var v := SwlByte(bigEndian, data, which, k);
      InWord(base, k);
      StoreByteAt(bigEndian, mem, Nth(base, k), v, y);
      LeftBytes(bigEndian, StoreByte(bigEndian, mem, Nth(base, k), v), base, data, which, k + 1, y);
    }
  }

  lemma {:induction false} RightBytes(bigEndian: bool, mem: Memory, base: Word, data: Word, which: nat, k: nat, y: Word)
    requires base & 3 == 0 && which < 4 && k <= 4 && (bigEndian || which <= k)
    ensures ByteAt(bigEndian, StoreRightFrom(bigEndian, mem, base, data, which, k), y) ==
              if WordBase(y) == base && k <= LowBits(y) && (!bigEndian || LowBits(y) <= which)
              then SwrByte(bigEndian, data, which, LowBits(y)) & 0xFF
              else ByteAt(bigEndian, mem, y)
    decreases 4 - k
  {
    hide ByteAt, StoreByte, SwrByte, Nth, WordBase, LowBits;
    if k < 4 && (!bigEndian || k <= which) {
      var v := SwrByte(bigEndian, data, which, k);
      InWord(base, k);
      StoreByteAt(bigEndian, mem, Nth(base, k), v, y);
      RightBytes(bigEndian, StoreByte(bigEndian, mem, Nth(base, k), v), base, data, which, k + 1, y);
    }
  }

  lemma BaseAligned(a: Word)
    ensures WordBase(a) & 3 == 0
  {
  }

  lemma SwlLittle(data: Word, which: nat, k: nat)
    requires k <= which < 4
    ensures SwlByte(false, data, which, k) & 0xFF == ByteOf(false, data, k + 3 - which)
  {
    hide Down;
  }

  /** As coded, byte k of the word gets byte k of the register, wherever the
      access starts; an SWL that starts at byte `which` should store byte k - which. */
  lemma SwlBig(data: Word, which: nat, k: nat)
    requires which <= k < 4
    ensures SwlByte(true, data, which, k) & 0xFF == ByteOf(true, data, k)
  {
    hide Down;
  }

  lemma SwrLittle(data: Word, which: nat, k: nat)
    requires which <= k < 4
    ensures SwrByte(false, data, which, k) & 0xFF == ByteOf(false, data, k - which)
  {
    hide Down;
  }

  lemma SwrBig(data: Word, which: nat, k: nat)
    requires k <= which < 4
    ensures SwrByte(true, data, which, k) & 0xFF == ByteOf(true, data, k + 3 - which)
  {
    hide Down;
  }

  lemma StoreLeftAt(bigEndian: bool, mem: Memory, a: Word, data: Word, y: Word)
    ensures ByteAt(bigEndian, StoreLeft(bigEndian, mem, a, data), y) ==
              if WordBase(y) == WordBase(a) && bigEndian && LowBits(a) <= LowBits(y) then ByteOf(true, data, LowBits(y))
              else if WordBase(y) == WordBase(a) && !bigEndian && LowBits(y) <= LowBits(a)
              then ByteOf(false, data, LowBits(y) + 3 - LowBits(a))
              else ByteAt(bigEndian, mem, y)
  {
    hide ByteAt, ByteOf, WordBase, LowBits, StoreLeftFrom, SwlByte;
    BaseAligned(a);
    LeftBytes(bigEndian, mem, WordBase(a), data, LowBits(a), if bigEndian then LowBits(a) else 0, y);
    if bigEndian && LowBits(a) <= LowBits(y) { SwlBig(data, LowBits(a), LowBits(y)); }
    if !bigEndian && LowBits(y) <= LowBits(a) { SwlLittle(data, LowBits(a), LowBits(y)); }
  }

  lemma StoreRightAt(bigEndian: bool, mem: Memory, a: Word, data: Word, y: Word)
    ensures ByteAt(bigEndian, StoreRight(bigEndian, mem, a, data), y) ==
              if WordBase(y) == WordBase(a) && bigEndian && LowBits(y) <= LowBits(a)
              then ByteOf(true, data, LowBits(y) + 3 - LowBits(a))
              else if WordBase(y) == WordBase(a) && !bigEndian && LowBits(a) <= LowBits(y)
              then ByteOf(false, data, LowBits(y) - LowBits(a))
              else ByteAt(bigEndian, mem, y)
  {
    hide ByteAt, ByteOf, WordBase, LowBits, StoreRightFrom, SwrByte;
    BaseAligned(a);
    RightBytes(bigEndian, mem, WordBase(a), data, LowBits(a), if bigEndian then 0 else LowBits(a), y);
    if bigEndian && LowBits(y) <= LowBits(a) { SwrBig(data, LowBits(a), LowBits(y)); }
    if !bigEndian && LowBits(a) <= LowBits(y) { SwrLittle(data, LowBits(a), LowBits(y)); }
  }

  /** Memory after SWL then SWR of one register at unaligned address x. */
  function StorePair(bigEndian: bool, mem: Memory, x: Word, data: Word): Memory {
    StoreRight(bigEndian, StoreLeft(bigEndian, mem, LeftAddr(bigEndian, x), data), RightAddr(bigEndian, x), data)
  }

  /** Address of byte j of the unaligned word at x. */
  function Touched(x: Word, j: nat): Word
    requires j < 4
  {
    if j == 0 then x else if j == 1 then Plus(x, 1) else if j == 2 then Plus(x, 2) else Plus(x, 3)
  }

  lemma NextDiffers(x: Word)
    ensures NextBase(x) != WordBase(x)
  {
  }

  lemma TouchedPlace(x: Word, j: nat)
    requires j < 4
    ensures LowBits(Touched(x, j)) == (LowBits(x) + j) % 4
    ensures WordBase(Touched(x, j)) == if LowBits(x) + j <= 3 then WordBase(x) else NextBase(x)
  {
    hide LowBits, WordBase, Plus, NextBase;
    if j == 1 {
      PlacesAt(x, 1);
      LowCases(x, 1, 1);
      if LowBits(x) + 1 <= 3 { PlusNear(x, 1); } else { PlusFar(x, 1); }
    } else if j == 2 {
      PlacesAt(x, 2);
      LowCases(x, 2, 2);
      if LowBits(x) + 2 <= 3 { PlusNear(x, 2); } else { PlusFar(x, 2); }
    } else if j == 3 {
      PlacesAt(x, 3);
      LowCases(x, 3, 3);
      if LowBits(x) + 3 <= 3 { PlusNear(x, 3); } else { PlusFar(x, 3); }
    }
  }

  lemma SameAddress(a: Word, b: Word)
    requires WordBase(a) == WordBase(b) && LowBits(a) == LowBits(b)
    ensures a == b
  {
    hide LowBits;
    LowBitsIs(a);
    LowBitsIs(b);
  }

  /** What SWL then SWR leave in byte j: the register's byte j, except that a
      big-endian SWL at an unaligned address stores the wrong ones. */
  lemma PairWrites(bigEndian: bool, mem: Memory, x: Word, data: Word, j: nat)
    requires j < 4
    ensures ByteAt(bigEndian, StorePair(bigEndian, mem, x, data), Touched(x, j)) ==
              if bigEndian && 0 < LowBits(x) && LowBits(x) + j <= 3 then ByteOf(true, data, LowBits(x) + j)
              else ByteOf(bigEndian, data, j)
  {
    hide LowBits, WordBase, Plus, NextBase, ByteAt, ByteOf, StoreLeft, StoreRight;
    var left, right := LeftAddr(bigEndian, x), RightAddr(bigEndian, x);
    StoreRightAt(bigEndian, StoreLeft(bigEndian, mem, left, data), right, data, Touched(x, j));
    StoreLeftAt(bigEndian, mem, left, data, Touched(x, j));
    TouchedPlace(x, j);
    TouchedPlace(x, 3);
    NextDiffers(x);
  }

  lemma SpanAddress(x: Word, y: Word)
    requires (WordBase(y) == WordBase(x) && LowBits(x) <= LowBits(y))
             || (LowBits(x) > 0 && WordBase(y) == WordBase(Plus(x, 3)) && LowBits(y) < LowBits(x))
    ensures exists j: nat :: j < 4 && y == Touched(x, j)
  {
    hide LowBits, WordBase, Plus, NextBase, Touched;
    var j := if LowBits(x) <= LowBits(y) then LowBits(y) - LowBits(x) else LowBits(y) + 4 - LowBits(x);
    TouchedPlace(x, j);
    TouchedLast(x);
    TouchedPlace(x, 3);
    SameAddress(y, Touched(x, j));
  }

  lemma TouchedLast(x: Word)
    ensures Touched(x, 3) == Plus(x, 3)
  {
  }

  /** No byte outside the four is changed, at any address and in either order of bytes. */
  lemma PairKeeps(bigEndian: bool, mem: Memory, x: Word, data: Word, y: Word)
    requires forall j: nat :: j < 4 ==> y != Touched(x, j)
    ensures ByteAt(bigEndian, StorePair(bigEndian, mem, x, data), y) == ByteAt(bigEndian, mem, y)
  {
    hide LowBits, WordBase, Plus, NextBase, ByteAt, ByteOf, StoreLeft, StoreRight, Touched;
    var left, right := LeftAddr(bigEndian, x), RightAddr(bigEndian, x);
    StoreRightAt(bigEndian, StoreLeft(bigEndian, mem, left, data), right, data, y);
    StoreLeftAt(bigEndian, mem, left, data, y);
    TouchedLast(x);
    TouchedPlace(x, 3);
    if (WordBase(y) == WordBase(x) && LowBits(x) <= LowBits(y))
       || (LowBits(x) > 0 && WordBase(y) == WordBase(Plus(x, 3)) && LowBits(y) < LowBits(x)) {
      SpanAddress(x, y);
    }
  }

  lemma AssembleBig(data: Word)
    ensures Assemble(true, ByteOf(true, data, 0), ByteOf(true, data, 1), ByteOf(true, data, 2), ByteOf(true, data, 3)) == data
  {
  }

  lemma AssembleLittle(data: Word)
    ensures Assemble(false, ByteOf(false, data, 0), ByteOf(false, data, 1), ByteOf(false, data, 2), ByteOf(false, data, 3)) == data
  {
  }

  /** Store-then-load is the identity, for every register value, exactly when
      the byte order is little-endian or the address is aligned. */
  lemma StoreLoadPair(bigEndian: bool, mem: Memory, x: Word)
    ensures (forall data: Word :: UnalignedWord(bigEndian, StorePair(bigEndian, mem, x, data), x) == data)
            <==> (!bigEndian || LowBits(x) == 0)
  {
    hide LowBits, UnalignedWord, StorePair;
    if !bigEndian || LowBits(x) == 0 {
      forall data: Word
        ensures UnalignedWord(bigEndian, StorePair(bigEndian, mem, x, data), x) == data
      {
        StoredAndLoaded(bigEndian, mem, x, data);
      }
    } else {
      BigEndianLoss(mem, x);
      assert UnalignedWord(true, StorePair(true, mem, x, 0x01020304), x) != 0x01020304;
    }
  }

  lemma StoredAndLoaded(bigEndian: bool, mem: Memory, x: Word, data: Word)
    requires !bigEndian || LowBits(x) == 0
    ensures UnalignedWord(bigEndian, StorePair(bigEndian, mem, x, data), x) == data
  {
    hide LowBits, Plus, ByteAt, ByteOf, StorePair, Assemble;
    PairWrites(bigEndian, mem, x, data, 0);
    PairWrites(bigEndian, mem, x, data, 1);
    PairWrites(bigEndian, mem, x, data, 2);
    PairWrites(bigEndian, mem, x, data, 3);
    AssembleBig(data);
    AssembleLittle(data);
  }

  /** The value that shows the loss: its first byte comes back as its byte n. */
  lemma BigEndianLoss(mem: Memory, x: Word)
    requires LowBits(x) > 0
    ensures UnalignedWord(true, StorePair(true, mem, x, 0x01020304), x) != 0x01020304
  {
    hide LowBits, Plus, ByteAt, StorePair, Assemble, ByteOf;
    PairWrites(true, mem, x, 0x01020304, 0);
    LossBytes();
    var m := StorePair(true, mem, x, 0x01020304);
    FirstByte(ByteAt(true, m, x), ByteAt(true, m, Plus(x, 1)), ByteAt(true, m, Plus(x, 2)), ByteAt(true, m, Plus(x, 3)));
  }

  lemma LossBytes()
    ensures ByteOf(true, 0x01020304, 1) == 2 && ByteOf(true, 0x01020304, 2) == 3 && ByteOf(true, 0x01020304, 3) == 4
  {
  }

  lemma FirstByte(b0: Word, b1: Word, b2: Word, b3: Word)
    requires b0 == 2 || b0 == 3 || b0 == 4
    ensures Assemble(true, b0, b1, b2, b3) != 0x01020304
  {
  }
}
