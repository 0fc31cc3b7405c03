/** Loads and stores of the reference, byte by byte. */
module MemoryFacts {
  import opened Isa
  import opened Sequential
  import opened UnalignedAccess
  import opened InstructionFacts
  import opened ControlFacts

  // ---- memory as bytes ----

  /** The address of the word that holds address x. */
  function Base(x: Word): Word { x & 0xFFFF_FFFC }

  /** The word that holds address x; what was never written reads 0. */
  function Holding(mem: Memory, x: Word): Word {
    var k := WordAddr(Base(x));
    if k in mem then mem[k] else 0
  }

  /** Byte n of a word, the lowest first. */
  function Piece(w: Word, n: Word): Word {
    if n == 0 then w & 0xFF else if n == 1 then (w >> 8) & 0xFF else if n == 2 then (w >> 16) & 0xFF else (w >> 24) & 0xFF
  }

  /** Which piece of its word the byte at address x is. */
  function Place(bigEndian: bool, x: Word): Word { if bigEndian then 3 - (x & 3) else x & 3 }

  function Next(x: Word): Word { x + 1 }

  /** The byte at address x: the lowest address has the low byte of its word in a
      little-endian machine, and the high byte in a big-endian one. */
  function Byte(bigEndian: bool, mem: Memory, x: Word): Word {
    Piece(Holding(mem, x), Place(bigEndian, x))
  }

  /** The halfword at an even address, from its two bytes. */
  function Half(bigEndian: bool, mem: Memory, x: Word): Word {
    var first, second := Byte(bigEndian, mem, x), Byte(bigEndian, mem, Next(x));
    if bigEndian then (first << 8) | second else (second << 8) | first
  }

  lemma HoldingIs(mem: Memory, x: Word)
    ensures Holding(mem, x) == WordAt(mem, x)
  {
  }

  lemma PieceIs(bigEndian: bool, w: Word, x: Word)
    ensures Piece(w, Place(bigEndian, x)) == ByteOf(bigEndian, w, LowBits(x))
  {
    hide LowBits;
    LowBitsIs(x);
  }

  lemma ByteIs(bigEndian: bool, mem: Memory, x: Word)
    ensures Byte(bigEndian, mem, x) == ByteAt(bigEndian, mem, x)
  {
    hide ByteAt, WordAt, Holding, Piece, ByteOf, LowBits;
    HoldingIs(mem, x);
    PieceIs(bigEndian, Holding(mem, x), x);
    ByteAtIs(bigEndian, mem, x);
  }

  /** v has the low bits of w, the rest filled with bit `top`. */
  ghost predicate Extends(v: Word, w: Word, top: bv6)
    requires top < 32
  {
    forall k: bv6 :: k < 32 ==> (Bit(v, k) <==> Bit(w, if k < top then k else top))
  }

  // ---- loads ----

  predicate IsPlainLoad(i: Word) { 32 <= Opcode(i) <= 33 || 35 <= Opcode(i) <= 37 }

  /** LB, LH, LW, LBU and LHU at address x. */
  ghost predicate LoadResult(bigEndian: bool, op: Word, v: Word, mem: Memory, x: Word) {
    && (op == 32 ==> Extends(v, Byte(bigEndian, mem, x), 7))
    && (op == 36 ==> v == Byte(bigEndian, mem, x))
    && (op == 33 && x & 1 == 0 ==> Extends(v, Half(bigEndian, mem, x), 15))
    && (op == 37 && x & 1 == 0 ==> v == Half(bigEndian, mem, x))
    && (op == 35 ==> v == Holding(mem, x))
  }

  lemma SignedByteBit(b: Word, k: bv6)
    requires k < 32 && b <= 0xFF
    ensures Bit(SignedByte(b), k) <==> Bit(b, if k < 7 then k else 7)
  {
  }

  lemma SignedHalfBit(h: Word, k: bv6)
    requires k < 32 && h <= 0xFFFF
    ensures Bit(SignedHalf(h), k) <==> Bit(h, if k < 15 then k else 15)
  {
  }

  lemma SignedByteIs(b: Word)
    requires b <= 0xFF
    ensures Extends(SignedByte(b), b, 7)
  {
    hide Bit, SignedByte;
    forall k: bv6 | k < 32
      ensures Bit(SignedByte(b), k) <==> Bit(b, if k < 7 then k else 7)
    {
      SignedByteBit(b, k);
    }
  }

  lemma SignedHalfIs(h: Word)
    requires h <= 0xFFFF
    ensures Extends(SignedHalf(h), h, 15)
  {
    hide Bit, SignedHalf;
    forall k: bv6 | k < 32
      ensures Bit(SignedHalf(h), k) <==> Bit(h, if k < 15 then k else 15)
    {
      SignedHalfBit(h, k);
    }
  }

  lemma PieceBound(w: Word, n: Word)
    ensures Piece(w, n) <= 0xFF
  {
  }

  lemma HalfBound(bigEndian: bool, mem: Memory, x: Word)
    ensures Half(bigEndian, mem, x) <= 0xFFFF
  {
    hide Holding, Piece;
    PieceBound(Holding(mem, x), Place(bigEndian, x));
    PieceBound(Holding(mem, Next(x)), Place(bigEndian, Next(x)));
    Joined(Byte(bigEndian, mem, x), Byte(bigEndian, mem, Next(x)));
    Joined(Byte(bigEndian, mem, Next(x)), Byte(bigEndian, mem, x));
  }

  lemma Joined(a: Word, b: Word)
    requires a <= 0xFF && b <= 0xFF
    ensures (a << 8) | b <= 0xFFFF
  {
  }

  /** An even address and the next share a word. */
  lemma SecondByte(bigEndian: bool, x: Word)
    requires x & 1 == 0
    ensures Base(Next(x)) == Base(x) && (x & 3 == 0 || x & 3 == 2)
    ensures x & 3 == 0 ==> Place(bigEndian, x) == (if bigEndian then 3 else 0) && Place(bigEndian, Next(x)) == if bigEndian then 2 else 1
    ensures x & 3 == 2 ==> Place(bigEndian, x) == (if bigEndian then 1 else 2) && Place(bigEndian, Next(x)) == if bigEndian then 0 else 3
  {
  }

  lemma HalfLaneIs(bigEndian: bool, x: Word)
    requires x & 1 == 0
    ensures x & 3 == 0 ==> HalfLane(bigEndian, x) == if bigEndian then 16 else 0
    ensures x & 3 == 2 ==> HalfLane(bigEndian, x) == if bigEndian then 0 else 16
  {
  }

  lemma HalfPieces(w: Word)
    ensures HalfAt(w, 0) == (Piece(w, 1) << 8) | Piece(w, 0)
    ensures HalfAt(w, 16) == (Piece(w, 3) << 8) | Piece(w, 2)
  {
  }

  lemma SameHolding(mem: Memory, x: Word, y: Word)
    requires Base(x) == Base(y)
    ensures Holding(mem, x) == Holding(mem, y)
  {
  }

  lemma HalfIs(bigEndian: bool, mem: Memory, x: Word)
    requires x & 1 == 0
    ensures Half(bigEndian, mem, x) == HalfAt(WordAt(mem, x), HalfLane(bigEndian, x))
  {
    hide Piece, HalfLane, WordAt, HalfAt, Holding, Place, Next, Base;
    HoldingIs(mem, x);
    SecondByte(bigEndian, x);
    SameHolding(mem, Next(x), x);
    HalfLaneIs(bigEndian, x);
    HalfPieces(WordAt(mem, x));
  }

  lemma PlainLoad(bigEndian: bool, i: Word, mem: Memory, x: Word, prev: Word)
    requires IsPlainLoad(i)
    ensures LoadResult(bigEndian, Opcode(i), LoadValue(bigEndian, i, mem, x, prev), mem, x)
  {
    hide Opcode, Piece, Holding, WordAt, ByteAt, HalfAt, HalfLane, Extends, SignedByte, SignedHalf, Byte, Half;
    ByteBound(bigEndian, mem, x);
    HalfBound(bigEndian, mem, x);
    HoldingIs(mem, x);
    ByteIs(bigEndian, mem, x);
    SignedByteIs(Byte(bigEndian, mem, x));
    if x & 1 == 0 { HalfIs(bigEndian, mem, x); }
    SignedHalfIs(Half(bigEndian, mem, x));
  }

  lemma ByteBound(bigEndian: bool, mem: Memory, x: Word)
    ensures Byte(bigEndian, mem, x) <= 0xFF
  {
    hide Piece, Holding;
    PieceBound(Holding(mem, x), Place(bigEndian, x));
  }

  lemma LoadReads(i: Word)
    requires 32 <= Opcode(i) <= 38
    ensures IsLoad(i) && !IsStore(i) && DestinationField(i) == Rt(i)
  {
    hide Opcode, Funct, Rs, Rt, Rd, RtField;
  }

  /** What every load does besides its value. */
  lemma LoadStep(env: Env, s: Arch)
    requires Runs(env, s) && 32 <= Opcode(Instr(env, s)) <= 38
    ensures var i, t := Instr(env, s), Step(env, s);
            && Onward(s, t) && OnlyRegisters(s, t)
            && Writes(s, t, Rt(i), LoadValue(env.bigEndian, i, s.mem, Address(s, i), s.regs[Rt(i)]))
  {
    hide Opcode, Rt, FirstSource, SecondSource, DestinationField, IsLoad, IsStore, WritesHi, WritesLo, Taken, Instr, Traps, LoadValue,
         Result, Address, OperandA, OperandB;
    var i := Instr(env, s);
    LoadReads(i);
    AccessReads(i);
    AccessAddress(env, s);
  }

  /** LB, LH, LW, LBU and LHU. */
  lemma LoadForm(env: Env, s: Arch)
    requires Runs(env, s) && IsPlainLoad(Instr(env, s))
    ensures var i, t := Instr(env, s), Step(env, s);
            && Onward(s, t) && OnlyRegisters(s, t)
            && exists v :: Writes(s, t, Rt(i), v) && LoadResult(env.bigEndian, Opcode(i), v, s.mem, Address(s, i))
  {
    hide Opcode, Rt, Instr, Traps, LoadValue, Address, Step, Onward, OnlyRegisters, Writes, LoadResult;
    var i := Instr(env, s);
    LoadStep(env, s);
    PlainLoad(env.bigEndian, i, s.mem, Address(s, i), s.regs[Rt(i)]);
  }

  /** LWL and LWR: the two halves of an unaligned load (see LoadPair). */
  lemma PartialLoadForm(env: Env, s: Arch, x: Word)
    requires Runs(env, s) && IsPartialLoad(Instr(env, s))
    requires var i := Instr(env, s); Address(s, i) == if Opcode(i) == 34 then LeftAddr(env.bigEndian, x) else RightAddr(env.bigEndian, x)
    ensures var i, t := Instr(env, s), Step(env, s);
            && Onward(s, t) && OnlyRegisters(s, t)
            && Writes(s, t, Rt(i), if Opcode(i) == 34 then LoadLeftAt(env.bigEndian, s.mem, x, s.regs[Rt(i)])
                                   else LoadRightAt(env.bigEndian, s.mem, x, s.regs[Rt(i)]))
  {
    hide Opcode, Rt, Instr, Traps, Address, Step, Onward, OnlyRegisters, Writes, LoadLeft, LoadRight, LeftAddr, RightAddr, LowBits, WordAt;
    LoadStep(env, s);
  }

  // ---- stores ----

  /** SB, SH and SW of register value v at address x, told for the byte at y. */
  predicate Stored(bigEndian: bool, op: Word, before: Memory, after: Memory, x: Word, v: Word, y: Word) {
    && (op == 40 ==> Byte(bigEndian, after, y) == if y == x then v & 0xFF else Byte(bigEndian, before, y))
    && (op == 41 && x & 1 == 0 ==>
          Byte(bigEndian, after, y) ==
            if y == x then (if bigEndian then (v >> 8) & 0xFF else v & 0xFF)
            else if y == Next(x) then (if bigEndian then v & 0xFF else (v >> 8) & 0xFF)
            else Byte(bigEndian, before, y))
    && (op == 43 && x & 3 == 0 ==> Holding(after, y) == if Base(y) == x then v else Holding(before, y))
  }

  lemma SameByte(x: Word, y: Word)
    ensures WordBase(y) == WordBase(x) && LowBits(y) == LowBits(x) <==> y == x
  {
    hide WordBase, LowBits;
    if WordBase(y) == WordBase(x) && LowBits(y) == LowBits(x) { SameAddress(y, x); }
  }

  lemma StoreByteForm(bigEndian: bool, mem: Memory, x: Word, v: Word, y: Word)
    ensures Stored(bigEndian, 40, mem, StoreByte(bigEndian, mem, x, v), x, v, y)
  {
    hide Byte, ByteAt, StoreByte, WordBase, LowBits;
    ByteIs(bigEndian, mem, y);
    ByteIs(bigEndian, StoreByte(bigEndian, mem, x, v), y);
    StoreByteAt(bigEndian, mem, x, v, y);
    SameByte(x, y);
  }

  lemma HalfSetLow(w: Word, v: Word)
    ensures Piece(HalfSet(w, 0, v), 0) == v & 0xFF && Piece(HalfSet(w, 0, v), 1) == (v >> 8) & 0xFF
  {
  }

  lemma HalfSetLowKeeps(w: Word, v: Word)
    ensures Piece(HalfSet(w, 0, v), 2) == Piece(w, 2) && Piece(HalfSet(w, 0, v), 3) == Piece(w, 3)
  {
  }

  lemma HalfSetHigh(w: Word, v: Word)
    ensures Piece(HalfSet(w, 16, v), 2) == v & 0xFF && Piece(HalfSet(w, 16, v), 3) == (v >> 8) & 0xFF
  {
  }

  lemma HalfSetHighKeeps(w: Word, v: Word)
    ensures Piece(HalfSet(w, 16, v), 0) == Piece(w, 0) && Piece(HalfSet(w, 16, v), 1) == Piece(w, 1)
  {
  }

  lemma BaseIs(x: Word)
    ensures Base(x) == WordBase(x)
  {
  }

  lemma HeldAfter(mem: Memory, x: Word, w: Word, y: Word)
    ensures Holding(mem[Cell(x) := w], y) == if Base(y) == Base(x) then w else Holding(mem, y)
  {
    hide Base, WordBase;
    BaseIs(x);
  }

  /** Places within one word tell addresses apart. */
  lemma Apart(bigEndian: bool, x: Word, y: Word)
    requires Base(y) == Base(x)
    ensures Place(bigEndian, y) == Place(bigEndian, x) <==> y == x
    ensures Place(bigEndian, y) <= 3
  {
  }

  lemma StoreHalfForm(bigEndian: bool, mem: Memory, x: Word, v: Word, y: Word)
    requires x & 1 == 0
    ensures Stored(bigEndian, 41, mem, StoreHalf(bigEndian, mem, x, v), x, v, y)
  {
    hide Piece, Place, Next, HalfLane, WordAt, HalfSet, Holding, Cell, Base;
    var w := WordAt(mem, x);
    HoldingIs(mem, x);
    SecondByte(bigEndian, x);
    HalfLaneIs(bigEndian, x);
    HeldAfter(mem, x, HalfSet(w, HalfLane(bigEndian, x), v), y);
    HalfSetLow(w, v);
    HalfSetLowKeeps(w, v);
    HalfSetHigh(w, v);
    HalfSetHighKeeps(w, v);
    if Base(y) == Base(x) {
      SameHolding(mem, y, x);
      Apart(bigEndian, x, y);
      Apart(bigEndian, Next(x), y);
    }
  }

  lemma AlignedBase(x: Word)
    requires x & 3 == 0
    ensures Base(x) == x
  {
  }

  lemma StoreWordForm(bigEndian: bool, mem: Memory, x: Word, v: Word, y: Word)
    requires x & 3 == 0
    ensures Stored(bigEndian, 43, mem, mem[Cell(x) := v], x, v, y)
  {
    hide Holding, Cell, Base;
    HeldAfter(mem, x, v, y);
    AlignedBase(x);
  }

  lemma StoreReads(i: Word)
    requires 40 <= Opcode(i) <= 43 || Opcode(i) == 46
    ensures IsStore(i) && !IsLoad(i) && DestinationField(i) == NONE_REG
  {
    hide Opcode, Funct, Rs, Rt, Rd, RtField;
  }

  /** What every store does: nothing but to memory. */
  lemma StoreStep(env: Env, s: Arch)
    requires Runs(env, s)
    requires var op := Opcode(Instr(env, s)); 40 <= op <= 43 || op == 46
    ensures var i, t := Instr(env, s), Step(env, s);
            && Onward(s, t) && t.regs == s.regs && t.hi == s.hi && t.lo == s.lo
            && t.mem == StoreEffect(env.bigEndian, i, s.mem, Address(s, i), s.regs[Rt(i)])
  {
    hide Opcode, Rt, FirstSource, SecondSource, DestinationField, IsLoad, IsStore, WritesHi, WritesLo, Taken, Instr, Traps, StoreEffect,
         Result, Address, OperandA, OperandB, Value;
    var i := Instr(env, s);
    StoreReads(i);
    AccessReads(i);
    AccessAddress(env, s);
  }

  lemma NoFault(env: Env, s: Arch)
    requires Runs(env, s) && 40 <= Opcode(Instr(env, s)) <= 43
    ensures var i := Instr(env, s);
            (Opcode(i) == 41 ==> Address(s, i) & 1 == 0) && (Opcode(i) == 43 ==> Address(s, i) & 3 == 0)
  {
    hide Opcode, Instr, Address, Result, ExecTraps;
    MisalignedIff(env, s);
  }

  /** SB, SH and SW: the bytes at the address, and no other byte. */
  lemma StoreForm(env: Env, s: Arch, y: Word)
    requires Runs(env, s)
    requires var op := Opcode(Instr(env, s)); op == 40 || op == 41 || op == 43
    ensures var i, t := Instr(env, s), Step(env, s);
            && Onward(s, t) && t.regs == s.regs && t.hi == s.hi && t.lo == s.lo
            && Stored(env.bigEndian, Opcode(i), s.mem, t.mem, Address(s, i), s.regs[Rt(i)], y)
  {
    hide Opcode, Rt, Instr, Traps, Address, Step, Onward, Stored, StoreByte, StoreHalf, Cell;
    var i := Instr(env, s);
    var x, v := Address(s, i), s.regs[Rt(i)];
    StoreStep(env, s);
    NoFault(env, s);
    if Opcode(i) == 40 {
      StoreByteForm(env.bigEndian, s.mem, x, v, y);
    } else if Opcode(i) == 41 {
      StoreHalfForm(env.bigEndian, s.mem, x, v, y);
    } else {
      StoreWordForm(env.bigEndian, s.mem, x, v, y);
    }
  }

  /** SWL and SWR: the two halves of an unaligned store (see PairWrites). */
  lemma PartialStoreForm(env: Env, s: Arch)
    requires Runs(env, s)
    requires var op := Opcode(Instr(env, s)); op == 42 || op == 46
    ensures var i, t := Instr(env, s), Step(env, s);
            && Onward(s, t) && t.regs == s.regs && t.hi == s.hi && t.lo == s.lo
            && t.mem == (if Opcode(i) == 42 then StoreLeft(env.bigEndian, s.mem, Address(s, i), s.regs[Rt(i)])
                         else StoreRight(env.bigEndian, s.mem, Address(s, i), s.regs[Rt(i)]))
  {
    hide Opcode, Rt, Instr, Traps, Address, Step, Onward, StoreLeft, StoreRight;
    StoreStep(env, s);
  }
}
