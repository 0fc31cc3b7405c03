/** The MIPS I instruction word as the simulator decodes it: the field
    extractors of cpu.h, the constant operand tables of ISA.h and the
    arithmetic of the execute stage.  Register labels are numbers below 32;
    NONE_REG marks an absent operand, and a destination of 0 is absent too. */
module Isa {

  type Word = bv32

  const NONE_REG: nat := 32
  const RA_REG: nat := 31
  const NOP_INSTR: Word := 0

  datatype Exc = AdEL | RI | Ov | Sys | Bp | CpU

  // ---- instruction fields ----

  function Opcode(i: Word): Word { (i >> 26) & 0x3F }

  function Rs(i: Word): (r: nat) ensures r < 32 { ((i >> 21) & 0x1F) as int }

  function Rt(i: Word): (r: nat) ensures r < 32 { ((i >> 16) & 0x1F) as int }

  function Rd(i: Word): (r: nat) ensures r < 32 { ((i >> 11) & 0x1F) as int }

  function RtField(i: Word): Word { (i >> 16) & 0x1F }

  function Immed(i: Word): Word { i & 0xFFFF }

  function SignedImmed(i: Word): Word {
    if i & 0x8000 != 0 then (i & 0xFFFF) | 0xFFFF0000 else i & 0xFFFF
  }

  function Shamt(i: Word): Word { (i >> 6) & 0x1F }

  function Funct(i: Word): Word { i & 0x3F }

  function JumpTarg(i: Word): Word { i & 0x03FFFFFF }

  const OP_SPECIAL: Word := 0
  const OP_BCOND: Word := 1
  const OP_J: Word := 2
  const OP_JAL: Word := 3
  const OP_LWL: Word := 34
  const OP_LWR: Word := 38
  const OP_CACHE: Word := 47
  const FUNCT_JR: Word := 8
  const FUNCT_JALR: Word := 9
  const BCOND_BLTZ: Word := 0
  const BCOND_BGEZ: Word := 1
  const BCOND_BLTZAL: Word := 16
  const BCOND_BGEZAL: Word := 17

  // ---- reserved encodings (RI_flag, RI_special_flag, RI_cache_op_flag) ----

  predicate ReservedFunct(f: Word) {
    f == 1 || f == 5 || f == 10 || f == 11 || f == 14 || f == 15 || 20 <= f <= 23 || 28 <= f <= 31
    || f == 40 || f == 41 || 44 <= f
  }

  predicate ReservedCacheOp(op: Word) {
    op == 0 || op == 2 || op == 3 || 6 <= op <= 8 || 10 <= op <= 16
  }

  predicate ReservedOpcode(op: Word) {
    20 <= op <= 31 || op == 39 || op == 44 || op == 45 || 52 <= op <= 55 || 60 <= op
  }

  predicate IsReserved(i: Word) {
    var op := Opcode(i);
    if op == OP_SPECIAL then ReservedFunct(Funct(i))
    else ReservedOpcode(op) || (op == OP_CACHE && ReservedCacheOp(RtField(i)))
  }

  // ---- operand tables ----

  predicate IsCop(i: Word) { 16 <= Opcode(i) <= 19 }

  predicate IsLoad(i: Word) { 32 <= Opcode(i) <= 38 }

  predicate IsStore(i: Word) { 40 <= Opcode(i) <= 43 || Opcode(i) == 46 }

  predicate IsPartialLoad(i: Word) { Opcode(i) == OP_LWL || Opcode(i) == OP_LWR }

  predicate UsesShamt(i: Word) {
    Opcode(i) == OP_SPECIAL && (Funct(i) == 0 || Funct(i) == 2 || Funct(i) == 3)
  }

  predicate UsesSignedImm(i: Word) {
    var op := Opcode(i);
    op == OP_BCOND || 4 <= op <= 11 || 32 <= op <= 38 || 40 <= op <= 43 || op == 46
  }

  predicate UsesImm(i: Word) { 12 <= Opcode(i) <= 15 }

  /** HI/LO unit instructions (mul_div_flag). */
  predicate IsMulDiv(i: Word) {
    Opcode(i) == OP_SPECIAL && (16 <= Funct(i) <= 19 || 24 <= Funct(i) <= 27)
  }

  /** Cycles for which the HI/LO unit stays busy (mul_div_delay; absent keys read 0). */
  function MulDivDelay(f: Word): (d: nat) ensures d <= 9 {
    if f == 17 || f == 19 then 2
    else if f == 24 || f == 25 then 3
    else if f == 26 || f == 27 then 9
    else 0
  }

  function FirstSource(i: Word): (r: nat) ensures r <= NONE_REG {
    var op := Opcode(i);
    var f := Funct(i);
    if op == OP_SPECIAL then
      if f == 0 || 2 <= f <= 4 || f == 6 || f == 7 then Rt(i)
      else if f == 8 || f == 9 || 24 <= f <= 27 || 32 <= f <= 39 || f == 42 || f == 43 then Rs(i)
      else if f == 17 || f == 19 then Rd(i)
      else NONE_REG
    else if op == OP_BCOND then
      var t := RtField(i);
      if t == BCOND_BLTZ || t == BCOND_BGEZ || t == BCOND_BLTZAL || t == BCOND_BGEZAL then Rs(i) else NONE_REG
    else if IsCop(i) then
      if Rs(i) == 4 then Rt(i) else NONE_REG
    else if 4 <= op <= 14 || 32 <= op <= 38 || 40 <= op <= 43 || op == 46 || op == 47 then Rs(i)
    else NONE_REG
  }

  function SecondSource(i: Word): (r: nat) ensures r <= NONE_REG {
    var op := Opcode(i);
    var f := Funct(i);
    if op == OP_SPECIAL then
      if f == 4 || f == 6 || f == 7 then Rs(i)
      else if 24 <= f <= 27 || 32 <= f <= 39 || f == 42 || f == 43 then Rt(i)
      else NONE_REG
    else if op == 4 || op == 5 then Rt(i)
    else NONE_REG
  }

  function DestinationField(i: Word): (r: nat) ensures r <= NONE_REG {
    var op := Opcode(i);
    var f := Funct(i);
    if op == OP_SPECIAL then
      if f == 0 || 2 <= f <= 4 || f == 6 || f == 7 || f == 16 || f == 18 || 32 <= f <= 39 || f == 42 || f == 43 then Rd(i)
      else if f == FUNCT_JALR then RA_REG
      else NONE_REG
    else if op == OP_BCOND then
      if RtField(i) == BCOND_BLTZAL || RtField(i) == BCOND_BGEZAL then RA_REG else NONE_REG
    else if IsCop(i) then
      if Rs(i) == 0 then Rt(i) else NONE_REG
    else if op == OP_JAL then RA_REG
    else if 8 <= op <= 15 || 32 <= op <= 38 then Rt(i)
    else NONE_REG
  }

  /** A write to register 0 is no write at all. */
  function Destination(i: Word): (r: nat) ensures r <= NONE_REG && r != 0 {
    if DestinationField(i) == 0 then NONE_REG else DestinationField(i)
  }

  function ImmValue(i: Word): Word {
    if UsesImm(i) then Immed(i) else if UsesSignedImm(i) then SignedImmed(i) else 0
  }

  function ShamtValue(i: Word): Word { if UsesShamt(i) then Shamt(i) else 0 }

  // ---- execute stage arithmetic ----

  predicate Negative(w: Word) { w & 0x80000000 != 0 }

  /** Signed comparison of two's-complement words. */
  predicate SignedLess(a: Word, b: Word) { (a ^ 0x80000000) < (b ^ 0x80000000) }

  /** The low five bits of a shift amount. */
  function Amount(b: Word): (s: bv6)
    ensures s < 32
  {
    (b & 0x1F) as bv6
  }

  function Leftward(a: Word, s: bv6): Word
    requires s < 32
  {
    a << s
  }

  function ShiftLeft(a: Word, b: Word): Word { Leftward(a, Amount(b)) }

  function AllOnes(b: bv6): Word
    requires b <= 32
  {
    if b == 32 then 0xFFFFFFFF else (1 << b) - 1
  }

  /** Arithmetic shift by fewer than 32 places, as C++ does it on int32. */
  function HostShiftRight(a: Word, b: bv6): Word
    requires b < 32
  {
    if Negative(a) then (a >> b) | (AllOnes(b) << (32 - b)) else a >> b
  }

  /** The file-level srl: an arithmetic shift, then a mask. */
  function ShiftRightLogical(a: Word, b: Word): Word {
    var s := (b & 0x1F) as bv6;
    if s == 0 then a else HostShiftRight(a, s) & AllOnes(32 - s)
  }

  /** The file-level sra: an arithmetic shift, then the sign filled in once more. */
  function ShiftRightArithmetic(a: Word, b: Word): Word {
    var s := (b & 0x1F) as bv6;
    if s == 0 then a
    else HostShiftRight(a, s) | (if Negative(a) then AllOnes(s) << (32 - s) else 0)
  }

  predicate AddOverflows(a: Word, b: Word) {
    (Negative(a) && Negative(b) && !Negative(a + b)) || (!Negative(a) && !Negative(b) && Negative(a + b))
  }

  predicate SubOverflows(a: Word, b: Word) {
    (Negative(a) && !Negative(b) && !Negative(a - b)) || (!Negative(a) && Negative(b) && Negative(a - b))
  }

  predicate IsTrappingAdd(i: Word) { Opcode(i) == 8 || (Opcode(i) == OP_SPECIAL && Funct(i) == 32) }

  predicate IsTrappingSub(i: Word) { Opcode(i) == OP_SPECIAL && Funct(i) == 34 }

  /** The exceptions that the execute stage itself raises.  The coprocessor
      load and store entries sit one slot below their opcodes. */
  predicate ExecRaises(i: Word, a: Word, b: Word) {
    var op := Opcode(i);
    (IsTrappingAdd(i) && AddOverflows(a, b))
    || (IsTrappingSub(i) && SubOverflows(a, b))
    || (op == OP_SPECIAL && (Funct(i) == 12 || Funct(i) == 13))
    || 48 <= op <= 50 || 55 <= op <= 57
  }

  function ExecException(i: Word): Exc {
    if Opcode(i) == OP_SPECIAL && Funct(i) == 12 then Sys
    else if Opcode(i) == OP_SPECIAL && Funct(i) == 13 then Bp
    else if Opcode(i) >= 48 then CpU
    else Ov
  }

  function Sum(a: Word, b: Word): Word { a + b }

  function Difference(a: Word, b: Word): Word { a - b }

  function Both(a: Word, b: Word): Word { a & b }

  function Either(a: Word, b: Word): Word { a | b }

  function Differing(a: Word, b: Word): Word { a ^ b }

  function Inverse(a: Word): Word { !a }

  function Upper(a: Word): Word { a << 16 }

  /** The value the execute stage leaves in the result field, `old` being what
      it holds before (the link address, or 0). */
  function ExecResult(i: Word, a: Word, b: Word, old_: Word, hi: Word, lo: Word): Word {
    var op := Opcode(i);
    var f := Funct(i);
    if ExecRaises(i, a, b) then old_
    else if op == OP_SPECIAL then
      if f == 0 || f == 4 then ShiftLeft(a, b)
      else if f == 2 || f == 6 then ShiftRightLogical(a, b)
      else if f == 3 || f == 7 then ShiftRightArithmetic(a, b)
      else if f == 16 then hi
      else if f == 18 then lo
      else if f == 32 || f == 33 then Sum(a, b)
      else if f == 34 || f == 35 then Difference(a, b)
      else if f == 36 then Both(a, b)
      else if f == 37 then Either(a, b)
      else if f == 38 then Differing(a, b)
      else if f == 39 then Inverse(Either(a, b))
      else if f == 42 then (if SignedLess(a, b) then 1 else 0)
      else if f == 43 then (if a < b then 1 else 0)
      else old_
    else if op == 8 || op == 9 || 32 <= op <= 38 || 40 <= op <= 43 || op == 46 || op == 47 then Sum(a, b)
    else if op == 10 then (if SignedLess(a, b) then 1 else 0)
    else if op == 11 then (if a < b then 1 else 0)
    else if op == 12 then Both(a, b)
    else if op == 13 then Either(a, b)
    else if op == 14 then Differing(a, b)
    else if op == 15 then Upper(b)
    else old_
  }

  // ---- HI/LO unit ----

  predicate WritesHi(i: Word) { IsMulDiv(i) && (Funct(i) == 17 || Funct(i) >= 24) }

  predicate WritesLo(i: Word) { IsMulDiv(i) && (Funct(i) == 19 || Funct(i) >= 24) }

  function SignedValue(w: Word): int {
    if Negative(w) then (w as int) - 0x1_0000_0000 else w as int
  }

  /** The word that represents n modulo 2^32. */
  function ToWord(n: int): Word { (n % 0x1_0000_0000) as Word }

  /** C++ division truncates toward zero; a zero divisor is given result 0. */
  function TruncDiv(a: int, b: int): int {
    if b == 0 then 0
    else if (a < 0) == (b < 0) then (if a < 0 then (-a) / (-b) else a / b)
    else if a < 0 then -((-a) / b)
    else -(a / (-b))
  }

  function TruncMod(a: int, b: int): int { a - TruncDiv(a, b) * b }

  /** What the HI/LO unit will deliver to HI for instruction i. */
  function HiValue(i: Word, a: Word, b: Word): Word {
    var f := Funct(i);
    if f == 17 then a
    else if f == 24 then ToWord((SignedValue(a) * SignedValue(b)) / 0x1_0000_0000)
    else if f == 25 then ToWord(((a as int) * (b as int)) / 0x1_0000_0000)
    else if f == 26 then ToWord(TruncMod(SignedValue(a), SignedValue(b)))
    else ToWord(TruncMod(a as int, b as int))
  }

  function LoValue(i: Word, a: Word, b: Word): Word {
    var f := Funct(i);
    if f == 19 then a
    else if f == 24 then ToWord(SignedValue(a) * SignedValue(b))
    else if f == 25 then ToWord((a as int) * (b as int))
    else if f == 26 then ToWord(TruncDiv(SignedValue(a), SignedValue(b)))
    else ToWord(TruncDiv(a as int, b as int))
  }

  // ---- control transfer in the decode stage ----

  predicate IsLink(i: Word) {
    var op := Opcode(i);
    op == OP_JAL || (op == OP_SPECIAL && Funct(i) == FUNCT_JALR)
    || (op == OP_BCOND && (RtField(i) == BCOND_BLTZAL || RtField(i) == BCOND_BGEZAL))
  }

  /** Does instruction i, with operands a and b, redirect the fetch? */
  predicate Taken(i: Word, a: Word, b: Word) {
    var op := Opcode(i);
    if op == OP_SPECIAL then Funct(i) == FUNCT_JR || Funct(i) == FUNCT_JALR
    else if op == OP_BCOND then
      ((RtField(i) == BCOND_BLTZ || RtField(i) == BCOND_BLTZAL) && Negative(a))
      || ((RtField(i) == BCOND_BGEZ || RtField(i) == BCOND_BGEZAL) && !Negative(a))
    else if op == OP_J || op == OP_JAL then true
    else if op == 4 then a == b
    else if op == 5 then a != b
    else if op == 6 then a == 0 || Negative(a)
    else if op == 7 then a != 0 && !Negative(a)
    else false
  }

  /** The 256 MB region of the delay slot. */
  function Region(pc: Word): Word { (pc + 4) & 0xF0000000 }

  /** The jump routine's expression: the 4 is taken from the index alone. */
  function JoinLess4(region: Word, index: Word): Word { region | ((index << 2) - 4) }

  /** A branch relative to its delay slot, and one relative to itself. */
  function FromSlot(pc: Word, d: Word): Word { pc + 4 + (d << 2) }

  function FromBranch(pc: Word, d: Word): Word { pc + (d << 2) }

  function Preceding(a: Word): Word { a - 4 }

  /** The value a taken transfer gives to pc; the step adds 4 to it afterwards.
      JALR is dispatched to the jump-and-link routine, and the subtraction in
      the jump routine binds tighter than the bitwise or. */
  function RedirectPc(i: Word, pc: Word, a: Word, imm: Word): Word {
    var op := Opcode(i);
    if op == OP_SPECIAL && Funct(i) == FUNCT_JR then Preceding(a)
    else if op == OP_SPECIAL || op == OP_J || op == OP_JAL then JoinLess4(Region(pc), JumpTarg(i))
    else if op == OP_BCOND && RtField(i) == BCOND_BLTZAL then FromSlot(pc, imm)
    else FromBranch(pc, imm)
  }

  /** The address of the next instruction in line. */
  function Following(pc: Word): Word { pc + 4 }

  function LinkValue(i: Word, pc: Word): Word { if IsLink(i) then pc + 8 else 0 }

  // ---- memory as the data cache presents it ----

  /** The address of an aligned word. */
  datatype WordAddr = WordAddr(base: Word)

  /** Words by address; an address never written reads 0. */
  type Memory = map<WordAddr, Word>

  function WordBase(addr: Word): Word { addr & 0xFFFFFFFC }

  function Cell(addr: Word): WordAddr { WordAddr(WordBase(addr)) }

  function WordAt(mem: Memory, addr: Word): Word {
    var w := Cell(addr);
    if w in mem then mem[w] else 0
  }

  function Lane(bigEndian: bool, addr: Word): (l: bv6)
    ensures l <= 24
  {
    var n := (addr & 3) as bv6;
    (if bigEndian then 3 - n else n) << 3
  }

  function HalfLane(bigEndian: bool, addr: Word): (l: bv6)
    ensures l == 0 || l == 16
  {
    var n := ((addr >> 1) & 1) as bv6;
    (if bigEndian then 1 - n else n) << 4
  }

  /** The halfword of w at bit l. */
  function HalfAt(w: Word, l: bv6): Word
    requires l <= 16
  {
    (w >> l) & 0xFFFF
  }

  function ByteAt(bigEndian: bool, mem: Memory, addr: Word): Word {
    (WordAt(mem, addr) >> Lane(bigEndian, addr)) & 0xFF
  }

  /** The byte of w at bit l replaced by the low byte of v. */
  function SetByte(w: Word, l: bv6, v: Word): Word
    requires l <= 24
  {
    (w & !(0xFF << l)) | ((v & 0xFF) << l)
  }

  function StoreByte(bigEndian: bool, mem: Memory, addr: Word, data: Word): Memory {
    mem[Cell(addr) := SetByte(WordAt(mem, addr), Lane(bigEndian, addr), data)]
  }

  /** w with the halfword at bit l replaced. */
  function HalfSet(w: Word, l: bv6, v: Word): Word
    requires l <= 16
  {
    (w & !(0xFFFF << l)) | ((v & 0xFFFF) << l)
  }

  function StoreHalf(bigEndian: bool, mem: Memory, addr: Word, data: Word): Memory {
    mem[Cell(addr) := HalfSet(WordAt(mem, addr), HalfLane(bigEndian, addr), data)]
  }

  function LowBits(addr: Word): (n: nat) ensures n < 4 { (addr & 3) as int }

  /** The register shifted right by n bytes. */
  function Down(data: Word, n: nat): Word
    requires n < 4
  {
    if n == 0 then data else if n == 1 then data >> 8 else if n == 2 then data >> 16 else data >> 24
  }

  /** The byte of `data` that SWL stores into byte k of the addressed word. */
  function SwlByte(bigEndian: bool, data: Word, which: nat, k: nat): Word
    requires which < 4 && k < 4
    requires bigEndian || k <= which
  {
    Down(data, if bigEndian then 3 - k else k + 3 - which)
  }

  /** The byte of `data` that SWR stores into byte k of the addressed word. */
  function SwrByte(bigEndian: bool, data: Word, which: nat, k: nat): Word
    requires which < 4 && k < 4
    requires if bigEndian then k <= which else which <= k
  {
    Down(data, if bigEndian then which - k else k - which)
  }

  /** The address of byte k of the word at base. */
  function Nth(base: Word, k: nat): Word
    requires k < 4
  {
    base + k as Word
  }

  /** The store-byte loop of SWL, from byte k on. */
  function StoreLeftFrom(bigEndian: bool, mem: Memory, base: Word, data: Word, which: nat, k: nat): Memory
    requires which < 4 && k <= 4
    decreases 4 - k
  {
    if k == 4 || (!bigEndian && k > which) then mem
    else StoreLeftFrom(bigEndian, StoreByte(bigEndian, mem, Nth(base, k), SwlByte(bigEndian, data, which, k)),
                       base, data, which, k + 1)
  }

  /** The store-byte loop of SWR, from byte k on. */
  function StoreRightFrom(bigEndian: bool, mem: Memory, base: Word, data: Word, which: nat, k: nat): Memory
    requires which < 4 && k <= 4 && (bigEndian || which <= k)
    decreases 4 - k
  {
    if k == 4 || (bigEndian && k > which) then mem
    else StoreRightFrom(bigEndian, StoreByte(bigEndian, mem, Nth(base, k), SwrByte(bigEndian, data, which, k)),
                        base, data, which, k + 1)
  }

  function StoreLeft(bigEndian: bool, mem: Memory, addr: Word, data: Word): Memory {
    var which := LowBits(addr);
    StoreLeftFrom(bigEndian, mem, WordBase(addr), data, which, if bigEndian then which else 0)
  }

  function StoreRight(bigEndian: bool, mem: Memory, addr: Word, data: Word): Memory {
    var which := LowBits(addr);
    StoreRightFrom(bigEndian, mem, WordBase(addr), data, which, if bigEndian then 0 else which)
  }

  /** Merge of a register with the addressed word for LWL. */
  function LoadLeft(bigEndian: bool, regval: Word, memval: Word, which: nat): Word
    requires which < 4
  {
    var n := if bigEndian then which else 3 - which;
    if n == 0 then memval
    else if n == 1 then ((memval & 0xFFFFFF) << 8) | (regval & 0xFF)
    else if n == 2 then ((memval & 0xFFFF) << 16) | (regval & 0xFFFF)
    else ((memval & 0xFF) << 24) | (regval & 0xFFFFFF)
  }

  /** Merge of a register with the addressed word for LWR. */
  function LoadRight(bigEndian: bool, regval: Word, memval: Word, which: nat): Word
    requires which < 4
  {
    var n := if bigEndian then which else 3 - which;
    if n == 0 then (regval & 0xFFFFFF00) | ((memval & 0xFF000000) >> 24)
    else if n == 1 then (regval & 0xFFFF0000) | ((memval & 0xFFFF0000) >> 16)
    else if n == 2 then (regval & 0xFF000000) | ((memval & 0xFFFFFF00) >> 8)
    else memval
  }

  /** The alignment check made before the data access. */
  predicate MemFault(i: Word, addr: Word) {
    var op := Opcode(i);
    ((op == 33 || op == 37 || op == 41) && addr & 1 != 0) || ((op == 35 || op == 43) && addr & 3 != 0)
  }

  function SignedByte(b: Word): Word { if b & 0x80 != 0 then b | 0xFFFFFF00 else b }

  function SignedHalf(h: Word): Word { if h & 0x8000 != 0 then h | 0xFFFF0000 else h }

  /** The finalized value of load instruction i. */
  function LoadValue(bigEndian: bool, i: Word, mem: Memory, addr: Word, prev: Word): Word {
    var op := Opcode(i);
    if op == 32 then
      SignedByte(ByteAt(bigEndian, mem, addr))
    else if op == 36 then ByteAt(bigEndian, mem, addr)
    else if op == 33 || op == 37 then
      var h := HalfAt(WordAt(mem, addr), HalfLane(bigEndian, addr));
      if op == 33 then SignedHalf(h) else h
    else if op == OP_LWL then LoadLeft(bigEndian, prev, WordAt(mem, addr), LowBits(addr))
    else if op == OP_LWR then LoadRight(bigEndian, prev, WordAt(mem, addr), LowBits(addr))
    else WordAt(mem, addr)
  }

  /** Memory after store instruction i. */
  function StoreEffect(bigEndian: bool, i: Word, mem: Memory, addr: Word, data: Word): Memory {
    var op := Opcode(i);
    if op == 40 then StoreByte(bigEndian, mem, addr, data)
    else if op == 41 then StoreHalf(bigEndian, mem, addr, data)
    else if op == 42 then StoreLeft(bigEndian, mem, addr, data)
    else if op == 46 then StoreRight(bigEndian, mem, addr, data)
    else mem[Cell(addr) := data]
  }
}
