/** Flits, and the packing of acknowledgement counts and packet heads into them. */
module Flits {

  type Bits = bv32

  const VCH_SIZE: nat := 8
  const ACK_ENTRY: nat := 4
  const ACK_COUNT_MAX: nat := 15
  const ACK_VCH: nat := 0

  datatype Ftype = FIdle | FHead | FTail | FHeadTail | FData | FReserved | FAck1 | FAck2

  datatype Flit = Flit(ftype: Ftype, data: Bits)

  /** A flit on a link, with its virtual channel. */
  datatype Entry = Entry(flit: Flit, vch: nat)

  predicate IsAck(f: Flit) { f.ftype == FAck1 || f.ftype == FAck2 }

  predicate IsTail(f: Flit) { f.ftype == FTail || f.ftype == FHeadTail }

  predicate IsHead(f: Flit) { f.ftype == FHead || f.ftype == FHeadTail }

  // ---- acknowledgement counts ----

  function Min(a: nat, b: nat): nat { if a < b then a else b }

  /** One count cut to its field: a larger count sends the largest value. */
  function Field(count: nat): (b: Bits)
    ensures b <= 15
  {
    Min(count, ACK_COUNT_MAX) as Bits
  }

  function Pack(b0: Bits, b1: Bits, b2: Bits, b3: Bits): Bits { b0 | (b1 << 4) | (b2 << 8) | (b3 << 12) }

  /** make_ack_flit. */
  function MakeAck(ftype: Ftype, counts: seq<nat>): Flit
    requires |counts| == ACK_ENTRY
  {
    Flit(ftype, Pack(Field(counts[0]), Field(counts[1]), Field(counts[2]), Field(counts[3])))
  }

  function FieldOf(data: Bits, k: nat): Bits
    requires k < ACK_ENTRY
  {
    if k == 0 then data & 15 else if k == 1 then (data >> 4) & 15 else if k == 2 then (data >> 8) & 15 else (data >> 12) & 15
  }

  /** decode_ack: the count for channel v. */
  function DecodeAck(f: Flit, v: nat): nat
    requires v < VCH_SIZE
  {
    var offset := if f.ftype == FAck2 then ACK_ENTRY else 0;
    if offset <= v < offset + ACK_ENTRY then FieldOf(f.data, v - offset) as int else 0
  }

  lemma PackFields0(b0: Bits, b1: Bits, b2: Bits, b3: Bits)
    requires b0 <= 15 && b1 <= 15 && b2 <= 15 && b3 <= 15
    ensures Pack(b0, b1, b2, b3) & 15 == b0
  {
  }

  lemma PackFields1(b0: Bits, b1: Bits, b2: Bits, b3: Bits)
    requires b0 <= 15 && b1 <= 15 && b2 <= 15 && b3 <= 15
    ensures (Pack(b0, b1, b2, b3) >> 4) & 15 == b1
  {
  }

  lemma PackFields2(b0: Bits, b1: Bits, b2: Bits, b3: Bits)
    requires b0 <= 15 && b1 <= 15 && b2 <= 15 && b3 <= 15
    ensures (Pack(b0, b1, b2, b3) >> 8) & 15 == b2
  {
  }

  lemma PackFields3(b0: Bits, b1: Bits, b2: Bits, b3: Bits)
    requires b0 <= 15 && b1 <= 15 && b2 <= 15 && b3 <= 15
    ensures (Pack(b0, b1, b2, b3) >> 12) & 15 == b3
  {
  }

  lemma FieldValue(count: nat)
    ensures Field(count) as int == Min(count, ACK_COUNT_MAX)
  {
  }

  lemma PackedField(b0: Bits, b1: Bits, b2: Bits, b3: Bits, k: nat)
    requires b0 <= 15 && b1 <= 15 && b2 <= 15 && b3 <= 15 && k < ACK_ENTRY
    ensures FieldOf(Pack(b0, b1, b2, b3), k) == [b0, b1, b2, b3][k]
  {
    hide Pack;
    PackFields0(b0, b1, b2, b3);
    PackFields1(b0, b1, b2, b3);
    PackFields2(b0, b1, b2, b3);
    PackFields3(b0, b1, b2, b3);
  }

  /** Decoding an encoded acknowledgement returns the counts, each cut to 15; an
      ACK1 flit speaks of channels 0 to 3, an ACK2 flit of channels 4 to 7. */
  lemma AckRoundTrip(ftype: Ftype, counts: seq<nat>, v: nat)
    requires |counts| == ACK_ENTRY && v < VCH_SIZE && (ftype == FAck1 || ftype == FAck2)
    ensures var offset := if ftype == FAck2 then ACK_ENTRY else 0;
            DecodeAck(MakeAck(ftype, counts), v) ==
              if offset <= v < offset + ACK_ENTRY then Min(counts[v - offset], ACK_COUNT_MAX) else 0
  {
    hide Pack, FieldOf, Field;
    var offset := if ftype == FAck2 then ACK_ENTRY else 0;
    if offset <= v < offset + ACK_ENTRY {
      PackedField(Field(counts[0]), Field(counts[1]), Field(counts[2]), Field(counts[3]), v - offset);
      FieldValue(counts[v - offset]);
    }
  }

  // ---- packet heads ----

  /** make_head_flit; mtype, vch, src and dst are masked to their fields. */
  function MakeHead(addr: Bits, mtype: Bits, vch: Bits, src: Bits, dst: Bits, tail: bool): Flit {
    Flit(if tail then FHeadTail else FHead,
         (addr << 10) + ((mtype << 7) & 0x380) + ((src << 2) & 0xC) + ((vch << 4) & 0x70) + (dst & 0x3))
  }

  function HeadAddr(f: Flit): Bits { f.data >> 10 }

  function HeadMtype(f: Flit): Bits { (f.data & 0x380) >> 7 }

  function HeadVch(f: Flit): Bits { (f.data & 0x70) >> 4 }

  function HeadSrc(f: Flit): Bits { (f.data & 0xC) >> 2 }

  function HeadDst(f: Flit): Bits { f.data & 0x3 }

  function HeadBits(addr: Bits, mtype: Bits, vch: Bits, src: Bits, dst: Bits): Bits {
    (addr << 10) | ((mtype & 7) << 7) | ((vch & 7) << 4) | ((src & 3) << 2) | (dst & 3)
  }

  lemma SumIsUnion(a: Bits, m: Bits, v: Bits, s: Bits, d: Bits)
    ensures (a << 10) + ((m << 7) & 0x380) + ((s << 2) & 0xC) + ((v << 4) & 0x70) + (d & 0x3) == HeadBits(a, m, v, s, d)
  {
  }

  lemma HeadFields(a: Bits, m: Bits, v: Bits, s: Bits, d: Bits)
    ensures (HeadBits(a, m, v, s, d) & 0x380) >> 7 == m & 7
    ensures (HeadBits(a, m, v, s, d) & 0x70) >> 4 == v & 7
    ensures (HeadBits(a, m, v, s, d) & 0xC) >> 2 == s & 3
    ensures HeadBits(a, m, v, s, d) & 0x3 == d & 3
  {
  }

  lemma HeadAddress(a: Bits, m: Bits, v: Bits, s: Bits, d: Bits)
    ensures HeadBits(a, m, v, s, d) >> 10 == a & 0x3FFFFF
  {
  }

  /** A head flit gives back every field, each cut to its width. */
  lemma HeadRoundTrip(addr: Bits, mtype: Bits, vch: Bits, src: Bits, dst: Bits, tail: bool)
    ensures var f := MakeHead(addr, mtype, vch, src, dst, tail);
            && HeadAddr(f) == addr & 0x3FFFFF && HeadMtype(f) == mtype & 7 && HeadVch(f) == vch & 7
            && HeadSrc(f) == src & 3 && HeadDst(f) == dst & 3
  {
    hide HeadBits;
    SumIsUnion(addr, mtype, vch, src, dst);
    HeadFields(addr, mtype, vch, src, dst);
    HeadAddress(addr, mtype, vch, src, dst);
  }

  /** The layout of a head flit on the link: destination in the two lowest bits, then
      source, channel, message type and address. */
  lemma HeadLayout(addr: Bits, mtype: Bits, vch: Bits, src: Bits, dst: Bits, tail: bool)
    ensures var f := MakeHead(addr, mtype, vch, src, dst, tail);
            && f.ftype == (if tail then FHeadTail else FHead)
            && f.data == (addr << 10) | ((mtype & 7) << 7) | ((vch & 7) << 4) | ((src & 3) << 2) | (dst & 3)
  {
    SumIsUnion(addr, mtype, vch, src, dst);
  }

  /** The layout of an acknowledgement: one count in every four bits, the lowest
      channel lowest. */
  lemma AckLayout(ftype: Ftype, counts: seq<nat>)
    requires |counts| == ACK_ENTRY && forall k :: 0 <= k < ACK_ENTRY ==> counts[k] <= 15
    ensures MakeAck(ftype, counts).ftype == ftype
    ensures MakeAck(ftype, counts).data
         == (counts[0] as Bits) | ((counts[1] as Bits) << 4) | ((counts[2] as Bits) << 8) | ((counts[3] as Bits) << 12)
  {
  }
}
