/** Packets as sequences of flits, and the projections of buffers, links and
    histories onto one channel. */
module Packets {
  import opened Flits
  import opened Router

  /** s continues a packet of which k flits have gone by (0: between packets),
      and no packet is longer than packetMax flits. */
  predicate Legal(packetMax: int, s: seq<Flit>, k: nat) {
    if s == [] then k == 0 || k < packetMax
    else if k == 0 then
      if s[0].ftype == FHeadTail then packetMax >= 1 && Legal(packetMax, s[1..], 0)
      else s[0].ftype == FHead && packetMax > 1 && Legal(packetMax, s[1..], 1)
    else if s[0].ftype == FTail then k + 1 <= packetMax && Legal(packetMax, s[1..], 0)
    else s[0].ftype == FData && k + 1 < packetMax && Legal(packetMax, s[1..], k + 1)
  }

  /** How much of the last packet of s has gone by. */
  function After(s: seq<Flit>, k: nat): nat {
    if s == [] then k else After(s[1..], if IsTail(s[0]) then 0 else k + 1)
  }

  /** A legal stream can be cut anywhere. */
  lemma {:induction false} LegalCut(packetMax: int, a: seq<Flit>, b: seq<Flit>, k: nat)
    requires Legal(packetMax, a + b, k)
    ensures Legal(packetMax, b, After(a, k)) && After(a + b, k) == After(b, After(a, k))
  {
    if a == [] {
      assert a + b == b;
    } else {
      assert (a + b)[1..] == a[1..] + b;
      LegalCut(packetMax, a[1..], b, if IsTail(a[0]) then 0 else k + 1);
    }
  }

  lemma {:induction false} LegalPrefix(packetMax: int, a: seq<Flit>, b: seq<Flit>, k: nat)
    requires Legal(packetMax, a + b, k)
    ensures Legal(packetMax, a, k)
  {
    if a == [] {
      if b != [] { assert a + b == b; LegalStart(packetMax, b, k); } else { assert a + b == a; }
    } else {
      assert (a + b)[1..] == a[1..] + b;
      LegalPrefix(packetMax, a[1..], b, if IsTail(a[0]) then 0 else k + 1);
    }
  }

  lemma LegalStart(packetMax: int, b: seq<Flit>, k: nat)
    requires Legal(packetMax, b, k)
    ensures k == 0 || k < packetMax
  {
  }

  /** Two legal pieces that fit make a legal whole. */
  lemma {:induction false} LegalJoin(packetMax: int, a: seq<Flit>, b: seq<Flit>, k: nat)
    requires Legal(packetMax, a, k) && Legal(packetMax, b, After(a, k))
    ensures Legal(packetMax, a + b, k)
  {
    if a == [] {
      assert a + b == b;
    } else {
      assert (a + b)[1..] == a[1..] + b;
      LegalJoin(packetMax, a[1..], b, if IsTail(a[0]) then 0 else k + 1);
    }
  }

  lemma LegalOne(packetMax: int, f: Flit, rest: seq<Flit>, k: nat)
    requires Legal(packetMax, [f] + rest, k)
    ensures Legal(packetMax, [f], k) && After([f], k) == (if IsTail(f) then 0 else k + 1)
    ensures k < packetMax && (IsTail(f) || k + 1 < packetMax) && (k == 0 <==> IsHead(f))
  {
    assert ([f] + rest)[1..] == rest;
    assert [f][1..] == [];
    LegalStart(packetMax, rest, if IsTail(f) then 0 else k + 1);
  }

  // ---- projections ----

  /** The data flits of a buffer. */
  function DataOf(s: seq<Flit>): seq<Flit> {
    if s == [] then [] else (if IsAck(s[0]) then [] else [s[0]]) + DataOf(s[1..])
  }

  /** The data flits of channel v among link entries. */
  function WireOf(w: seq<Entry>, v: nat): seq<Flit> {
    if w == [] then [] else (if !IsAck(w[0].flit) && w[0].vch == v then [w[0].flit] else []) + WireOf(w[1..], v)
  }

  /** What crossed from channel v of input p. */
  function LogFrom(log: seq<Sent>, p: nat, v: nat): seq<Flit> {
    if log == [] then []
    else
      var e := log[|log| - 1];
      LogFrom(log[..|log| - 1], p, v) + (if e.from == p && e.vch == v then [e.flit] else [])
  }

  /** What crossed to output q on channel v. */
  function LogTo(log: seq<Sent>, q: nat, v: nat): seq<Flit> {
    if log == [] then []
    else
      var e := log[|log| - 1];
      LogTo(log[..|log| - 1], q, v) + (if e.to == q && e.vch == v then [e.flit] else [])
  }

  lemma LogMore(log: seq<Sent>, e: Sent, k: nat, v: nat)
    ensures LogFrom(log + [e], k, v) == LogFrom(log, k, v) + (if e.from == k && e.vch == v then [e.flit] else [])
    ensures LogTo(log + [e], k, v) == LogTo(log, k, v) + (if e.to == k && e.vch == v then [e.flit] else [])
  {
    assert (log + [e])[..|log|] == log;
  }

  lemma {:induction false} DataMore(s: seq<Flit>, f: Flit)
    ensures DataOf(s + [f]) == DataOf(s) + (if IsAck(f) then [] else [f])
  {
    if s == [] {
      assert s + [f] == [f] && [f][1..] == [];
    } else {
      assert (s + [f])[1..] == s[1..] + [f];
      DataMore(s[1..], f);
    }
  }

  lemma {:induction false} WireJoin(a: seq<Entry>, b: seq<Entry>, v: nat)
    ensures WireOf(a + b, v) == WireOf(a, v) + WireOf(b, v)
  {
    if a == [] {
      assert a + b == b;
    } else {
      assert (a + b)[1..] == a[1..] + b;
      WireJoin(a[1..], b, v);
    }
  }

  lemma WireOne(e: Entry, v: nat)
    ensures WireOf([e], v) == if !IsAck(e.flit) && e.vch == v then [e.flit] else []
  {
    assert [e][1..] == [];
  }
}
