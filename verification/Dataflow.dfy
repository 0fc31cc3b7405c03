/** The data-flow graph of the processing-element array: which nodes can be
    scheduled, and what a scheduled array computes. */
module Dataflow {

  /** A connection that may be missing (NULL). */
  datatype Link = None | Some(node: nat)

  datatype Kind =
    | Mux(select: nat)
    | Alu(opcode: nat)
    | Preg(active: bool)
    | Const(data: nat)
    | LoadUnit
    | StoreUnit

  /** A node with its two lists of neighbours, in the order of the connect calls. */
  datatype Cell = Cell(kind: Kind, preds: seq<Link>, succs: seq<nat>)

  type Graph = seq<Cell>

  predicate NodeOk(g: Graph, q: nat)
    requires q < |g|
  {
    var n := |g[q].preds|;
    && (forall i :: 0 <= i < n && g[q].preds[i].Some? ==> g[q].preds[i].node < |g|)
    && (forall i :: 0 <= i < |g[q].succs| ==> g[q].succs[i] < |g|)
    && match g[q].kind
       case Mux(select) => select < n
       case Alu(_) => n == 2 && g[q].preds[0].Some? && g[q].preds[1].Some?
       case Preg(_) => n == 1 && g[q].preds[0].Some? && forall i :: 0 <= i < |g[q].succs| ==> !g[g[q].succs[i]].kind.Preg?
       case StoreUnit => n == 1 && g[q].preds[0].Some? && g[q].succs == []
       case _ => n == 0
  }

  /** connect() enters both ends: q follows p as often as p precedes q. */
  ghost predicate Linked(g: Graph) {
    forall p, q :: 0 <= p < |g| && 0 <= q < |g| ==> multiset(g[p].succs)[q] == multiset(g[q].preds)[Some(p)]
  }

  ghost predicate GraphOk(g: Graph) {
    && (forall q :: 0 <= q < |g| ==> NodeOk(g, q))
    && Linked(g)
  }

  // ---- uses ----

  /** isUse for every kind but a pipeline register */
  predicate PlainUse(c: Cell, p: nat) {
    match c.kind
    case Mux(select) => select < |c.preds| && c.preds[select] == Some(p)
    case Alu(opcode) => opcode != 0
    case StoreUnit => true
    case _ => false
  }

  /** A pipeline register is in use when one of its successors uses it. */
  predicate IsUse(g: Graph, q: nat, p: nat)
    requires q < |g| && NodeOk(g, q)
  {
    if g[q].kind.Preg? then exists i :: 0 <= i < |g[q].succs| && PlainUse(g[g[q].succs[i]], q)
    else PlainUse(g[q], p)
  }

  /** use_successors */
  function UseList(g: Graph, p: nat, from: nat): (r: seq<nat>)
    requires p < |g| && from <= |g[p].succs| && forall q :: 0 <= q < |g| ==> NodeOk(g, q)
    ensures forall i :: 0 <= i < |r| ==> r[i] < |g|
    decreases |g[p].succs| - from
  {
    if from == |g[p].succs| then []
    else
      assert NodeOk(g, p);
      var q := g[p].succs[from];
      (if IsUse(g, q, p) then [q] else []) + UseList(g, p, from + 1)
  }

  function Uses(g: Graph, p: nat): (r: seq<nat>)
    requires p < |g| && forall q :: 0 <= q < |g| ==> NodeOk(g, q)
    ensures forall i :: 0 <= i < |r| ==> r[i] < |g|
  {
    UseList(g, p, 0)
  }

  /** in_degree() */
  function InDegree(k: Kind): nat {
    match k
    case Alu(_) => 2
    case Const(_) => 0
    case LoadUnit => 0
    case _ => 1
  }

  /** The nodes whose results q reads. */
  function Needs(g: Graph, q: nat): (r: seq<nat>)
    requires q < |g| && NodeOk(g, q)
    ensures forall i :: 0 <= i < |r| ==> r[i] < |g|
  {
    var c := g[q];
    match c.kind
    case Mux(select) => if c.preds[select].Some? then [c.preds[select].node] else []
    case Alu(_) => [c.preds[0].node, c.preds[1].node]
    case Preg(_) => [c.preds[0].node]
    case StoreUnit => [c.preds[0].node]
    case _ => []
  }

  /** A node that somebody may use, connected where it has to be. */
  predicate Wanted(g: Graph, q: nat)
    requires q < |g| && NodeOk(g, q)
  {
    match g[q].kind
    case Alu(opcode) => opcode != 0
    case Preg(_) => IsUse(g, q, 0)
    case _ => |Needs(g, q)| == InDegree(g[q].kind)
  }

  /** How often q is wired to p. */
  function Wires(g: Graph, q: nat, p: nat): nat
    requires q < |g|
  {
    multiset(g[q].preds)[Some(p)]
  }

  /** A selector wired more than once to the node it selects. */
  predicate Doubled(g: Graph, q: nat)
    requires q < |g| && NodeOk(g, q)
  {
    g[q].kind.Mux? && |Needs(g, q)| == 1 && Wires(g, q, Needs(g, q)[0]) >= 2
  }

  /** A node whose counter can ever stand at zero. */
  predicate Possible(g: Graph, q: nat)
    requires q < |g| && NodeOk(g, q)
  {
    Wanted(g, q) && !Doubled(g, q)
  }

  /** Who reads p stands in its use list. */
  lemma UseMeansNeed(g: Graph, p: nat, q: nat)
    requires GraphOk(g) && p < |g| && q < |g| && Some(p) in g[q].preds
    ensures IsUse(g, q, p) <==> Wanted(g, q) && p in Needs(g, q)
  {
    assert NodeOk(g, q);
    var i :| 0 <= i < |g[q].preds| && g[q].preds[i] == Some(p);
  }

  lemma UseListStep(g: Graph, p: nat, from: nat)
    requires p < |g| && from < |g[p].succs| && forall k :: 0 <= k < |g| ==> NodeOk(g, k)
    ensures g[p].succs[from] < |g|
    ensures UseList(g, p, from) == (if IsUse(g, g[p].succs[from], p) then [g[p].succs[from]] else []) + UseList(g, p, from + 1)
  {
    hide IsUse;
    assert NodeOk(g, p);
  }

  lemma {:induction false} UseListCount(g: Graph, p: nat, from: nat, q: nat)
    requires p < |g| && q < |g| && from <= |g[p].succs| && forall k :: 0 <= k < |g| ==> NodeOk(g, k)
    ensures multiset(UseList(g, p, from))[q] == if IsUse(g, q, p) then multiset(g[p].succs[from..])[q] else 0
    decreases |g[p].succs| - from
  {
    hide NodeOk, IsUse;
    if from == |g[p].succs| {
      assert g[p].succs[from..] == [];
    } else {
      hide UseList;
      var s := g[p].succs[from];
      UseListStep(g, p, from);
      UseListCount(g, p, from + 1, q);
      assert g[p].succs[from..] == [s] + g[p].succs[from + 1..];
      var head := if IsUse(g, s, p) then [s] else [];
      assert multiset(head + UseList(g, p, from + 1)) == multiset(head) + multiset(UseList(g, p, from + 1));
      assert multiset([s] + g[p].succs[from + 1..]) == multiset{s} + multiset(g[p].succs[from + 1..]);
    }
  }

  /** q stands in the use list of p as often as it is wired to p, when p is one of
      its needs, and not at all otherwise. */
  lemma UseCount(g: Graph, p: nat, q: nat)
    requires GraphOk(g) && p < |g| && q < |g|
    ensures multiset(Uses(g, p))[q] == if Wanted(g, q) && p in Needs(g, q) then Wires(g, q, p) else 0
  {
    hide NodeOk, Wanted, IsUse;
    UseListCount(g, p, 0, q);
    assert g[p].succs[0..] == g[p].succs;
    if Some(p) in g[q].preds {
      UseMeansNeed(g, p, q);
    } else {
      NeedsArePreds(g, q, p);
    }
  }

  lemma NeedsArePreds(g: Graph, q: nat, p: nat)
    requires q < |g| && NodeOk(g, q)
    ensures p in Needs(g, q) ==> Some(p) in g[q].preds
  {
  }

  // ---- resolution ----

  /** All that q reads has been dealt with. */
  predicate Served(g: Graph, q: nat, done: seq<nat>)
    requires q < |g| && NodeOk(g, q)
  {
    Possible(g, q) && forall i :: 0 <= i < |Needs(g, q)| ==> Needs(g, q)[i] in done
  }

  /** Nodes in an order in which each comes behind all that it reads. */
  ghost predicate Grounded(g: Graph, done: seq<nat>) {
    && (forall q :: 0 <= q < |g| ==> NodeOk(g, q))
    && (forall i :: 0 <= i < |done| ==> done[i] < |g| && done[i] !in done[..i] && Served(g, done[i], done[..i]))
  }

  /** Nothing more can be added. */
  ghost predicate Closed(g: Graph, done: seq<nat>) {
    && (forall q :: 0 <= q < |g| ==> NodeOk(g, q))
    && (forall q :: 0 <= q < |g| && Served(g, q, done) ==> q in done)
  }

  /** Two resolutions of a graph resolve the same nodes. */
  lemma {:induction false} ResolutionIncluded(g: Graph, a: seq<nat>, b: seq<nat>, n: nat)
    requires Grounded(g, a) && Closed(g, b) && n <= |a|
    ensures forall i :: 0 <= i < n ==> a[i] in b
  {
    hide Possible, Needs, NodeOk;
    if n > 0 {
      ResolutionIncluded(g, a, b, n - 1);
      assert Served(g, a[n - 1], a[..n - 1]);
      assert Served(g, a[n - 1], b);
    }
  }

  lemma ResolutionUnique(g: Graph, a: seq<nat>, b: seq<nat>, p: nat)
    requires Grounded(g, a) && Closed(g, a) && Grounded(g, b) && Closed(g, b)
    ensures p in a <==> p in b
  {
    ResolutionIncluded(g, a, b, |a|);
    ResolutionIncluded(g, b, a, |b|);
  }

  /** The counter of q when the nodes in done have been dealt with.  A doubled
      selector drops from 1 past 0. */
  function Unserved(g: Graph, q: nat, done: seq<nat>): (n: int)
    requires q < |g| && NodeOk(g, q)
  {
    var needs := Needs(g, q);
    if !Wanted(g, q) then InDegree(g[q].kind)
    else if Doubled(g, q) then if needs[0] in done then 1 - Wires(g, q, needs[0]) else 1
    else (if |needs| > 0 && needs[0] !in done then 1 else 0) + (if |needs| > 1 && needs[1] !in done then 1 else 0)
  }

  lemma UnservedZero(g: Graph, q: nat, done: seq<nat>)
    requires q < |g| && NodeOk(g, q)
    ensures Unserved(g, q, done) == 0 <==> Served(g, q, done)
  {
    hide IsUse;
  }

  lemma UnservedStart(g: Graph, q: nat)
    requires q < |g| && NodeOk(g, q)
    ensures Unserved(g, q, []) == InDegree(g[q].kind)
  {
    hide IsUse;
  }

  /** An arithmetic unit is wired to its two operands, which may be one node, and
      a register or a memory port to one. */
  lemma WiresAre(g: Graph, q: nat, p: nat)
    requires q < |g| && NodeOk(g, q)
    ensures g[q].kind.Alu? ==> Wires(g, q, p) == (if Needs(g, q)[0] == p then 1 else 0) + (if Needs(g, q)[1] == p then 1 else 0)
    ensures g[q].kind.Preg? || g[q].kind.StoreUnit? ==> Wires(g, q, p) == if Needs(g, q)[0] == p then 1 else 0
    ensures p in Needs(g, q) ==> Wires(g, q, p) >= 1
  {
    var preds := g[q].preds;
    if |preds| == 2 { assert preds == [preds[0], preds[1]]; }
    if |preds| == 1 { assert preds == [preds[0]]; }
    NeedsArePreds(g, q, p);
    if Some(p) in preds { assert Some(p) in multiset(preds); }
  }

  /** Dealing with p lowers every counter by the occurrences in its use list. */
  lemma UnservedStep(g: Graph, q: nat, done: seq<nat>, p: nat)
    requires GraphOk(g) && q < |g| && p < |g| && p !in done
    ensures Unserved(g, q, done + [p]) == Unserved(g, q, done) - multiset(Uses(g, p))[q]
  {
    hide Uses, IsUse, Wires;
    UseCount(g, p, q);
    WiresAre(g, q, p);
    assert NodeOk(g, q);
  }

  /** Exactly when a counter runs below zero: a selector is wired more than once to
      the node it selects, and that node has been dealt with. */
  lemma NegativeIff(g: Graph, q: nat, done: seq<nat>)
    requires q < |g| && NodeOk(g, q)
    ensures Unserved(g, q, done) < 0 <==> Doubled(g, q) && Needs(g, q)[0] in done
  {
    hide IsUse;
  }

  /** The same, said of the use lists: no counter is below zero if and only if no
      node stands in the use list of a node dealt with more often than its
      in-degree allows. */
  lemma CountersHoldIff(g: Graph, done: seq<nat>)
    requires GraphOk(g) && forall i :: 0 <= i < |done| ==> done[i] < |g|
    ensures (forall q :: 0 <= q < |g| ==> NodeOk(g, q) && Unserved(g, q, done) >= 0) <==>
            (forall q, i :: 0 <= q < |g| && 0 <= i < |done| ==> multiset(Uses(g, done[i]))[q] <= InDegree(g[q].kind))
  {
    hide Uses, Unserved, Wires, IsUse, Needs, NodeOk, Doubled;
    assert forall q :: 0 <= q < |g| ==> NodeOk(g, q);
    forall q, i | 0 <= q < |g| && 0 <= i < |done|
      ensures multiset(Uses(g, done[i]))[q] <= InDegree(g[q].kind) <==> !(Doubled(g, q) && Needs(g, q) == [done[i]])
    {
      UseCount(g, done[i], q);
      Overused(g, q, done[i]);
    }
    forall q | 0 <= q < |g|
      ensures Unserved(g, q, done) < 0 <==> exists i :: 0 <= i < |done| && Doubled(g, q) && Needs(g, q) == [done[i]]
    {
      NegativeIff(g, q, done);
      DoubledNeed(g, q);
      if Doubled(g, q) && Needs(g, q)[0] in done {
        var i :| 0 <= i < |done| && done[i] == Needs(g, q)[0];
        assert Needs(g, q) == [done[i]];
      }
    }
  }

  lemma DoubledNeed(g: Graph, q: nat)
    requires q < |g| && NodeOk(g, q)
    ensures Doubled(g, q) ==> |Needs(g, q)| == 1
  {
  }

  lemma Overused(g: Graph, q: nat, p: nat)
    requires q < |g| && NodeOk(g, q)
    ensures (if Wanted(g, q) && p in Needs(g, q) then Wires(g, q, p) else 0) <= InDegree(g[q].kind)
            <==> !(Doubled(g, q) && Needs(g, q) == [p])
  {
    hide IsUse, Wires;
    WiresAre(g, q, p);
  }

  /** What the sort should take and what it does: a node is taken if and only if it
      is wanted, all that it reads is taken, and it is not a doubled selector. */
  lemma TakenIff(g: Graph, done: seq<nat>, q: nat)
    requires Grounded(g, done) && Closed(g, done) && q < |g|
    ensures q in done <==> Wanted(g, q) && (forall i :: 0 <= i < |Needs(g, q)| ==> Needs(g, q)[i] in done) && !Doubled(g, q)
  {
    hide Wanted, Doubled, Needs, NodeOk;
    if q in done {
      var i :| 0 <= i < |done| && done[i] == q;
      assert Served(g, q, done[..i]);
    }
  }

  /** Who has been dealt with stands in no use list of a node still to come. */
  lemma DoneUnused(g: Graph, done: seq<nat>, q: nat, p: nat)
    requires GraphOk(g) && Grounded(g, done) && q in done && p < |g| && p !in done
    ensures q < |g| && multiset(Uses(g, p))[q] == 0
  {
    hide Wanted, Doubled, Needs, NodeOk, Uses, Wires;
    var i :| 0 <= i < |done| && done[i] == q;
    assert Served(g, q, done[..i]);
    UseCount(g, p, q);
  }

  lemma GroundedExtend(g: Graph, done: seq<nat>, p: nat)
    requires Grounded(g, done) && p < |g| && p !in done && Unserved(g, p, done) == 0
    ensures Grounded(g, done + [p])
  {
    hide Possible, Needs, NodeOk, Unserved;
    UnservedZero(g, p, done);
    var d := done + [p];
    forall i | 0 <= i < |d|
      ensures d[i] < |g| && d[i] !in d[..i] && Served(g, d[i], d[..i])
    {
      assert d[..i] == done[..i];
      if i == |done| {
        assert done[..i] == done;
      }
    }
  }

  /** The least such graph: a selector wired twice to the only other node. */
  const TWICE: Graph := [Cell(LoadUnit, [], [1, 1]), Cell(Mux(0), [Some(0), Some(0)], [])]

  lemma TwiceLinked()
    ensures Linked(TWICE) && Wires(TWICE, 1, 0) == 2
  {
    assert multiset(TWICE[1].preds) == multiset{Some(0), Some(0)};
    assert multiset(TWICE[0].succs) == multiset{1, 1};
  }

  lemma TwiceOk()
    ensures NodeOk(TWICE, 0) && NodeOk(TWICE, 1) && Needs(TWICE, 0) == [] && Needs(TWICE, 1) == [0]
  {
  }

  /** From 1 its counter drops to -1, and it is never taken. */
  lemma DoubledLink()
    ensures GraphOk(TWICE) && Doubled(TWICE, 1) && Grounded(TWICE, [0]) && Closed(TWICE, [0]) && Unserved(TWICE, 1, [0]) == -1
  {
    TwiceOk();
    TwiceLinked();
    hide Wires, Needs, Linked, NodeOk;
  }
}
