/** What a node of the processing-element array computes, field by field of the
    graph: which predecessor an input comes from, in which order an operation
    gets its operands, and who keeps a node in the schedule. */
module PeArrayFacts {
  import opened Dataflow
  import opened PeArrayModel

  /** Which successor q makes use of p, kind by kind; a pipeline register passes
      the question on to the nodes behind it. */
  predicate Reads(g: Graph, q: nat, p: nat)
    requires q < |g| && NodeOk(g, q)
  {
    match g[q].kind
    case Mux(select) => g[q].preds[select] == Some(p)
    case Alu(opcode) => opcode != 0
    case StoreUnit => true
    case Preg(_) =>
      exists i :: 0 <= i < |g[q].succs| &&
        var c := g[g[q].succs[i]];
        (c.kind.Mux? && c.kind.select < |c.preds| && c.preds[c.kind.select] == Some(q))
        || (c.kind.Alu? && c.kind.opcode != 0) || c.kind.StoreUnit?
    case _ => false
  }

  lemma ReadsIsUse(g: Graph, q: nat, p: nat)
    requires q < |g| && NodeOk(g, q)
    ensures IsUse(g, q, p) <==> Reads(g, q, p)
  {
    if g[q].kind.Preg? {
      forall i | 0 <= i < |g[q].succs|
        ensures PlainUse(g[g[q].succs[i]], q) <==>
                  var c := g[g[q].succs[i]];
                  (c.kind.Mux? && c.kind.select < |c.preds| && c.preds[c.kind.select] == Some(q))
                  || (c.kind.Alu? && c.kind.opcode != 0) || c.kind.StoreUnit?
      {
      }
    }
  }

  lemma {:induction false} UseListMembers(g: Graph, p: nat, from: nat)
    requires p < |g| && from <= |g[p].succs| && forall q :: 0 <= q < |g| ==> NodeOk(g, q)
    ensures UseList(g, p, from) != [] <==> exists i :: from <= i < |g[p].succs| && g[p].succs[i] < |g| && Reads(g, g[p].succs[i], p)
    decreases |g[p].succs| - from
  {
    hide Reads, IsUse;
    if from < |g[p].succs| {
      assert NodeOk(g, p);
      ReadsIsUse(g, g[p].succs[from], p);
      UseListMembers(g, p, from + 1);
    }
  }

  /** A node is scheduled exactly when the sort takes it and some successor reads it. */
  lemma ScheduledIff(g: Graph, done: seq<nat>, p: nat)
    requires (forall q :: 0 <= q < |g| ==> NodeOk(g, q)) && GroundedRange(g, done) && p < |g|
    ensures p in Scheduled(g, done) <==>
              p in done && exists i :: 0 <= i < |g[p].succs| && g[p].succs[i] < |g| && Reads(g, g[p].succs[i], p)
  {
    hide Reads, NodeOk;
    ScheduledMember(g, done, p);
    UseListMembers(g, p, 0);
  }

  /** The predecessor behind the i-th input has been taken. */
  predicate InputTaken(c: Cell, i: nat, done: seq<nat>) { i < |c.preds| && c.preds[i].Some? && c.preds[i].node in done }

  /** Whom the sort takes, kind by kind: an operation other than no-operation, once
      both inputs are there; a selector, once the input it selects is there and that
      node stands at no other input of it; a pipeline register that is read, and a
      memory port, once their input is there; leaves at once. */
  lemma TakenMeans(g: Graph, done: seq<nat>, q: nat)
    requires Grounded(g, done) && Closed(g, done) && q < |g|
    ensures NodeOk(g, q)
    ensures q in done <==>
              match g[q].kind
              case Const(_) => true
              case LoadUnit => true
              case StoreUnit => InputTaken(g[q], 0, done)
              case Alu(opcode) => opcode != 0 && InputTaken(g[q], 0, done) && InputTaken(g[q], 1, done)
              case Mux(select) =>
                InputTaken(g[q], select, done)
                && forall i :: 0 <= i < |g[q].preds| && g[q].preds[i] == g[q].preds[select] ==> i == select
              case Preg(_) => Reads(g, q, 0) && InputTaken(g[q], 0, done)
  {
    hide Reads, Served;
    TakenIff(g, done, q);
    ReadsIsUse(g, q, 0);
    var needs := Needs(g, q);
    if g[q].kind.Mux? {
      OnceOnly(g[q].preds, g[q].kind.select);
      assert |needs| == 1 ==> needs[0] == g[q].preds[g[q].kind.select].node;
    } else if g[q].kind.Alu? {
      assert needs[0] == g[q].preds[0].node && needs[1] == g[q].preds[1].node;
    } else if |needs| == 1 {
      assert needs[0] == g[q].preds[0].node;
    }
  }

  /** An entry is found once exactly when no other place holds it. */
  lemma OnceOnly(s: seq<Link>, k: nat)
    requires k < |s|
    ensures multiset(s)[s[k]] >= 1
    ensures multiset(s)[s[k]] == 1 <==> forall i :: 0 <= i < |s| && s[i] == s[k] ==> i == k
  {
    var before, behind := multiset(s[..k]), multiset(s[k + 1..]);
    assert s == s[..k] + [s[k]] + s[k + 1..];
    assert multiset(s)[s[k]] == before[s[k]] + 1 + behind[s[k]];
    if before[s[k]] > 0 {
      assert s[k] in s[..k];
    }
    if behind[s[k]] > 0 {
      assert s[k] in s[k + 1..];
    }
    forall i | 0 <= i < |s| && s[i] == s[k] && i != k
      ensures before[s[k]] + behind[s[k]] > 0
    {
      if i < k {
        assert s[..k][i] in before;
      } else {
        assert s[k + 1..][i - k - 1] in behind;
      }
    }
  }

  /** The values of a solved array, node by node. */
  lemma NodeMeans(op: (nat, nat, nat) -> nat, g: Graph, done: seq<nat>, inp: Inputs, vals: seq<nat>, p: nat)
    requires Solves(op, g, done, inp, vals) && Grounded(g, done) && GroundedRange(g, done) && p < |g|
    ensures var k := g[p].kind;
            vals[p] ==
            if k.Const? || k.LoadUnit? then inp.front[p]
            else if k.StoreUnit? || p !in Scheduled(g, done) then 0
            else if k.Alu? then op(k.opcode, Operand(g[p], 0, vals), Operand(g[p], 1, vals))
            else if k.Mux? then Operand(g[p], k.select, vals)
            else if k.active then inp.latch[p]
            else Operand(g[p], 0, vals)
  {
    hide Uses, Grounded, Scheduled;
    assert NodeOk(g, p) && Equation(op, g, done, inp, vals, p);
    ScheduledMember(g, done, p);
    if p in Scheduled(g, done) {
      ScheduledPossible(g, done);
    }
  }

  /** Two's complement, given the weight of the sign. */
  function Signed(x: nat, sign: nat): int { if x < sign then x else x - 2 * sign }

  /** What the leaves hold: a constant its 17 bits sign extended to 25, a memory
      port the oldest entry of its buffer. */
  lemma FrontMeans(g: Graph, obuf: seq<seq<nat>>, q: nat)
    requires |g| == |obuf| && q < |g|
    ensures g[q].kind.Const? && g[q].kind.data < 0x2_0000 ==>
              FrontsOf(g, obuf)[q] < 0x200_0000 && Signed(FrontsOf(g, obuf)[q], 0x100_0000) == Signed(g[q].kind.data, 0x1_0000)
    ensures !g[q].kind.Const? && obuf[q] != [] ==> FrontsOf(g, obuf)[q] == obuf[q][0]
  {
    assert FrontsOf(g, obuf)[q] == ReadBuffer(g[q].kind, obuf[q]);
  }
}
