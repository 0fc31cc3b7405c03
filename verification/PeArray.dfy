/** The processing-element array: topological sort of the configured graph and
    one evaluation of it. */
module PeArrayModel {
  import opened Dataflow

  const CMA_OP_SIZE: nat := 16

  // ---- the schedule ----

  /** The resolved nodes that somebody uses, in the same order. */
  function Scheduled(g: Graph, done: seq<nat>): seq<nat>
    requires forall q :: 0 <= q < |g| ==> NodeOk(g, q)
    requires forall i :: 0 <= i < |done| ==> done[i] < |g|
  {
    if done == [] then []
    else
      var p := done[|done| - 1];
      Scheduled(g, done[..|done| - 1]) + if Uses(g, p) != [] then [p] else []
  }

  /** `list` is a schedule of g, `done` the resolution behind it. */
  ghost predicate IsSchedule(g: Graph, done: seq<nat>, list: seq<nat>) {
    Grounded(g, done) && Closed(g, done) && GroundedRange(g, done) && list == Scheduled(g, done)
  }

  ghost predicate GroundedRange(g: Graph, done: seq<nat>) { forall i :: 0 <= i < |done| ==> done[i] < |g| }

  lemma {:induction false} ScheduledMember(g: Graph, done: seq<nat>, p: nat)
    requires forall q :: 0 <= q < |g| ==> NodeOk(g, q)
    requires forall i :: 0 <= i < |done| ==> done[i] < |g|
    ensures p in Scheduled(g, done) <==> p in done && Uses(g, p) != []
  {
    hide Uses, NodeOk;
    if done != [] {
      ScheduledMember(g, done[..|done| - 1], p);
      assert done == done[..|done| - 1] + [done[|done| - 1]];
    }
  }

  // ---- values ----

  /** What the leaves hold and what the pipeline registers have latched. */
  datatype Inputs = Inputs(front: seq<nat>, latch: seq<nat>)

  /** getData of a constant: 17 bits sign extended to 25. */
  function ConstValue(data: nat): nat { if data > 0xFFFF then 0x1FE_0000 + data % 0x2_0000 else data }

  /** getData */
  function ReadBuffer(k: Kind, buffer: seq<nat>): nat {
    if k.Const? then ConstValue(k.data) else if buffer == [] then 0 else buffer[0]
  }

  function FrontsOf(g: Graph, obuf: seq<seq<nat>>): (r: seq<nat>)
    requires |g| == |obuf|
    ensures |r| == |g|
  {
    seq(|g|, q requires 0 <= q < |g| => ReadBuffer(g[q].kind, obuf[q]))
  }

  /** What stands at the i-th input of a node, given the values of all nodes; an
      input that is not connected reads as zero here and is never used. */
  function Operand(c: Cell, i: nat, vals: seq<nat>): nat {
    if i < |c.preds| && c.preds[i].Some? && c.preds[i].node < |vals| then vals[c.preds[i].node] else 0
  }

  predicate Leaf(k: Kind) { k.Const? || k.LoadUnit? }

  predicate Computes(k: Kind) { k.Mux? || k.Alu? || k.Preg? }

  /** The result of a scheduled node from the results of the others. */
  function Eval(op: (nat, nat, nat) -> nat, g: Graph, p: nat, latch: seq<nat>, vals: seq<nat>): nat
    requires p < |g| == |vals| == |latch| && NodeOk(g, p) && Possible(g, p) && Computes(g[p].kind)
  {
    match g[p].kind
    case Alu(opcode) => op(opcode, vals[Needs(g, p)[0]], vals[Needs(g, p)[1]])
    case Preg(active) => if active then latch[p] else vals[Needs(g, p)[0]]
    case Mux(_) => vals[Needs(g, p)[0]]
  }

  /** The node equations: leaves hold what they hold, scheduled nodes obey Eval,
      all others read as zero. */
  ghost predicate Solves(op: (nat, nat, nat) -> nat, g: Graph, done: seq<nat>, inp: Inputs, vals: seq<nat>) {
    && |vals| == |inp.front| == |inp.latch| == |g|
    && (forall p :: 0 <= p < |g| ==> NodeOk(g, p))
    && forall p :: 0 <= p < |g| ==> Equation(op, g, done, inp, vals, p)
  }

  ghost predicate Equation(op: (nat, nat, nat) -> nat, g: Graph, done: seq<nat>, inp: Inputs, vals: seq<nat>, p: nat)
    requires p < |g| == |vals| == |inp.front| == |inp.latch|
    requires forall q :: 0 <= q < |g| ==> NodeOk(g, q)
  {
    if Leaf(g[p].kind) then vals[p] == inp.front[p]
    else if Computes(g[p].kind) && p in done && Possible(g, p) && Uses(g, p) != [] then vals[p] == Eval(op, g, p, inp.latch, vals)
    else vals[p] == 0
  }

  /** The equations have one solution at most, whichever resolution they are
      written for. */
  lemma {:induction false} SolutionUnique(op: (nat, nat, nat) -> nat, g: Graph, a: seq<nat>, b: seq<nat>, inp: Inputs,
                                          x: seq<nat>, y: seq<nat>, n: nat)
    requires Grounded(g, a) && Closed(g, a) && Grounded(g, b) && Closed(g, b) && n <= |a|
    requires Solves(op, g, a, inp, x) && Solves(op, g, b, inp, y)
    ensures forall i :: 0 <= i < n ==> x[a[i]] == y[a[i]]
  {
    hide Uses, NodeOk, Possible, Needs, IsUse;
    if n > 0 {
      SolutionUnique(op, g, a, b, inp, x, y, n - 1);
      var p := a[n - 1];
      ResolutionUnique(g, a, b, p);
      assert Equation(op, g, a, inp, x, p) && Equation(op, g, b, inp, y, p);
      assert Served(g, p, a[..n - 1]);
      if Computes(g[p].kind) {
        EvalSame(op, g, p, inp.latch, x, y, a[..n - 1]);
      }
    }
  }

  lemma EvalSame(op: (nat, nat, nat) -> nat, g: Graph, p: nat, latch: seq<nat>, x: seq<nat>, y: seq<nat>, done: seq<nat>)
    requires p < |g| == |x| == |y| == |latch| && NodeOk(g, p) && Served(g, p, done)
    requires forall i :: 0 <= i < |done| ==> done[i] < |g| && x[done[i]] == y[done[i]]
    requires Computes(g[p].kind)
    ensures Eval(op, g, p, latch, x) == Eval(op, g, p, latch, y)
  {
  }

  lemma SolutionsEqual(op: (nat, nat, nat) -> nat, g: Graph, a: seq<nat>, b: seq<nat>, inp: Inputs, x: seq<nat>, y: seq<nat>)
    requires Grounded(g, a) && Closed(g, a) && Grounded(g, b) && Closed(g, b)
    requires Solves(op, g, a, inp, x) && Solves(op, g, b, inp, y)
    ensures x == y
  {
    hide Uses, NodeOk, Possible, Needs, IsUse, Eval;
    SolutionUnique(op, g, a, b, inp, x, y, |a|);
    forall p | 0 <= p < |g|
      ensures x[p] == y[p]
    {
      ResolutionUnique(g, a, b, p);
      assert Equation(op, g, a, inp, x, p) && Equation(op, g, b, inp, y, p);
      if p in a {
        var i :| 0 <= i < |a| && a[i] == p;
        assert x[a[i]] == y[a[i]];
      }
    }
  }

  /** Evaluating a list of nodes one after the other. */
  function Evaluate(op: (nat, nat, nat) -> nat, g: Graph, list: seq<nat>, latch: seq<nat>, vals: seq<nat>): (r: seq<nat>)
    requires |g| == |vals| == |latch| && forall q :: 0 <= q < |g| ==> NodeOk(g, q)
    requires forall i :: 0 <= i < |list| ==> list[i] < |g| && Possible(g, list[i])
    ensures |r| == |g|
    decreases |list|
  {
    if list == [] then vals
    else
      var before := Evaluate(op, g, list[..|list| - 1], latch, vals);
      var p := list[|list| - 1];
      if Computes(g[p].kind) then before[p := Eval(op, g, p, latch, before)] else before
  }

  /** What can be read before anything has been evaluated. */
  function Start(g: Graph, inp: Inputs): (r: seq<nat>)
    requires |inp.front| == |g|
    ensures |r| == |g|
  {
    seq(|g|, p requires 0 <= p < |g| => if Leaf(g[p].kind) then inp.front[p] else 0)
  }

  lemma {:induction false} ScheduledPossible(g: Graph, done: seq<nat>)
    requires Grounded(g, done)
    ensures GroundedRange(g, done)
    ensures forall i :: 0 <= i < |Scheduled(g, done)| ==> Scheduled(g, done)[i] < |g| && Possible(g, Scheduled(g, done)[i])
  {
    hide Uses, NodeOk, Possible, Needs;
    if done != [] {
      var n := |done| - 1;
      GroundedPrefix(g, done);
      ScheduledPossible(g, done[..n]);
      assert Served(g, done[n], done[..n]);
    }
  }

  lemma GroundedPrefix(g: Graph, done: seq<nat>)
    requires Grounded(g, done) && done != []
    ensures Grounded(g, done[..|done| - 1])
  {
    hide NodeOk, Served;
    var d := done[..|done| - 1];
    forall i | 0 <= i < |d|
      ensures d[i] < |g| && d[i] !in d[..i] && Served(g, d[i], d[..i])
    {
      assert d[..i] == done[..i];
    }
  }

  /** The values after evaluating the schedule of `done`. */
  ghost function Computed(op: (nat, nat, nat) -> nat, g: Graph, done: seq<nat>, inp: Inputs): (r: seq<nat>)
    requires Grounded(g, done) && |inp.front| == |inp.latch| == |g|
    ensures |r| == |g|
  {
    ScheduledPossible(g, done);
    Evaluate(op, g, Scheduled(g, done), inp.latch, Start(g, inp))
  }

  ghost predicate Fired(g: Graph, done: seq<nat>, p: nat)
    requires p < |g| && forall q :: 0 <= q < |g| ==> NodeOk(g, q)
  {
    Computes(g[p].kind) && p in done && Possible(g, p) && Uses(g, p) != []
  }

  lemma ComputedStep(op: (nat, nat, nat) -> nat, g: Graph, done: seq<nat>, inp: Inputs)
    requires Grounded(g, done) && done != [] && |inp.front| == |inp.latch| == |g|
    ensures Grounded(g, done[..|done| - 1]) && Possible(g, done[|done| - 1])
    ensures var p := done[|done| - 1];
            var before := Computed(op, g, done[..|done| - 1], inp);
            Computed(op, g, done, inp)
              == if Uses(g, p) != [] && Computes(g[p].kind) then before[p := Eval(op, g, p, inp.latch, before)] else before
  {
    hide Uses, NodeOk, Possible, Eval, Start, Needs;
    var n := |done| - 1;
    GroundedPrefix(g, done);
    ScheduledPossible(g, done);
    ScheduledPossible(g, done[..n]);
    assert Served(g, done[n], done[..n]);
    var list, before := Scheduled(g, done), Scheduled(g, done[..n]);
    if Uses(g, done[n]) != [] {
      assert list == before + [done[n]];
      assert list[..|list| - 1] == before;
    } else {
      assert list == before;
    }
  }

  /** Evaluating a schedule solves the equations of everything evaluated so far. */
  lemma {:induction false} ComputedSolves(op: (nat, nat, nat) -> nat, g: Graph, done: seq<nat>, inp: Inputs)
    requires Grounded(g, done) && |inp.front| == |inp.latch| == |g|
    ensures Solves(op, g, done, inp, Computed(op, g, done, inp))
    decreases |done|
  {
    hide Uses, NodeOk, Possible, Needs, Eval, Computed;
    var vals := Computed(op, g, done, inp);
    if done == [] {
      ComputedNothing(op, g, inp);
    } else {
      var n := |done| - 1;
      var p := done[n];
      ComputedStep(op, g, done, inp);
      var before := Computed(op, g, done[..n], inp);
      ComputedSolves(op, g, done[..n], inp);
      assert done == done[..n] + [p];
      forall q | 0 <= q < |g|
        ensures Equation(op, g, done, inp, vals, q)
      {
        assert Equation(op, g, done[..n], inp, before, q);
        if Fired(g, done, q) {
          NeedsEarlier(g, done, q);
          KeepsValue(op, g, done, inp, before, vals, q);
        }
      }
    }
  }

  lemma ComputedNothing(op: (nat, nat, nat) -> nat, g: Graph, inp: Inputs)
    requires (forall q :: 0 <= q < |g| ==> NodeOk(g, q)) && |inp.front| == |inp.latch| == |g|
    ensures Grounded(g, []) && Computed(op, g, [], inp) == Start(g, inp)
  {
  }

  /** Whoever has fired reads only what came before it, so not the last one. */
  lemma NeedsEarlier(g: Graph, done: seq<nat>, q: nat)
    requires Grounded(g, done) && q in done && done != []
    ensures q < |g|
    ensures forall i :: 0 <= i < |Needs(g, q)| ==> Needs(g, q)[i] in done[..|done| - 1]
  {
    hide NodeOk, Possible, Needs;
    var k :| 0 <= k < |done| && done[k] == q;
    assert Served(g, q, done[..k]);
    assert done[..|done| - 1][..k] == done[..k];
  }

  lemma KeepsValue(op: (nat, nat, nat) -> nat, g: Graph, done: seq<nat>, inp: Inputs, before: seq<nat>, vals: seq<nat>, q: nat)
    requires Grounded(g, done) && done != [] && q < |g| == |before| == |vals| == |inp.latch|
    requires Possible(g, q) && Computes(g[q].kind)
    requires forall i :: 0 <= i < |Needs(g, q)| ==> Needs(g, q)[i] in done[..|done| - 1]
    requires forall r :: 0 <= r < |g| && r != done[|done| - 1] ==> vals[r] == before[r]
    ensures Eval(op, g, q, inp.latch, vals) == Eval(op, g, q, inp.latch, before)
  {
    hide IsUse, Served;
    var p := done[|done| - 1];
    assert p !in done[..|done| - 1];
    assert NodeOk(g, q) && |Needs(g, q)| > 0;
  }

  /** Every scheduled node stands in the list once ... */
  lemma {:induction false} ScheduleDistinct(g: Graph, done: seq<nat>)
    requires Grounded(g, done)
    ensures GroundedRange(g, done)
    ensures forall i, k :: 0 <= i < k < |Scheduled(g, done)| ==> Scheduled(g, done)[i] != Scheduled(g, done)[k]
    decreases |done|
  {
    hide Uses, NodeOk, Served;
    if done != [] {
      var n := |done| - 1;
      GroundedPrefix(g, done);
      ScheduleDistinct(g, done[..n]);
      AllFromDone(g, done[..n]);
    }
  }

  lemma AllFromDone(g: Graph, done: seq<nat>)
    requires Grounded(g, done)
    ensures GroundedRange(g, done)
    ensures forall i :: 0 <= i < |Scheduled(g, done)| ==> Scheduled(g, done)[i] in done
  {
    hide Uses, NodeOk, Served, Scheduled;
    assert GroundedRange(g, done);
    forall i | 0 <= i < |Scheduled(g, done)|
      ensures Scheduled(g, done)[i] in done
    {
      ScheduledMember(g, done, Scheduled(g, done)[i]);
    }
  }

  /** ... and behind all that it reads. */
  lemma {:induction false} ScheduleBehind(g: Graph, done: seq<nat>, i: nat, k: nat, need: nat)
    requires Grounded(g, done) && GroundedRange(g, done) && i <= k < |Scheduled(g, done)|
    requires Scheduled(g, done)[i] < |g| && need in Needs(g, Scheduled(g, done)[i])
    ensures Scheduled(g, done)[k] != need
    decreases |done|
  {
    hide Uses, NodeOk, Possible, Needs;
    var n := |done| - 1;
    var p := done[n];
    GroundedPrefix(g, done);
    var before := Scheduled(g, done[..n]);
    AllFromDone(g, done[..n]);
    assert p !in done[..n];
    if k < |before| {
      ScheduleBehind(g, done[..n], i, k, need);
    } else if i < |before| {
      NeedsDone(g, done[..n], before[i]);
    } else {
      assert Served(g, p, done[..n]);
    }
  }

  lemma NeedsDone(g: Graph, done: seq<nat>, q: nat)
    requires Grounded(g, done) && q in done
    ensures q < |g| && forall j :: 0 <= j < |Needs(g, q)| ==> Needs(g, q)[j] in done
  {
    hide NodeOk, Possible, Needs;
    var k :| 0 <= k < |done| && done[k] == q;
    assert Served(g, q, done[..k]);
  }

  /** The order in which the map is walked does not matter: whatever schedules two
      arrays arrive at, they compute the same values. */
  lemma OrderIndependent(op: (nat, nat, nat) -> nat, g: Graph, a: seq<nat>, b: seq<nat>, inp: Inputs)
    requires Grounded(g, a) && Closed(g, a) && Grounded(g, b) && Closed(g, b) && |inp.front| == |inp.latch| == |g|
    ensures Computed(op, g, a, inp) == Computed(op, g, b, inp)
    ensures forall p: nat :: p in Scheduled(g, a) <==> p in Scheduled(g, b)
  {
    hide NodeOk, Uses, Served, Computed, Scheduled;
    ComputedSolves(op, g, a, inp);
    ComputedSolves(op, g, b, inp);
    SolutionsEqual(op, g, a, b, inp, Computed(op, g, a, inp), Computed(op, g, b, inp));
    forall p: nat
      ensures p in Scheduled(g, a) <==> p in Scheduled(g, b)
    {
      ResolutionUnique(g, a, b, p);
      ScheduledMember(g, a, p);
      ScheduledMember(g, b, p);
    }
  }

  lemma EvalAgrees(op: (nat, nat, nat) -> nat, g: Graph, p: nat, l: seq<nat>, l': seq<nat>, x: seq<nat>, y: seq<nat>)
    requires p < |g| == |x| == |y| == |l| == |l'| && NodeOk(g, p) && Possible(g, p) && Computes(g[p].kind)
    requires l[p] == l'[p] && forall j :: 0 <= j < |Needs(g, p)| ==> x[Needs(g, p)[j]] == y[Needs(g, p)[j]]
    ensures Eval(op, g, p, l, x) == Eval(op, g, p, l', y)
  {
    hide IsUse;
  }

  function Configured(c: Cell, data: nat): Kind {
    match c.kind
    case Mux(select) => Mux(if data < |c.preds| then data else select)
    case Alu(opcode) => Alu(if data < CMA_OP_SIZE then data else opcode)
    case Preg(_) => Preg(data != 0)
    case k => k
  }

  /** Configuration keeps the graph well formed. */
  lemma ConfiguredOk(g: Graph, q: nat, data: nat)
    requires GraphOk(g) && q < |g|
    ensures GraphOk(g[q := g[q].(kind := Configured(g[q], data))])
  {
    var g' := g[q := g[q].(kind := Configured(g[q], data))];
    forall r | 0 <= r < |g'|
      ensures NodeOk(g', r)
    {
      assert NodeOk(g, r);
    }
    assert forall p, r :: 0 <= p < |g| && 0 <= r < |g| ==> multiset(g'[p].succs)[r] == multiset(g'[r].preds)[Some(p)];
  }

  // ---- the array ----

  class PeArray {
    const op: (nat, nat, nat) -> nat // PE_op_table
    const order: seq<nat> // the order in which the map of nodes is walked
    var graph: Graph
    var configChanged: bool
    var inDegrees: map<nat, int>
    var sorted: seq<nat>
    var obuf: seq<seq<nat>>
    var latch: seq<nat>
    var done: seq<nat> // del_list: the nodes taken so far, in order

    ghost predicate Walks()
      reads `graph
    {
      && GraphOk(graph) && |order| == |graph|
      && (forall i :: 0 <= i < |order| ==> order[i] < |graph|)
      && (forall i, j :: 0 <= i < j < |order| ==> order[i] != order[j])
      && (forall q :: 0 <= q < |graph| ==> q in order)
    }

    /** A wired array, nothing configured yet; the order is that of the addresses. */
    constructor (op: (nat, nat, nat) -> nat, graph: Graph, order: seq<nat>)
      requires GraphOk(graph) && |order| == |graph|
      requires forall i :: 0 <= i < |order| ==> order[i] < |graph|
      requires forall i, j :: 0 <= i < j < |order| ==> order[i] != order[j]
      requires forall q :: 0 <= q < |graph| ==> q in order
      ensures Valid() && configChanged && this.graph == graph && this.order == order && this.op == op
      ensures latch == seq(|graph|, _ => 0)
    {
      this.op, this.graph, this.order := op, graph, order;
      configChanged, inDegrees, sorted, done := true, map[], [], [];
      latch := seq(|graph|, _ => 0);
      obuf := seq(|graph|, q requires 0 <= q < |graph| => if graph[q].kind.LoadUnit? || graph[q].kind.StoreUnit? then [0] else []);
    }

    /** The counters as they have to be when `done` has been dealt with and the nodes
        in `gone` have left the map. */
    ghost predicate Counters(gone: seq<nat>)
      requires Walks()
      reads `graph, `inDegrees, `done
    {
      && Grounded(graph, done)
      && (forall q :: q in inDegrees <==> 0 <= q < |graph| && q !in gone)
      && (forall q :: q in inDegrees ==> inDegrees[q] == Unserved(graph, q, done))
    }

    /** in_degrees[*j]-- for a whole use list; every entry is there. */
    method CountDown(list: seq<nat>)
      requires forall i :: 0 <= i < |list| ==> list[i] in inDegrees
      modifies `inDegrees
      ensures inDegrees.Keys == old(inDegrees.Keys)
      ensures forall q :: q in inDegrees ==> inDegrees[q] == old(inDegrees[q]) - multiset(list)[q]
    {
      for j := 0 to |list|
        invariant inDegrees.Keys == old(inDegrees.Keys)
        invariant forall q :: q in inDegrees ==> inDegrees[q] == old(inDegrees[q]) - multiset(list[..j])[q]
      {
        assert list[..j + 1] == list[..j] + [list[j]];
        inDegrees := inDegrees[list[j] := inDegrees[list[j]] - 1];
      }
      assert list[..|list|] == list;
    }

    /** A node whose counter stands at zero is taken. */
    method TakeNode(p: nat, ghost gone: seq<nat>)
      requires Walks() && Counters(gone) && p in inDegrees && inDegrees[p] == 0 && p !in done
      requires forall q :: q in gone ==> q in done
      requires GroundedRange(graph, done) && sorted == Scheduled(graph, done)
      modifies `inDegrees, `sorted, `done
      ensures done == old(done) + [p] && Counters(gone)
      ensures GroundedRange(graph, done) && sorted == Scheduled(graph, done)
    {
      hide Grounded, Unserved, Uses;
      var list := Uses(graph, p);
      forall q | 0 <= q < |graph|
        ensures Unserved(graph, q, done + [p]) == Unserved(graph, q, done) - multiset(list)[q]
      {
        UnservedStep(graph, q, done, p);
      }
      forall i | 0 <= i < |list|
        ensures list[i] in inDegrees
      {
        if list[i] in gone {
          DoneUnused(graph, done, list[i], p);
        }
      }
      GroundedExtend(graph, done, p);
      if |list| > 0 {
        sorted := sorted + [p];
        CountDown(list);
      }
      done := done + [p];
      assert done[..|done| - 1] == old(done);
    }

    /** One walk over the map. */
    method Pass()
      requires Walks() && Counters(done) && GroundedRange(graph, done) && sorted == Scheduled(graph, done)
      modifies `inDegrees, `sorted, `done
      ensures old(done) <= done && Counters(old(done))
      ensures GroundedRange(graph, done) && sorted == Scheduled(graph, done)
      ensures done == old(done) ==> Closed(graph, done)
    {
      hide Grounded, Unserved, Uses, Scheduled;
      for i := 0 to |order|
        invariant old(done) <= done && Counters(old(done))
        invariant GroundedRange(graph, done) && sorted == Scheduled(graph, done)
        invariant forall k :: |old(done)| <= k < |done| ==> done[k] in order[..i]
        invariant done == old(done) ==> forall k :: 0 <= k < i && order[k] in inDegrees ==> Unserved(graph, order[k], done) != 0
      {
        var p := order[i];
        if p in inDegrees && inDegrees[p] == 0 {
          assert p !in done;
          TakeNode(p, old(done));
        }
        assert order[..i + 1] == order[..i] + [p];
      }
      if done == old(done) {
        AllWaiting();
      }
    }

    lemma AllWaiting()
      requires Walks() && Counters(done)
      requires forall k :: 0 <= k < |order| && order[k] in inDegrees ==> Unserved(graph, order[k], done) != 0
      ensures Closed(graph, done)
    {
      hide Unserved, Grounded, Served;
      assert forall q :: 0 <= q < |graph| ==> NodeOk(graph, q);
      forall q | 0 <= q < |graph| && Served(graph, q, done)
        ensures q in done
      {
        UnservedZero(graph, q, done);
        assert q in order;
      }
    }

    /** The nodes that have been taken leave the map. */
    method Erase(delList: seq<nat>)
      modifies `inDegrees
      ensures inDegrees == old(inDegrees) - (set q | q in delList)
    {
      for i := 0 to |delList|
        invariant inDegrees == old(inDegrees) - (set q | q in delList[..i])
      {
        assert delList[..i + 1] == delList[..i] + [delList[i]];
        inDegrees := inDegrees - {delList[i]};
      }
      assert delList[..|delList|] == delList;
    }

    /** in_degrees is filled. */
    method Fill()
      requires Walks()
      modifies `inDegrees
      ensures forall q :: q in inDegrees <==> 0 <= q < |graph|
      ensures forall q :: q in inDegrees ==> inDegrees[q] == InDegree(graph[q].kind)
    {
      hide GraphOk;
      inDegrees := map[];
      for i := 0 to |order|
        invariant forall q :: q in inDegrees <==> q in order[..i]
        invariant forall q :: q in inDegrees ==> 0 <= q < |graph| && inDegrees[q] == InDegree(graph[q].kind)
      {
        assert order[..i + 1] == order[..i] + [order[i]];
        inDegrees := inDegrees[order[i] := InDegree(graph[order[i]].kind)];
      }
      assert order[..|order|] == order;
    }

    /** One round of the sort: a walk, then the nodes taken leave the map. */
    method Round() returns (again: bool)
      requires Walks() && Counters(done) && GroundedRange(graph, done) && sorted == Scheduled(graph, done)
      modifies `inDegrees, `sorted, `done
      ensures Counters(done) && GroundedRange(graph, done) && sorted == Scheduled(graph, done)
      ensures if again then |inDegrees| < |old(inDegrees)| else |inDegrees| == |old(inDegrees)| && Closed(graph, done)
    {
      hide Grounded, Unserved, Uses, Closed, GraphOk, Scheduled;
      ghost var before := done;
      var prevSize := |inDegrees|;
      Pass();
      ghost var walked := inDegrees;
      Erase(done);
      Shrinks(walked, before);
      SameKeys(walked, old(inDegrees));
      again := |inDegrees| < prevSize;
    }

    lemma SameKeys(a: map<nat, int>, b: map<nat, int>)
      requires forall q :: q in a <==> q in b
      ensures |a| == |b|
    {
      assert a.Keys == b.Keys;
      assert |a.Keys| == |a| && |b.Keys| == |b|;
    }

    /** analyze_dataflow: whatever the wiring and the configuration, cycles and all, it
        ends and the list it leaves is a schedule.  The counters left over hold what
        is still awaited; one is below zero exactly when a selector is wired more
        than once to the node it selects and that node has been taken. */
    method AnalyzeDataflow()
      requires Walks()
      modifies `inDegrees, `sorted, `done, `configChanged
      ensures IsSchedule(graph, done, sorted) && !configChanged
      ensures Counters(done) && Overruns()
    {
      hide Grounded, Unserved, Uses, Closed, NodeOk, Overruns;
      Fill();
      sorted, done := [], [];
      NothingTaken();
      var again := true;
      while again
        invariant Counters(done) && GroundedRange(graph, done) && sorted == Scheduled(graph, done)
        invariant again || Closed(graph, done)
        decreases |inDegrees| + if again then 1 else 0
      {
        again := Round();
      }
      configChanged := false;
      OverrunsNow();
    }

    /** A counter is below zero exactly when a selector is wired more than once to
        the node it selects and that node has been taken. */
    ghost predicate Overruns()
      requires Walks()
      reads `graph, `inDegrees, `done
    {
      forall q :: q in inDegrees && q < |graph| ==>
        (inDegrees[q] < 0 <==> Doubled(graph, q) && Needs(graph, q)[0] in done)
    }

    lemma OverrunsNow()
      requires Walks() && Counters(done)
      ensures Overruns()
    {
      hide Unserved, Grounded, NodeOk, Needs;
      assert forall q :: 0 <= q < |graph| ==> NodeOk(graph, q);
      forall q | q in inDegrees && q < |graph|
        ensures inDegrees[q] < 0 <==> Doubled(graph, q) && Needs(graph, q)[0] in done
      {
        NegativeIff(graph, q, done);
      }
    }

    lemma NothingTaken()
      requires Walks() && done == []
      requires forall q :: q in inDegrees <==> 0 <= q < |graph|
      requires forall q :: q in inDegrees ==> inDegrees[q] == InDegree(graph[q].kind)
      ensures Counters([])
    {
      hide Unserved;
      assert forall q :: 0 <= q < |graph| ==> NodeOk(graph, q);
      forall q | 0 <= q < |graph|
        ensures Unserved(graph, q, []) == InDegree(graph[q].kind)
      {
        UnservedStart(graph, q);
      }
    }

    /** The map gets smaller exactly when a walk has taken something. */
    lemma Shrinks(walked: map<nat, int>, before: seq<nat>)
      requires Walks() && before <= done
      requires forall q :: q in walked <==> 0 <= q < |graph| && q !in before
      requires inDegrees == walked - (set q | q in done)
      requires Grounded(graph, done)
      ensures |inDegrees| <= |walked| && (|inDegrees| == |walked| <==> done == before)
    {
      hide NodeOk, Served;
      assert inDegrees.Keys <= walked.Keys;
      if done == before {
        assert inDegrees.Keys == walked.Keys;
      } else {
        var p := done[|before|];
        assert p in walked.Keys && p !in inDegrees.Keys by {
          assert done[..|before|] == before;
        }
        KeysSmaller(inDegrees.Keys, walked.Keys, p);
      }
      KeysCount(inDegrees.Keys, walked.Keys);
    }

    lemma KeysCount(a: set<nat>, b: set<nat>)
      requires a <= b
      ensures |a| <= |b| && (a == b ==> |a| == |b|)
    {
      assert b == a + (b - a);
    }

    lemma KeysSmaller(a: set<nat>, b: set<nat>, p: nat)
      requires a <= b && p in b && p !in a
      ensures |a| < |b|
    {
      KeysCount(a, b - {p});
    }

    // ---- execution ----

    /** Between two executions only the memory ports hold data. */
    predicate AtRest(q: nat)
      requires q < |graph| == |obuf|
      reads `graph, `obuf
    {
      match graph[q].kind
      case Const(_) => obuf[q] == []
      case LoadUnit => |obuf[q]| >= 1
      case StoreUnit => |obuf[q]| == 1
      case _ => obuf[q] == []
    }

    ghost predicate Valid()
      reads this
    {
      && Walks() && |obuf| == |latch| == |graph|
      && (forall q :: 0 <= q < |graph| ==> AtRest(q))
      && (!configChanged ==> IsSchedule(graph, done, sorted))
    }

    /** getData */
    function GetData(q: nat): nat
      requires q < |graph| == |obuf|
      reads `graph, `obuf
    {
      ReadBuffer(graph[q].kind, obuf[q])
    }

    ghost function Fronts(): (r: seq<nat>)
      requires |graph| == |obuf|
      reads `graph, `obuf
      ensures |r| == |graph|
    {
      FrontsOf(graph, obuf)
    }

    /** exec of one scheduled node */
    method ExecNode(p: nat)
      requires |obuf| == |latch| == |graph| && p < |graph| && NodeOk(graph, p) && Possible(graph, p)
      modifies `obuf, `latch
      ensures |obuf| == |latch| == |graph|
      ensures obuf == if Computes(graph[p].kind)
                      then old(obuf)[p := old(obuf)[p] + [Eval(op, graph, p, old(latch), old(Fronts()))]]
                      else old(obuf)
      ensures latch == if graph[p].kind.Preg? && graph[p].kind.active
                       then old(latch)[p := old(Fronts())[Needs(graph, p)[0]]] else old(latch)
    {
      hide IsUse;
      var c := graph[p];
      match c.kind {
        case Mux(select) =>
          obuf := obuf[p := obuf[p] + [GetData(c.preds[select].node)]];
        case Alu(opcode) =>
          obuf := obuf[p := obuf[p] + [op(opcode, GetData(c.preds[0].node), GetData(c.preds[1].node))]];
        case Preg(active) =>
          var d := GetData(c.preds[0].node);
          if active {
            obuf := obuf[p := obuf[p] + [latch[p]]];
            latch := latch[p := d];
          } else {
            obuf := obuf[p := obuf[p] + [d]];
          }
        case _ =>
      }
    }

    /** The first k nodes of the schedule have been executed; vals are the values
        they have and will have. */
    ghost predicate Executed(vals: seq<nat>, obuf0: seq<seq<nat>>, latch0: seq<nat>, k: nat)
      reads `graph, `obuf, `latch, `sorted
    {
      && |vals| == |obuf0| == |latch0| == |obuf| == |latch| == |graph| && k <= |sorted|
      && (forall q :: 0 <= q < |graph| ==> NodeOk(graph, q))
      && (forall q :: 0 <= q < |graph| ==>
            obuf[q] == if Computes(graph[q].kind) then (if q in sorted[..k] then [vals[q]] else []) else obuf0[q])
      && (forall q :: 0 <= q < |graph| ==>
            latch[q] == if q in sorted[..k] && graph[q].kind.Preg? && graph[q].kind.active
                        then vals[Needs(graph, q)[0]] else latch0[q])
    }

    lemma NeedNotStore(q: nat, need: nat)
      requires GraphOk(graph) && q < |graph| && NodeOk(graph, q) && need in Needs(graph, q)
      ensures need < |graph| && !graph[need].kind.StoreUnit?
    {
      hide IsUse;
      NeedsArePreds(graph, q, need);
      assert multiset(graph[need].succs)[q] == multiset(graph[q].preds)[Some(need)];
      assert Some(need) in multiset(graph[q].preds);
      assert NodeOk(graph, need);
    }

    /** Whatever is not still to come already reads as its final value. */
    lemma ReadsSolution(vals: seq<nat>, inp: Inputs, obuf0: seq<seq<nat>>, k: nat, n: nat)
      requires Executed(vals, obuf0, inp.latch, k) && IsSchedule(graph, done, sorted)
      requires Solves(op, graph, done, inp, vals) && inp.front == FrontsOf(graph, obuf0)
      requires n < |graph| && !graph[n].kind.StoreUnit? && n !in sorted[k..]
      ensures GetData(n) == vals[n]
    {
      hide NodeOk, Uses, Possible, Needs, Grounded, Closed, Scheduled, Eval;
      assert Equation(op, graph, done, inp, vals, n);
      ScheduledMember(graph, done, n);
      assert sorted == sorted[..k] + sorted[k..];
    }

    /** The next node of the schedule computes its value. */
    lemma NextValue(vals: seq<nat>, inp: Inputs, obuf0: seq<seq<nat>>, k: nat)
      requires Executed(vals, obuf0, inp.latch, k) && IsSchedule(graph, done, sorted) && GraphOk(graph)
      requires Solves(op, graph, done, inp, vals) && inp.front == FrontsOf(graph, obuf0) && k < |sorted|
      ensures sorted[k] < |graph| && NodeOk(graph, sorted[k]) && Possible(graph, sorted[k]) && sorted[k] !in sorted[..k]
      ensures forall j :: 0 <= j < |Needs(graph, sorted[k])| ==>
                GetData(Needs(graph, sorted[k])[j]) == vals[Needs(graph, sorted[k])[j]]
      ensures Computes(graph[sorted[k]].kind) ==> Eval(op, graph, sorted[k], latch, Fronts()) == vals[sorted[k]]
    {
      hide NodeOk, Uses, Needs, Possible, Grounded, Closed, Scheduled, Eval, Executed, GetData, IsUse;
      var p := sorted[k];
      ScheduledPossible(graph, done);
      ScheduleDistinct(graph, done);
      AllFromDone(graph, done);
      ScheduledMember(graph, done, p);
      ExecutedLatch(vals, obuf0, inp.latch, k, p);
      forall j | 0 <= j < |Needs(graph, p)|
        ensures Needs(graph, p)[j] < |graph| && GetData(Needs(graph, p)[j]) == vals[Needs(graph, p)[j]]
        ensures Fronts()[Needs(graph, p)[j]] == vals[Needs(graph, p)[j]]
      {
        var need := Needs(graph, p)[j];
        NeedNotStore(p, need);
        forall i | k <= i < |sorted|
          ensures sorted[i] != need
        {
          ScheduleBehind(graph, done, k, i, need);
        }
        ReadsSolution(vals, inp, obuf0, k, need);
        FrontIs(need);
      }
      if Computes(graph[p].kind) {
        assert Equation(op, graph, done, inp, vals, p);
        EvalAgrees(op, graph, p, latch, inp.latch, Fronts(), vals);
      }
    }

    lemma FrontIs(n: nat)
      requires n < |graph| == |obuf|
      ensures Fronts()[n] == GetData(n)
    {
    }

    lemma ExecutedLatch(vals: seq<nat>, obuf0: seq<seq<nat>>, latch0: seq<nat>, k: nat, p: nat)
      requires Executed(vals, obuf0, latch0, k) && p < |graph| && p !in sorted[..k]
      ensures |latch| == |latch0| == |obuf| == |graph| == |vals| && latch[p] == latch0[p] && NodeOk(graph, p)
    {
      hide NodeOk, Needs;
    }

    lemma ExecutedNothing(vals: seq<nat>)
      requires Valid() && |vals| == |graph|
      ensures Executed(vals, obuf, latch, 0)
    {
      hide Uses, Needs, IsSchedule;
      assert sorted[..0] == [];
      forall q | 0 <= q < |graph|
        ensures NodeOk(graph, q) && (Computes(graph[q].kind) ==> obuf[q] == [])
      {
        assert AtRest(q);
      }
    }

    method ExecNext(k: nat, ghost vals: seq<nat>, ghost inp: Inputs, ghost obuf0: seq<seq<nat>>)
      requires Executed(vals, obuf0, inp.latch, k) && IsSchedule(graph, done, sorted) && GraphOk(graph)
      requires Solves(op, graph, done, inp, vals) && inp.front == FrontsOf(graph, obuf0) && k < |sorted|
      modifies `obuf, `latch
      ensures Executed(vals, obuf0, inp.latch, k + 1)
    {
      hide GraphOk, NodeOk, Uses, Needs, Possible, Grounded, Closed, Scheduled, Eval, Equation, IsSchedule, GetData, Solves, FrontsOf, Fronts;
      NextValue(vals, inp, obuf0, k);
      assert sorted[..k + 1] == sorted[..k] + [sorted[k]];
      if graph[sorted[k]].kind.Preg? {
        HasNeed(sorted[k]);
      }
      FrontOfNeed(sorted[k], vals);
      ExecNode(sorted[k]);
    }

    lemma HasNeed(p: nat)
      requires p < |graph| && NodeOk(graph, p) && graph[p].kind.Preg?
      ensures |Needs(graph, p)| > 0
    {
    }

    lemma FrontOfNeed(p: nat, vals: seq<nat>)
      requires p < |graph| == |obuf| == |vals| && NodeOk(graph, p)
      requires forall j :: 0 <= j < |Needs(graph, p)| ==> GetData(Needs(graph, p)[j]) == vals[Needs(graph, p)[j]]
      ensures forall j :: 0 <= j < |Needs(graph, p)| ==> Fronts()[Needs(graph, p)[j]] == vals[Needs(graph, p)[j]]
    {
      hide GetData, Needs;
      forall j | 0 <= j < |Needs(graph, p)|
        ensures Fronts()[Needs(graph, p)[j]] == vals[Needs(graph, p)[j]]
      {
        FrontIs(Needs(graph, p)[j]);
      }
    }

    /** The first loop of exec. */
    method ExecScheduled(ghost vals: seq<nat>, ghost inp: Inputs)
      requires Valid() && !configChanged && inp == Inputs(Fronts(), latch) && Solves(op, graph, done, inp, vals)
      modifies `obuf, `latch
      ensures Executed(vals, old(obuf), old(latch), |sorted|)
    {
      hide GraphOk, IsSchedule, Executed, Equation, AtRest;
      ghost var obuf0 := obuf;
      ExecutedNothing(vals);
      for k := 0 to |sorted|
        invariant Executed(vals, obuf0, inp.latch, k)
      {
        ExecNext(k, vals, inp, obuf0);
      }
    }

    /** The buffers once the whole schedule has been executed. */
    ghost predicate Ran(executed: seq<seq<nat>>, vals: seq<nat>, obuf0: seq<seq<nat>>)
      reads `graph, `sorted
    {
      && |executed| == |graph| == |vals| == |obuf0|
      && forall q :: 0 <= q < |graph| ==>
           executed[q] == if Computes(graph[q].kind) then (if q in sorted then [vals[q]] else []) else obuf0[q]
    }

    lemma GatherReads(vals: seq<nat>, inp: Inputs, obuf0: seq<seq<nat>>, n: nat, executed: seq<seq<nat>>)
      requires Ran(executed, vals, obuf0) && |obuf| == |graph|
      requires IsSchedule(graph, done, sorted) && Solves(op, graph, done, inp, vals) && inp.front == FrontsOf(graph, obuf0)
      requires n < |graph| && !graph[n].kind.StoreUnit? && obuf[n] == executed[n]
      ensures GetData(n) == vals[n]
    {
      hide NodeOk, Uses, Possible, Needs, Grounded, Closed, Scheduled, Eval;
      assert Equation(op, graph, done, inp, vals, n);
      ScheduledMember(graph, done, n);
    }

    /** exec of a memory port */
    method GatherOne(q: nat, ghost vals: seq<nat>, ghost inp: Inputs, ghost obuf0: seq<seq<nat>>, ghost executed: seq<seq<nat>>)
      requires Ran(executed, vals, obuf0) && |obuf| == |graph| && GraphOk(graph)
      requires IsSchedule(graph, done, sorted) && Solves(op, graph, done, inp, vals) && inp.front == FrontsOf(graph, obuf0)
      requires q < |graph| && NodeOk(graph, q) && graph[q].kind.StoreUnit? && |obuf[q]| == 1
      requires forall r :: 0 <= r < |graph| && !graph[r].kind.StoreUnit? ==> obuf[r] == executed[r]
      modifies `obuf
      ensures |Needs(graph, q)| > 0 && Needs(graph, q)[0] < |vals|
      ensures obuf == old(obuf)[q := [vals[Needs(graph, q)[0]]]]
    {
      hide GraphOk, Ran, IsSchedule, Solves, FrontsOf, IsUse, GetData;
      ghost var need := Needs(graph, q)[0];
      NeedNotStore(q, need);
      GatherReads(vals, inp, obuf0, need, executed);
      RanSize(executed, vals, obuf0);
      var d := GetData(graph[q].preds[0].node);
      assert obuf[q][1..] + [d] == [vals[need]];
      obuf := obuf[q := obuf[q][1..] + [d]];
    }

    lemma RanSize(executed: seq<seq<nat>>, vals: seq<nat>, obuf0: seq<seq<nat>>)
      requires Ran(executed, vals, obuf0)
      ensures |executed| == |vals| == |obuf0| == |graph|
    {
    }

    /** The second loop: the memory ports take their results. */
    method Gather(ghost vals: seq<nat>, ghost inp: Inputs, ghost obuf0: seq<seq<nat>>)
      requires Ran(obuf, vals, obuf0) && GraphOk(graph)
      requires IsSchedule(graph, done, sorted) && Solves(op, graph, done, inp, vals) && inp.front == FrontsOf(graph, obuf0)
      requires forall q :: 0 <= q < |graph| && graph[q].kind.StoreUnit? ==> |obuf[q]| == 1
      modifies `obuf
      ensures |obuf| == |graph|
      ensures forall q :: 0 <= q < |graph| ==>
                obuf[q] == if graph[q].kind.StoreUnit? then [vals[Needs(graph, q)[0]]] else old(obuf)[q]
    {
      hide NodeOk, Ran, IsSchedule, Solves, FrontsOf, Needs, Linked;
      RanSize(obuf, vals, obuf0);
      assert forall q :: 0 <= q < |graph| ==> NodeOk(graph, q);
      for q := 0 to |graph|
        invariant |obuf| == |graph|
        invariant forall r :: 0 <= r < q && graph[r].kind.StoreUnit? ==> |Needs(graph, r)| > 0 && Needs(graph, r)[0] < |vals|
        invariant forall r :: 0 <= r < |graph| ==>
                    obuf[r] == if r < q && graph[r].kind.StoreUnit? then [vals[Needs(graph, r)[0]]] else old(obuf)[r]
      {
        if graph[q].kind.StoreUnit? {
          GatherOne(q, vals, inp, obuf0, old(obuf));
        }
      }
    }

    /** The third loop: update of every scheduled node. */
    method Update()
      requires |obuf| == |graph| && forall i :: 0 <= i < |sorted| ==> sorted[i] < |graph|
      requires forall i, j :: 0 <= i < j < |sorted| ==> sorted[i] != sorted[j]
      requires forall q :: 0 <= q < |graph| && Computes(graph[q].kind) ==> (q in sorted <==> |obuf[q]| == 1) && |obuf[q]| <= 1
      modifies `obuf
      ensures |obuf| == |graph|
      ensures forall q :: 0 <= q < |graph| ==>
                obuf[q] == if Computes(graph[q].kind) then []
                           else if graph[q].kind.LoadUnit? && q in sorted && |old(obuf)[q]| > 1 then old(obuf)[q][1..]
                           else old(obuf)[q]
    {
      for k := 0 to |sorted|
        invariant |obuf| == |graph|
        invariant forall q :: 0 <= q < |graph| ==>
                    obuf[q] == if q !in sorted[..k] then old(obuf)[q]
                               else if Computes(graph[q].kind) then []
                               else if graph[q].kind.LoadUnit? && |old(obuf)[q]| > 1 then old(obuf)[q][1..]
                               else old(obuf)[q]
      {
        var p := sorted[k];
        assert sorted[..k + 1] == sorted[..k] + [p];
        if Computes(graph[p].kind) || (graph[p].kind.LoadUnit? && |obuf[p]| > 1) {
          obuf := obuf[p := obuf[p][1..]];
        }
      }
      assert sorted[..|sorted|] == sorted;
    }

    lemma RestMeans()
      requires Valid()
      ensures forall q :: 0 <= q < |graph| && graph[q].kind.StoreUnit? ==> |obuf[q]| == 1
      ensures forall q :: 0 <= q < |graph| && graph[q].kind.LoadUnit? ==> |obuf[q]| >= 1
      ensures forall q :: 0 <= q < |graph| && graph[q].kind.Const? ==> obuf[q] == []
    {
      hide GraphOk, IsSchedule;
      forall q | 0 <= q < |graph|
        ensures graph[q].kind.StoreUnit? ==> |obuf[q]| == 1
        ensures graph[q].kind.LoadUnit? ==> |obuf[q]| >= 1
        ensures graph[q].kind.Const? ==> obuf[q] == []
      {
        assert AtRest(q);
      }
    }

    /** A memory port and a pipeline register read their one predecessor. */
    lemma OnlyNeed(vals: seq<nat>)
      requires GraphOk(graph) && |vals| == |graph|
      ensures forall q :: 0 <= q < |graph| && (graph[q].kind.StoreUnit? || graph[q].kind.Preg?) ==>
                NodeOk(graph, q) && vals[Needs(graph, q)[0]] == Operand(graph[q], 0, vals)
    {
      forall q | 0 <= q < |graph| && (graph[q].kind.StoreUnit? || graph[q].kind.Preg?)
        ensures NodeOk(graph, q) && vals[Needs(graph, q)[0]] == Operand(graph[q], 0, vals)
      {
        assert NodeOk(graph, q);
      }
    }

    /** PEArray::exec: the array settles into the one solution of its node equations;
        memory ports and active pipeline registers take their values from it, and
        launched data moves up by one. */
    method Exec()
      requires Valid()
      modifies this
      ensures Valid() && !configChanged && graph == old(graph)
      ensures var inp := old(Inputs(Fronts(), latch));
              var vals := Computed(op, graph, done, inp);
              && Solves(op, graph, done, inp, vals)
              && (forall q :: 0 <= q < |graph| && graph[q].kind.StoreUnit? ==> obuf[q] == [Operand(graph[q], 0, vals)])
              && (forall q :: 0 <= q < |graph| ==>
                    latch[q] == if q in sorted && graph[q].kind.Preg? && graph[q].kind.active
                                then Operand(graph[q], 0, vals) else inp.latch[q])
              && (forall q :: 0 <= q < |graph| && graph[q].kind.LoadUnit? ==>
                    obuf[q] == if q in sorted && |old(obuf)[q]| > 1 then old(obuf)[q][1..] else old(obuf)[q])
    {
      hide Grounded, Closed, Scheduled, Solves, Evaluate, Uses, Computed, NodeOk, FrontsOf, Needs, Counters, Overruns;
      if configChanged {
        AnalyzeDataflow();
      }
      RestMeans();
      ghost var inp, obuf0 := Inputs(Fronts(), latch), obuf;
      ghost var vals := Computed(op, graph, done, inp);
      ComputedSolves(op, graph, done, inp);
      ExecScheduled(vals, inp);
      assert sorted[..|sorted|] == sorted;
      Gather(vals, inp, obuf0);
      ScheduleDistinct(graph, done);
      AllFromDone(graph, done);
      Update();
      OnlyNeed(vals);
    }

    /** config of one node: a selector out of range and an unknown opcode are ignored. */
    method Configure(q: nat, data: nat)
      requires Valid() && q < |graph| && !graph[q].kind.Const?
      modifies `graph, `configChanged
      ensures Valid() && configChanged && |graph| == |old(graph)|
      ensures graph == old(graph)[q := old(graph)[q].(kind := graph[q].kind)]
      ensures match old(graph)[q].kind
              case Mux(select) => graph[q].kind == Mux(if data < |old(graph)[q].preds| then data else select)
              case Alu(opcode) => graph[q].kind == Alu(if data < 16 then data else opcode)
              case Preg(_) => graph[q].kind == Preg(data != 0)
              case k => graph[q].kind == k
    {
      ConfiguredOk(graph, q, data);
      ghost var g := graph;
      assert forall r :: 0 <= r < |g| ==> AtRest(r);
      graph := graph[q := graph[q].(kind := Configured(graph[q], data))];
      configChanged := true;
      forall r | 0 <= r < |graph|
        ensures AtRest(r)
      {
        assert old(AtRest(r));
      }
    }

    /** PEArray::launch for one column */
    method Launch(q: nat, data: nat)
      requires Valid() && q < |graph| && graph[q].kind.LoadUnit?
      modifies `obuf
      ensures Valid() && obuf == old(obuf)[q := old(obuf)[q] + [data]]
    {
      assert forall r :: 0 <= r < |graph| ==> AtRest(r);
      obuf := obuf[q := obuf[q] + [data]];
      forall r | 0 <= r < |graph|
        ensures AtRest(r)
      {
        assert old(AtRest(r));
      }
    }
  }
}
