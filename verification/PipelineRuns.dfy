/** Whole runs of the pipeline against the reference. */
module PipelineRuns {
  import opened Isa
  import opened Sequential
  import opened Pipeline
  import opened PipelineInvariant
  import opened PipelineChecks
  import opened PipelineSettle
  import opened PipelineRefinement
  import opened PipelineShadow

  // ---- the pipeline over a list of cycles ----

  function Run(env: Env, m: Machine, stalls: seq<Stall>): Machine
    decreases |stalls|
  {
    if stalls == [] then m else Run(env, Cycle(env, m, stalls[0]), stalls[1..])
  }

  /** Register writes of a run, in order. */
  function CommitLog(env: Env, m: Machine, stalls: seq<Stall>): seq<Commit>
    decreases |stalls|
  {
    if stalls == [] then [] else CycleCommits(env, m, stalls[0]) + CommitLog(env, Cycle(env, m, stalls[0]), stalls[1..])
  }

  /** Memory stores of a run, in order. */
  function StoreLog(env: Env, m: Machine, stalls: seq<Stall>): seq<MemStore>
    decreases |stalls|
  {
    if stalls == [] then [] else CycleStores(env, m, stalls[0]) + StoreLog(env, Cycle(env, m, stalls[0]), stalls[1..])
  }

  // ---- the reference over a path of states ----

  ghost predicate IsPath(env: Env, p: seq<Arch>) {
    p != [] && forall k :: 0 <= k < |p| - 1 ==> p[k + 1] == NextArch(env, p[k])
  }

  /** Register writes of the steps from p[0] to the last state of p. */
  function PathCommits(env: Env, p: seq<Arch>): seq<Commit> {
    if |p| <= 1 then [] else CommitsOf(env, p[0]) + PathCommits(env, p[1..])
  }

  function PathStores(env: Env, p: seq<Arch>): seq<MemStore> {
    if |p| <= 1 then [] else StoresOf(env, p[0]) + PathStores(env, p[1..])
  }

  /** The states that the retired instructions of a run pass through. */
  function Path(env: Env, m: Machine, x: Sim, stalls: seq<Stall>): (p: seq<Arch>)
    ensures p != []
    decreases |stalls|
  {
    if stalls == [] then [x.s]
    else
      var rest := Path(env, Cycle(env, m, stalls[0]), NextSim(env, m, x, stalls[0]), stalls[1..]);
      if Steps(env, m, x, stalls[0]) then [x.s] + rest else rest
  }

  function Last(p: seq<Arch>): Arch
    requires p != []
  {
    p[|p| - 1]
  }

  function EndSim(env: Env, m: Machine, x: Sim, stalls: seq<Stall>): Sim
    decreases |stalls|
  {
    if stalls == [] then x else EndSim(env, Cycle(env, m, stalls[0]), NextSim(env, m, x, stalls[0]), stalls[1..])
  }

  /** Induction over the run. */
  lemma {:induction false} RunPath(env: Env, m: Machine, x: Sim, stalls: seq<Stall>)
    requires Inv(env, m, x.s, x.t) && Shadow(env, m, x.s, x.t)
    ensures var p := Path(env, m, x, stalls);
            var y := EndSim(env, m, x, stalls);
            && IsPath(env, p) && p[0] == x.s && y.s == Last(p) && Inv(env, Run(env, m, stalls), y.s, y.t)
            && Shadow(env, Run(env, m, stalls), y.s, y.t)
    decreases |stalls|
  {
    hide Inv, Shadow, Steps, NextArch, NextSim, Cycle;
    if stalls != [] {
      CycleStep(env, m, x, stalls[0]);
      ShadowStep(env, m, x, stalls[0]);
      CycleArch(env, m, x, stalls[0]);
      RunPath(env, Cycle(env, m, stalls[0]), NextSim(env, m, x, stalls[0]), stalls[1..]);
    }
  }

  lemma {:induction false} RunCommits(env: Env, m: Machine, x: Sim, stalls: seq<Stall>)
    requires Inv(env, m, x.s, x.t) && Shadow(env, m, x.s, x.t)
    ensures CommitLog(env, m, stalls) == PathCommits(env, Path(env, m, x, stalls))
    decreases |stalls|
  {
    hide Inv, Shadow, Steps, NextArch, NextSim, Cycle, CycleCommits, CommitsOf;
    if stalls != [] {
      var next := NextSim(env, m, x, stalls[0]);
      var rest := Path(env, Cycle(env, m, stalls[0]), next, stalls[1..]);
      CycleStep(env, m, x, stalls[0]);
      ShadowStep(env, m, x, stalls[0]);
      CycleArch(env, m, x, stalls[0]);
      CycleCommit(env, m, x, stalls[0]);
      RunCommits(env, Cycle(env, m, stalls[0]), next, stalls[1..]);
      assert ([x.s] + rest)[1..] == rest;
    }
  }

  function Pending(env: Env, x: Sim): seq<MemStore> { if x.t.w then StoresOf(env, x.s) else [] }

  lemma Spliced<T>(a: seq<T>, b: seq<T>, c: seq<T>, d: seq<T>, e: seq<T>, f: seq<T>, g: seq<T>)
    requires a + b == c + d && d + e == f + g
    ensures a + (b + e) == (c + f) + g
  {
    calc {
      a + (b + e);
      (a + b) + e;
      (c + d) + e;
      c + (d + e);
      c + (f + g);
      (c + f) + g;
    }
  }

  lemma {:induction false} RunStores(env: Env, m: Machine, x: Sim, stalls: seq<Stall>)
    requires Inv(env, m, x.s, x.t) && Shadow(env, m, x.s, x.t)
    ensures Pending(env, x) + StoreLog(env, m, stalls) ==
            PathStores(env, Path(env, m, x, stalls)) + Pending(env, EndSim(env, m, x, stalls))
    decreases |stalls|
  {
    hide Inv, Shadow, Steps, NextArch, NextSim, Cycle, CycleStores, StoresOf;
    if stalls != [] {
      var next := NextSim(env, m, x, stalls[0]);
      var m' := Cycle(env, m, stalls[0]);
      var rest := Path(env, m', next, stalls[1..]);
      CycleStep(env, m, x, stalls[0]);
      ShadowStep(env, m, x, stalls[0]);
      CycleArch(env, m, x, stalls[0]);
      CycleStore(env, m, x, stalls[0]);
      RunStores(env, m', next, stalls[1..]);
      var done := if Steps(env, m, x, stalls[0]) then StoresOf(env, x.s) else [];
      Spliced(Pending(env, x), CycleStores(env, m, stalls[0]), done, Pending(env, next),
              StoreLog(env, m', stalls[1..]), PathStores(env, rest), Pending(env, EndSim(env, m', next, stalls[1..])));
      assert ([x.s] + rest)[1..] == rest;
    }
  }

  lemma Agreement(env: Env, m: Machine, s: Arch, t: Tags)
    requires Inv(env, m, s, t)
    ensures m.reg == s.regs && m.epc == s.epc && (m.mem == s.mem || m.mem == Sequential.Step(env, s).mem)
  {
    hide Sequential.Step, Shape, Wiring, LateOk, HiLoIdle, WbOk, CleanM, CleanE, CleanD, S2, S3, ExOk, FetchOk, MemOk, IdOk, At;
  }

  /** The run of m under these stalls does what the steps of path p do: the same
      register writes and memory stores in the same order, the stores at most
      one instruction ahead, and the register file, EPC and memory of p's end. */
  ghost predicate Follows(env: Env, m: Machine, stalls: seq<Stall>, p: seq<Arch>) {
    && IsPath(env, p)
    && CommitLog(env, m, stalls) == PathCommits(env, p)
    && (StoreLog(env, m, stalls) == PathStores(env, p)
        || StoreLog(env, m, stalls) == PathStores(env, p) + StoresOf(env, Last(p)))
    && (var m', s := Run(env, m, stalls), Last(p);
        m'.reg == s.regs && m'.epc == s.epc && (m'.mem == s.mem || m'.mem == Sequential.Step(env, s).mem))
  }

  lemma RunFollows(env: Env, m: Machine, x: Sim, stalls: seq<Stall>)
    requires Inv(env, m, x.s, x.t) && Shadow(env, m, x.s, x.t) && !x.t.w
    ensures Follows(env, m, stalls, Path(env, m, x, stalls)) && Path(env, m, x, stalls)[0] == x.s
  {
    hide Inv, StoresOf, Run, CommitLog, StoreLog, PathCommits, PathStores, Shadow, NextArch, Sequential.Step, Path, EndSim;
    RunPath(env, m, x, stalls);
    RunCommits(env, m, x, stalls);
    RunStores(env, m, x, stalls);
    var y := EndSim(env, m, x, stalls);
    Agreement(env, Run(env, m, stalls), y.s, y.t);
    assert Pending(env, x) + StoreLog(env, m, stalls) == StoreLog(env, m, stalls);
  }

  /** Main theorem.  From reset, under every program and every pattern of
      instruction and data stalls, the pipeline follows a path of the
      one-at-a-time reference. */
  lemma PipelineRefines(env: Env, reg: seq<Word>, hi: Word, lo: Word, mem: Memory, epc: Word, stalls: seq<Stall>)
    requires |reg| == 32 && reg[0] == 0
    ensures exists p: seq<Arch> ::
              Follows(env, PowerOn(reg, hi, lo, mem, epc), stalls, p) && p[0] == ResetState(reg, hi, lo, mem, epc)
  {
    hide Inv, Shadow, PowerOn, ResetState, Follows, Path;
    ResetInv(env, reg, hi, lo, mem, epc);
    ResetShadow(env, PowerOn(reg, hi, lo, mem, epc), ResetState(reg, hi, lo, mem, epc));
    RunFollows(env, PowerOn(reg, hi, lo, mem, epc), Sim(ResetState(reg, hi, lo, mem, epc), NO_TAGS), stalls);
  }
}
