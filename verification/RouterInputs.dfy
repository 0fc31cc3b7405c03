/** One cycle of an input channel in closed form: which flits cross, who requests,
    who is allotted the crossbar, and what that reserves. */
module RouterInputs {
  import opened Flits
  import opened Router
  import opened RouterCredit
  import opened RouterWormhole

  /** A data flit is at the front of channel j. */
  predicate Data(r: RouterState, p: nat, j: nat)
    requires Sized(r) && p < PORTS && j < VCH_SIZE
  {
    r.ins[p].vcs[j].ibuf != [] && !IsAck(r.ins[p].vcs[j].ibuf[0])
  }

  predicate AckWaits(r: RouterState, p: nat)
    requires Sized(r) && p < PORTS
  {
    r.ins[p].vcs[ACK_VCH].ibuf != [] && IsAck(r.ins[p].vcs[ACK_VCH].ibuf[0])
  }

  /** The granted channel passes a flit on. */
  predicate Passing(r: RouterState, p: nat)
    requires Sized(r) && p < PORTS
  {
    Data(r, p, r.ins[p].granted) && r.ins[p].vcs[r.ins[p].granted].state == ST
  }

  /** Channel j has a packet to send and a route, but no way through yet. */
  predicate Wants(r: RouterState, p: nat, j: nat)
    requires Sized(r) && p < PORTS && j < VCH_SIZE
  {
    Data(r, p, j) && r.ins[p].vcs[j].state == VSA
  }

  predicate Room(r: RouterState, p: nat, j: nat)
    requires Sized(r) && p < PORTS && j < VCH_SIZE
  {
    var o := r.outs[r.ins[p].vcs[j].port];
    o.ackEnabled ==> o.ready[j]
  }

  /** The granted channel is allotted its output: it has room and nobody else's lock. */
  predicate Allotted(r: RouterState, p: nat)
    requires Sized(r) && p < PORTS
  {
    var g := r.ins[p].granted;
    var q := r.ins[p].vcs[g].port;
    Wants(r, p, g) && Room(r, p, g) && (r.lock[q] == NOBODY || r.lock[q] == p as int)
  }

  predicate Active(r: RouterState, p: nat)
    requires Sized(r) && p < PORTS
  {
    Passing(r, p) || Allotted(r, p)
  }

  /** A channel below i uses the input, or asks for it. */
  predicate Busy(r: RouterState, p: nat, i: nat)
    requires Sized(r) && p < PORTS && i <= VCH_SIZE
  {
    (r.ins[p].granted < i && Active(r, p)) || exists j: nat :: j < i && j != r.ins[p].granted && Wants(r, p, j)
  }

  /** Channel j asks for the grant: the first to want it, unless a lower channel is at work. */
  predicate Asks(r: RouterState, p: nat, j: nat)
    requires Sized(r) && p < PORTS && j < VCH_SIZE
  {
    Wants(r, p, j) && j != r.ins[p].granted && !Busy(r, p, j)
  }

  /** The output of channel j is asked for room, and locked when it is free: for the
      granted channel, and for every other one that comes behind a busy one. */
  predicate Locks(r: RouterState, p: nat, j: nat)
    requires Sized(r) && p < PORTS && j < VCH_SIZE
  {
    Wants(r, p, j) && Room(r, p, j) && (j == r.ins[p].granted || Busy(r, p, j))
  }

  /** What becomes of channel j before a flit is received. */
  function Handled(r: RouterState, p: nat, j: nat): Vc
    requires Sized(r) && p < PORTS && j < VCH_SIZE
  {
    var vc := r.ins[p].vcs[j];
    var granted := j == r.ins[p].granted;
    if vc.ibuf == [] then vc
    else if IsAck(vc.ibuf[0]) then vc.(ibuf := vc.ibuf[1..])
    else if vc.state == ST then
      var last := vc.ibuf[0].ftype == FTail || vc.ibuf[0].ftype == FHeadTail;
      vc.(ibuf := vc.ibuf[1..], state := if last then RC else ST, taken := if last then 0 else vc.taken + 1)
    else if vc.state == RC then
      if vc.ibuf[0].ftype == FHead || vc.ibuf[0].ftype == FHeadTail then
        var dst := HeadDst(vc.ibuf[0]) as int;
        vc.(state := VSA, port := if dst == r.id then LOCAL_PORT else if dst > r.id then LOWER_PORT else UPPER_PORT)
      else vc
    else if granted then vc.(state := if Allotted(r, p) then ST else VSA)
    else vc.(pending := vc.pending || Asks(r, p, j))
  }

  function PassedFlit(r: RouterState, p: nat): Flit
    requires Sized(r) && p < PORTS && Passing(r, p)
  {
    r.ins[p].vcs[r.ins[p].granted].ibuf[0]
  }

  predicate LastPasses(r: RouterState, p: nat)
    requires Sized(r) && p < PORTS
  {
    Passing(r, p) && (PassedFlit(r, p).ftype == FTail || PassedFlit(r, p).ftype == FHeadTail)
  }

  /** Output u when the channels below i have been handled. */
  function Served(r: RouterState, p: nat, u: nat, i: nat): Output
    requires Sized(r) && p < PORTS && u < PORTS
  {
    var g := r.ins[p].granted;
    var o := r.outs[u];
    var passed := g < i && Passing(r, p);
    o.(obuf := o.obuf + (if passed && u == r.ins[p].vcs[g].port then [Entry(PassedFlit(r, p), g)] else []),
       iackbuf := o.iackbuf + (if 0 < i && u == p && AckWaits(r, p) then [r.ins[p].vcs[ACK_VCH].ibuf[0]] else []),
       ackCount := if passed && u == p then o.ackCount[g := o.ackCount[g] + 1] else o.ackCount)
  }

  /** The channels below i of input p have been handled: the input itself, ... */
  predicate InputUpto(r: RouterState, m: RouterState, p: nat, i: nat, now: nat)
    requires Sized(r) && Sized(m) && p < PORTS && i <= VCH_SIZE
  {
    var before, after := r.ins[p], m.ins[p];
    var g := before.granted;
    && (forall a: nat :: a < PORTS && a != p ==> m.ins[a] == r.ins[a])
    && after.granted == g
    && after.holding == (if g < i && LastPasses(r, p) then false else if g < i && Allotted(r, p) then true else before.holding)
    && after.releaseTime == (if g < i && LastPasses(r, p) then now else before.releaseTime)
    && forall j: nat :: j < VCH_SIZE ==> after.vcs[j] == if j < i then Handled(r, p, j) else before.vcs[j]
  }

  /** ... the locks, ... */
  predicate LocksUpto(r: RouterState, m: RouterState, p: nat, i: nat)
    requires Sized(r) && Sized(m) && p < PORTS && i <= VCH_SIZE
  {
    forall q: nat :: q < PORTS ==>
      m.lock[q] == if r.lock[q] == NOBODY && (exists j: nat :: j < i && Locks(r, p, j) && r.ins[p].vcs[j].port == q)
                   then p as int else r.lock[q]
  }

  /** ... the outputs and all the rest. */
  predicate RestUpto(r: RouterState, m: RouterState, p: nat, i: nat)
    requires Sized(r) && Sized(m) && p < PORTS && i <= VCH_SIZE
  {
    var g := r.ins[p].granted;
    && (forall u: nat :: u < PORTS ==> m.outs[u] == Served(r, p, u, i))
    && m.closing == (if g < i && LastPasses(r, p) then r.closing[r.ins[p].vcs[g].port := true] else r.closing)
    && m.log == (if g < i && Passing(r, p) then r.log + [Sent(p, g, r.ins[p].vcs[g].port, PassedFlit(r, p))] else r.log)
    && m.wires == r.wires && m.out == r.out && m.id == r.id && m.localReady == r.localReady
  }

  predicate Upto(r: RouterState, m: RouterState, p: nat, i: nat, now: nat)
    requires Sized(r) && Sized(m) && p < PORTS && i <= VCH_SIZE
  {
    InputUpto(r, m, p, i, now) && LocksUpto(r, m, p, i) && RestUpto(r, m, p, i)
  }

  /** Only the granted channel sends, and acknowledgements come on channel 0. */
  predicate Regular(r: RouterState, p: nat)
    requires Sized(r) && p < PORTS
  {
    && (forall j: nat :: j < VCH_SIZE && r.ins[p].vcs[j].state == ST ==> r.ins[p].granted == j)
    && (forall j: nat :: 0 < j < VCH_SIZE && r.ins[p].vcs[j].ibuf != [] ==> !IsAck(r.ins[p].vcs[j].ibuf[0]))
  }

  lemma UptoStart(r: RouterState, p: nat, now: nat)
    requires Sized(r) && p < PORTS
    ensures Upto(r, r, p, 0, now)
  {
    hide Passing, Allotted, Locks, LastPasses, SizedVcs, SizedOut;
  }

  // ---- the loop, channel by channel ----

  lemma BusyNext(r: RouterState, p: nat, i: nat)
    requires Sized(r) && p < PORTS && i < VCH_SIZE
    ensures Busy(r, p, i + 1) <==>
              Busy(r, p, i) || (i == r.ins[p].granted && Active(r, p)) || (i != r.ins[p].granted && Wants(r, p, i))
  {
    hide Active, Wants;
  }

  /** Channel i does nothing but change itself. */
  lemma UptoAlone(r: RouterState, m: RouterState, m': RouterState, p: nat, i: nat, now: nat)
    requires Sized(r) && Sized(m) && Sized(m') && p < PORTS && i < VCH_SIZE && Upto(r, m, p, i, now)
    requires m' == m.(ins := m.ins[p := m.ins[p].(vcs := m.ins[p].vcs[i := Handled(r, p, i)])])
    requires i == r.ins[p].granted ==> !Active(r, p)
    requires i == ACK_VCH ==> !AckWaits(r, p)
    requires !Locks(r, p, i)
    ensures Upto(r, m', p, i + 1, now)
  {
    hide Passing, Allotted, Locks, SizedOut, Handled, AckWaits, PassedFlit, Served;
    ServedAlone(r, p, i);
  }

  lemma ServedAlone(r: RouterState, p: nat, i: nat)
    requires Sized(r) && p < PORTS && i < VCH_SIZE && (i == r.ins[p].granted ==> !Passing(r, p)) && (i == ACK_VCH ==> !AckWaits(r, p))
    ensures forall u: nat :: u < PORTS ==> Served(r, p, u, i + 1) == Served(r, p, u, i)
  {
    hide Passing, AckWaits, PassedFlit, SizedOut;
  }

  lemma StepEmpty(r: RouterState, m: RouterState, p: nat, i: nat, now: nat)
    requires Sized(r) && Sized(m) && p < PORTS && i < VCH_SIZE && Upto(r, m, p, i, now) && r.ins[p].vcs[i].ibuf == []
    ensures Upto(r, m, p, i + 1, now)
  {
    hide Upto, Handled, SizedOut;
    assert m == m.(ins := m.ins[p := m.ins[p].(vcs := m.ins[p].vcs[i := Handled(r, p, i)])]) by {
      VcKept(r, m, p, i, now);
      SameVc(m, p, i);
      HandledEmpty(r, p, i);
    }
    UptoAlone(r, m, m, p, i, now);
  }

  lemma HandledEmpty(r: RouterState, p: nat, i: nat)
    requires Sized(r) && p < PORTS && i < VCH_SIZE && r.ins[p].vcs[i].ibuf == []
    ensures Handled(r, p, i) == r.ins[p].vcs[i]
  {
  }

  lemma VcKept(r: RouterState, m: RouterState, p: nat, i: nat, now: nat)
    requires Sized(r) && Sized(m) && p < PORTS && i < VCH_SIZE && Upto(r, m, p, i, now)
    ensures m.ins[p].vcs[i] == r.ins[p].vcs[i] && m.ins[p].granted == r.ins[p].granted && m.id == r.id
  {
    hide Passing, Allotted, Locks, LastPasses, SizedOut, Handled, Served, PassedFlit;
  }

  lemma SameVc(m: RouterState, p: nat, i: nat)
    requires Sized(m) && p < PORTS && i < VCH_SIZE
    ensures m == m.(ins := m.ins[p := m.ins[p].(vcs := m.ins[p].vcs[i := m.ins[p].vcs[i]])])
  {
    assert m.ins[p].vcs == m.ins[p].vcs[i := m.ins[p].vcs[i]];
    assert m.ins == m.ins[p := m.ins[p]];
  }

  lemma StepRoute(r: RouterState, m: RouterState, p: nat, i: nat, hold: bool, now: nat)
    requires Sized(r) && Sized(m) && p < PORTS && i < VCH_SIZE && Upto(r, m, p, i, now) && Data(r, p, i) && r.ins[p].vcs[i].state == RC
    ensures Upto(r, VcStep(m, p, i, hold, now).0, p, i + 1, now) && VcStep(m, p, i, hold, now).1 == hold
  {
    hide Upto, SizedOut, HeadDst;
    VcKept(r, m, p, i, now);
    SameVc(m, p, i);
    UptoAlone(r, m, VcStep(m, p, i, hold, now).0, p, i, now);
  }

  lemma StepAsk(r: RouterState, m: RouterState, p: nat, i: nat, now: nat)
    requires Sized(r) && Sized(m) && p < PORTS && i < VCH_SIZE && Upto(r, m, p, i, now)
    requires Wants(r, p, i) && i != r.ins[p].granted && !Busy(r, p, i)
    ensures Upto(r, VcStep(m, p, i, false, now).0, p, i + 1, now) && VcStep(m, p, i, false, now).1
  {
    hide Upto, SizedOut, HeadDst, Busy;
    VcKept(r, m, p, i, now);
    UptoAlone(r, m, VcStep(m, p, i, false, now).0, p, i, now);
  }

  lemma StepAck(r: RouterState, m: RouterState, p: nat, i: nat, hold: bool, now: nat)
    requires Sized(r) && Sized(m) && p < PORTS && i < VCH_SIZE && Upto(r, m, p, i, now) && Regular(r, p)
    requires r.ins[p].vcs[i].ibuf != [] && IsAck(r.ins[p].vcs[i].ibuf[0])
    ensures Upto(r, VcStep(m, p, i, hold, now).0, p, i + 1, now) && VcStep(m, p, i, hold, now).1 == hold
  {
    hide SizedOut, PassedFlit, Room, IsAck;
    assert i == ACK_VCH;
  }

  lemma PassInput(r: RouterState, m: RouterState, p: nat, i: nat, now: nat)
    requires Sized(r) && Sized(m) && p < PORTS && i < VCH_SIZE && InputUpto(r, m, p, i, now)
    requires r.ins[p].granted == i && Passing(r, p)
    ensures m.ins[p].vcs[i].ibuf != [] && InputUpto(r, Traverse(m, p, i, now), p, i + 1, now)
  {
    hide SizedOut, Room;
  }

  lemma PassLocks(r: RouterState, m: RouterState, p: nat, i: nat, now: nat)
    requires Sized(r) && Sized(m) && p < PORTS && i < VCH_SIZE && LocksUpto(r, m, p, i)
    requires !Locks(r, p, i) && m.ins[p].vcs[i].ibuf != []
    ensures LocksUpto(r, Traverse(m, p, i, now), p, i + 1)
  {
    hide SizedOut, SizedVcs, Locks;
  }

  lemma PassOutputs(r: RouterState, m: RouterState, p: nat, i: nat, now: nat)
    requires Sized(r) && Sized(m) && p < PORTS && i < VCH_SIZE && RestUpto(r, m, p, i)
    requires r.ins[p].granted == i && Passing(r, p) && m.ins[p].vcs[i] == r.ins[p].vcs[i]
    requires i == ACK_VCH ==> !AckWaits(r, p)
    ensures forall u: nat :: u < PORTS ==> Traverse(m, p, i, now).outs[u] == Served(r, p, u, i + 1)
  {
    hide AckWaits, LastPasses;
  }

  lemma PassRest(r: RouterState, m: RouterState, p: nat, i: nat, now: nat)
    requires Sized(r) && Sized(m) && p < PORTS && i < VCH_SIZE && RestUpto(r, m, p, i)
    requires r.ins[p].granted == i && Passing(r, p) && m.ins[p].vcs[i] == r.ins[p].vcs[i]
    requires i == ACK_VCH ==> !AckWaits(r, p)
    ensures RestUpto(r, Traverse(m, p, i, now), p, i + 1)
  {
    hide AckWaits, Served, SizedOut;
    PassOutputs(r, m, p, i, now);
  }

  lemma StepPass(r: RouterState, m: RouterState, p: nat, i: nat, hold: bool, now: nat)
    requires Sized(r) && Sized(m) && p < PORTS && i < VCH_SIZE && Upto(r, m, p, i, now) && Regular(r, p)
    requires Data(r, p, i) && r.ins[p].vcs[i].state == ST
    ensures Upto(r, VcStep(m, p, i, hold, now).0, p, i + 1, now) && VcStep(m, p, i, hold, now).1
  {
    hide SizedOut, Room, InputUpto, LocksUpto, RestUpto, Traverse;
    VcKept(r, m, p, i, now);
    PassInput(r, m, p, i, now);
    PassLocks(r, m, p, i, now);
    PassRest(r, m, p, i, now);
  }

  lemma RoomKept(r: RouterState, m: RouterState, p: nat, i: nat)
    requires Sized(r) && Sized(m) && p < PORTS && i < VCH_SIZE && RestUpto(r, m, p, i) && m.ins[p].vcs[i] == r.ins[p].vcs[i]
    ensures Admits(m, p, i, m.ins[p].vcs[i].port) <==> Room(r, p, i)
  {
    hide Passing, PassedFlit, LastPasses, AckWaits;
  }

  lemma AllotLocks(r: RouterState, m: RouterState, p: nat, i: nat)
    requires Sized(r) && Sized(m) && p < PORTS && i < VCH_SIZE && LocksUpto(r, m, p, i) && m.ins[p].vcs[i] == r.ins[p].vcs[i]
    requires Admits(m, p, i, m.ins[p].vcs[i].port) <==> Room(r, p, i)
    requires Wants(r, p, i) && (i == r.ins[p].granted || Busy(r, p, i))
    ensures LocksUpto(r, Allocate(m, p, i), p, i + 1)
    ensures var q := r.ins[p].vcs[i].port;
            Room(r, p, i) ==> (Allocate(m, p, i).lock[q] == p as int <==> r.lock[q] == NOBODY || r.lock[q] == p as int)
  {
    hide SizedOut, Busy, Wants, Room, Admits;
  }

  lemma AllotInput(r: RouterState, m: RouterState, p: nat, i: nat, now: nat)
    requires Sized(r) && Sized(m) && p < PORTS && i < VCH_SIZE && InputUpto(r, m, p, i, now)
    requires Admits(m, p, i, m.ins[p].vcs[i].port) <==> Room(r, p, i)
    requires Wants(r, p, i) && (i == r.ins[p].granted || Busy(r, p, i))
    requires var q := r.ins[p].vcs[i].port;
             Room(r, p, i) ==> (Allocate(m, p, i).lock[q] == p as int <==> r.lock[q] == NOBODY || r.lock[q] == p as int)
    ensures InputUpto(r, Allocate(m, p, i), p, i + 1, now)
    ensures i == r.ins[p].granted ==> (Allocate(m, p, i).ins[p].vcs[i].state == ST <==> Allotted(r, p))
  {
    hide SizedOut, Busy, Room, Admits;
  }

  lemma AllotRest(r: RouterState, m: RouterState, p: nat, i: nat)
    requires Sized(r) && Sized(m) && p < PORTS && i < VCH_SIZE && RestUpto(r, m, p, i) && Wants(r, p, i)
    ensures RestUpto(r, Allocate(m, p, i), p, i + 1)
  {
    hide Admits, PassedFlit, Room, SizedOut;
    ServedAlone(r, p, i);
  }

  lemma StepAllot(r: RouterState, m: RouterState, p: nat, i: nat, hold: bool, now: nat)
    requires Sized(r) && Sized(m) && p < PORTS && i < VCH_SIZE && Upto(r, m, p, i, now) && Regular(r, p)
    requires Wants(r, p, i) && (i == r.ins[p].granted || hold) && hold == Busy(r, p, i)
    ensures Upto(r, VcStep(m, p, i, hold, now).0, p, i + 1, now)
    ensures VcStep(m, p, i, hold, now).1 == (hold || Allotted(r, p))
  {
    hide SizedOut, Room, InputUpto, LocksUpto, RestUpto, Allocate, Busy, Allotted, Admits, Regular;
    VcKept(r, m, p, i, now);
    RoomKept(r, m, p, i);
    AllotLocks(r, m, p, i);
    AllotInput(r, m, p, i, now);
    AllotRest(r, m, p, i);
  }

  lemma StepMeans(r: RouterState, m: RouterState, p: nat, i: nat, hold: bool, now: nat)
    requires Sized(r) && Sized(m) && p < PORTS && i < VCH_SIZE && Upto(r, m, p, i, now) && Regular(r, p) && hold == Busy(r, p, i)
    ensures Upto(r, VcStep(m, p, i, hold, now).0, p, i + 1, now) && VcStep(m, p, i, hold, now).1 == Busy(r, p, i + 1)
  {
    hide Upto, Busy, VcStep, SizedOut, Allotted;
    BusyNext(r, p, i);
    var vc := r.ins[p].vcs[i];
    VcKept(r, m, p, i, now);
    if vc.ibuf == [] {
      StepEmpty(r, m, p, i, now);
      EmptyStep(m, p, i, hold, now);
    } else if IsAck(vc.ibuf[0]) {
      StepAck(r, m, p, i, hold, now);
    } else if vc.state == ST {
      StepPass(r, m, p, i, hold, now);
    } else if vc.state == RC {
      StepRoute(r, m, p, i, hold, now);
    } else if i != r.ins[p].granted && !hold {
      StepAsk(r, m, p, i, now);
    } else {
      StepAllot(r, m, p, i, hold, now);
    }
    GrantedOnly(r, p, i);
  }

  lemma EmptyStep(m: RouterState, p: nat, i: nat, hold: bool, now: nat)
    requires Sized(m) && p < PORTS && i < VCH_SIZE && m.ins[p].vcs[i].ibuf == []
    ensures VcStep(m, p, i, hold, now) == (m, hold)
  {
  }

  /** What is said of the granted channel, said of channel i. */
  lemma GrantedOnly(r: RouterState, p: nat, i: nat)
    requires Sized(r) && p < PORTS && i < VCH_SIZE && Regular(r, p)
    ensures Data(r, p, i) && r.ins[p].vcs[i].state == ST ==> i == r.ins[p].granted && Passing(r, p)
    ensures i == r.ins[p].granted && !(Data(r, p, i) && r.ins[p].vcs[i].state == ST) ==> !Passing(r, p)
    ensures i == r.ins[p].granted && !Wants(r, p, i) ==> !Allotted(r, p)
  {
    hide SizedOut, Room;
  }

  lemma {:induction false} LoopMeans(r: RouterState, m: RouterState, p: nat, i: nat, hold: bool, now: nat)
    requires Sized(r) && Sized(m) && p < PORTS && i <= VCH_SIZE && Upto(r, m, p, i, now) && Regular(r, p) && hold == Busy(r, p, i)
    ensures Upto(r, VcLoop(m, p, i, hold, now), p, VCH_SIZE, now)
    decreases VCH_SIZE - i
  {
    hide Upto, Busy, VcStep, SizedOut, SizedVcs, Regular;
    if i < VCH_SIZE {
      StepMeans(r, m, p, i, hold, now);
      LoopMeans(r, VcStep(m, p, i, hold, now).0, p, i + 1, VcStep(m, p, i, hold, now).1, now);
    }
  }

  // ---- a whole cycle of the input ----

  /** The flit that arrives on channel j. */
  function Arriving(r: RouterState, p: nat, j: nat): seq<Flit>
    requires Sized(r) && p < PORTS
  {
    if r.wires[p] != [] && r.wires[p][0].vch == j then [r.wires[p][0].flit] else []
  }

  /** Nobody holds the input, and nobody has let go of it in this cycle. */
  predicate Free(r: RouterState, p: nat, now: nat)
    requires Sized(r) && p < PORTS
  {
    !r.ins[p].holding && !Allotted(r, p) && !LastPasses(r, p) && now > r.ins[p].releaseTime
  }

  /** Channel j is the lowest that asks or has been asking. */
  predicate FirstInLine(r: RouterState, p: nat, j: nat)
    requires Sized(r) && p < PORTS && j < VCH_SIZE
  {
    Handled(r, p, j).pending && forall i: nat :: i < j ==> !Handled(r, p, i).pending
  }

  /** What a cycle of input p does to the input itself, ... */
  predicate OwnAfter(r: RouterState, r': RouterState, p: nat, now: nat)
    requires Sized(r) && Sized(r') && p < PORTS
  {
    var before, after := r.ins[p], r'.ins[p];
    && (forall a: nat :: a < PORTS && a != p ==> r'.ins[a] == r.ins[a])
    && after.holding == (if LastPasses(r, p) then false else before.holding || Allotted(r, p))
    && after.releaseTime == (if LastPasses(r, p) then now else before.releaseTime)
    && (forall j: nat :: j < VCH_SIZE ==>
          && after.vcs[j] == Handled(r, p, j).(ibuf := Handled(r, p, j).ibuf + Arriving(r, p, j), pending := after.vcs[j].pending)
          && (after.vcs[j].pending <==> Handled(r, p, j).pending && !(Free(r, p, now) && FirstInLine(r, p, j))))
    && (forall j: nat :: j < VCH_SIZE && Free(r, p, now) && FirstInLine(r, p, j) ==> after.granted == j)
    && (!Free(r, p, now) || (forall j: nat :: j < VCH_SIZE ==> !FirstInLine(r, p, j)) ==> after.granted == before.granted)
  }

  /** ... and to everything else. */
  predicate RestAfter(cfg: Config, r: RouterState, r': RouterState, p: nat)
    requires Sized(r) && Sized(r') && p < PORTS
  {
    var before, after := r.ins[p], r'.ins[p];
    && LocksUpto(r, r', p, VCH_SIZE)
    && (forall u: nat :: u < PORTS ==> r'.outs[u] == Served(r, p, u, VCH_SIZE))
    && r'.closing == (if LastPasses(r, p) then r.closing[before.vcs[before.granted].port := true] else r.closing)
    && r'.log == (if Passing(r, p) then r.log + [Sent(p, before.granted, before.vcs[before.granted].port, PassedFlit(r, p))] else r.log)
    && r'.wires == (if r.wires[p] == [] then r.wires else r.wires[p := r.wires[p][1..]])
    && r'.out == r.out && r'.id == r.id
    && (p != LOCAL_PORT ==> r'.localReady == r.localReady)
    && (p == LOCAL_PORT ==>
          && |r'.localReady| == VCH_SIZE
          && forall j: nat :: j < VCH_SIZE ==> (r'.localReady[j] <==> |after.vcs[j].ibuf| + cfg.packetMax <= cfg.bufMax))
  }

  predicate InputAfter(cfg: Config, r: RouterState, r': RouterState, p: nat, now: nat)
    requires Sized(r) && Sized(r') && p < PORTS
  {
    OwnAfter(r, r', p, now) && RestAfter(cfg, r, r', p)
  }

  lemma FirstPendingIs(vcs: seq<Vc>, i: nat)
    requires i <= |vcs|
    ensures forall k :: i <= k < FirstPending(vcs, i) ==> !vcs[k].pending
    decreases |vcs| - i
  {
    if i < |vcs| && !vcs[i].pending { FirstPendingIs(vcs, i + 1); }
  }

  /** The loop, as a state: what Receive, the ready signals and arbitration start from. */
  predicate AfterLoop(r: RouterState, m: RouterState, p: nat, now: nat)
    requires Sized(r) && Sized(m) && p < PORTS
  {
    var before, after := r.ins[p], m.ins[p];
    && (forall a: nat :: a < PORTS && a != p ==> m.ins[a] == r.ins[a])
    && after.granted == before.granted
    && after.holding == (if LastPasses(r, p) then false else before.holding || Allotted(r, p))
    && after.releaseTime == (if LastPasses(r, p) then now else before.releaseTime)
    && forall j: nat :: j < VCH_SIZE ==> after.vcs[j] == Handled(r, p, j)
  }

  lemma LoopDone(r: RouterState, p: nat, now: nat)
    requires Sized(r) && p < PORTS && Regular(r, p)
    ensures var m := VcLoop(r, p, 0, false, now);
            AfterLoop(r, m, p, now) && LocksUpto(r, m, p, VCH_SIZE) && RestUpto(r, m, p, VCH_SIZE)
  {
    hide VcLoop, LocksUpto, RestUpto, Handled, Allotted, LastPasses, SizedOut, Regular;
    UptoStart(r, p, now);
    NotBusy(r, p);
    LoopMeans(r, r, p, 0, false, now);
  }

  lemma NotBusy(r: RouterState, p: nat)
    requires Sized(r) && p < PORTS
    ensures !Busy(r, p, 0)
  {
    hide Active, Wants;
  }

  lemma ReceiveMeans(m: RouterState, p: nat)
    requires Sized(m) && p < PORTS
    ensures var r := Receive(m, p);
            && (forall a: nat :: a < PORTS && a != p ==> r.ins[a] == m.ins[a])
            && r.ins[p] == m.ins[p].(vcs := r.ins[p].vcs)
            && (forall j: nat :: j < VCH_SIZE ==>
                  r.ins[p].vcs[j] == m.ins[p].vcs[j].(ibuf := m.ins[p].vcs[j].ibuf + Arriving(m, p, j)))
            && r == m.(ins := r.ins, wires := if m.wires[p] == [] then m.wires else m.wires[p := m.wires[p][1..]])
  {
    hide SizedOut;
  }

  lemma ArbitrateMeans(m: RouterState, p: nat, now: nat)
    requires Sized(m) && p < PORTS
    ensures var r := Arbitrate(m, p, now);
            var free := !m.ins[p].holding && now > m.ins[p].releaseTime;
            && (forall a: nat :: a < PORTS && a != p ==> r.ins[a] == m.ins[a])
            && r == m.(ins := r.ins) && r.ins[p] == m.ins[p].(vcs := r.ins[p].vcs, granted := r.ins[p].granted)
            && (forall j: nat :: j < VCH_SIZE ==>
                  var first := m.ins[p].vcs[j].pending && forall i: nat :: i < j ==> !m.ins[p].vcs[i].pending;
                  && r.ins[p].vcs[j] == m.ins[p].vcs[j].(pending := m.ins[p].vcs[j].pending && !(free && first))
                  && (free && first ==> r.ins[p].granted == j))
            && (!free || (forall j: nat :: j < VCH_SIZE ==> !m.ins[p].vcs[j].pending) ==> r.ins[p].granted == m.ins[p].granted)
  {
    hide SizedOut;
    FirstPendingIs(m.ins[p].vcs, 0);
  }

  lemma SomeFirst(r: RouterState, p: nat, j: nat)
    requires Sized(r) && p < PORTS && j < VCH_SIZE && Handled(r, p, j).pending
    ensures exists i: nat :: i < VCH_SIZE && FirstInLine(r, p, i)
    decreases j
  {
    hide Handled, SizedOut;
    if i: nat :| i < j && Handled(r, p, i).pending {
      SomeFirst(r, p, i);
    } else {
      assert FirstInLine(r, p, j);
    }
  }

  /** Between the loop and arbitration: one flit has been received. */
  function Received(cfg: Config, r: RouterState, p: nat, now: nat): (m: RouterState)
    requires Sized(r) && p < PORTS
    ensures Sized(m)
  {
    var n := Receive(VcLoop(r, p, 0, false, now), p);
    if p == LOCAL_PORT then LocalReady(cfg, n) else n
  }

  lemma ReceivedMeans(cfg: Config, r: RouterState, p: nat, now: nat)
    requires Sized(r) && p < PORTS && Regular(r, p)
    ensures var m, l := VcLoop(r, p, 0, false, now), Received(cfg, r, p, now);
            && (forall a: nat :: a < PORTS && a != p ==> l.ins[a] == r.ins[a])
            && l.ins[p] == m.ins[p].(vcs := l.ins[p].vcs)
            && (forall j: nat :: j < VCH_SIZE ==>
                  l.ins[p].vcs[j] == Handled(r, p, j).(ibuf := Handled(r, p, j).ibuf + Arriving(r, p, j)))
            && AfterLoop(r, m, p, now)
  {
    hide VcLoop, Receive, Handled, Allotted, LastPasses, Regular, SizedOut, Arriving, LocksUpto, RestUpto;
    var m := VcLoop(r, p, 0, false, now);
    LoopDone(r, p, now);
    ReceiveMeans(m, p);
    WiresKept(r, m, p);
    SameArrival(r, m, p);
  }

  lemma WiresKept(r: RouterState, m: RouterState, p: nat)
    requires Sized(r) && Sized(m) && p < PORTS && RestUpto(r, m, p, VCH_SIZE)
    ensures m.wires == r.wires
  {
    hide Served, LastPasses, Passing, SizedOut;
  }

  lemma OwnMeans(cfg: Config, r: RouterState, p: nat, now: nat)
    requires Sized(r) && p < PORTS && Regular(r, p)
    ensures OwnAfter(r, InputStep(cfg, r, p, now), p, now)
  {
    hide VcLoop, Receive, Received, LocalReady, Arbitrate, Handled, Allotted, LastPasses, Regular, SizedOut, Arriving;
    var l := Received(cfg, r, p, now);
    InputStepIs(cfg, r, p, now);
    ReceivedMeans(cfg, r, p, now);
    ArbitrateMeans(l, p, now);
    forall j: nat | j < VCH_SIZE && Handled(r, p, j).pending
      ensures exists i: nat :: i < VCH_SIZE && FirstInLine(r, p, i)
    {
      SomeFirst(r, p, j);
    }
  }

  lemma InputStepIs(cfg: Config, r: RouterState, p: nat, now: nat)
    requires Sized(r) && p < PORTS
    ensures InputStep(cfg, r, p, now) == Arbitrate(Received(cfg, r, p, now), p, now)
  {
  }

  lemma RestMeans(cfg: Config, r: RouterState, p: nat, now: nat)
    requires Sized(r) && p < PORTS && Regular(r, p)
    ensures RestAfter(cfg, r, InputStep(cfg, r, p, now), p)
  {
    hide VcLoop, Receive, Arbitrate, LocksUpto, Served, Handled, LastPasses, Passing, PassedFlit, Regular, SizedOut, Arriving;
    var m := VcLoop(r, p, 0, false, now);
    LoopDone(r, p, now);
    ReceiveMeans(m, p);
    var n := Receive(m, p);
    ArbitrateMeans(if p == LOCAL_PORT then LocalReady(cfg, n) else n, p, now);
    LocksSame(r, m, InputStep(cfg, r, p, now), p);
  }

  /** Every cycle of an input channel. */
  lemma InputMeans(cfg: Config, r: RouterState, p: nat, now: nat)
    requires Sized(r) && p < PORTS && Regular(r, p)
    ensures InputAfter(cfg, r, InputStep(cfg, r, p, now), p, now)
  {
    hide OwnAfter, RestAfter, InputStep, Regular;
    OwnMeans(cfg, r, p, now);
    RestMeans(cfg, r, p, now);
  }

  lemma SameArrival(r: RouterState, m: RouterState, p: nat)
    requires Sized(r) && Sized(m) && p < PORTS && m.wires == r.wires
    ensures forall j: nat :: Arriving(m, p, j) == Arriving(r, p, j)
  {
    hide SizedOut, SizedVcs;
  }

  lemma LocksSame(r: RouterState, m: RouterState, m': RouterState, p: nat)
    requires Sized(r) && Sized(m) && Sized(m') && p < PORTS && LocksUpto(r, m, p, VCH_SIZE) && m'.lock == m.lock
    ensures LocksUpto(r, m', p, VCH_SIZE)
  {
    hide Locks;
  }

  // ---- a whole cycle of the router ----

  /** An output closed in this cycle is free in the next; the other locks stay. */
  predicate Freed(z: RouterState, r': RouterState)
    requires Sized(z) && Sized(r')
  {
    && (forall q: nat :: q < PORTS ==> r'.lock[q] == (if z.closing[q] then NOBODY else z.lock[q]) && !r'.closing[q])
    && r' == z.(lock := r'.lock, closing := r'.closing)
  }

  lemma RegularAtRest(r: RouterState, o: RouterState, p: nat)
    requires Sized(r) && Sized(o) && p < PORTS && AtRest(r) && AcksOnZero(r) && o.ins[p] == r.ins[p]
    ensures Regular(o, p)
  {
    hide SizedOut;
    forall j: nat | j < VCH_SIZE && r.ins[p].vcs[j].state == ST
      ensures r.ins[p].granted == j
    {
      assert Streaming(r, p, j);
    }
    forall j: nat | 0 < j < VCH_SIZE && r.ins[p].vcs[j].ibuf != []
      ensures !IsAck(r.ins[p].vcs[j].ibuf[0])
    {
    }
  }

  lemma OutputsKeepInputs(cfg: Config, r: RouterState, now: nat)
    requires Sized(r)
    ensures OutputsOnly(cfg, r, now).ins == r.ins
  {
    hide OutputStep, SizedOut, SizedVcs;
  }

  lemma OthersKept(cfg: Config, r: RouterState, r': RouterState, p: nat, now: nat)
    requires Sized(r) && Sized(r') && p < PORTS && InputAfter(cfg, r, r', p, now)
    ensures forall a: nat :: a < PORTS && a != p ==> r'.ins[a] == r.ins[a]
  {
    hide SizedOut, RestAfter, Handled, LastPasses, Allotted, Free, FirstInLine, Arriving;
  }

  /** Every cycle of a router: the inputs one after the other, each as InputAfter
      says, from what the outputs leave (see RouterAcks), and then the closed
      outputs become free. */
  lemma RouterMeans(cfg: Config, r: RouterState, now: nat)
    requires Sized(r) && AtRest(r) && AcksOnZero(r)
    ensures exists x, y, z ::
              && Sized(x) && Sized(y) && Sized(z)
              && InputAfter(cfg, OutputsOnly(cfg, r, now), x, LOCAL_PORT, now)
              && InputAfter(cfg, x, y, UPPER_PORT, now)
              && InputAfter(cfg, y, z, LOWER_PORT, now)
              && Freed(z, RouterStep(cfg, r, now))
  {
    hide OutputPhase, InputStep, InputAfter, SizedOut, SizedVcs, Regular, AtRest, AcksOnZero;
    var o := OutputsOnly(cfg, r, now);
    OutputsKeepInputs(cfg, r, now);
    RegularAtRest(r, o, LOCAL_PORT);
    var x := InputStep(cfg, o, LOCAL_PORT, now);
    InputMeans(cfg, o, LOCAL_PORT, now);
    OthersKept(cfg, o, x, LOCAL_PORT, now);
    RegularAtRest(r, x, UPPER_PORT);
    var y := InputStep(cfg, x, UPPER_PORT, now);
    InputMeans(cfg, x, UPPER_PORT, now);
    OthersKept(cfg, x, y, UPPER_PORT, now);
    RegularAtRest(r, y, LOWER_PORT);
    var z := InputStep(cfg, y, LOWER_PORT, now);
    InputMeans(cfg, y, LOWER_PORT, now);
    assert Freed(z, RouterStep(cfg, r, now));
  }
}
