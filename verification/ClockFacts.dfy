/** What the clock's queue holds, deadline by deadline: a sorted queue is known by
    the tasks that are due at each moment, in their order. */
module ClockFacts {
  import opened ClockModel

  /** The tasks due at d, in order. */
  function DueAt(q: seq<Item>, d: int): seq<Task> {
    if q == [] then [] else (if q[0].deadline == d then [q[0].task] else []) + DueAt(q[1..], d)
  }

  /** What a task adds when it runs at time `now`, of which `due` comes due at d. */
  function AddedAt(spawns: seq<Spawn>, now: int, d: int): seq<Task> {
    if spawns == [] then []
    else (if now + spawns[0].delay == d then [spawns[0].task] else []) + AddedAt(spawns[1..], now, d)
  }

  /** A sorted queue is determined by what is due at each moment. */
  lemma {:induction false} Determined(a: seq<Item>, b: seq<Item>)
    requires Sorted(a) && Sorted(b) && forall d :: DueAt(a, d) == DueAt(b, d)
    ensures a == b
    decreases |a|
  {
    EmptyIff(a, b);
    if a != [] {
      SameFirst(a, b);
      forall d
        ensures DueAt(a[1..], d) == DueAt(b[1..], d)
      {
        SameRest(a, b, d);
      }
      Determined(a[1..], b[1..]);
    }
  }

  lemma EmptyIff(a: seq<Item>, b: seq<Item>)
    requires forall d :: DueAt(a, d) == DueAt(b, d)
    ensures a == [] <==> b == []
  {
    if a != [] { Rest(a, a[0].deadline); }
    if b != [] { Rest(b, b[0].deadline); }
  }

  lemma Rest(q: seq<Item>, d: int)
    requires q != [] && q[0].deadline == d
    ensures DueAt(q, d) != [] && DueAt(q, d)[0] == q[0].task && DueAt(q[1..], d) == DueAt(q, d)[1..]
  {
  }

  lemma SameRest(a: seq<Item>, b: seq<Item>, d: int)
    requires a != [] && b != [] && a[0] == b[0] && DueAt(a, d) == DueAt(b, d)
    ensures DueAt(a[1..], d) == DueAt(b[1..], d)
  {
    if a[0].deadline == d {
      Rest(a, d);
      Rest(b, d);
    } else {
      assert DueAt(a, d) == DueAt(a[1..], d) && DueAt(b, d) == DueAt(b[1..], d);
    }
  }

  lemma NoneEarlier(q: seq<Item>, d: int)
    requires q != [] && Sorted(q)
    ensures DueAt(q, d) != [] ==> q[0].deadline <= d
  {
    if d < q[0].deadline {
      NoneBefore(q, d);
    }
  }

  lemma SameFirst(a: seq<Item>, b: seq<Item>)
    requires a != [] && b != [] && Sorted(a) && Sorted(b) && forall d :: DueAt(a, d) == DueAt(b, d)
    ensures a[0] == b[0]
  {
    Rest(a, a[0].deadline);
    Rest(b, b[0].deadline);
    NoneEarlier(b, a[0].deadline);
    NoneEarlier(a, b[0].deadline);
  }

  lemma {:induction false} NoneBefore(q: seq<Item>, d: int)
    requires forall i :: 0 <= i < |q| ==> q[i].deadline > d
    ensures DueAt(q, d) == []
  {
    if q != [] { NoneBefore(q[1..], d); }
  }

  /** A new task is due at its deadline, behind all that are due then. */
  lemma {:induction false} InsertMeans(q: seq<Item>, x: Item, d: int)
    requires Sorted(q)
    ensures Sorted(Insert(q, x))
    ensures DueAt(Insert(q, x), d) == DueAt(q, d) + if x.deadline == d then [x.task] else []
  {
    hide Insert;
    InsertSorted(q, x);
    if q != [] && x.deadline >= q[0].deadline {
      InsertMeans(q[1..], x, d);
      InsertBeyond(q, x, d);
      var first: seq<Task> := if q[0].deadline == d then [q[0].task] else [];
      Associate(first, DueAt(q[1..], d), if x.deadline == d then [x.task] else []);
    } else {
      InsertAhead(q, x, d);
      if x.deadline == d { NoneBefore(q, d); }
    }
  }

  lemma InsertAhead(q: seq<Item>, x: Item, d: int)
    requires q == [] || x.deadline < q[0].deadline
    ensures DueAt(Insert(q, x), d) == (if x.deadline == d then [x.task] else []) + DueAt(q, d)
  {
    assert ([x] + q)[1..] == q;
  }

  lemma InsertBeyond(q: seq<Item>, x: Item, d: int)
    requires q != [] && x.deadline >= q[0].deadline
    ensures DueAt(Insert(q, x), d) == (if q[0].deadline == d then [q[0].task] else []) + DueAt(Insert(q[1..], x), d)
  {
    var r := [q[0]] + Insert(q[1..], x);
    assert r[1..] == Insert(q[1..], x) && r[0] == q[0];
  }

  /** Tasks that are added come behind what is due at the same moment, in the order
      in which they are added. */
  lemma {:induction false} AddedMeans(q: seq<Item>, now: int, spawns: seq<Spawn>, d: int)
    requires Sorted(q)
    ensures Sorted(InsertAll(q, now, spawns))
    ensures DueAt(InsertAll(q, now, spawns), d) == DueAt(q, d) + AddedAt(spawns, now, d)
    decreases |spawns|
  {
    hide Insert, Sorted, DueAt;
    if spawns != [] {
      var x := Item(now + spawns[0].delay, spawns[0].task);
      InsertMeans(q, x, d);
      AddedMeans(Insert(q, x), now, spawns[1..], d);
      var one: seq<Task> := if x.deadline == d then [x.task] else [];
      Associate(DueAt(q, d), one, AddedAt(spawns[1..], now, d));
    }
  }

  lemma Associate(a: seq<Task>, b: seq<Task>, c: seq<Task>)
    ensures (a + b) + c == a + (b + c)
  {
  }

  lemma {:induction false} DueAtJoin(a: seq<Item>, b: seq<Item>, d: int)
    ensures DueAt(a + b, d) == DueAt(a, d) + DueAt(b, d)
  {
    if a == [] {
      assert a + b == b;
    } else {
      assert (a + b)[1..] == a[1..] + b;
      DueAtJoin(a[1..], b, d);
    }
  }

  lemma {:induction false} NoneAfter(q: seq<Item>, d: int)
    requires forall i :: 0 <= i < |q| ==> q[i].deadline < d
    ensures DueAt(q, d) == []
  {
    if q != [] { NoneAfter(q[1..], d); }
  }

  /** A call, moment by moment: nothing is left that is due by the new time, and at
      every later moment there is what was there before and then what the tasks
      that ran have added, task after task. */
  lemma CallMeans(time: int, groups: seq<Group>, nanoseconds: int, d: int)
    requires nanoseconds > 0 && Delays(groups, 0) && AllLater(Items(time, groups))
    ensures var now := time + nanoseconds;
            var ran := Tasks(Items(time, groups)[..DueCount(Items(time, groups), now)]);
            && RunDue(Items(time, groups), now).1 == ran
            && DueAt(RunDue(Items(time, groups), now).0, d) ==
                 if d <= now then [] else DueAt(Items(time, groups), d) + AddedAt(Spawned(ran), now, d)
  {
    hide Positive, Items, RunDue, InsertAll, Insert, Later, Tasks, AddedAt, Spawned, DueCount;
    var q, now := Items(time, groups), time + nanoseconds;
    var n := DueCount(q, now);
    CallRunsTheDue(time, groups, nanoseconds);
    ListIsSorted(time, groups);
    assert q == q[..n] + q[n..];
    AddedMeans(q[n..], now, Spawned(Tasks(q[..n])), d);
    DueAtJoin(q[..n], q[n..], d);
    if d <= now {
      NoneBefore(q[n..], d);
      SpawnedPositive(q, n);
      NothingAtOnce(Spawned(Tasks(q[..n])), now, d);
    } else {
      NoneAfter(q[..n], d);
    }
  }

  /** Nothing that the tasks add comes due at once. */
  lemma {:induction false} NothingAtOnce(spawns: seq<Spawn>, now: int, d: int)
    requires Positive(spawns) && d <= now
    ensures AddedAt(spawns, now, d) == []
  {
    if spawns != [] { NothingAtOnce(spawns[1..], now, d); }
  }

  lemma {:induction false} SpawnedPositive(q: seq<Item>, n: nat)
    requires AllLater(q) && n <= |q|
    ensures Positive(Spawned(Tasks(q[..n])))
    decreases |q|
  {
    hide Later;
    if n > 0 {
      LaterSpawns(q[0].task);
      assert Tasks(q[..n])[0] == q[0].task;
      assert Tasks(q[..n])[1..] == Tasks(q[1..][..n - 1]);
      SpawnedPositive(q[1..], n - 1);
    } else {
      assert Tasks(q[..n]) == [];
    }
  }
}
