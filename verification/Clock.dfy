/** The deferred-task queue: a list of delays, each relative to the one before,
    against a plain list of deadlines.  Running a task may add further tasks. */
module ClockModel {

  /** A task: what it adds to the queue when it runs, in order. */
  datatype Task = Task(name: nat, spawns: seq<Spawn>)

  datatype Spawn = Spawn(delay: nat, task: Task)

  /** DeferredTasks: tasks that come due together, `left` nanoseconds after the
      group before them. */
  datatype Group = Group(left: int, tasks: seq<Task>)

  /** A task with its absolute deadline. */
  datatype Item = Item(deadline: int, task: Task)

  // ---- the reference: a list of deadlines ----

  predicate Sorted(q: seq<Item>) { forall i, j :: 0 <= i < j < |q| ==> q[i].deadline <= q[j].deadline }

  /** A new item goes behind all that are due no later. */
  function Insert(q: seq<Item>, x: Item): (r: seq<Item>)
    ensures |r| == |q| + 1
  {
    if q == [] || x.deadline < q[0].deadline then [x] + q else [q[0]] + Insert(q[1..], x)
  }

  /** Adding the spawned tasks at time `now`. */
  function InsertAll(q: seq<Item>, now: int, spawns: seq<Spawn>): seq<Item>
    decreases |spawns|
  {
    if spawns == [] then q
    else InsertAll(Insert(q, Item(now + spawns[0].delay, spawns[0].task)), now, spawns[1..])
  }

  /** The items due by `now` at the front of the queue. */
  function DueCount(q: seq<Item>, now: int): (n: nat)
    ensures n <= |q|
  {
    if q == [] || q[0].deadline > now then 0 else 1 + DueCount(q[1..], now)
  }

  /** Tasks are added for later, never for the present. */
  predicate Later(t: Task) { forall k :: 0 <= k < |t.spawns| ==> t.spawns[k].delay > 0 && Later(t.spawns[k].task) }

  predicate AllLater(q: seq<Item>) { forall k :: 0 <= k < |q| ==> Later(q[k].task) }

  lemma {:induction false} InsertKeepsDue(q: seq<Item>, x: Item, now: int)
    requires x.deadline > now
    ensures DueCount(Insert(q, x), now) == DueCount(q, now)
  {
    if q == [] {
    } else if x.deadline < q[0].deadline {
      assert ([x] + q)[0] == x;
    } else {
      InsertKeepsDue(q[1..], x, now);
      assert ([q[0]] + Insert(q[1..], x))[1..] == Insert(q[1..], x);
    }
  }

  lemma {:induction false} InsertAllKeepsDue(q: seq<Item>, now: int, spawns: seq<Spawn>)
    requires forall k :: 0 <= k < |spawns| ==> spawns[k].delay > 0
    ensures DueCount(InsertAll(q, now, spawns), now) == DueCount(q, now)
    decreases |spawns|
  {
    if spawns != [] {
      InsertKeepsDue(q, Item(now + spawns[0].delay, spawns[0].task), now);
      InsertAllKeepsDue(Insert(q, Item(now + spawns[0].delay, spawns[0].task)), now, spawns[1..]);
    }
  }

  lemma {:induction false} InsertKeepsLater(q: seq<Item>, x: Item)
    requires AllLater(q) && Later(x.task)
    ensures AllLater(Insert(q, x))
  {
    if q != [] && x.deadline >= q[0].deadline {
      InsertKeepsLater(q[1..], x);
    }
  }

  lemma {:induction false} InsertAllKeepsLater(q: seq<Item>, now: int, spawns: seq<Spawn>)
    requires AllLater(q) && forall k :: 0 <= k < |spawns| ==> Later(spawns[k].task)
    ensures AllLater(InsertAll(q, now, spawns))
    decreases |spawns|
  {
    if spawns != [] {
      InsertKeepsLater(q, Item(now + spawns[0].delay, spawns[0].task));
      InsertAllKeepsLater(Insert(q, Item(now + spawns[0].delay, spawns[0].task)), now, spawns[1..]);
    }
  }

  /** Run what is due by `now`, one task after the other. */
  function RunDue(q: seq<Item>, now: int): (r: (seq<Item>, seq<Task>))
    requires AllLater(q)
    decreases DueCount(q, now)
  {
    if q == [] || q[0].deadline > now then (q, [])
    else
      InsertAllKeepsDue(q[1..], now, q[0].task.spawns);
      InsertAllKeepsLater(q[1..], now, q[0].task.spawns);
      var (rest, ran) := RunDue(InsertAll(q[1..], now, q[0].task.spawns), now);
      (rest, [q[0].task] + ran)
  }

  // ---- what the reference does ----

  /** Insertion splits the queue behind the items due no later than the new one. */
  lemma {:induction false} InsertSplits(q: seq<Item>, x: Item)
    ensures var k := DueCount(q, x.deadline);
            Insert(q, x) == q[..k] + [x] + q[k..]
  {
    if q == [] || x.deadline < q[0].deadline {
    } else {
      InsertSplits(q[1..], x);
      var k := DueCount(q[1..], x.deadline);
      assert q[..k + 1] == [q[0]] + q[1..][..k];
      assert q[k + 1..] == q[1..][k..];
    }
  }

  /** A sorted queue stays sorted: among equal deadlines the new item is last. */
  lemma InsertSorted(q: seq<Item>, x: Item)
    requires Sorted(q)
    ensures Sorted(Insert(q, x))
  {
    var k := DueCount(q, x.deadline);
    InsertSplits(q, x);
    DueIsAllDue(q, x.deadline);
    SortedJoin(q, k, x);
  }

  lemma SortedJoin(q: seq<Item>, k: nat, x: Item)
    requires Sorted(q) && k <= |q|
    requires forall i :: 0 <= i < |q| ==> (q[i].deadline <= x.deadline <==> i < k)
    ensures Sorted(q[..k] + [x] + q[k..])
  {
    var r := q[..k] + [x] + q[k..];
    forall i, j | 0 <= i < j < |r|
      ensures r[i].deadline <= r[j].deadline
    {
      assert r[i] == if i < k then q[i] else if i == k then x else q[i - 1];
      assert r[j] == if j < k then q[j] else if j == k then x else q[j - 1];
    }
  }

  function Tasks(q: seq<Item>): seq<Task> { seq(|q|, i requires 0 <= i < |q| => q[i].task) }

  lemma {:induction false} InsertBehindDue(q: seq<Item>, x: Item, now: int)
    requires x.deadline > now
    ensures Insert(q, x)[..DueCount(q, now)] == q[..DueCount(q, now)]
  {
    if q != [] && q[0].deadline <= now {
      InsertBehindDue(q[1..], x, now);
      var n := DueCount(q[1..], now);
      assert Insert(q, x)[..n + 1] == [q[0]] + Insert(q[1..], x)[..n];
      assert q[..n + 1] == [q[0]] + q[1..][..n];
    }
  }

  lemma {:induction false} InsertAllBehindDue(q: seq<Item>, now: int, spawns: seq<Spawn>)
    requires forall k :: 0 <= k < |spawns| ==> spawns[k].delay > 0
    ensures DueCount(q, now) <= |InsertAll(q, now, spawns)|
    ensures InsertAll(q, now, spawns)[..DueCount(q, now)] == q[..DueCount(q, now)]
    decreases |spawns|
  {
    if spawns != [] {
      var x := Item(now + spawns[0].delay, spawns[0].task);
      InsertKeepsDue(q, x, now);
      InsertBehindDue(q, x, now);
      InsertAllBehindDue(Insert(q, x), now, spawns[1..]);
    }
  }

  /** A call runs exactly the tasks that were due when it began, each once, in
      the order of their deadlines and, among equals, of their arrival.  What
      they add is not run by the same call. */
  lemma {:induction false} RunsExactlyTheDue(q: seq<Item>, now: int)
    requires AllLater(q)
    ensures RunDue(q, now).1 == Tasks(q[..DueCount(q, now)])
    ensures RunDue(q, now).0 == [] || RunDue(q, now).0[0].deadline > now
    decreases DueCount(q, now)
  {
    if q == [] || q[0].deadline > now {
    } else {
      var q' := InsertAll(q[1..], now, q[0].task.spawns);
      InsertAllKeepsDue(q[1..], now, q[0].task.spawns);
      InsertAllKeepsLater(q[1..], now, q[0].task.spawns);
      InsertAllBehindDue(q[1..], now, q[0].task.spawns);
      RunsExactlyTheDue(q', now);
      var n := DueCount(q[1..], now);
      assert q'[..n] == q[1..][..n];
      assert q[..n + 1] == [q[0]] + q[1..][..n];
      assert Tasks(q[..n + 1]) == [q[0].task] + Tasks(q[1..][..n]);
    }
  }

  /** In a sorted queue the due items are all those whose deadline has come. */
  lemma {:induction false} DueIsAllDue(q: seq<Item>, now: int)
    requires Sorted(q)
    ensures forall i :: 0 <= i < |q| ==> (q[i].deadline <= now <==> i < DueCount(q, now))
  {
    if q != [] && q[0].deadline <= now {
      DueIsAllDue(q[1..], now);
      forall i | 0 <= i < |q|
        ensures q[i].deadline <= now <==> i < DueCount(q, now)
      {
        if i > 0 { assert q[i] == q[1..][i - 1]; }
      }
    }
  }

  // ---- the delta list ----

  /** The items of a group, its tasks in order. */
  function GroupItems(deadline: int, tasks: seq<Task>): seq<Item> {
    seq(|tasks|, i requires 0 <= i < |tasks| => Item(deadline, tasks[i]))
  }

  /** What a delta list stands for, counted from time `base`. */
  function Items(base: int, groups: seq<Group>): seq<Item>
    decreases |groups|
  {
    if groups == [] then []
    else GroupItems(base + groups[0].left, groups[0].tasks) + Items(base + groups[0].left, groups[1..])
  }

  /** Every delay from group i on is positive, and no group is empty. */
  predicate Delays(groups: seq<Group>, i: nat) {
    (forall k :: i <= k < |groups| ==> groups[k].left > 0) && (forall k :: 0 <= k < |groups| ==> groups[k].tasks != [])
  }

  /** add_deferred_task as a function on the list: `wait` is what is left of the
      delay when the search reaches the list. */
  function AddTo(groups: seq<Group>, wait: int, task: Task): seq<Group>
    decreases |groups|
  {
    if groups == [] then [Group(wait, [task])]
    else
      var g := groups[0];
      if wait - g.left < 0 then [Group(wait, [task]), g.(left := g.left - wait)] + groups[1..]
      else if wait - g.left == 0 then [g.(tasks := g.tasks + [task])] + groups[1..]
      else [g] + AddTo(groups[1..], wait - g.left, task)
  }

  lemma {:induction false} AllAfter(base: int, groups: seq<Group>)
    requires Delays(groups, 0)
    ensures forall k :: 0 <= k < |Items(base, groups)| ==> Items(base, groups)[k].deadline > base
    decreases |groups|
  {
    if groups != [] {
      AllAfter(base + groups[0].left, groups[1..]);
    }
  }

  /** Insertion in front of everything. */
  lemma InsertFirst(q: seq<Item>, x: Item)
    requires q == [] || x.deadline < q[0].deadline
    ensures Insert(q, x) == [x] + q
  {
  }

  /** Insertion behind a block that is due no later. */
  lemma {:induction false} InsertBehind(block: seq<Item>, q: seq<Item>, x: Item)
    requires forall k :: 0 <= k < |block| ==> block[k].deadline <= x.deadline
    ensures Insert(block + q, x) == block + Insert(q, x)
    decreases |block|
  {
    if block == [] {
      assert block + q == q;
    } else {
      InsertBehind(block[1..], q, x);
      assert (block + q)[1..] == block[1..] + q;
      assert block == [block[0]] + block[1..];
    }
  }

  lemma ItemsCons(base: int, g: Group, rest: seq<Group>)
    ensures Items(base, [g] + rest) == GroupItems(base + g.left, g.tasks) + Items(base + g.left, rest)
  {
    assert ([g] + rest)[1..] == rest;
  }

  lemma AddBefore(base: int, g: Group, rest: seq<Group>, wait: int, task: Task)
    requires 0 < wait < g.left && g.tasks != []
    ensures Items(base, [Group(wait, [task]), g.(left := g.left - wait)] + rest)
         == Insert(Items(base, [g] + rest), Item(base + wait, task))
  {
    hide Insert, Items;
    var g' := g.(left := g.left - wait);
    assert [Group(wait, [task]), g'] + rest == [Group(wait, [task])] + ([g'] + rest);
    ItemsCons(base, Group(wait, [task]), [g'] + rest);
    ItemsCons(base + wait, g', rest);
    ItemsCons(base, g, rest);
    assert GroupItems(base + wait, [task]) == [Item(base + wait, task)];
    InsertFirst(Items(base, [g] + rest), Item(base + wait, task));
  }

  lemma AddWith(base: int, g: Group, rest: seq<Group>, task: Task)
    requires Delays(rest, 0)
    ensures Items(base, [g.(tasks := g.tasks + [task])] + rest)
         == Insert(Items(base, [g] + rest), Item(base + g.left, task))
  {
    hide Insert, Items;
    var x := Item(base + g.left, task);
    var block, tail := GroupItems(base + g.left, g.tasks), Items(base + g.left, rest);
    ItemsCons(base, g, rest);
    ItemsCons(base, g.(tasks := g.tasks + [task]), rest);
    assert GroupItems(base + g.left, g.tasks + [task]) == block + [x];
    AllAfter(base + g.left, rest);
    InsertFirst(tail, x);
    InsertBehind(block, tail, x);
    assert block + ([x] + tail) == block + [x] + tail;
  }

  lemma AddBeyond(base: int, g: Group, rest: seq<Group>, added: seq<Group>, x: Item)
    requires x.deadline > base + g.left
    requires Items(base + g.left, added) == Insert(Items(base + g.left, rest), x)
    ensures Items(base, [g] + added) == Insert(Items(base, [g] + rest), x)
  {
    hide Insert, Items;
    ItemsCons(base, g, rest);
    ItemsCons(base, g, added);
    InsertBehind(GroupItems(base + g.left, g.tasks), Items(base + g.left, rest), x);
  }

  /** The list insertion is the insertion by deadline.  A group that is running
      may stand at the head with a delay of zero or less. */
  lemma {:induction false} AddRefines(base: int, groups: seq<Group>, wait: int, task: Task)
    requires wait > 0 && Delays(groups, 1)
    ensures Items(base, AddTo(groups, wait, task)) == Insert(Items(base, groups), Item(base + wait, task))
    decreases |groups|
  {
    hide Insert, Items;
    var x := Item(base + wait, task);
    if groups == [] {
      AddToNothing(base, wait, task);
    } else {
      var g, rest := groups[0], groups[1..];
      assert groups == [g] + rest;
      if wait - g.left < 0 {
        AddBefore(base, g, rest, wait, task);
      } else if wait - g.left == 0 {
        AddWith(base, g, rest, task);
      } else {
        AddRefines(base + g.left, rest, wait - g.left, task);
        AddBeyond(base, g, rest, AddTo(rest, wait - g.left, task), x);
      }
    }
  }

  lemma AddToCons(g: Group, rest: seq<Group>, wait: int, task: Task)
    ensures AddTo([g] + rest, wait, task)
         == if wait - g.left < 0 then [Group(wait, [task]), g.(left := g.left - wait)] + rest
            else if wait - g.left == 0 then [g.(tasks := g.tasks + [task])] + rest
            else [g] + AddTo(rest, wait - g.left, task)
  {
    assert ([g] + rest)[1..] == rest;
  }

  lemma PutBefore(groups: seq<Group>, i: nat, g: Group, g': Group)
    requires i < |groups|
    ensures var r := groups[..i] + [g] + groups[i..];
            r[i + 1] == groups[i] && r[i + 1 := g'] == groups[..i] + ([g, g'] + groups[i + 1..])
  {
  }

  lemma PutAt(groups: seq<Group>, i: nat, g: Group)
    requires i < |groups|
    ensures groups[i := g] == groups[..i] + ([g] + groups[i + 1..])
  {
  }

  lemma PassOver(groups: seq<Group>, i: nat, wait: int, task: Task)
    requires i < |groups|
    ensures AddTo(groups[i..], wait, task)
         == if wait - groups[i].left < 0 then
              [Group(wait, [task]), groups[i].(left := groups[i].left - wait)] + groups[i + 1..]
            else if wait - groups[i].left == 0 then
              [groups[i].(tasks := groups[i].tasks + [task])] + groups[i + 1..]
            else [groups[i]] + AddTo(groups[i + 1..], wait - groups[i].left, task)
    ensures forall s: seq<Group> :: groups[..i] + ([groups[i]] + s) == groups[..i + 1] + s
  {
    assert groups[i..] == [groups[i]] + groups[i + 1..];
    AddToCons(groups[i], groups[i + 1..], wait, task);
  }

  lemma AddToNothing(base: int, wait: int, task: Task)
    ensures AddTo([], wait, task) == [Group(wait, [task])]
    ensures Items(base, AddTo([], wait, task)) == Insert(Items(base, []), Item(base + wait, task))
  {
    assert GroupItems(base + wait, [task]) == [Item(base + wait, task)];
  }

  /** A group whose time has come stays at the head, untouched, however many
      tasks are added while it runs. */
  lemma {:induction false} AddKeepsShape(groups: seq<Group>, wait: int, task: Task, i: nat)
    requires wait > 0 && i <= 1 && Delays(groups, i)
    ensures Delays(AddTo(groups, wait, task), i)
    ensures i == 1 && groups != [] && groups[0].left <= 0
         ==> AddTo(groups, wait, task) == [groups[0]] + AddTo(groups[1..], wait - groups[0].left, task)
    decreases |groups|
  {
    if groups != [] && wait - groups[0].left > 0 {
      AddKeepsShape(groups[1..], wait - groups[0].left, task, 0);
    }
  }

  // ---- running a group ----

  /** The list after the spawned tasks have been added, one after the other. */
  function AddSpawns(groups: seq<Group>, spawns: seq<Spawn>): seq<Group>
    decreases |spawns|
  {
    if spawns == [] then groups else AddSpawns(AddTo(groups, spawns[0].delay, spawns[0].task), spawns[1..])
  }

  /** The list after the tasks have run. */
  function RunTasks(groups: seq<Group>, tasks: seq<Task>): seq<Group>
    decreases |tasks|
  {
    if tasks == [] then groups else RunTasks(AddSpawns(groups, tasks[0].spawns), tasks[1..])
  }

  predicate Positive(spawns: seq<Spawn>) {
    forall k :: 0 <= k < |spawns| ==> spawns[k].delay > 0 && Later(spawns[k].task)
  }

  lemma LaterSpawns(t: Task)
    requires Later(t)
    ensures Positive(t.spawns)
  {
  }

  lemma {:induction false} AddSpawnsRefines(now: int, h: Group, rest: seq<Group>, spawns: seq<Spawn>)
    returns (rest': seq<Group>)
    requires h.left <= 0 && h.tasks != [] && Delays(rest, 0) && Positive(spawns)
    ensures AddSpawns([h] + rest, spawns) == [h] + rest' && Delays(rest', 0)
    ensures Items(now + h.left, rest') == InsertAll(Items(now + h.left, rest), now, spawns)
    decreases |spawns|
  {
    hide Insert, Items, AddTo;
    if spawns == [] {
      rest' := rest;
    } else {
      var s := spawns[0];
      var groups := [h] + rest;
      assert groups[1..] == rest && Delays(groups, 1);
      AddKeepsShape(groups, s.delay, s.task, 1);
      AddKeepsShape(rest, s.delay - h.left, s.task, 0);
      AddRefines(now + h.left, rest, s.delay - h.left, s.task);
      rest' := AddSpawnsRefines(now, h, AddTo(rest, s.delay - h.left, s.task), spawns[1..]);
    }
  }

  lemma {:induction false} InsertAllBehind(block: seq<Item>, q: seq<Item>, now: int, spawns: seq<Spawn>)
    requires Positive(spawns)
    requires forall k :: 0 <= k < |block| ==> block[k].deadline <= now
    ensures InsertAll(block + q, now, spawns) == block + InsertAll(q, now, spawns)
    decreases |spawns|
  {
    hide Insert;
    if spawns != [] {
      var x := Item(now + spawns[0].delay, spawns[0].task);
      InsertBehind(block, q, x);
      InsertAllBehind(block, Insert(q, x), now, spawns[1..]);
    }
  }

  /** All that a run of tasks adds, in order. */
  function Spawned(tasks: seq<Task>): seq<Spawn> {
    if tasks == [] then [] else tasks[0].spawns + Spawned(tasks[1..])
  }

  lemma {:induction false} InsertAllTwice(q: seq<Item>, now: int, first: seq<Spawn>, second: seq<Spawn>)
    ensures InsertAll(InsertAll(q, now, first), now, second) == InsertAll(q, now, first + second)
    decreases |first|
  {
    hide Insert;
    if first == [] {
      assert first + second == second;
    } else {
      var q' := Insert(q, Item(now + first[0].delay, first[0].task));
      assert (first + second)[1..] == first[1..] + second;
      InsertAllTwice(q', now, first[1..], second);
    }
  }

  /** What a call leaves: the items that were not due, and everything the tasks
      added, due relative to the new present. */
  lemma {:induction false} LeavesTheRest(q: seq<Item>, now: int)
    requires AllLater(q) && Sorted(q)
    ensures var n := DueCount(q, now);
            RunDue(q, now).0 == InsertAll(q[n..], now, Spawned(Tasks(q[..n])))
    decreases DueCount(q, now)
  {
    hide Insert, InsertAll, Later, Tasks;
    if q == [] || q[0].deadline > now {
      NoneDue(q, now);
    } else {
      var s := q[0].task.spawns;
      LaterSpawns(q[0].task);
      var q' := InsertAll(q[1..], now, s);
      InsertAllKeepsDue(q[1..], now, s);
      InsertAllKeepsLater(q[1..], now, s);
      InsertAllBehindDue(q[1..], now, s);
      InsertAllSorted(q[1..], now, s);
      LeavesTheRest(q', now);
      FirstDue(q, now);
      SpawnsBehind(q[1..], now, s);
      assert q[1..][DueCount(q[1..], now)..] == q[DueCount(q, now)..];
      InsertAllTwice(q[DueCount(q, now)..], now, s, Spawned(Tasks(q[1..][..DueCount(q[1..], now)])));
    }
  }

  lemma NoneDue(q: seq<Item>, now: int)
    requires q == [] || q[0].deadline > now
    ensures DueCount(q, now) == 0 && InsertAll(q, now, Spawned(Tasks([]))) == q
  {
  }

  lemma FirstDue(q: seq<Item>, now: int)
    requires q != [] && q[0].deadline <= now && Later(q[0].task) && Sorted(q)
    ensures DueCount(q, now) == DueCount(q[1..], now) + 1
    ensures var n := DueCount(q[1..], now);
            Spawned(Tasks(q[..n + 1])) == q[0].task.spawns + Spawned(Tasks(q[1..][..n]))
  {
    hide Insert, InsertAll;
    var n := DueCount(q[1..], now);
    assert Tasks(q[..n + 1])[1..] == Tasks(q[1..][..n]);
  }

  /** The spawns of the first item go behind all that is due. */
  lemma SpawnsBehind(q: seq<Item>, now: int, s: seq<Spawn>)
    requires Sorted(q) && Positive(s)
    ensures var n := DueCount(q, now);
            InsertAll(q, now, s) == q[..n] + InsertAll(q[n..], now, s)
  {
    hide Insert, InsertAll;
    var n := DueCount(q, now);
    DueIsAllDue(q, now);
    InsertAllBehind(q[..n], q[n..], now, s);
    assert q == q[..n] + q[n..];
  }

  lemma {:induction false} InsertAllSorted(q: seq<Item>, now: int, spawns: seq<Spawn>)
    requires Sorted(q)
    ensures Sorted(InsertAll(q, now, spawns))
    decreases |spawns|
  {
    hide Insert;
    if spawns != [] {
      var x := Item(now + spawns[0].delay, spawns[0].task);
      InsertSorted(q, x);
      InsertAllSorted(Insert(q, x), now, spawns[1..]);
    }
  }

  /** A delta list always stands for a sorted queue, even while its head runs. */
  lemma {:induction false} ListIsSorted(base: int, groups: seq<Group>)
    requires Delays(groups, 1)
    ensures Sorted(Items(base, groups))
    decreases |groups|
  {
    if groups != [] {
      ListIsSorted(base + groups[0].left, groups[1..]);
      AllAfter(base + groups[0].left, groups[1..]);
    }
  }

  /** What one call of increment_time does to a delta list, told in deadlines:
      exactly the tasks whose deadline has come run, in order, and the queue that
      remains is what was not due together with what those tasks added. */
  lemma CallRunsTheDue(time: int, groups: seq<Group>, nanoseconds: int)
    requires nanoseconds > 0 && Delays(groups, 0) && AllLater(Items(time, groups))
    ensures var q, now := Items(time, groups), time + nanoseconds;
            var n := DueCount(q, now);
            && (forall i :: 0 <= i < |q| ==> (q[i].deadline <= now <==> i < n))
            && RunDue(q, now).1 == Tasks(q[..n])
            && RunDue(q, now).0 == InsertAll(q[n..], now, Spawned(Tasks(q[..n])))
            && Sorted(RunDue(q, now).0)
  {
    hide Items, RunDue, InsertAll, Insert, Later, Tasks;
    var q, now := Items(time, groups), time + nanoseconds;
    ListIsSorted(time, groups);
    DueIsAllDue(q, now);
    RunsExactlyTheDue(q, now);
    LeavesTheRest(q, now);
    InsertAllSorted(q[DueCount(q, now)..], now, Spawned(Tasks(q[..DueCount(q, now)])));
  }

  /** One task of the running group: the reference runs it too, and both queues
      receive what it adds. */
  lemma TaskRuns(now: int, deadline: int, t: Task, more: seq<Task>, tail: seq<Item>)
    requires deadline <= now && Later(t)
    requires AllLater(GroupItems(deadline, more) + tail)
    ensures AllLater(GroupItems(deadline, [t] + more) + tail)
    ensures AllLater(GroupItems(deadline, more) + InsertAll(tail, now, t.spawns))
    ensures var r := RunDue(GroupItems(deadline, more) + InsertAll(tail, now, t.spawns), now);
            RunDue(GroupItems(deadline, [t] + more) + tail, now) == (r.0, [t] + r.1)
    ensures DueCount(InsertAll(tail, now, t.spawns), now) == DueCount(tail, now)
  {
    hide Insert, InsertAll, DueCount, Tasks;
    var q := GroupItems(deadline, [t] + more) + tail;
    assert q[0] == Item(deadline, t);
    assert q[1..] == GroupItems(deadline, more) + tail;
    LaterSpawns(t);
    InsertAllBehind(GroupItems(deadline, more), tail, now, t.spawns);
    InsertAllKeepsLater(q[1..], now, t.spawns);
    InsertAllKeepsDue(tail, now, t.spawns);
  }

  /** A whole group: the list keeps standing for the reference queue, less the
      tasks that have run. */
  lemma {:induction false} GroupRuns(now: int, h: Group, rest: seq<Group>, tasks: seq<Task>)
    returns (rest': seq<Group>)
    requires h.left <= 0 && h.tasks != [] && Delays(rest, 0)
    requires AllLater(GroupItems(now + h.left, tasks) + Items(now + h.left, rest))
    ensures RunTasks([h] + rest, tasks) == [h] + rest' && Delays(rest', 0)
    ensures AllLater(Items(now + h.left, rest'))
    ensures var r := RunDue(Items(now + h.left, rest'), now);
            RunDue(GroupItems(now + h.left, tasks) + Items(now + h.left, rest), now) == (r.0, tasks + r.1)
    ensures DueCount(Items(now + h.left, rest'), now) == DueCount(Items(now + h.left, rest), now)
    decreases |tasks|
  {
    hide Insert, Items, AddTo, AddSpawns, RunDue, DueCount, InsertAll, Later;
    var deadline := now + h.left;
    var tail := Items(deadline, rest);
    if tasks == [] {
      rest' := rest;
      assert GroupItems(deadline, tasks) + tail == tail;
      assert tasks + RunDue(tail, now).1 == RunDue(tail, now).1;
    } else {
      var t, more := tasks[0], tasks[1..];
      assert tasks == [t] + more;
      var q := GroupItems(deadline, tasks) + tail;
      assert q[0] == Item(deadline, t);
      assert q[1..] == GroupItems(deadline, more) + tail;
      LaterSpawns(t);
      var mid := AddSpawnsRefines(now, h, rest, t.spawns);
      TaskRuns(now, deadline, t, more, tail);
      rest' := GroupRuns(now, h, mid, more);
      var r := RunDue(Items(deadline, rest'), now);
      assert [t] + (more + r.1) == tasks + r.1;
    }
  }

  lemma Shift(base: int, g: Group, rest: seq<Group>, n: int)
    ensures Items(base, [g] + rest) == Items(base + n, [g.(left := g.left - n)] + rest)
  {
    hide Items;
    ItemsCons(base, g, rest);
    ItemsCons(base + n, g.(left := g.left - n), rest);
  }

  lemma HeadLater(base: int, h: Group, rest: seq<Group>)
    requires AllLater(Items(base, [h] + rest))
    ensures forall k :: 0 <= k < |h.tasks| ==> Positive(h.tasks[k].spawns)
  {
    hide Items, Later;
    ItemsCons(base, h, rest);
    var q := Items(base, [h] + rest);
    forall k | 0 <= k < |h.tasks|
      ensures Positive(h.tasks[k].spawns)
    {
      assert q[k].task == h.tasks[k];
      LaterSpawns(h.tasks[k]);
    }
  }

  lemma {:induction false} DueBehind(block: seq<Item>, q: seq<Item>, now: int)
    requires forall k :: 0 <= k < |block| ==> block[k].deadline <= now
    ensures DueCount(block + q, now) == |block| + DueCount(q, now)
    decreases |block|
  {
    if block == [] {
      assert block + q == q;
    } else {
      assert (block + q)[1..] == block[1..] + q;
      DueBehind(block[1..], q, now);
    }
  }

  lemma NothingDue(base: int, groups: seq<Group>)
    requires Delays(groups, 0) && AllLater(Items(base, groups))
    ensures RunDue(Items(base, groups), base) == (Items(base, groups), [])
  {
    hide Items, Later;
    AllAfter(base, groups);
  }

  lemma NoItems(now: int, n: int)
    ensures Items(now, []) == Items(now - n, []) && RunDue(Items(now, []), now) == (Items(now, []), [])
  {
  }

  /** The head group is not due yet. */
  lemma HeadWaits(now: int, h: Group, rest: seq<Group>, n: int)
    requires Delays([h] + rest, 0) && h.left > n
    requires AllLater(Items(now - n, [h] + rest))
    ensures Delays([h.(left := h.left - n)] + rest, 0)
    ensures Items(now - n, [h] + rest) == Items(now, [h.(left := h.left - n)] + rest)
    ensures RunDue(Items(now - n, [h] + rest), now) == (Items(now - n, [h] + rest), [])
  {
    hide Items, Later, RunDue;
    var groups, later := [h] + rest, [h.(left := h.left - n)] + rest;
    assert forall k :: 1 <= k < |groups| ==> later[k] == groups[k];
    assert groups[0] == h;
    Shift(now - n, h, rest, n);
    NothingDue(now, later);
  }

  /** The head group is due: it runs, and what is left is shorter. */
  lemma HeadRuns(now: int, h: Group, rest: seq<Group>, n: int) returns (rest': seq<Group>)
    requires Delays([h] + rest, 0) && h.left <= n
    requires AllLater(Items(now - n, [h] + rest))
    ensures RunTasks([h.(left := h.left - n)] + rest, h.tasks) == [h.(left := h.left - n)] + rest'
    ensures Delays(rest', 0) && AllLater(Items(now - n + h.left, rest'))
    ensures var r := RunDue(Items(now - n + h.left, rest'), now);
            RunDue(Items(now - n, [h] + rest), now) == (r.0, h.tasks + r.1)
    ensures DueCount(Items(now - n + h.left, rest'), now) < DueCount(Items(now - n, [h] + rest), now)
  {
    hide Items, Later, RunDue, DueCount, RunTasks;
    var groups := [h] + rest;
    assert groups[0] == h && groups[1..] == rest;
    assert Delays(rest, 0) by {
      assert forall k :: 0 <= k < |rest| ==> rest[k] == groups[k + 1];
    }
    ItemsCons(now - n, h, rest);
    rest' := GroupRuns(now, h.(left := h.left - n), rest, h.tasks);
    DueBehind(GroupItems(now - n + h.left, h.tasks), Items(now - n + h.left, rest), now);
  }

  /** The clock, with the tasks it has run so far. */
  class Clock {
    var time: int
    var deferred: seq<Group>
    var ran: seq<Task>

    /** The deadlines the list stands for. */
    ghost function Queue(): seq<Item>
      reads this
    {
      Items(time, deferred)
    }

    ghost predicate Valid()
      reads this
    {
      Delays(deferred, 0) && AllLater(Queue())
    }

    constructor (start: int)
      ensures Valid() && time == start && Queue() == [] && ran == []
    {
      time, deferred, ran := start, [], [];
    }

    /** May be called while the head group runs.  The delay of the group behind
        the new one is cut by pass_time, which never runs anything here. */
    method AddDeferredTask(task: Task, nanoseconds: int)
      requires nanoseconds > 0 && Delays(deferred, 1)
      modifies `deferred, `ran
      ensures deferred == AddTo(old(deferred), nanoseconds, task) && ran == old(ran)
      decreases 1
    {
      hide AddTo, RunTasks;
      var wait := nanoseconds;
      var i := 0;
      while i < |deferred|
        invariant 0 <= i <= |deferred| && wait > 0
        invariant deferred == old(deferred) && ran == old(ran)
        invariant AddTo(deferred, nanoseconds, task) == deferred[..i] + AddTo(deferred[i..], wait, task)
      {
        var left := wait - deferred[i].left;
        PassOver(deferred, i, wait, task);
        if left < 0 {
          PutBefore(deferred, i, Group(wait, [task]), deferred[i].(left := deferred[i].left - wait));
          deferred := deferred[..i] + [Group(wait, [task])] + deferred[i..];
          var _ := PassTime(i + 1, wait);
          return;
        } else if left == 0 {
          PutAt(deferred, i, deferred[i].(tasks := deferred[i].tasks + [task]));
          deferred := deferred[i := deferred[i].(tasks := deferred[i].tasks + [task])];
          return;
        }
        i, wait := i + 1, left;
      }
      assert deferred[..i] == deferred && deferred[i..] == [];
      AddToNothing(0, wait, task);
      deferred := deferred + [Group(wait, [task])];
    }

    /** A task's own code: it adds its spawned tasks. */
    method RunTask(task: Task)
      requires Delays(deferred, 1) && Positive(task.spawns)
      modifies `deferred, `ran
      ensures deferred == AddSpawns(old(deferred), task.spawns)
      ensures Delays(deferred, 1) && ran == old(ran) + [task]
      decreases 2
    {
      ran := ran + [task];
      var i := 0;
      while i < |task.spawns|
        invariant 0 <= i <= |task.spawns| && Delays(deferred, 1) && ran == old(ran) + [task]
        invariant AddSpawns(deferred, task.spawns[i..]) == AddSpawns(old(deferred), task.spawns)
      {
        AddKeepsShape(deferred, task.spawns[i].delay, task.spawns[i].task, 1);
        AddDeferredTask(task.spawns[i].task, task.spawns[i].delay);
        i := i + 1;
      }
    }

    /** Time passes for group i; a group whose time has come, and that can only
        be the first, runs its tasks. */
    method PassTime(i: nat, nanoseconds: int) returns (left: int)
      requires i < |deferred| && nanoseconds > 0 && deferred[i].left > 0
      requires deferred[i].left <= nanoseconds ==>
                 i == 0 && Delays(deferred, 0) && forall k :: 0 <= k < |deferred[0].tasks| ==> Positive(deferred[0].tasks[k].spawns)
      modifies `deferred, `ran
      ensures left == old(deferred[i].left) - nanoseconds
      ensures left > 0 ==> deferred == old(deferred)[i := old(deferred[i]).(left := left)] && ran == old(ran)
      ensures left <= 0 ==>
                && deferred == RunTasks(old(deferred)[0 := old(deferred[0]).(left := left)], old(deferred[0].tasks))
                && ran == old(ran) + old(deferred[0].tasks)
      decreases if deferred[i].left <= nanoseconds then 3 else 0
    {
      left := deferred[i].left - nanoseconds;
      deferred := deferred[i := deferred[i].(left := left)];
      if left <= 0 {
        var tasks := deferred[0].tasks;
        ghost var start := deferred;
        var k := 0;
        while k < |tasks|
          invariant 0 <= k <= |tasks| && Delays(deferred, 1) && ran == old(ran) + tasks[..k]
          invariant RunTasks(deferred, tasks[k..]) == RunTasks(start, tasks)
        {
          assert tasks[..k + 1] == tasks[..k] + [tasks[k]];
          RunTask(tasks[k]);
          k := k + 1;
        }
        assert tasks[..k] == tasks;
      }
    }

    /** Runs exactly the tasks due by the new time, in the order of the reference
        queue, and leaves the list standing for what is left of it. */
    method IncrementTime(nanoseconds: int)
      requires Valid() && nanoseconds > 0
      modifies this
      ensures Valid() && time == old(time) + nanoseconds
      ensures (Queue(), ran) == (RunDue(old(Queue()), time).0, old(ran) + RunDue(old(Queue()), time).1)
    {
      hide Items, Later, RunDue, DueCount, RunTasks;
      ghost var q := Queue();
      time := time + nanoseconds;
      var n := nanoseconds;
      while deferred != []
        invariant n > 0 && time == old(time) + nanoseconds
        invariant Delays(deferred, 0) && AllLater(Items(time - n, deferred))
        invariant var r := RunDue(Items(time - n, deferred), time);
                  RunDue(q, time).0 == r.0 && old(ran) + RunDue(q, time).1 == ran + r.1
        decreases DueCount(Items(time - n, deferred), time), |deferred|
      {
        ghost var h, rest := deferred[0], deferred[1..];
        assert deferred == [h] + rest;
        assert deferred[0 := h.(left := h.left - n)] == [h.(left := h.left - n)] + rest;
        HeadLater(time - n, h, rest);
        var left := PassTime(0, n);
        if left <= 0 {
          ghost var rest' := HeadRuns(time, h, rest, n);
          deferred := deferred[1..];
          assert deferred == rest';
          if left == 0 {
            NothingDue(time, deferred);
          }
        } else {
          HeadWaits(time, h, rest, n);
          assert deferred == [h.(left := left)] + rest;
        }
        if left >= 0 {
          assert ran == old(ran) + RunDue(q, time).1;
          break;
        }
        n := -left;
      }
      if deferred == [] {
        NoItems(time, n);
        assert ran + [] == ran;
      }
    }
  }
}
