/** The thread-local deque of src/deque.c: a doubly linked list of tasks that ends in a dummy
    node, with a stack of free task objects beside it. The list refines a plain sequence. */
module Deque {
  import opened Common

  /** The code that marks the dummy node */
  const DUMMY := 0xCAFE

  class Task {
    var parent: Task?
    var prev: Task?
    var next: Task?
    var fn: int

    /** task_new */
    constructor ()
      ensures Zeroed()
    {
      parent, prev, next, fn := null, null, null, 0;
    }

    ghost predicate Zeroed()
      reads this
    {
      parent == null && prev == null && next == null && fn == 0
    }
  }

  /** Neighbours in the sequence are linked both ways. */
  ghost predicate Linked(nodes: seq<Task>)
    reads nodes
  {
    forall i, j :: 0 <= i < |nodes| && j == i + 1 && j < |nodes| ==>
      nodes[i].next == nodes[j] && nodes[j].prev == nodes[i]
  }

  ghost predicate Distinct(nodes: seq<Task>)
  {
    forall i, j :: 0 <= i < j < |nodes| ==> nodes[i] != nodes[j]
  }

  ghost predicate Apart(nodes: seq<Task>, free: seq<Task>)
  {
    forall i, j :: 0 <= i < |nodes| && 0 <= j < |free| ==> nodes[i] != free[j]
  }

  /** What stays when the tasks from `k` on are cut off, with the dummy node at the end */
  lemma CutKeepsApart(nodes: seq<Task>, k: nat, free: seq<Task>, rest: seq<Task>)
    requires k < |nodes| && Distinct(nodes) && Apart(nodes, free)
    requires rest == nodes[..k] + [nodes[|nodes| - 1]]
    ensures Distinct(rest) && Apart(rest, free)
    ensures rest[..|rest| - 1] + nodes[k..|nodes| - 1] == nodes[..|nodes| - 1]
  {
  }

  /** A list on its own, as bulk stealing returns it */
  ghost predicate Detached(list: seq<Task>)
    reads list
  {
    && |list| > 0 && Distinct(list) && Linked(list)
    && list[0].prev == null && list[|list| - 1].next == null
  }

  /** A stack of zeroed tasks linked through `next` */
  ghost predicate FreeChain(first: Task?, free: seq<Task>)
    reads free
  {
    && first == (if free == [] then null else free[0])
    && (forall i :: 0 <= i < |free| ==> free[i].parent == null && free[i].prev == null && free[i].fn == 0)
    && (forall i, j :: 0 <= i < |free| && j == i + 1 && j < |free| ==> free[i].next == free[j])
    && (free != [] ==> free[|free| - 1].next == null)
  }

  class Deque {
    var head: Task
    var tail: Task
    var numTasks: nat
    var numSteals: nat
    var freelist: Task?
    /** The tasks from head to tail, the dummy node last */
    ghost var nodes: seq<Task>
    /** The free tasks, from the top of the stack */
    ghost var free: seq<Task>

    ghost predicate Valid()
      reads this, nodes, free
    {
      ValidButHead() && head.prev == null
    }

    /** Well linked, except perhaps that the first task points back at something */
    ghost predicate ValidButHead()
      reads this, nodes, free
    {
      && |nodes| == numTasks + 1
      && head == nodes[0] && tail == nodes[numTasks]
      && tail.next == null && tail.fn == DUMMY
      && Linked(nodes) && Distinct(nodes)
      && FreeChain(freelist, free) && Distinct(free)
      && Apart(nodes, free)
    }

    /** The sequence of tasks that the list stands for */
    ghost function Contents(): seq<Task>
      requires |nodes| > 0
      reads this
    {
      nodes[..|nodes| - 1]
    }

    constructor ()
      ensures Valid() && Contents() == [] && free == [] && numSteals == 0
      ensures fresh(nodes)
    {
      var dummy := new Task();
      dummy.fn := DUMMY;
      head, tail := dummy, dummy;
      numTasks, numSteals, freelist := 0, 0, null;
      nodes, free := [dummy], [];
    }

    predicate Empty()
      reads this
    {
      head == tail && numTasks == 0
    }

    /** deque_push does not write `task.prev`, so the deque stays valid if and only if the task
        comes unlinked, as it does from TaskNew, Pop and Steal. */
    method Push(task: Task)
      requires Valid() && task !in nodes && task !in free
      modifies this`head, this`numTasks, this`nodes, head`prev, task`next
      ensures ValidButHead() && (Valid() <==> old(task.prev) == null)
      ensures |nodes| > 0 && Contents() == [task] + old(Contents()) && numTasks == old(numTasks) + 1
      ensures tail == old(tail)
    {
      task.next := head;
      head.prev := task;
      head := task;
      numTasks := numTasks + 1;
      nodes := [task] + nodes;
    }

    method Pop() returns (task: Task?)
      requires Valid()
      modifies this`head, this`numTasks, this`nodes, nodes`prev, nodes`next
      ensures Valid() && tail == old(tail)
      ensures old(Contents()) == [] ==> task == null && Contents() == []
      ensures old(Contents()) != [] ==> task != null && [task] + Contents() == old(Contents())
                                        && task.prev == null && task.next == null
    {
      if Empty() {
        return null;
      }
      task := head;
      assert head.next == nodes[1];
      head := head.next;
      head.prev := null;
      task.next := null;
      numTasks := numTasks - 1;
      nodes := nodes[1..];
    }

    /** Pops only a child of `parent`. */
    method PopChild(parent: Task) returns (task: Task?)
      requires Valid()
      modifies this`head, this`numTasks, this`nodes, nodes`prev, nodes`next
      ensures Valid() && tail == old(tail)
      ensures task != null <==> old(Contents()) != [] && old(Contents())[0].parent == parent
      ensures task == null ==> Contents() == old(Contents())
      ensures task == null ==> forall n :: n in nodes ==> n.prev == old(n.prev) && n.next == old(n.next)
      ensures task != null ==> [task] + Contents() == old(Contents()) && task.prev == null && task.next == null
    {
      if Empty() {
        return null;
      }
      task := head;
      if task.parent != parent {
        return null;
      }
      assert head.next == nodes[1];
      head := head.next;
      head.prev := null;
      task.next := null;
      numTasks := numTasks - 1;
      nodes := nodes[1..];
    }

    /** Unlinks the last task. */
    method UnlinkLast() returns (task: Task)
      requires Valid() && numTasks > 0
      modifies this`head, this`numTasks, this`numSteals, this`nodes, nodes`prev, nodes`next
      ensures numTasks == old(numTasks) - 1 && numSteals == old(numSteals) + 1
      ensures nodes == old(nodes)[..numTasks] + [tail] && head == nodes[0]
      ensures head.prev == null && tail.next == null && Linked(nodes) && FreeChain(freelist, free)
      ensures task == old(nodes)[numTasks] && task.prev == null && task.next == null
    {
      assert tail.prev == nodes[numTasks - 1];
      assert numTasks > 1 ==> nodes[numTasks - 1].prev == nodes[numTasks - 2];
      task := tail.prev;
      task.next := null;
      tail.prev := task.prev;
      task.prev := null;
      if tail.prev == null {
        assert head == task;
        head := tail;
      } else {
        tail.prev.next := tail;
      }
      numTasks := numTasks - 1;
      numSteals := numSteals + 1;
      nodes := nodes[..numTasks] + [tail];
    }

    method Steal() returns (task: Task?)
      requires Valid()
      modifies this`head, this`numTasks, this`numSteals, this`nodes, nodes`prev, nodes`next
      ensures Valid() && tail == old(tail)
      ensures old(Contents()) == [] ==> task == null && Contents() == [] && numSteals == old(numSteals)
      ensures old(Contents()) != [] ==> task != null && Contents() + [task] == old(Contents())
                                        && task.prev == null && task.next == null && numSteals == old(numSteals) + 1
    {
      if Empty() {
        return null;
      }
      ghost var k := numTasks - 1;
      ghost var rest := nodes[..k] + [tail];
      CutKeepsApart(nodes, k, free, rest);
      task := UnlinkLast();
      assert nodes == rest && old(nodes)[k..k + 1] == [task];
    }

    /** The loop of the bulk steals that walks `n` steps back from the dummy node */
    method WalkBack(n: nat) returns (task: Task)
      requires Valid() && n <= numTasks
      ensures task == nodes[numTasks - n]
    {
      task := tail;
      var i := 0;
      while i < n
        invariant 0 <= i <= n && task == nodes[numTasks - i]
      {
        assert task.prev == nodes[numTasks - i - 1];
        task := task.prev;
        i := i + 1;
      }
    }

    /** Cuts the list before `task`, in front of which `rest` stays with the dummy node. */
    method CutBefore(task: Task, n: nat, ghost k: nat, ghost rest: seq<Task>, ghost list: seq<Task>)
      requires Valid() && k == numTasks - n && n > 0 && task == nodes[k]
      requires rest == nodes[..k] + [tail] && list == nodes[k..|nodes| - 1]
      modifies this`head, this`numTasks, this`numSteals, this`nodes, nodes`prev, nodes`next
      ensures nodes == rest && head == rest[0] && numTasks == k && numSteals == old(numSteals) + 1
      ensures head.prev == null && tail.next == null && Linked(rest)
      ensures Detached(list) && FreeChain(freelist, free)
    {
      assert tail.prev == nodes[numTasks - 1];
      assert k > 0 ==> nodes[k].prev == nodes[k - 1];
      tail.prev.next := null;
      tail.prev := task.prev;
      task.prev := null;
      if tail.prev == null {
        assert head == task;
        head := tail;
      } else {
        tail.prev.next := tail;
      }
      nodes := rest;
      numTasks := numTasks - n;
      numSteals := numSteals + 1;
    }

    /** What CutBefore leaves is a deque again, and a list of `n` tasks beside it. */
    method CutLast(task: Task, n: nat) returns (ghost list: seq<Task>)
      requires Valid() && 1 <= n <= numTasks && task == nodes[numTasks - n]
      modifies this`head, this`numTasks, this`numSteals, this`nodes, nodes`prev, nodes`next
      ensures Valid() && tail == old(tail) && numSteals == old(numSteals) + 1
      ensures Contents() + list == old(Contents()) && |list| == n && Detached(list)
    {
      ghost var k := numTasks - n;
      list := nodes[k..|nodes| - 1];
      ghost var rest := nodes[..k] + [tail];
      CutKeepsApart(nodes, k, free, rest);
      CutBefore(task, n, k, rest, list);
    }

    /** Cuts the last `n` tasks off, in order, as a list of their own. */
    method StealLast(n: nat) returns (first: Task, last: Task, ghost list: seq<Task>)
      requires Valid() && 1 <= n <= numTasks
      modifies this`head, this`numTasks, this`numSteals, this`nodes, nodes`prev, nodes`next
      ensures Valid() && tail == old(tail) && numSteals == old(numSteals) + 1
      ensures Contents() + list == old(Contents()) && |list| == n && Detached(list)
      ensures first == list[0] && last == list[n - 1]
    {
      assert tail.prev == nodes[numTasks - 1];
      last := tail.prev;
      first := WalkBack(n);
      ghost var tasks := Contents();
      assert first == tasks[numTasks - n] && last == tasks[numTasks - 1];
      list := CutLast(first, n);
      LastOf(Contents(), list, tasks);
    }

    /** Steals half of the tasks, but at most `max`. Both overloads do this; one of them leaves
        out the pointer to the last task. With `max` below 1 and a task in the deque, the walk
        does not leave the dummy node, and the assertion that it is the head fails. */
    method StealMany(max: int) returns (aborts: bool, first: Task?, last: Task?, stolen: nat, ghost list: seq<Task>)
      requires Valid()
      modifies this`head, this`numTasks, this`numSteals, this`nodes, nodes`prev, nodes`next
      ensures aborts <==> max < 1 && old(numTasks) > 0
      ensures !aborts ==> Valid() && tail == old(tail) && Contents() + list == old(Contents()) && |list| == stolen
      ensures !aborts ==> stolen == if old(numTasks) == 0 then 0 else Min(max, Max(1, old(numTasks) / 2))
      ensures !aborts ==> (first == null <==> stolen == 0)
      ensures !aborts && stolen > 0 ==> Detached(list) && first == list[0] && last == list[stolen - 1]
    {
      aborts, first, last, stolen, list := false, null, null, 0, [];
      if Empty() {
        return;
      }
      var n: int := numTasks / 2;
      if n == 0 {
        n := 1;
      }
      if n > max {
        n := max;
      }
      if n < 1 {
        // not one step back from the dummy node
        assert tail.prev == nodes[numTasks - 1];
        tail.prev.next := null;
        tail.prev := null;
        aborts := head != tail;
        return;
      }
      first, last, list := StealLast(n);
      stolen := n;
    }

    /** Steals half of the tasks. */
    method StealHalf() returns (first: Task?, last: Task?, stolen: nat, ghost list: seq<Task>)
      requires Valid()
      modifies this`head, this`numTasks, this`numSteals, this`nodes, nodes`prev, nodes`next
      ensures Valid() && tail == old(tail)
      ensures Contents() + list == old(Contents()) && |list| == stolen
      ensures stolen == if old(numTasks) == 0 then 0 else Max(1, old(numTasks) / 2)
      ensures first == null <==> stolen == 0
      ensures stolen > 0 ==> Detached(list) && first == list[0] && last == list[stolen - 1]
    {
      if Empty() {
        return null, null, 0, [];
      }
      var n := numTasks / 2;
      if n == 0 {
        n := 1;
      }
      first, last, list := StealLast(n);
      stolen := n;
    }

    /** Puts a list of known ends and length in front of the tasks. */
    method Prepend(first: Task, last: Task, len: nat, ghost list: seq<Task>)
      requires Valid() && Detached(list) && len == |list| && first == list[0] && last == list[len - 1]
      requires Apart(list, nodes) && Apart(list, free)
      modifies this`head, this`numTasks, this`nodes, head`prev, last`next
      ensures Valid() && tail == old(tail) && Contents() == list + old(Contents())
    {
      last.next := head;
      head.prev := last;
      head := first;
      numTasks := numTasks + len;
      nodes := list + nodes;
    }

    /** The same for a list of which only the first task and the length are known */
    method PrependCounted(first: Task, len: nat, ghost list: seq<Task>)
      requires Valid() && Detached(list) && len == |list| && first == list[0]
      requires Apart(list, nodes) && Apart(list, free)
      modifies this`head, this`numTasks, this`nodes, head`prev, list`next
      ensures Valid() && tail == old(tail) && Contents() == list + old(Contents())
    {
      var last, _ := FindLast(first, list);
      Prepend(first, last, len, list);
    }

    /** The same for a list of which only the first task is known */
    method PrependList(first: Task, ghost list: seq<Task>)
      requires Valid() && Detached(list) && first == list[0]
      requires Apart(list, nodes) && Apart(list, free)
      modifies this`head, this`numTasks, this`nodes, head`prev, list`next
      ensures Valid() && tail == old(tail) && Contents() == list + old(Contents())
    {
      var last, n := FindLast(first, list);
      Prepend(first, last, n, list);
    }

    /** deque_task_new: a zeroed task, from the free ones if there is any */
    method TaskNew() returns (task: Task)
      requires Valid()
      modifies this`freelist, this`free, free`next
      ensures Valid() && Contents() == old(Contents()) && task.Zeroed()
      ensures old(free) == [] ==> fresh(task) && free == []
      ensures old(free) != [] ==> [task] + free == old(free)
    {
      if freelist == null {
        task := new Task();
      } else {
        task := freelist;
        assert |free| > 1 ==> free[0].next == free[1];
        freelist := freelist.next;
        task.next := null;
        free := free[1..];
      }
    }

    /** deque_task_cache: the task is zeroed and pushed on the free ones. */
    method TaskCache(task: Task)
      requires Valid() && task !in nodes && task !in free
      modifies this`freelist, this`free, task
      ensures Valid() && Contents() == old(Contents()) && free == [task] + old(free)
    {
      task.parent, task.prev, task.fn := null, null, 0;
      task.next := freelist;
      freelist := task;
      free := [task] + free;
    }
  }

  /** The loop that looks for the end of a list and counts its tasks */
  method FindLast(first: Task, ghost list: seq<Task>) returns (last: Task, n: nat)
    requires Detached(list) && first == list[0]
    ensures n == |list| && last == list[n - 1]
  {
    last, n := first, 1;
    while last.next != null
      invariant 1 <= n <= |list| && last == list[n - 1]
      invariant n < |list| ==> last.next == list[n]
      decreases |list| - n
    {
      last := last.next;
      n := n + 1;
    }
  }

  /** Tasks cut off a list are apart from what stays and from whatever the list was apart from. */
  lemma ListApart(before: seq<Task>, after: seq<Task>, list: seq<Task>, other: seq<Task>)
    requires |before| > 0 && |after| > 0 && Distinct(before) && Apart(before, other)
    requires after[..|after| - 1] + list == before[..|before| - 1] && after[|after| - 1] == before[|before| - 1]
    ensures Apart(list, after) && Apart(list, other) && Apart(after, other)
    ensures forall t :: t in list ==> t in before
  {
    var k := |after| - 1;
    assert forall i :: 0 <= i < |list| ==> list[i] == before[k + i];
    assert forall i :: 0 <= i < k ==> after[i] == before[i];
  }

  lemma MovesJoin(a: seq<Task>, b: seq<Task>, c: seq<Task>)
    ensures a + (b + c) == (a + b) + c
  {
  }

  /** Prepends a stolen list at the thief; the victim's deque does not notice. */
  method Receive(victim: Deque, thief: Deque, first: Task, last: Task, len: nat, ghost list: seq<Task>)
    requires victim != thief && victim.Valid() && thief.Valid()
    requires Apart(victim.nodes, thief.nodes) && Apart(thief.nodes, victim.free)
    requires Apart(list, victim.nodes) && Apart(list, victim.free) && Apart(list, thief.nodes)
    requires Apart(list, thief.free)
    requires Detached(list) && len == |list| && first == list[0] && last == list[len - 1]
    modifies thief, thief.head`prev, last`next
    ensures victim.Valid() && thief.Valid() && thief.Contents() == list + old(thief.Contents())
  {
    thief.Prepend(first, last, len, list);
  }

  lemma LastOf(a: seq<Task>, list: seq<Task>, tasks: seq<Task>)
    requires a + list == tasks && |list| > 0
    ensures list[0] == tasks[|tasks| - |list|] && list[|list| - 1] == tasks[|tasks| - 1]
  {
  }

  /** Half of the victim's tasks go to the front of the thief's deque: read one after the
      other, the two deques hold the same tasks in the same order as before. */
  method TransferHalf(victim: Deque, thief: Deque)
    requires victim != thief && victim.Valid() && thief.Valid()
    requires Apart(victim.nodes, thief.nodes) && Apart(victim.nodes, thief.free)
    requires Apart(thief.nodes, victim.free)
    modifies victim, thief, victim.nodes, thief.nodes
    ensures victim.Valid() && thief.Valid()
    ensures victim.Contents() + thief.Contents() == old(victim.Contents() + thief.Contents())
    ensures |victim.Contents()|
            == old(victim.numTasks) - (if old(victim.numTasks) == 0 then 0 else Max(1, old(victim.numTasks) / 2))
  {
    var first, last, n, list := victim.StealHalf();
    if first != null {
      ListApart(old(victim.nodes), victim.nodes, list, thief.nodes);
      ListApart(old(victim.nodes), victim.nodes, list, thief.free);
      ListApart(old(victim.nodes), victim.nodes, list, victim.free);
      assert last in list;
      Receive(victim, thief, first, last, n, list);
      MovesJoin(victim.Contents(), list, old(thief.Contents()));
    }
  }

  // Where the deque does not do what its callers may expect

  /** A task that points back at another one makes a head that points back. */
  method PushLinkedTask() returns (d: Deque, task: Task)
    ensures d.ValidButHead() && d.Contents() == [task] && !d.Valid()
  {
    d := new Deque();
    task := new Task();
    task.prev := new Task();
    d.Push(task);
  }

  /** Asked for no task at all, the bulk steal aborts. */
  method StealNone() returns (aborts: bool)
    ensures aborts
  {
    var d := new Deque();
    var task := new Task();
    d.Push(task);
    ghost var list;
    var first, last, stolen;
    aborts, first, last, stolen, list := d.StealMany(0);
  }
}
