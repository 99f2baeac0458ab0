/** The hydrator's queue: container/heap over a slice of task items that know their slot, with a
    map from keys to items for de-duplication. */
module TaskHeap {

  datatype Task = Task(key: string, priority: int, at: int)

  /** The priorities hydration tasks carry. */
  const PRIORITY_EXPLICIT_READ := 1000

  /** a is served no later than b: higher priority first, then the earlier enqueue time. */
  predicate Leq(a: Task, b: Task) {
    a.priority > b.priority || (a.priority == b.priority && a.at <= b.at)
  }

  function Parent(i: int): int
    requires i > 0
  {
    (i - 1) / 2
  }

  predicate Edge(ts: seq<Task>, k: int)
    requires 0 < k < |ts|
  {
    Leq(ts[Parent(k)], ts[k])
  }

  predicate Heap(ts: seq<Task>) {
    forall k :: 0 < k < |ts| ==> Edge(ts, k)
  }

  /** The first n tasks form a heap, apart from the edges at slot i. */
  predicate HeapBut(ts: seq<Task>, n: int, i: int)
    requires n <= |ts|
  {
    && (forall k :: 0 < k < n && k != i && Parent(k) != i ==> Edge(ts, k))
    && (forall k :: 0 < k < n && i > 0 && Parent(k) == i ==> Leq(ts[Parent(i)], ts[k]))
  }

  predicate ChildrenOk(ts: seq<Task>, n: int, i: int)
    requires n <= |ts|
  {
    forall k :: 0 < k < n && Parent(k) == i ==> Edge(ts, k)
  }

  /** The root of a heap is served no later than any other task. */
  lemma {:induction false} RootFirst(ts: seq<Task>, k: int)
    requires Heap(ts) && 0 <= k < |ts|
    ensures Leq(ts[0], ts[k])
    decreases k
  {
    if k > 0 {
      RootFirst(ts, Parent(k));
      assert Edge(ts, k);
    }
  }

  class TaskItem {
    var task: Task
    var index: int

    constructor (task: Task)
      ensures this.task == task
    {
      this.task, index := task, 0;
    }
  }

  class TaskQueue {
    var pq: seq<TaskItem>
    var queued: map<string, TaskItem>

    constructor ()
      ensures Valid() && Contents() == map[] && pq == []
    {
      pq, queued := [], map[];
    }

    /** Every item knows its slot; so no item stands in two. */
    ghost predicate Indexed()
      reads this`pq, pq`index
    {
      forall i :: 0 <= i < |pq| ==> pq[i].index == i
    }

    ghost function Tasks(): (ts: seq<Task>)
      reads this`pq, pq
      ensures |ts| == |pq| && forall i :: 0 <= i < |pq| ==> ts[i] == pq[i].task
    {
      var items := pq;
      seq(|items|, i requires 0 <= i < |items| reads items => items[i].task)
    }

    /** `queued` and the slots are in bijection, and the slots are a heap. */
    ghost predicate Valid()
      reads this, pq
    {
      && Indexed() && Heap(Tasks()) && Filed()
    }

    ghost predicate Filed()
      reads this, pq
    {
      && (forall k :: k in queued ==> queued[k] in Items() && queued[k].task.key == k)
      && (forall x :: x in Items() ==> x.task.key in queued && queued[x.task.key] == x)
    }

    ghost function Contents(): map<string, Task>
      reads this`queued, queued.Values`task
    {
      map k | k in queued :: queued[k].task
    }

    method Less(i: int, j: int) returns (less: bool)
      requires 0 <= i < |pq| && 0 <= j < |pq|
      ensures less == !Leq(pq[j].task, pq[i].task)
    {
      if pq[i].task.priority == pq[j].task.priority { return pq[i].task.at < pq[j].task.at; }
      return pq[i].task.priority > pq[j].task.priority;
    }

    ghost function Items(): set<TaskItem>
      reads this`pq
    {
      set x | x in pq
    }

    method Swap(i: int, j: int)
      requires 0 <= i < |pq| && 0 <= j < |pq| && Indexed()
      modifies this`pq, Items()`index
      ensures pq == old(pq)[i := old(pq[j])][j := old(pq[i])] && Indexed()
      ensures Items() == old(Items())
      ensures Tasks() == old(Tasks())[i := old(pq[j].task)][j := old(pq[i].task)]
    {
      pq := pq[i := pq[j]][j := pq[i]];
      pq[i].index := i;
      pq[j].index := j;
      assert pq[i] == old(pq[j]) && pq[j] == old(pq[i]);
      assert forall k :: 0 <= k < |pq| && k != i && k != j ==> pq[k] == old(pq[k]);
      SwapKeepsItems(old(pq), pq, i, j);
    }

    method Up(j0: int)
      requires 0 <= j0 < |pq| && Indexed() && HeapBut(Tasks(), |pq|, j0) && ChildrenOk(Tasks(), |pq|, j0)
      modifies this`pq, Items()`index
      ensures Indexed() && Heap(Tasks()) && Items() == old(Items()) && |pq| == |old(pq)|
    {
      var j := j0;
      while true
        invariant 0 <= j < |pq| == |old(pq)| && Indexed() && Items() == old(Items())
        invariant HeapBut(Tasks(), |pq|, j) && ChildrenOk(Tasks(), |pq|, j)
        decreases j
      {
        var i := if j == 0 then 0 else Parent(j);
        if i == j { break; }
        var less := Less(j, i);
        if !less { break; }
        ghost var ts := Tasks();
        Swap(i, j);
        SiftedUp(ts, i, j);
        j := i;
      }
      HeapComplete(Tasks(), j);
    }

    method Down(i0: int, n: int) returns (moved: bool)
      requires 0 <= i0 <= n <= |pq| && Indexed() && HeapBut(Tasks(), n, i0)
      modifies this`pq, Items()`index
      ensures Indexed() && Items() == old(Items()) && |pq| == |old(pq)|
      ensures forall k :: n <= k < |pq| ==> pq[k] == old(pq)[k]
      ensures moved ==> HeapOf(Tasks(), n)
      ensures !moved ==> pq == old(pq) && ChildrenOk(Tasks(), n, i0)
    {
      var i := i0;
      while true
        invariant i0 <= i <= n <= |pq| == |old(pq)| && Indexed() && Items() == old(Items())
        invariant forall k :: n <= k < |pq| ==> pq[k] == old(pq)[k]
        invariant HeapBut(Tasks(), n, i)
        invariant i == i0 ==> pq == old(pq)
        invariant i > i0 ==> 0 < i < n && Edge(Tasks(), i)
        decreases n - i
      {
        var j := DownStep(i, n);
        if j == i { break; }
        i := j;
      }
      if i > i0 { HeapDone(Tasks(), n, i); }
      return i > i0;
    }

    /** One round of down: the slot the task at i sinks to, or i when it stays. */
    method DownStep(i: int, n: int) returns (j: int)
      requires 0 <= i <= n <= |pq| && Indexed() && HeapBut(Tasks(), n, i)
      modifies this`pq, Items()`index
      ensures Indexed() && Items() == old(Items()) && |pq| == |old(pq)|
      ensures forall k :: n <= k < |pq| ==> pq[k] == old(pq)[k]
      ensures j == i ==> pq == old(pq) && ChildrenOk(Tasks(), n, i)
      ensures j != i ==> i < j < n && HeapBut(Tasks(), n, j) && Edge(Tasks(), j)
    {
      ghost var ts := Tasks();
      var j1 := 2 * i + 1;
      if j1 >= n {
        NoChildren(ts, n, i);
        return i;
      }
      j := SmallerChild(j1, n);
      var less := Less(j, i);
      if !less {
        BothOk(ts, n, i, j);
        return i;
      }
      SiftedDown(ts, n, i, j);
      Swap(i, j);
      assert Tasks() == ts[i := ts[j]][j := ts[i]];
    }

    /** The child that down compares with its parent. */
    method SmallerChild(j1: int, n: int) returns (j: int)
      requires 0 < j1 < n <= |pq|
      ensures j1 <= j <= j1 + 1 && j < n
      ensures Leq(pq[j].task, pq[j1].task) && (j1 + 1 < n ==> Leq(pq[j].task, pq[j1 + 1].task))
    {
      j := j1;
      var j2 := j1 + 1;
      if j2 < n {
        var right := Less(j2, j1);
        if right { j := j2; }
      }
    }

    /** heap.Push */
    method HeapPush(item: TaskItem)
      requires Indexed() && Heap(Tasks()) && item !in pq
      modifies this`pq, Items()`index, item`index
      ensures Indexed() && Heap(Tasks()) && Items() == old(Items()) + {item}
    {
      ghost var ts := Tasks();
      item.index := |pq|;
      pq := pq + [item];
      assert Tasks()[..|ts|] == ts;
      Appended(ts, Tasks());
      Up(|pq| - 1);
    }

    /** heap.Pop */
    method HeapPop() returns (item: TaskItem)
      requires |pq| > 0 && Indexed() && Heap(Tasks())
      modifies this`pq, Items()`index
      ensures item == old(pq[0]) && Indexed() && Heap(Tasks())
      ensures Items() == old(Items()) - {item}
    {
      var n := |pq| - 1;
      ghost var ts := Tasks();
      Swap(0, n);
      RootMoved(ts, Tasks(), n);
      var moved := Down(0, n);
      if !moved { HeapFromChildren(Tasks(), n); }
      item := Shrink();
    }

    /** priorityQueue.Pop: the last slot goes. */
    method Shrink() returns (item: TaskItem)
      requires |pq| > 0 && Indexed() && HeapOf(Tasks(), |pq| - 1)
      modifies this`pq
      ensures item == old(pq)[|old(pq)| - 1] && Indexed() && Heap(Tasks()) && Items() == old(Items()) - {item}
    {
      var n := |pq| - 1;
      Truncated(Tasks(), n);
      item := pq[n];
      ghost var full, us := pq, Tasks();
      pq := pq[..n];
      assert Tasks() == us[..n];
      assert full == pq + [item];
      assert item !in pq by { assert forall k :: 0 <= k < n ==> full[k].index == k; }
    }

    /** heap.Fix */
    method HeapFix(i: int)
      requires 0 <= i < |pq| && Indexed() && HeapBut(Tasks(), |pq|, i)
      modifies this`pq, Items()`index
      ensures Indexed() && Heap(Tasks()) && Items() == old(Items())
    {
      var moved := Down(i, |pq|);
      if !moved { Up(i); }
    }

    /** enqueueLocked: a key already active is refused, a queued one only gains priority. */
    method EnqueueLocked(task: Task, active: set<string>) returns (enqueued: bool)
      requires Valid()
      modifies this, Items()
      ensures Valid() && fresh(Items() - old(Items()))
      ensures (Contents(), enqueued) == Enqueued(old(Contents()), task, active)
    {
      if task.key in active { return false; }
      if task.key in queued {
        if task.priority > queued[task.key].task.priority {
          Raise(task);
          return true;
        }
        return false;
      }
      Insert(task);
      return true;
    }

    method Raise(task: Task)
      requires Valid() && task.key in queued
      modifies this`pq, Items()
      ensures Valid() && Items() == old(Items()) && Contents() == old(Contents())[task.key := task]
    {
      var item := queued[task.key];
      var i := item.index;
      SlotIs(item);
      Improved(Tasks(), i, task);
      SetTask(item, task);
      Refix(i);
    }

    lemma SlotIs(item: TaskItem)
      requires Indexed() && item in Items()
      ensures 0 <= item.index < |pq| && pq[item.index] == item
    {
      var i :| 0 <= i < |pq| && pq[i] == item;
    }

    /** A queued item gets another task of its key. */
    method SetTask(item: TaskItem, task: Task)
      requires Indexed() && Filed() && 0 <= item.index < |pq| && pq[item.index] == item && task.key == item.task.key
      modifies item`task
      ensures Filed() && Tasks() == old(Tasks())[item.index := task]
      ensures Contents() == old(Contents())[task.key := task]
    {
      assert item in Items() && queued[task.key] == item;
      assert forall k :: k in queued && k != task.key ==> queued[k] != item;
      item.task := task;
    }

    /** heap.Fix again, with the filing in place. */
    method Refix(i: int)
      requires 0 <= i < |pq| && Indexed() && Filed() && HeapBut(Tasks(), |pq|, i)
      modifies this`pq, Items()`index
      ensures Valid() && Items() == old(Items())
    {
      HeapFix(i);
    }

    method Insert(task: Task)
      requires Valid() && task.key !in queued
      modifies this, Items()
      ensures Valid() && fresh(Items() - old(Items())) && Contents() == old(Contents())[task.key := task]
    {
      var item := new TaskItem(task);
      AddItem(item);
    }

    method AddItem(item: TaskItem)
      requires Valid() && item !in Items() && item.task.key !in queued
      modifies this, Items()`index, item`index
      ensures Valid() && Items() == old(Items()) + {item} && queued == old(queued)[item.task.key := item]
      ensures Contents() == old(Contents())[item.task.key := item.task]
    {
      ghost var was := Items();
      HeapPush(item);
      FileItem(item, was);
    }

    /** The last item in becomes its key's; the items that were there are filed already. */
    method FileItem(item: TaskItem, ghost was: set<TaskItem>)
      requires Items() == was + {item} && item !in was && item.task.key !in queued
      requires forall k :: k in queued ==> queued[k] in was && queued[k].task.key == k
      requires forall x :: x in was ==> x.task.key in queued && queued[x.task.key] == x
      modifies this`queued
      ensures Filed() && queued == old(queued)[item.task.key := item]
      ensures Contents() == old(Contents())[item.task.key := item.task]
    {
      queued := queued[item.task.key := item];
    }

    method DropFirst() returns (item: TaskItem)
      requires Valid() && pq != []
      modifies this, Items()`index
      ensures item == old(pq[0]) && Valid() && Items() == old(Items()) - {item} && queued == old(queued) - {item.task.key}
    {
      item := HeapPop();
      queued := queued - {item.task.key};
    }

    /** The popping half of step: the task to serve next leaves the queue and the map. */
    method PopTask() returns (task: Task)
      requires Valid() && pq != []
      modifies this, Items()
      ensures Valid() && Items() <= old(Items())
      ensures task.key in old(Contents()) && task == old(Contents())[task.key]
      ensures forall k :: k in old(Contents()) ==> Leq(task, old(Contents())[k])
      ensures Contents() == old(Contents()) - {task.key}
    {
      FirstIsBest();
      assert pq[0] in Items();
      var item := DropFirst();
      task := item.task;
    }

    lemma FirstIsBest()
      requires Valid() && pq != []
      ensures forall k :: k in queued ==> Leq(pq[0].task, queued[k].task)
    {
      forall k | k in queued ensures Leq(pq[0].task, queued[k].task) {
        assert queued[k] in Items();
        var i :| 0 <= i < |pq| && pq[i] == queued[k];
        RootFirst(Tasks(), i);
      }
    }
  }

  lemma SwapKeepsItems<T>(s: seq<T>, t: seq<T>, i: int, j: int)
    requires 0 <= i < |s| && 0 <= j < |s| && t == s[i := s[j]][j := s[i]]
    ensures (set x | x in s) == (set x | x in t)
  {
    forall x | x in s ensures x in t {
      var k :| 0 <= k < |s| && s[k] == x;
      assert t[if k == i then j else if k == j then i else k] == x;
    }
  }

  /** The queue as a map, after an enqueue. */
  function Enqueued(q: map<string, Task>, task: Task, active: set<string>): (r: (map<string, Task>, bool))
    ensures task.key in active ==> r == (q, false)
    ensures task.key !in active ==> task.key in r.0 && r.0 - {task.key} == q - {task.key}
  {
    if task.key in active then (q, false)
    else if task.key in q && task.priority <= q[task.key].priority then (q, false)
    else (q[task.key := task], true)
  }

  // ---- the heap arguments ----

  lemma SiftedUp(ts: seq<Task>, i: int, j: int)
    requires 0 < j < |ts| && i == Parent(j) && !Leq(ts[i], ts[j])
    requires HeapBut(ts, |ts|, j) && ChildrenOk(ts, |ts|, j)
    ensures HeapBut(ts[i := ts[j]][j := ts[i]], |ts|, i) && ChildrenOk(ts[i := ts[j]][j := ts[i]], |ts|, i)
  {
    var us := ts[i := ts[j]][j := ts[i]];
    forall k | 0 < k < |us| && k != i ensures Edge(us, k) {
      if k == j {
      } else if Parent(k) == i {
        assert Edge(ts, k);
      } else if Parent(k) == j {
        assert Leq(ts[Parent(j)], ts[k]);
      } else {
        assert Edge(ts, k);
      }
    }
    forall k | 0 < k < |us| && i > 0 && Parent(k) == i ensures Leq(us[Parent(i)], us[k]) {
      assert Edge(ts, i);
      if k != j { assert Edge(ts, k); }
    }
  }

  lemma SiftedDown(ts: seq<Task>, n: int, i: int, j: int)
    requires 0 <= i < n <= |ts| && 2 * i + 1 <= j <= 2 * i + 2 && j < n && !Leq(ts[i], ts[j])
    requires Leq(ts[j], ts[2 * i + 1]) && (2 * i + 2 < n ==> Leq(ts[j], ts[2 * i + 2]))
    requires HeapBut(ts, n, i)
    ensures HeapBut(ts[i := ts[j]][j := ts[i]], n, j) && Edge(ts[i := ts[j]][j := ts[i]], j)
  {
    var us := ts[i := ts[j]][j := ts[i]];
    forall k | 0 < k < n && k != j && Parent(k) != j ensures Edge(us, k) {
      if k == i {
        assert Parent(j) == i && Leq(ts[Parent(i)], ts[j]);
        assert us[k] == ts[j] && us[Parent(k)] == ts[Parent(i)];
      } else if Parent(k) == i {
        assert k == 2 * i + 1 || k == 2 * i + 2;
        assert us[k] == ts[k] && us[i] == ts[j];
      } else {
        assert Edge(ts, k) && us[k] == ts[k] && us[Parent(k)] == ts[Parent(k)];
      }
    }
    forall k | 0 < k < n && Parent(k) == j ensures Leq(us[Parent(j)], us[k]) {
      assert Parent(j) == i && k != i && k != j;
      assert Edge(ts, k) && us[k] == ts[k] && us[i] == ts[j];
    }
    assert Parent(j) == i && us[i] == ts[j] && us[j] == ts[i];
  }

  predicate HeapOf(ts: seq<Task>, n: int)
    requires n <= |ts|
  {
    forall k :: 0 < k < n ==> Edge(ts, k)
  }

  lemma NoChildren(ts: seq<Task>, n: int, i: int)
    requires 0 <= i && n <= |ts| && 2 * i + 1 >= n
    ensures ChildrenOk(ts, n, i)
  {
  }

  lemma BothOk(ts: seq<Task>, n: int, i: int, j: int)
    requires 0 <= i < n <= |ts| && 2 * i + 1 <= j <= 2 * i + 2 && j < n && Leq(ts[i], ts[j])
    requires Leq(ts[j], ts[2 * i + 1]) && (2 * i + 2 < n ==> Leq(ts[j], ts[2 * i + 2]))
    ensures ChildrenOk(ts, n, i)
  {
    forall k | 0 < k < n && Parent(k) == i ensures Edge(ts, k) {
      assert k == 2 * i + 1 || k == 2 * i + 2;
    }
  }

  lemma HeapDone(ts: seq<Task>, n: int, i: int)
    requires 0 < i < n <= |ts| && HeapBut(ts, n, i) && ChildrenOk(ts, n, i) && Edge(ts, i)
    ensures HeapOf(ts, n)
  {
    assert forall k :: 0 < k < n && Parent(k) == i ==> Edge(ts, k);
  }

  lemma HeapFromChildren(ts: seq<Task>, n: int)
    requires 0 <= n <= |ts| && HeapBut(ts, n, 0) && ChildrenOk(ts, n, 0)
    ensures HeapOf(ts, n)
  {
    assert forall k :: 0 < k < n && Parent(k) == 0 ==> Edge(ts, k);
  }

  lemma RootMoved(ts: seq<Task>, us: seq<Task>, n: int)
    requires 0 <= n == |ts| - 1 && Heap(ts) && us == ts[0 := ts[n]][n := ts[0]]
    ensures HeapBut(us, n, 0)
  {
    forall k | 0 < k < n && Parent(k) != 0 ensures Edge(us, k) { assert Edge(ts, k); }
  }

  lemma Truncated(ts: seq<Task>, n: int)
    requires 0 <= n <= |ts| && HeapOf(ts, n)
    ensures Heap(ts[..n])
  {
    forall k | 0 < k < n ensures Edge(ts[..n], k) { assert Edge(ts, k); }
  }

  lemma HeapComplete(ts: seq<Task>, j: int)
    requires 0 <= j < |ts| && HeapBut(ts, |ts|, j) && ChildrenOk(ts, |ts|, j)
    requires j > 0 ==> Edge(ts, j)
    ensures Heap(ts)
  {
  }

  lemma Appended(ts: seq<Task>, us: seq<Task>)
    requires Heap(ts) && |us| == |ts| + 1 && us[..|ts|] == ts
    ensures HeapBut(us, |us|, |ts|) && ChildrenOk(us, |us|, |ts|)
  {
    forall k | 0 < k < |us| && k != |ts| ensures Edge(us, k) {
      assert Edge(ts, k) && us[k] == us[..|ts|][k] && us[Parent(k)] == us[..|ts|][Parent(k)];
    }
  }

  lemma Improved(ts: seq<Task>, i: int, task: Task)
    requires 0 <= i < |ts| && Heap(ts)
    ensures HeapBut(ts[i := task], |ts|, i)
  {
    var us := ts[i := task];
    forall k | 0 < k < |us| && k != i && Parent(k) != i ensures Edge(us, k) { assert Edge(ts, k); }
    forall k | 0 < k < |us| && i > 0 && Parent(k) == i ensures Leq(us[Parent(i)], us[k]) {
      assert Edge(ts, k) && Edge(ts, i);
    }
  }
}
