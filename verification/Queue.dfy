/** The bounded queue of src/queue.c: its meaning on sequences and the array code. */
module ReadyQueue {

  const MAX_PRIO: nat := 140
  const MAX_QUEUE_SIZE: nat := 10

  // A process as the scheduler sees it.
  datatype Task = Task(pid: nat, prio: nat)

  datatype Entry = Null | Proc(task: Task)

  // enqueue: a full queue silently drops the process.
  function Enqueue(q: seq<Task>, t: Task): seq<Task> {
    if |q| < MAX_QUEUE_SIZE then q + [t] else q
  }

  function PrioAt(q: seq<Task>, k: int): nat
    requires -1 <= k < |q|
  {
    if k == -1 then MAX_PRIO else q[k].prio
  }

  // The scan of dequeue over the first n entries: the index it settles on, or -1.
  function Highest(q: seq<Task>, n: nat): (k: int)
    requires n <= |q|
    ensures -1 <= k < n
  {
    if n == 0 then -1
    else
      var k := Highest(q, n - 1);
      if q[n - 1].prio < PrioAt(q, k) then n - 1 else k
  }

  function Remove(q: seq<Task>, k: nat): seq<Task>
    requires k < |q|
  {
    q[..k] + q[k + 1..]
  }

  // dequeue picks the first process of the numerically least priority.
  lemma {:induction false} HighestIsFirstLeast(q: seq<Task>, n: nat)
    requires n <= |q|
    ensures var k := Highest(q, n);
            && (k == -1 <==> forall j :: 0 <= j < n ==> q[j].prio >= MAX_PRIO)
            && (k >= 0 ==> forall j :: 0 <= j < n ==> q[k].prio <= q[j].prio)
            && (k >= 0 ==> q[k].prio < MAX_PRIO && forall j :: 0 <= j < k ==> q[k].prio < q[j].prio)
  {
    if n > 0 {
      HighestIsFirstLeast(q, n - 1);
    }
  }

  // On a level queue, where all priorities are the same, dequeue is first in, first out.
  lemma LevelQueueIsFifo(q: seq<Task>, p: nat)
    requires |q| > 0 && p < MAX_PRIO
    requires forall j :: 0 <= j < |q| ==> q[j].prio == p
    ensures Highest(q, |q|) == 0 && Remove(q, 0) == q[1..]
  {
    hide Highest;
    HighestIsFirstLeast(q, |q|);
    assert q[0].prio == p;
    assert q[..0] + q[1..] == q[1..];
  }

  class Queue {
    const proc: array<Entry>
    var size: nat

    ghost predicate Valid()
      reads this, proc
    {
      && proc.Length == MAX_QUEUE_SIZE && size <= MAX_QUEUE_SIZE
      && forall i :: 0 <= i < size ==> proc[i].Proc?
    }

    ghost function Contents(): (q: seq<Task>)
      requires Valid()
      reads this, proc
      ensures |q| == size
    {
      seq(size, i requires 0 <= i < size && Valid() reads this, proc => proc[i].task)
    }

    constructor ()
      ensures Valid() && Contents() == [] && fresh(proc)
    {
      proc := new Entry[MAX_QUEUE_SIZE](i => Null);
      size := 0;
    }

    method IsEmpty() returns (r: bool)
      requires Valid()
      ensures r == (Contents() == [])
    {
      r := size == 0;
    }

    method EnqueueTask(t: Task)
      requires Valid()
      modifies this`size, proc
      ensures Valid() && Contents() == Enqueue(old(Contents()), t)
    {
      ghost var was := Contents();
      if size < MAX_QUEUE_SIZE {
        proc[size] := Proc(t);
        size := size + 1;
        assert Contents() == was + [t];
      }
    }

    // dequeue: find the entry, shift the later ones down, clear the last.
    method DequeueTask() returns (r: Entry)
      requires Valid()
      requires Contents() != [] ==> Highest(Contents(), |Contents()|) >= 0
      modifies this`size, proc
      ensures Valid()
      ensures old(Contents()) == [] ==> r == Null && Contents() == []
      ensures old(Contents()) != [] ==>
                var k := Highest(old(Contents()), |old(Contents())|);
                r == Proc(old(Contents())[k]) && Contents() == Remove(old(Contents()), k)
    {
      if size == 0 {
        return Null;
      }
      ghost var was := Contents();
      var highestPrio := MAX_PRIO;
      var highestNum := -1;
      var i := 0;
      while i < size
        invariant 0 <= i <= size
        invariant highestNum == Highest(was, i) && highestPrio == PrioAt(was, highestNum)
      {
        if proc[i].Proc? && proc[i].task.prio < highestPrio {
          highestPrio := proc[i].task.prio;
          highestNum := i;
        }
        i := i + 1;
      }
      r := proc[highestNum];
      ShiftDown(highestNum);
    }

    // The last loop of dequeue: move the entries behind k down by one and clear the last.
    method ShiftDown(k: nat)
      requires Valid() && k < size
      modifies this`size, proc
      ensures Valid() && Contents() == Remove(old(Contents()), k)
    {
      ghost var was := Contents();
      size := size - 1;
      var i := k;
      while i < size
        invariant size == old(size) - 1 && k <= i <= size
        invariant forall j :: 0 <= j < k ==> proc[j] == old(proc[j])
        invariant forall j :: k <= j < i ==> proc[j] == old(proc[j + 1])
        invariant forall j :: i < j < MAX_QUEUE_SIZE ==> proc[j] == old(proc[j])
      {
        proc[i] := proc[i + 1];
        i := i + 1;
      }
      proc[size] := Null;
      ghost var now := Contents();
      assert forall j :: 0 <= j < size ==> now[j] == was[if j < k then j else j + 1];
    }
  }
}
