/** The scheduler of src/sched.c: 140 queues and their budgets, updated in place under queue_lock. */
module Scheduler {
  import opened ReadyQueue
  import opened Sched

  class MlqScheduler {
    const mlq: seq<Queue>
    const slot: array<int>
    ghost var state: SchedState

    ghost predicate Disjoint()
      reads this
    {
      && |mlq| == slot.Length == MAX_PRIO
      && (forall i :: 0 <= i < |mlq| ==> slot as object != mlq[i].proc)
      && (forall i, j :: 0 <= i < j < |mlq| ==> mlq[i] != mlq[j] && mlq[i].proc != mlq[j].proc)
    }

    ghost function Footprint(): set<object>
      reads this
    {
      {this, slot} + (set i | 0 <= i < |mlq| :: mlq[i]) + (set i | 0 <= i < |mlq| :: mlq[i].proc)
    }

    // The queues and budgets are those of `state`.
    ghost predicate Valid()
      reads this, Footprint()
    {
      && Disjoint()
      && |state.queues| == |state.slot| == MAX_PRIO
      && state.slot == slot[..]
      && forall i :: 0 <= i < MAX_PRIO ==> mlq[i].Valid() && mlq[i].Contents() == state.queues[i]
    }

    // init_scheduler
    constructor ()
      ensures Valid() && fresh(Footprint()) && state == InitSched()
    {
      var qs: seq<Queue> := [];
      var budgets := new int[MAX_PRIO](i => MAX_PRIO - i);
      while |qs| < MAX_PRIO
        invariant |qs| <= MAX_PRIO
        invariant forall i :: 0 <= i < |qs| ==> fresh(qs[i]) && fresh(qs[i].proc)
        invariant forall i :: 0 <= i < |qs| ==> qs[i].Valid() && qs[i].Contents() == []
        invariant forall i :: 0 <= i < |qs| ==> budgets as object != qs[i].proc
        invariant forall i, j :: 0 <= i < j < |qs| ==> qs[i] != qs[j] && qs[i].proc != qs[j].proc
        invariant budgets[..] == FullSlots()
      {
        var q := new Queue();
        qs := qs + [q];
      }
      mlq := qs;
      slot := budgets;
      state := InitSched();
    }

    // queue_empty: -1 when some level has a process. Otherwise the code goes on to the side queues,
    // which no caller distinguishes.
    method QueueEmpty() returns (r: int)
      requires Valid()
      ensures r == -1 <==> !AllEmpty(state)
    {
      var prio := 0;
      while prio < MAX_PRIO
        invariant 0 <= prio <= MAX_PRIO
        invariant forall p :: 0 <= p < prio ==> state.queues[p] == []
      {
        var e := mlq[prio].IsEmpty();
        if !e {
          return -1;
        }
        prio := prio + 1;
      }
      return 1;
    }

    // The test and the scan of get_mlq_proc before it changes anything: -1 when there is no process,
    // else the first ready level, or MAX_PRIO.
    method FindReady() returns (prio: int)
      requires Valid()
      ensures prio == if AllEmpty(state) then -1 else FirstReady(state, 0)
    {
      var e := QueueEmpty();
      if e != -1 {
        return -1;
      }
      prio := 0;
      while prio < MAX_PRIO
        invariant 0 <= prio <= MAX_PRIO
        invariant FirstReady(state, 0) == FirstReady(state, prio)
      {
        var empty := mlq[prio].IsEmpty();
        assert slot[prio] == state.slot[prio];
        if !empty && slot[prio] > 0 {
          return;
        }
        prio := prio + 1;
      }
    }

    // The body of that loop once a ready level is found.
    method Dispatch(prio: nat) returns (r: Entry)
      requires Valid() && prio < MAX_PRIO && state.queues[prio] != [] && LevelOk(state.queues[prio], prio)
      modifies this`state, slot, mlq[prio], mlq[prio].proc
      ensures Valid() && r == Proc(old(state).queues[prio][0])
      ensures state == SchedState(old(state).queues[prio := old(state).queues[prio][1..]],
                                  old(state).slot[prio := old(state).slot[prio] - 1])
    {
      hide Footprint, Highest;
      LevelQueueIsFifo(state.queues[prio], prio);
      hide Highest, LevelOk;
      r := mlq[prio].DequeueTask();
      slot[prio] := slot[prio] - 1;
      state := SchedState(state.queues[prio := state.queues[prio][1..]], state.slot[prio := state.slot[prio] - 1]);
    }

    // The second loop of get_mlq_proc.
    method ResetSlots()
      requires Valid()
      modifies this`state, slot
      ensures Valid() && state == old(state).(slot := FullSlots())
    {
      var prio := 0;
      while prio < MAX_PRIO
        invariant 0 <= prio <= MAX_PRIO
        invariant state == old(state)
        invariant forall p :: 0 <= p < prio ==> slot[p] == Budget(p)
      {
        slot[prio] := MAX_PRIO - prio;
        prio := prio + 1;
      }
      assert slot[..] == FullSlots();
      state := state.(slot := FullSlots());
    }

    // get_mlq_proc
    method GetMlqProc() returns (r: Entry)
      requires Valid() && SchedOk(state)
      modifies Footprint()
      ensures Valid()
      ensures (state, if r == Null then None else Some(r.task)) == Get(old(state))
    {
      r := Null;
      GetCases(state);
      var prio := FindReady();
      if 0 <= prio < MAX_PRIO {
        r := Dispatch(prio);
      } else if prio == MAX_PRIO {
        ResetSlots();
      }
    }

    // put_mlq_proc and add_mlq_proc
    method PutMlqProc(t: Task)
      requires Valid() && t.prio < MAX_PRIO
      modifies this`state, mlq[t.prio], mlq[t.prio].proc
      ensures Valid() && state == Put(old(state), t)
    {
      mlq[t.prio].EnqueueTask(t);
      state := Put(state, t);
    }
  }
}
