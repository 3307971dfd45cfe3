/** The multi-level queue policy of src/sched.c on values: 140 level queues with budgets, and what it
    promises about shares, starvation and order. */
module Sched {
  import opened ReadyQueue
  import Word

  datatype Option<T> = None | Some(value: T)

  datatype SchedState = SchedState(queues: seq<seq<Task>>, slot: seq<int>)

  function Budget(p: int): int { MAX_PRIO - p }

  function FullSlots(): seq<int> { seq(MAX_PRIO, p => Budget(p)) }

  // init_scheduler
  function InitSched(): SchedState {
    SchedState(seq(MAX_PRIO, p => []), FullSlots())
  }

  predicate LevelOk(q: seq<Task>, p: nat) {
    |q| <= MAX_QUEUE_SIZE && forall j :: 0 <= j < |q| ==> q[j].prio == p
  }

  ghost predicate SchedOk(s: SchedState) {
    && |s.queues| == |s.slot| == MAX_PRIO
    && (forall p :: 0 <= p < MAX_PRIO ==> 0 <= s.slot[p] <= Budget(p))
    && (forall p :: 0 <= p < MAX_PRIO ==> LevelOk(s.queues[p], p))
  }

  predicate Ready(s: SchedState, p: nat)
    requires p < |s.queues| == |s.slot|
  {
    s.queues[p] != [] && s.slot[p] > 0
  }

  // The scan of get_mlq_proc from level p on: the first level with a process and budget, or 140.
  function FirstReady(s: SchedState, p: nat): (r: nat)
    requires |s.queues| == |s.slot| == MAX_PRIO && p <= MAX_PRIO
    ensures p <= r <= MAX_PRIO
    ensures r < MAX_PRIO ==> Ready(s, r)
    ensures forall q :: p <= q < r ==> !Ready(s, q)
    decreases MAX_PRIO - p
  {
    if p == MAX_PRIO || Ready(s, p) then p else FirstReady(s, p + 1)
  }

  predicate AllEmpty(s: SchedState) {
    forall p :: 0 <= p < |s.queues| ==> s.queues[p] == []
  }

  // get_mlq_proc: nothing when all levels are empty; else the first ready level's next process, at
  // the cost of one unit of its budget; else all budgets are reset and nothing is returned. (A level
  // that held only priorities of 140 or more would make dequeue index entry -1; that state is outside
  // the model, and SchedOk rules it out.)
  function Get(s: SchedState): (SchedState, Option<Task>)
    requires |s.queues| == |s.slot| == MAX_PRIO
  {
    if AllEmpty(s) then (s, None)
    else
      var p := FirstReady(s, 0);
      if p == MAX_PRIO then (s.(slot := FullSlots()), None)
      else
        var q := s.queues[p];
        var k := Highest(q, |q|);
        if k < 0 then (s, None)
        else (SchedState(s.queues[p := Remove(q, k)], s.slot[p := s.slot[p] - 1]), Some(q[k]))
  }

  // put_mlq_proc and add_mlq_proc
  function Put(s: SchedState, t: Task): SchedState
    requires t.prio < |s.queues|
  {
    s.(queues := s.queues[t.prio := Enqueue(s.queues[t.prio], t)])
  }

  lemma InitSchedOk()
    ensures SchedOk(InitSched())
  {
  }

  // get in the form the policy is stated: the dispatched level is the least one that is ready, its
  // oldest process is dispatched, and every other queue and budget is untouched.
  lemma GetDispatches(s: SchedState)
    requires SchedOk(s) && FirstReady(s, 0) < MAX_PRIO
    ensures var p := FirstReady(s, 0);
            Get(s) == (SchedState(s.queues[p := s.queues[p][1..]], s.slot[p := s.slot[p] - 1]), Some(s.queues[p][0]))
  {
    var p := FirstReady(s, 0);
    assert LevelOk(s.queues[p], p);
    LevelQueueIsFifo(s.queues[p], p);
  }

  // The three cases of get together.
  lemma GetCases(s: SchedState)
    requires SchedOk(s)
    ensures AllEmpty(s) ==> Get(s) == (s, None)
    ensures !AllEmpty(s) && FirstReady(s, 0) == MAX_PRIO ==> Get(s) == (s.(slot := FullSlots()), None)
    ensures var p := FirstReady(s, 0);
            p < MAX_PRIO ==>
              && s.queues[p] != [] && LevelOk(s.queues[p], p)
              && Get(s) == (SchedState(s.queues[p := s.queues[p][1..]], s.slot[p := s.slot[p] - 1]),
                            Some(s.queues[p][0]))
  {
    if FirstReady(s, 0) < MAX_PRIO {
      GetDispatches(s);
    }
  }

  lemma GetKeepsOk(s: SchedState)
    requires SchedOk(s)
    ensures SchedOk(Get(s).0)
  {
    if FirstReady(s, 0) < MAX_PRIO {
      GetDispatches(s);
      assert LevelOk(s.queues[FirstReady(s, 0)], FirstReady(s, 0));
    }
  }

  lemma PutKeepsOk(s: SchedState, t: Task)
    requires SchedOk(s) && t.prio < MAX_PRIO
    ensures SchedOk(Put(s, t))
  {
    assert LevelOk(s.queues[t.prio], t.prio);
  }

  // Nothing comes back exactly when there is no process at all or every waiting level has spent its
  // budget; only in the second case are the budgets reset.
  lemma GetNothingExactly(s: SchedState)
    requires SchedOk(s)
    ensures Get(s).1 == None <==> forall p :: 0 <= p < MAX_PRIO && s.queues[p] != [] ==> s.slot[p] == 0
    ensures Get(s).1 == None ==> Get(s).0.queues == s.queues
    ensures Get(s).1 == None ==> Get(s).0.slot == if AllEmpty(s) then s.slot else FullSlots()
  {
    if FirstReady(s, 0) < MAX_PRIO {
      GetDispatches(s);
      assert Ready(s, FirstReady(s, 0));
    } else {
      forall p | 0 <= p < MAX_PRIO && s.queues[p] != []
        ensures s.slot[p] == 0
      {
        assert !Ready(s, p);
      }
    }
  }

  // A put adds exactly its process, at the back of its level, if and only if the level has room;
  // otherwise the process is lost and nothing changes.
  lemma PutKeepsExactly(s: SchedState, t: Task)
    requires SchedOk(s) && t.prio < MAX_PRIO
    ensures multiset(Put(s, t).queues[t.prio]) == multiset(s.queues[t.prio]) + multiset{t}
       <==> |s.queues[t.prio]| < 10
    ensures |s.queues[t.prio]| < 10 ==> Put(s, t).queues[t.prio] == s.queues[t.prio] + [t]
    ensures |s.queues[t.prio]| >= 10 ==> Put(s, t) == s
  {
    var q := s.queues[t.prio];
    assert |multiset(q) + multiset{t}| == |q| + 1 && |multiset(q)| == |q|;
  }

  // n processes of the highest priority, put on a fresh scheduler.
  function Crowd(n: nat): SchedState
    ensures |Crowd(n).queues| == MAX_PRIO
  {
    if n == 0 then InitSched() else Put(Crowd(n - 1), Task(n - 1, 0))
  }

  lemma {:induction false} CrowdQueue(n: nat)
    requires n <= MAX_QUEUE_SIZE
    ensures Crowd(n).queues[0] == seq(n, i requires 0 <= i => Task(i, 0))
  {
    if n > 0 {
      CrowdQueue(n - 1);
    }
  }

  // The eleventh is dropped: the put changes nothing.
  lemma DroppedPutWitness()
    ensures Crowd(MAX_QUEUE_SIZE + 1) == Crowd(MAX_QUEUE_SIZE)
    ensures Task(MAX_QUEUE_SIZE, 0) !in Crowd(MAX_QUEUE_SIZE + 1).queues[0]
  {
    CrowdQueue(MAX_QUEUE_SIZE);
    hide InitSched;
    var q := Crowd(MAX_QUEUE_SIZE).queues;
    assert q[0 := q[0]] == q;
  }

  // ---------- Starvation bounds

  datatype Request = GetOne | PutOne(t: Task)

  predicate OpsOk(ops: seq<Request>) {
    forall i :: 0 <= i < |ops| && ops[i].PutOne? ==> ops[i].t.prio < MAX_PRIO
  }

  function Step(s: SchedState, op: Request): (SchedState, Option<Task>)
    requires |s.queues| == |s.slot| == MAX_PRIO && (op.PutOne? ==> op.t.prio < MAX_PRIO)
  {
    match op
    case GetOne => Get(s)
    case PutOne(t) => (Put(s, t), None)
  }

  lemma StepKeepsOk(s: SchedState, op: Request)
    requires SchedOk(s) && (op.PutOne? ==> op.t.prio < MAX_PRIO)
    ensures SchedOk(Step(s, op).0)
  {
    match op
    case GetOne => GetKeepsOk(s);
    case PutOne(t) => PutKeepsOk(s, t);
  }

  function Gets(ops: seq<Request>): nat {
    if ops == [] then 0 else (if ops[0].GetOne? then 1 else 0) + Gets(ops[1..])
  }

  // Some get of the run returns the process.
  ghost predicate Served(s: SchedState, ops: seq<Request>, x: Task)
    requires SchedOk(s) && OpsOk(ops)
    decreases |ops|
  {
    ops != [] &&
    (Step(s, ops[0]).1 == Some(x) || (StepKeepsOk(s, ops[0]); Served(Step(s, ops[0]).0, ops[1..], x)))
  }

  // The budget left on the levels below k.
  function SumTo(slot: seq<int>, k: nat): int
    requires k <= |slot|
  {
    if k == 0 then 0 else SumTo(slot, k - 1) + slot[k - 1]
  }

  lemma {:induction false} SumToUpdate(slot: seq<int>, q: nat, v: int, k: nat)
    requires k <= |slot| && q < |slot|
    ensures SumTo(slot[q := v], k) == SumTo(slot, k) + if q < k then v - slot[q] else 0
  {
    if k > 0 {
      SumToUpdate(slot, q, v, k - 1);
    }
  }

  lemma {:induction false} SumToNonNegative(slot: seq<int>, k: nat)
    requires k <= |slot| && forall p :: 0 <= p < |slot| ==> slot[p] >= 0
    ensures SumTo(slot, k) >= 0
    ensures forall p :: 0 <= p < k ==> SumTo(slot, k) >= slot[p]
  {
    if k > 0 {
      SumToNonNegative(slot, k - 1);
    }
  }

  lemma {:induction false} SumToMonotone(a: seq<int>, b: seq<int>, k: nat)
    requires |a| == |b| && k <= |a| && forall p :: 0 <= p < |a| ==> a[p] <= b[p]
    ensures SumTo(a, k) <= SumTo(b, k)
  {
    if k > 0 {
      SumToMonotone(a, b, k - 1);
    }
  }

  lemma {:induction false} FullSum(k: nat)
    requires k <= MAX_PRIO
    ensures 2 * SumTo(FullSlots(), k) == k * (2 * MAX_PRIO + 1 - k)
  {
    if k > 0 {
      FullSum(k - 1);
    }
  }

  // What one get does to the process at index i of level p: it comes out, or the level moves up by
  // one at the cost of one unit, or another level pays one unit, or all budgets are reset, which
  // needs level p to have spent its own.
  lemma GetAndWaiting(s: SchedState, p: nat, i: nat)
    requires SchedOk(s) && p < MAX_PRIO && i < |s.queues[p]|
    ensures var (t, r) := Get(s);
            || r == Some(s.queues[p][i])
            || (i > 0 && t.queues[p] == s.queues[p][1..] && t.slot == s.slot[p := s.slot[p] - 1] && s.slot[p] > 0)
            || (t.queues[p] == s.queues[p]
                && exists q :: 0 <= q < MAX_PRIO && q != p && (s.slot[p] > 0 ==> q < p)
                     && s.slot[q] > 0 && t.slot == s.slot[q := s.slot[q] - 1])
            || (s.slot[p] == 0 && t.queues[p] == s.queues[p] && t.slot == FullSlots())
  {
    var f := FirstReady(s, 0);
    if f < MAX_PRIO {
      GetDispatches(s);
      assert s.slot[p] > 0 ==> Ready(s, p);
      if f != p {
        assert s.slot[f] > 0 && Get(s).0.slot == s.slot[f := s.slot[f] - 1];
      }
    } else {
      assert !Ready(s, p);
      assert !AllEmpty(s);
    }
  }

  // A process at index i of a level with more than i units left comes out within the budget of the
  // levels above it plus i + 1 gets, whatever is put in between.
  lemma {:induction false} ServedWithinBudget(s: SchedState, ops: seq<Request>, p: nat, i: nat)
    requires SchedOk(s) && OpsOk(ops) && p < MAX_PRIO && i < |s.queues[p]|
    requires s.slot[p] > i
    requires Gets(ops) >= SumTo(s.slot, p) + i + 1
    ensures Served(s, ops, s.queues[p][i])
    decreases |ops|
  {
    hide Get, SumTo, LevelOk;
    SumToNonNegative(s.slot, p);
    var (t, r) := Step(s, ops[0]);
    StepKeepsOk(s, ops[0]);
    if ops[0].GetOne? {
      GetAndWaiting(s, p, i);
      if r != Some(s.queues[p][i]) {
        if t.queues[p] == s.queues[p] {
          var q :| 0 <= q < MAX_PRIO && q != p && q < p && t.slot == s.slot[q := s.slot[q] - 1];
          SumToUpdate(s.slot, q, s.slot[q] - 1, p);
          ServedWithinBudget(t, ops[1..], p, i);
        } else {
          SumToUpdate(s.slot, p, s.slot[p] - 1, p);
          ServedWithinBudget(t, ops[1..], p, i - 1);
        }
      }
    } else {
      ServedWithinBudget(t, ops[1..], p, i);
    }
  }

  // One round of all budgets, and the get that resets them.
  const ROUND: nat := 9871

  // A get that does not bring the process out brings it closer: the gets it can still take, its
  // level's and the others' budgets plus a round per reset it needs, go down by at least one.
  lemma GetBringsCloser(s: SchedState, p: nat, i: nat, e: nat) returns (i': nat, e': nat)
    requires SchedOk(s) && p < MAX_PRIO && i < |s.queues[p]|
    requires i + 1 <= s.slot[p] + e * Budget(p)
    requires Get(s).1 != Some(s.queues[p][i])
    ensures var t := Get(s).0;
            && i' < |t.queues[p]| && t.queues[p][i'] == s.queues[p][i]
            && i' + 1 <= t.slot[p] + e' * Budget(p)
            && SumTo(t.slot, MAX_PRIO) + e' * ROUND + 1 <= SumTo(s.slot, MAX_PRIO) + e * ROUND
  {
    hide Budget;
    hide SumTo, LevelOk, Highest, AllEmpty;
    SumToNonNegative(s.slot, MAX_PRIO);
    GetAndWaiting(s, p, i);
    var t := Get(s).0;
    if i > 0 && t.queues[p] == s.queues[p][1..] && t.slot == s.slot[p := s.slot[p] - 1] {
      SumToUpdate(s.slot, p, s.slot[p] - 1, MAX_PRIO);
      i', e' := i - 1, e;
    } else if s.slot[p] == 0 && t.slot == FullSlots() {
      RoundAfterReset(p, e);
      i', e' := i, e - 1;
    } else {
      var q :| 0 <= q < MAX_PRIO && q != p && t.slot == s.slot[q := s.slot[q] - 1];
      SumToUpdate(s.slot, q, s.slot[q] - 1, MAX_PRIO);
      i', e' := i, e;
    }
  }

  // A process that needs e resets besides the budget its level has left comes out within the
  // budgets now left plus e rounds of gets, whatever is put in between.
  lemma {:induction false} ServedWithinRounds(s: SchedState, ops: seq<Request>, p: nat, i: nat, e: nat)
    requires SchedOk(s) && OpsOk(ops) && p < MAX_PRIO && i < |s.queues[p]|
    requires i + 1 <= s.slot[p] + e * Budget(p)
    requires Gets(ops) >= SumTo(s.slot, MAX_PRIO) + e * ROUND
    ensures Served(s, ops, s.queues[p][i])
    decreases |ops|
  {
    SumToNonNegative(s.slot, MAX_PRIO);
    assert e > 0 ==> e * ROUND > 0;
    StepKeepsOk(s, ops[0]);
    var (t, r) := Step(s, ops[0]);
    if ops[0].PutOne? {
      ServedWithinRounds(t, ops[1..], p, i, e);
    } else if r != Some(s.queues[p][i]) {
      var i', e' := GetBringsCloser(s, p, i, e);
      hide Get, SumTo;
      ServedWithinRounds(t, ops[1..], p, i', e');
    }
  }

  lemma RoundAfterReset(p: nat, e: nat)
    requires p < MAX_PRIO && e > 0
    ensures SumTo(FullSlots(), MAX_PRIO) + (e - 1) * ROUND == e * ROUND - 1
    ensures FullSlots()[p] + (e - 1) * Budget(p) == e * Budget(p)
  {
    FullSum(MAX_PRIO);
  }

  // No starvation: from any state the process at index i of level p comes out within
  // (1 + ceil((i + 1) / (140 - p))) * 9871 gets, whatever is put in between.
  lemma NoStarvation(s: SchedState, ops: seq<Request>, p: nat, i: nat)
    requires SchedOk(s) && OpsOk(ops) && p < MAX_PRIO && i < |s.queues[p]|
    requires Gets(ops) >= (1 + Word.DivRoundUp(i + 1, Budget(p))) * ROUND
    ensures Served(s, ops, s.queues[p][i])
  {
    var e := Word.DivRoundUp(i + 1, Budget(p));
    Word.DivRoundUpIsCeiling(i + 1, Budget(p));
    SumToMonotone(s.slot, FullSlots(), MAX_PRIO);
    FullSum(MAX_PRIO);
    ServedWithinRounds(s, ops, p, i, e);
  }

  // ---------- Shares

  // How many processes each level has dispatched since the last reset.
  function Count(s: SchedState, op: Request, counts: seq<nat>): (c: seq<nat>)
    requires |s.queues| == |s.slot| == |counts| == MAX_PRIO && (op.PutOne? ==> op.t.prio < MAX_PRIO)
    ensures |c| == MAX_PRIO
  {
    if op.PutOne? then counts
    else
      var (t, r) := Get(s);
      if r.Some? && r.value.prio < MAX_PRIO then counts[r.value.prio := counts[r.value.prio] + 1]
      else if AllEmpty(s) then counts
      else NoCounts()
  }

  function NoCounts(): seq<nat> { seq(MAX_PRIO, p => 0) }

  // Between resets each level has dispatched exactly what its budget lost.
  ghost predicate Tally(s: SchedState, counts: seq<nat>) {
    && SchedOk(s) && |counts| == MAX_PRIO
    && forall p :: 0 <= p < MAX_PRIO ==> s.slot[p] + counts[p] == Budget(p)
  }

  lemma CountKeepsTally(s: SchedState, op: Request, counts: seq<nat>)
    requires Tally(s, counts) && (op.PutOne? ==> op.t.prio < MAX_PRIO)
    ensures Tally(Step(s, op).0, Count(s, op, counts))
  {
    StepKeepsOk(s, op);
    if op.GetOne? && FirstReady(s, 0) < MAX_PRIO {
      GetDispatches(s);
      assert LevelOk(s.queues[FirstReady(s, 0)], FirstReady(s, 0));
    } else if op.GetOne? {
      GetNothingExactly(s);
    }
  }

  ghost function CountRun(s: SchedState, ops: seq<Request>, counts: seq<nat>): (SchedState, seq<nat>)
    requires Tally(s, counts) && OpsOk(ops)
    decreases |ops|
  {
    if ops == [] then (s, counts)
    else (CountKeepsTally(s, ops[0], counts);
          CountRun(Step(s, ops[0]).0, ops[1..], Count(s, ops[0], counts)))
  }

  // Proportional share over any run: a level's budget never leaves 0..140-p, since the last reset
  // level p was dispatched exactly (140 - p) - slot[p] times, and a get that resets finds every
  // waiting level with its full share of 140 - p dispatches.
  lemma {:induction false} ShareOfEachEpoch(s: SchedState, ops: seq<Request>, counts: seq<nat>)
    requires Tally(s, counts) && OpsOk(ops)
    ensures var (t, c) := CountRun(s, ops, counts);
            && SchedOk(t) && |c| == MAX_PRIO
            && (forall p :: 0 <= p < MAX_PRIO ==> 0 <= t.slot[p] <= 140 - p && c[p] == 140 - p - t.slot[p])
            && (Get(t).1 == None && !AllEmpty(t) ==>
                  forall p :: 0 <= p < MAX_PRIO && t.queues[p] != [] ==> c[p] == 140 - p)
    decreases |ops|
  {
    if ops == [] {
      GetNothingExactly(s);
    } else {
      CountKeepsTally(s, ops[0], counts);
      ShareOfEachEpoch(Step(s, ops[0]).0, ops[1..], Count(s, ops[0], counts));
    }
  }
}
