/** The invariant of the composed machine, step by step, and what follows from it over whole runs. */
module OsProofs {
  import opened ReadyQueue
  import opened Sched
  import opened Parts
  import opened Os
  import B = Barrier
  import Word

  // ---------- One place for each process

  lemma {:induction false} LoadedOnce(cfg: Config, k: nat, x: Task)
    requires k <= |cfg.prio|
    ensures LoadedTasks(cfg, k)[x] <= 1
    ensures x in LoadedTasks(cfg, k) <==> x.pid < k && x == TaskOf(cfg, x.pid)
  {
    if k > 0 {
      LoadedOnce(cfg, k - 1, x);
    }
  }

  ghost predicate SchedShape(s: Sys) {
    |s.sched.queues| == |s.sched.slot| == MAX_PRIO
  }

  lemma PlacesAt(s: Sys)
    requires SchedShape(s)
    ensures |Places(s)| == MAX_PRIO + |s.cpus| + 1
    ensures forall a :: 0 <= a < |Places(s)| ==> Places(s)[a] == PlaceAt(s, a)
  {
  }

  // A process in two places would be counted twice.
  lemma OnePlace(cfg: Config, s: Sys, a: nat, b: nat, x: Task)
    requires ConfigOk(cfg) && |s.procs| <= |cfg.prio| && Conserved(cfg, s)
    requires a < |Places(s)| && b < |Places(s)| && x in Places(s)[a] && x in Places(s)[b]
    ensures a == b && x.pid < |s.procs| && x == TaskOf(cfg, x.pid)
  {
    LoadedOnce(cfg, |s.procs|, x);
    PartOfTotal(Places(s), a, x);
    if a < b {
      TwoPartsOfTotal(Places(s), a, b, x);
    } else if b < a {
      TwoPartsOfTotal(Places(s), b, a, x);
    }
  }

  // Where a process the machine knows about sits in the list of places.
  ghost predicate SitsAt(cfg: Config, s: Sys, a: nat, x: Task) {
    SchedShape(s) && a < |Places(s)| && x in Places(s)[a] && Loaded(cfg, s.procs, x)
  }

  lemma HeldSits(cfg: Config, s: Sys, c: nat, x: Task)
    requires ConfigOk(cfg) && Inv(cfg, s) && c < cfg.ncpu && s.cpus[c].proc == Some(x)
    ensures SitsAt(cfg, s, MAX_PRIO + c, x)
  {
    PlacesAt(s);
    assert HeldOk(cfg, s.procs, s.cpus[c], s.bar.slots[c], x);
  }

  lemma QueuedSits(cfg: Config, s: Sys, x: Task)
    requires ConfigOk(cfg) && Inv(cfg, s) && InQueues(s.sched, x)
    ensures SitsAt(cfg, s, x.prio, x) && x.prio < MAX_PRIO
  {
    PlacesAt(s);
    assert QueuedOk(cfg, s.procs, s.bar.sh.time, x);
  }

  lemma FinishedSits(cfg: Config, s: Sys, x: Task)
    requires ConfigOk(cfg) && Inv(cfg, s) && x in s.finished
    ensures SitsAt(cfg, s, MAX_PRIO + |s.cpus|, x)
  {
    PlacesAt(s);
    assert FinishedOk(cfg, s.procs, x);
  }

  lemma SitsOnce(cfg: Config, s: Sys, a: nat, x: Task, b: nat, y: Task)
    requires ConfigOk(cfg) && |s.procs| <= |cfg.prio| && Conserved(cfg, s)
    requires SitsAt(cfg, s, a, x) && SitsAt(cfg, s, b, y) && a != b
    ensures x.pid != y.pid
  {
    if x.pid == y.pid {
      OnePlace(cfg, s, a, b, x);
    }
  }

  // Nobody else has the process a CPU holds.
  lemma HolderIsAlone(cfg: Config, s: Sys, c: nat, x: Task)
    requires ConfigOk(cfg) && Inv(cfg, s) && c < cfg.ncpu && s.cpus[c].proc == Some(x)
    ensures forall y :: InQueues(s.sched, y) ==> y.pid != x.pid
    ensures forall d, y :: 0 <= d < cfg.ncpu && d != c && s.cpus[d].proc == Some(y) ==> y.pid != x.pid
    ensures forall y :: y in s.finished ==> y.pid != x.pid
  {
    hide SitsAt, Places, Conserved, TasksOk, LogOk, LoaderOk, CpuOk;
    HeldSits(cfg, s, c, x);
    forall y | InQueues(s.sched, y)
      ensures y.pid != x.pid
    {
      QueuedSits(cfg, s, y);
      SitsOnce(cfg, s, y.prio, y, MAX_PRIO + c, x);
    }
    forall d, y | 0 <= d < cfg.ncpu && d != c && s.cpus[d].proc == Some(y)
      ensures y.pid != x.pid
    {
      HeldSits(cfg, s, d, y);
      SitsOnce(cfg, s, MAX_PRIO + d, y, MAX_PRIO + c, x);
    }
    forall y | y in s.finished
      ensures y.pid != x.pid
    {
      FinishedSits(cfg, s, y);
      SitsOnce(cfg, s, MAX_PRIO + |s.cpus|, y, MAX_PRIO + c, x);
    }
  }

  // Moving between two places keeps the total.
  lemma Move(ms: seq<multiset<Task>>, a: nat, x: multiset<Task>, b: nat, y: multiset<Task>)
    requires a < |ms| && b < |ms| && a != b
    requires x + y == ms[a] + ms[b]
    ensures Total(ms[a := x][b := y]) == Total(ms)
  {
    TotalUpdate(ms, a, x);
    TotalUpdate(ms[a := x], b, y);
    var t0, t1, t2 := Total(ms), Total(ms[a := x]), Total(ms[a := x][b := y]);
    assert t1 + ms[a] == t0 + x && t2 + ms[b] == t1 + y;
    forall z: Task
      ensures t2[z] == t0[z]
    {
      assert (t1 + ms[a])[z] == (t0 + x)[z] && (t2 + ms[b])[z] == (t1 + y)[z] && (x + y)[z] == (ms[a] + ms[b])[z];
    }
  }

  // ---------- Barrier steps

  lemma BarrierFacts(s: B.State, b: B.Step)
    requires B.Inv(s) && B.Enabled(s, b) && !b.Arrive? && !b.Detach?
    ensures var t := B.Next(s, b);
            && B.Inv(t) && |t.pc| == |s.pc| && t.slots == s.slots && t.sh.time >= s.sh.time
            && forall d :: 0 <= d < |s.pc| ==> t.pc[d] == s.pc[d] || (s.pc[d] == B.Waiting && t.pc[d] == B.Work)
  {
    hide B.DeviceOk, B.PhaseOk, B.SleepOk;
    B.NextKeepsInv(s, b);
  }

  lemma BarrierKeepsInv(cfg: Config, s: Sys, b: B.Step)
    requires ConfigOk(cfg) && Inv(cfg, s) && Enabled(cfg, s, BarrierStep(b))
    ensures Inv(cfg, Next(cfg, s, BarrierStep(b)))
  {
    hide Places, Total, B.Next, B.PhaseOk;
    var t := s.(bar := B.Next(s.bar, b));
    BarrierFacts(s.bar, b);
    LaterTasksOk(cfg, s, t);
    forall c | 0 <= c < cfg.ncpu
      ensures CpuOk(cfg, t, c)
    {
      assert CpuOk(cfg, s, c);
    }
    SamePlaces(s, t);
  }

  // Time passing and slots of CPUs that hold still do not upset the processes.
  lemma LaterTasksOk(cfg: Config, s: Sys, t: Sys)
    requires ConfigOk(cfg) && Shape(cfg, s) && Shape(cfg, t) && TasksOk(cfg, s)
    requires t.sched == s.sched && t.cpus == s.cpus && t.procs == s.procs && t.finished == s.finished
    requires t.bar.slots == s.bar.slots && t.bar.sh.time >= s.bar.sh.time
    ensures TasksOk(cfg, t)
  {
    forall x | InQueues(t.sched, x)
      ensures QueuedOk(cfg, t.procs, t.bar.sh.time, x)
    {
      assert QueuedOk(cfg, s.procs, s.bar.sh.time, x);
    }
  }

  // ---------- What one move needs

  // The machine after a change that leaves the barrier and the loader alone.
  ghost predicate SameFrame(cfg: Config, s: Sys, t: Sys) {
    t.bar == s.bar && t.ldPc == s.ldPc && t.done == s.done && |t.cpus| == |s.cpus|
  }

  ghost predicate OthersAlike(s: Sys, t: Sys, c: nat) {
    |t.cpus| == |s.cpus| && forall d :: 0 <= d < |s.cpus| && d != c ==> t.cpus[d] == s.cpus[d]
  }

  lemma OthersStayOk(cfg: Config, s: Sys, t: Sys, c: nat)
    requires ConfigOk(cfg) && Inv(cfg, s) && SameFrame(cfg, s, t) && OthersAlike(s, t, c) && c < cfg.ncpu
    requires CpuOk(cfg, t, c)
    ensures forall d :: 0 <= d < cfg.ncpu ==> CpuOk(cfg, t, d)
  {
    forall d | 0 <= d < cfg.ncpu
      ensures CpuOk(cfg, t, d)
    {
      assert CpuOk(cfg, s, d);
    }
  }

  // A CPU with nothing in hand takes the next process.
  lemma TakeKeepsInv(cfg: Config, s: Sys, c: nat, pc: CpuPc)
    requires ConfigOk(cfg) && Inv(cfg, s) && c < cfg.ncpu && s.bar.pc[c] == B.Work
    requires s.cpus[c].proc == None && (s.cpus[c].pc == Top || s.cpus[c].pc == AfterPut)
    requires pc == Recheck || (pc == CallSlot && Get(s.sched).1 == None)
    ensures var (sched, r) := Get(s.sched);
            Inv(cfg, s.(sched := sched, cpus := s.cpus[c := s.cpus[c].(pc := pc, proc := r, timeLeft := 0)]))
  {
    hide Conserved, TasksOk, Get;
    var (sched, r) := Get(s.sched);
    var t := s.(sched := sched, cpus := s.cpus[c := s.cpus[c].(pc := pc, proc := r, timeLeft := 0)]);
    GetKeepsOk(s.sched);
    assert CpuOk(cfg, s, c);
    OthersStayOk(cfg, s, t, c);
    TakeTasks(cfg, s, t, c);
    TakeConserves(cfg, s, t, c);
  }

  lemma GetMembers(s: SchedState)
    requires SchedOk(s)
    ensures var (t, r) := Get(s);
            && (forall x :: InQueues(t, x) ==> InQueues(s, x))
            && (r.Some? ==> (InQueues(s, r.value) && r.value.prio < MAX_PRIO
                             && t.queues == s.queues[r.value.prio := s.queues[r.value.prio][1..]]
                             && s.queues[r.value.prio][0] == r.value && |s.queues[r.value.prio]| > 0))
            && (r.None? ==> t.queues == s.queues)
  {
    GetCases(s);
    if FirstReady(s, 0) < MAX_PRIO {
      assert s.queues[FirstReady(s, 0)][0] in s.queues[FirstReady(s, 0)];
    } else {
      GetNothingExactly(s);
    }
  }

  lemma TakeTasks(cfg: Config, s: Sys, t: Sys, c: nat)
    requires ConfigOk(cfg) && Inv(cfg, s) && c < cfg.ncpu && s.bar.pc[c] == B.Work
    requires Shape(cfg, t) && OthersAlike(s, t, c) && t.bar == s.bar && t.procs == s.procs && t.finished == s.finished
    requires t.sched == Get(s.sched).0 && t.cpus[c].proc == Get(s.sched).1 && t.cpus[c].timeLeft == 0
    requires t.cpus[c].proc.Some? ==> t.cpus[c].pc == Recheck
    ensures TasksOk(cfg, t)
  {
    hide Conserved, LogOk, LoaderOk, CpuOk, LevelOk, B.PhaseOk, Get;
    GetMembers(s.sched);
    B.TimeIsExact(s.bar, c);
    forall x | InQueues(t.sched, x)
      ensures QueuedOk(cfg, t.procs, t.bar.sh.time, x)
    {
      assert QueuedOk(cfg, s.procs, s.bar.sh.time, x);
    }
    forall d, x | 0 <= d < cfg.ncpu && t.cpus[d].proc == Some(x)
      ensures HeldOk(cfg, t.procs, t.cpus[d], t.bar.slots[d], x)
    {
      if d == c {
        assert QueuedOk(cfg, s.procs, s.bar.sh.time, x);
      } else {
        assert HeldOk(cfg, s.procs, s.cpus[d], s.bar.slots[d], x);
      }
    }
  }

  // A move between a level queue and a CPU, seen in the list of places.
  lemma PlacesQueueCpu(s: Sys, t: Sys, p: nat, q: seq<Task>, c: nat)
    requires SchedShape(s) && SchedShape(t) && p < MAX_PRIO && c < |s.cpus|
    requires t.sched.queues == s.sched.queues[p := q] && OthersAlike(s, t, c) && t.finished == s.finished
    ensures |Places(s)| == MAX_PRIO + |s.cpus| + 1
    ensures Places(t) == Places(s)[p := multiset(q)][MAX_PRIO + c := HeldBy(t.cpus[c])]
  {
    hide Places, HeldBy;
    PlacesAt(s);
    PlacesAt(t);
  }

  // Taking the first process off a queue moves it out of the queue's multiset.
  lemma TakenParts(queue: seq<Task>, rest: seq<Task>, cpu: Cpu)
    requires if cpu.proc.Some? then queue != [] && queue[0] == cpu.proc.value && rest == queue[1..] else rest == queue
    ensures multiset(rest) + HeldBy(cpu) == multiset(queue)
  {
    if cpu.proc.Some? {
      assert queue == [cpu.proc.value] + rest;
    }
  }

  lemma TakeConserves(cfg: Config, s: Sys, t: Sys, c: nat)
    requires |s.procs| <= |cfg.prio| && Conserved(cfg, s) && SchedOk(s.sched) && c < |s.cpus| == |t.cpus|
    requires SchedShape(t) && OthersAlike(s, t, c) && t.procs == s.procs && t.finished == s.finished
    requires s.cpus[c].proc == None && t.sched == Get(s.sched).0 && t.cpus[c].proc == Get(s.sched).1
    ensures Conserved(cfg, t)
  {
    hide LevelOk, OthersAlike;
    hide Places, Total, Get, LoadedTasks;
    GetMembers(s.sched);
    PlacesAt(s);
    var r := Get(s.sched).1;
    var p := if r.Some? then r.value.prio else 0;
    var q := if r.Some? then s.sched.queues[p][1..] else s.sched.queues[p];
    PlacesQueueCpu(s, t, p, q, c);
    assert Total(Places(s)) == LoadedTasks(cfg, |s.procs|);
    TakenParts(s.sched.queues[p], q, t.cpus[c]);
    assert HeldBy(s.cpus[c]) == multiset{};
    hide HeldBy, PlaceAt;
    Move(Places(s), p, multiset(q), MAX_PRIO + c, HeldBy(t.cpus[c]));
  }

  // A CPU whose process has used its quantum puts it back; there is room, so nothing is dropped.
  lemma PutKeepsInv(cfg: Config, s: Sys, c: nat, x: Task)
    requires ConfigOk(cfg) && Inv(cfg, s) && c < cfg.ncpu && s.bar.pc[c] == B.Work
    requires s.cpus[c].proc == Some(x) && s.cpus[c].pc == Top && s.cpus[c].timeLeft == 0
    requires x.pid < |s.procs| && s.procs[x.pid].pc != cfg.size[x.pid]
    requires x.prio < MAX_PRIO && |s.sched.queues[x.prio]| < MAX_QUEUE_SIZE
    ensures Inv(cfg, s.(sched := Put(s.sched, x), cpus := s.cpus[c := s.cpus[c].(pc := AfterPut, proc := None)]))
  {
    hide Conserved, TasksOk, Places, LoadedTasks;
    var t := s.(sched := Put(s.sched, x), cpus := s.cpus[c := s.cpus[c].(pc := AfterPut, proc := None)]);
    PutKeepsOk(s.sched, x);
    assert CpuOk(cfg, s, c);
    OthersStayOk(cfg, s, t, c);
    PutTasks(cfg, s, t, c, x);
    PutConserves(cfg, s, t, c, x);
  }

  lemma PutTasks(cfg: Config, s: Sys, t: Sys, c: nat, x: Task)
    requires ConfigOk(cfg) && Inv(cfg, s) && c < cfg.ncpu && s.bar.pc[c] == B.Work
    requires s.cpus[c].proc == Some(x) && s.cpus[c].pc == Top && s.cpus[c].timeLeft == 0
    requires x.pid < |s.procs| && s.procs[x.pid].pc != cfg.size[x.pid] && x.prio < MAX_PRIO
    requires Shape(cfg, t) && OthersAlike(s, t, c) && t.bar == s.bar && t.procs == s.procs && t.finished == s.finished
    requires t.sched == Put(s.sched, x) && t.cpus[c].proc == None
    ensures TasksOk(cfg, t)
  {
    B.TimeIsExact(s.bar, c);
    assert HeldOk(cfg, s.procs, s.cpus[c], s.bar.slots[c], x);
    forall y | InQueues(t.sched, y)
      ensures QueuedOk(cfg, t.procs, t.bar.sh.time, y)
    {
      if y != x {
        assert InQueues(s.sched, y);
        assert QueuedOk(cfg, s.procs, s.bar.sh.time, y);
      }
    }
    forall d, y | 0 <= d < cfg.ncpu && t.cpus[d].proc == Some(y)
      ensures HeldOk(cfg, t.procs, t.cpus[d], t.bar.slots[d], y)
    {
      assert HeldOk(cfg, s.procs, s.cpus[d], s.bar.slots[d], y);
    }
  }

  lemma PutConserves(cfg: Config, s: Sys, t: Sys, c: nat, x: Task)
    requires |s.procs| <= |cfg.prio| && Conserved(cfg, s) && SchedShape(s) && c < |s.cpus| == |t.cpus|
    requires SchedShape(t) && OthersAlike(s, t, c) && t.procs == s.procs && t.finished == s.finished
    requires x.prio < MAX_PRIO && |s.sched.queues[x.prio]| < MAX_QUEUE_SIZE
    requires s.cpus[c].proc == Some(x) && t.sched == Put(s.sched, x) && t.cpus[c].proc == None
    ensures Conserved(cfg, t)
  {
    PlacesAt(s);
    var p, q := x.prio, s.sched.queues[x.prio] + [x];
    PlacesQueueCpu(s, t, p, q, c);
    assert Total(Places(s)) == LoadedTasks(cfg, |s.procs|);
    assert multiset(q) + HeldBy(t.cpus[c]) == Places(s)[p] + Places(s)[MAX_PRIO + c];
    Move(Places(s), p, multiset(q), MAX_PRIO + c, HeldBy(t.cpus[c]));
  }

  // The quanta a process needs, from what a finished run used.
  lemma QuantaExact(n: nat, quanta: nat, slot: nat, left: nat)
    requires n >= 1 && left < slot && n + left == quanta * slot
    ensures quanta == Word.DivRoundUp(n, slot)
  {
    assert n + slot - 1 == quanta * slot + (slot - 1 - left);
    Word.DivisionUnique(n + slot - 1, slot, quanta, slot - 1 - left);
  }

  // A CPU whose process has run all its instructions lets it go.
  function Release(s: Sys, c: nat, x: Task): Sys
    requires c < |s.cpus| && x.pid < |s.procs|
  {
    s.(finished := s.finished + multiset{x},
       procs := s.procs[x.pid := s.procs[x.pid].(finish := Some(s.bar.sh.time))],
       cpus := s.cpus[c := s.cpus[c].(pc := AfterPut, proc := None, timeLeft := 0)])
  }

  lemma FinishKeepsInv(cfg: Config, s: Sys, c: nat, x: Task)
    requires ConfigOk(cfg) && Inv(cfg, s) && c < cfg.ncpu && s.bar.pc[c] == B.Work
    requires s.cpus[c].proc == Some(x) && s.cpus[c].pc == Top
    requires x.pid < |s.procs| && s.procs[x.pid].pc == cfg.size[x.pid]
    ensures Inv(cfg, Release(s, c, x))
  {
    hide Conserved, TasksOk, Places, LoadedTasks;
    var t := Release(s, c, x);
    assert CpuOk(cfg, s, c);
    assert Shape(cfg, t);
    OthersStayOk(cfg, s, t, c);
    FinishTasks(cfg, s, c, x);
    FinishConserves(cfg, s, c, x);
  }

  // What holds of a task is kept when another process's entry changes.
  lemma OthersInfo(cfg: Config, procs: seq<Info>, procs': seq<Info>, pid: nat, y: Task)
    requires |procs'| == |procs| && pid < |procs| && y.pid != pid
    requires forall i :: 0 <= i < |procs| && i != pid ==> procs'[i] == procs[i]
    ensures forall now :: QueuedOk(cfg, procs, now, y) ==> QueuedOk(cfg, procs', now, y)
    ensures forall cpu, slot :: HeldOk(cfg, procs, cpu, slot, y) ==> HeldOk(cfg, procs', cpu, slot, y)
    ensures FinishedOk(cfg, procs, y) ==> FinishedOk(cfg, procs', y)
  {
  }

  lemma FinishTasks(cfg: Config, s: Sys, c: nat, x: Task)
    requires ConfigOk(cfg) && Inv(cfg, s) && c < cfg.ncpu && s.bar.pc[c] == B.Work
    requires s.cpus[c].proc == Some(x) && s.cpus[c].pc == Top
    requires x.pid < |s.procs| && s.procs[x.pid].pc == cfg.size[x.pid]
    ensures TasksOk(cfg, Release(s, c, x))
  {
    hide LoaderOk, Conserved, SchedOk, QueuedOk;
    var t := Release(s, c, x);
    B.TimeIsExact(s.bar, c);
    HolderIsAlone(cfg, s, c, x);
    assert CpuOk(cfg, s, c) && HeldOk(cfg, s.procs, s.cpus[c], s.bar.slots[c], x);
    if cfg.size[x.pid] >= 1 {
      QuantaExact(cfg.size[x.pid], s.procs[x.pid].dispatched, cfg.timeSlot, s.cpus[c].timeLeft);
    }
    assert FinishedOk(cfg, t.procs, x);
    forall y | InQueues(t.sched, y)
      ensures QueuedOk(cfg, t.procs, t.bar.sh.time, y)
    {
      OthersInfo(cfg, s.procs, t.procs, x.pid, y);
      assert QueuedOk(cfg, s.procs, s.bar.sh.time, y);
    }
    forall d, y | 0 <= d < cfg.ncpu && t.cpus[d].proc == Some(y)
      ensures HeldOk(cfg, t.procs, t.cpus[d], t.bar.slots[d], y)
    {
      OthersInfo(cfg, s.procs, t.procs, x.pid, y);
      assert HeldOk(cfg, s.procs, s.cpus[d], s.bar.slots[d], y);
    }
    forall y | y in t.finished
      ensures FinishedOk(cfg, t.procs, y)
    {
      if y != x {
        OthersInfo(cfg, s.procs, t.procs, x.pid, y);
        assert FinishedOk(cfg, s.procs, y);
      }
    }
  }

  lemma FinishConserves(cfg: Config, s: Sys, c: nat, x: Task)
    requires ConfigOk(cfg) && Inv(cfg, s) && c < cfg.ncpu && s.cpus[c].proc == Some(x) && x.pid < |s.procs|
    ensures Conserved(cfg, Release(s, c, x))
  {
    hide Places, Total, LoadedTasks, TasksOk, LogOk, LoaderOk;
    var t, last := Release(s, c, x), MAX_PRIO + |s.cpus|;
    PlacesAt(s);
    PlacesAt(t);
    assert Places(t) == Places(s)[MAX_PRIO + c := multiset{}][last := s.finished + multiset{x}];
    assert Total(Places(s)) == LoadedTasks(cfg, |s.procs|);
    assert multiset{} + (s.finished + multiset{x}) == Places(s)[MAX_PRIO + c] + Places(s)[last];
    Move(Places(s), MAX_PRIO + c, multiset{}, last, s.finished + multiset{x});
  }

  lemma SamePlaces(s: Sys, t: Sys)
    requires SchedShape(s) && t.sched == s.sched && t.finished == s.finished && |t.cpus| == |s.cpus|
    requires forall c :: 0 <= c < |s.cpus| ==> t.cpus[c].proc == s.cpus[c].proc
    ensures Places(t) == Places(s)
  {
    PlacesAt(s);
    PlacesAt(t);
  }

  // ---------- Control steps

  // A CPU that only moves its program counter, keeping the bounds of CpuOk and HeldOk.
  lemma ControlKeepsInv(cfg: Config, s: Sys, c: nat, pc: CpuPc)
    requires ConfigOk(cfg) && Inv(cfg, s) && c < cfg.ncpu && s.bar.pc[c] == B.Work
    requires s.cpus[c].pc == Top || s.cpus[c].pc == Recheck
    requires pc == Recheck || pc == CallSlot || pc == Stopping
    requires s.cpus[c].proc.Some? ==>
               pc == Recheck && s.cpus[c].pc == Top
               && var pid := s.cpus[c].proc.value.pid; pid < |s.procs| && s.procs[pid].pc != cfg.size[pid]
    ensures Inv(cfg, s.(cpus := s.cpus[c := s.cpus[c].(pc := pc)]))
  {
    hide Places, LoadedTasks;
    var t := s.(cpus := s.cpus[c := s.cpus[c].(pc := pc)]);
    assert CpuOk(cfg, s, c);
    assert Shape(cfg, t);
    OthersStayOk(cfg, s, t, c);
    forall d, y | 0 <= d < cfg.ncpu && t.cpus[d].proc == Some(y)
      ensures HeldOk(cfg, t.procs, t.cpus[d], t.bar.slots[d], y)
    {
      assert HeldOk(cfg, s.procs, s.cpus[d], s.bar.slots[d], y);
    }
    SamePlaces(s, t);
  }

  // ---------- One instruction

  lemma RunKeepsInv(cfg: Config, s: Sys, c: nat, x: Task)
    requires ConfigOk(cfg) && Inv(cfg, s) && c < cfg.ncpu && s.bar.pc[c] == B.Work
    requires s.cpus[c].proc == Some(x) && s.cpus[c].pc == Recheck
    requires x.pid < |s.procs|
    ensures Inv(cfg, CpuRecheck(cfg, s, c, s.bar.sh.time))
  {
    hide Places, HeldOk;
    var t := CpuRecheck(cfg, s, c, s.bar.sh.time);
    B.TimeIsExact(s.bar, c);
    assert CpuOk(cfg, s, c);
    assert HeldOk(cfg, s.procs, s.cpus[c], s.bar.slots[c], x);
    assert Shape(cfg, t);
    OthersStayOk(cfg, s, t, c);
    RunTasks(cfg, s, c, x);
    SamePlaces(s, t);
    RunLog(cfg, s, c, x);
  }

  lemma RunTasks(cfg: Config, s: Sys, c: nat, x: Task)
    requires ConfigOk(cfg) && Inv(cfg, s) && c < cfg.ncpu && s.bar.pc[c] == B.Work
    requires s.cpus[c].proc == Some(x) && s.cpus[c].pc == Recheck
    requires x.pid < |s.procs|
    ensures TasksOk(cfg, CpuRecheck(cfg, s, c, s.bar.sh.time))
  {
    hide CpuOk, LoaderOk, Conserved, SchedOk, FinishedOk, InPace;
    var t := CpuRecheck(cfg, s, c, s.bar.sh.time);
    B.TimeIsExact(s.bar, c);
    HolderIsAlone(cfg, s, c, x);
    assert CpuOk(cfg, s, c) && HeldOk(cfg, s.procs, s.cpus[c], s.bar.slots[c], x);
    RunHeld(cfg, s, c, x);
    forall y | InQueues(t.sched, y)
      ensures QueuedOk(cfg, t.procs, t.bar.sh.time, y)
    {
      OthersInfo(cfg, s.procs, t.procs, x.pid, y);
      assert QueuedOk(cfg, s.procs, s.bar.sh.time, y);
    }
    forall d, y | 0 <= d < cfg.ncpu && t.cpus[d].proc == Some(y)
      ensures HeldOk(cfg, t.procs, t.cpus[d], t.bar.slots[d], y)
    {
      if d != c {
        OthersInfo(cfg, s.procs, t.procs, x.pid, y);
        assert HeldOk(cfg, s.procs, s.cpus[d], s.bar.slots[d], y);
      }
    }
    forall y | y in t.finished
      ensures FinishedOk(cfg, t.procs, y)
    {
      OthersInfo(cfg, s.procs, t.procs, x.pid, y);
      assert FinishedOk(cfg, s.procs, y);
    }
  }

  lemma RunHeld(cfg: Config, s: Sys, c: nat, x: Task)
    requires c < |s.cpus| && c < |s.bar.pc| == |s.bar.slots| && CpuOk(cfg, s, c)
    requires s.cpus[c].proc == Some(x) && s.cpus[c].pc == Recheck && s.bar.sh.time == s.bar.slots[c]
    requires HeldOk(cfg, s.procs, s.cpus[c], s.bar.slots[c], x)
    ensures var t := CpuRecheck(cfg, s, c, s.bar.sh.time);
            HeldOk(cfg, t.procs, t.cpus[c], t.bar.slots[c], x)
  {
    OneMoreQuantum(s.procs[x.pid].dispatched, cfg.timeSlot);
  }

  lemma OneMoreQuantum(k: nat, q: nat)
    ensures (k + 1) * q == k * q + q
  {
  }

  lemma RunLog(cfg: Config, s: Sys, c: nat, x: Task)
    requires ConfigOk(cfg) && Inv(cfg, s) && c < cfg.ncpu && s.bar.pc[c] == B.Work
    requires s.cpus[c].proc == Some(x) && s.cpus[c].pc == Recheck
    requires x.pid < |s.procs|
    ensures LogOk(cfg, CpuRecheck(cfg, s, c, s.bar.sh.time))
  {
    hide LoaderOk, Conserved, SchedOk, FinishedOk;
    B.TimeIsExact(s.bar, c);
    assert CpuOk(cfg, s, c);
    assert HeldOk(cfg, s.procs, s.cpus[c], s.bar.slots[c], x);
  }

  // ---------- Entering and leaving the barrier

  lemma ArriveFacts(s: B.State, d: nat)
    requires B.Inv(s) && d < |s.pc| && s.pc[d] == B.Work
    ensures var t := B.Next(s, B.Arrive(d));
            && B.Inv(t) && t.slots == s.slots[d := s.slots[d] + 1]
            && t.pc == s.pc[d := B.Waiting] && t.sh.time == s.sh.time
    ensures var t := B.Next(s, B.Detach(d));
            B.Inv(t) && t.slots == s.slots && t.pc == s.pc[d := B.Gone] && t.sh.time == s.sh.time
  {
    B.NextKeepsInv(s, B.Arrive(d));
    B.NextKeepsInv(s, B.Detach(d));
  }

  lemma CpuArriveKeepsInv(cfg: Config, s: Sys, c: nat)
    requires ConfigOk(cfg) && Inv(cfg, s) && c < cfg.ncpu && s.bar.pc[c] == B.Work && s.cpus[c].pc == CallSlot
    ensures Inv(cfg, s.(cpus := s.cpus[c := s.cpus[c].(pc := Top)], bar := B.Next(s.bar, B.Arrive(c))))
  {
    hide B.Next, B.PhaseOk, Places;
    ArriveFacts(s.bar, c);
    var t := s.(cpus := s.cpus[c := s.cpus[c].(pc := Top)], bar := B.Next(s.bar, B.Arrive(c)));
    assert Shape(cfg, t);
    forall d | 0 <= d < cfg.ncpu
      ensures CpuOk(cfg, t, d)
    {
      assert CpuOk(cfg, s, d);
    }
    forall d, y | 0 <= d < cfg.ncpu && t.cpus[d].proc == Some(y)
      ensures HeldOk(cfg, t.procs, t.cpus[d], t.bar.slots[d], y)
    {
      assert HeldOk(cfg, s.procs, s.cpus[d], s.bar.slots[d], y);
    }
    SamePlaces(s, t);
  }

  lemma CpuDetachKeepsInv(cfg: Config, s: Sys, c: nat)
    requires ConfigOk(cfg) && Inv(cfg, s) && c < cfg.ncpu && s.bar.pc[c] == B.Work && s.cpus[c].pc == Stopping
    ensures Inv(cfg, s.(cpus := s.cpus[c := s.cpus[c].(pc := Stopped)], bar := B.Next(s.bar, B.Detach(c))))
  {
    hide B.Next, B.PhaseOk, Places;
    ArriveFacts(s.bar, c);
    var t := s.(cpus := s.cpus[c := s.cpus[c].(pc := Stopped)], bar := B.Next(s.bar, B.Detach(c)));
    assert CpuOk(cfg, s, c);
    assert Shape(cfg, t);
    forall d | 0 <= d < cfg.ncpu
      ensures CpuOk(cfg, t, d)
    {
      assert CpuOk(cfg, s, d);
    }
    forall d, y | 0 <= d < cfg.ncpu && t.cpus[d].proc == Some(y)
      ensures HeldOk(cfg, t.procs, t.cpus[d], t.bar.slots[d], y)
    {
      assert HeldOk(cfg, s.procs, s.cpus[d], s.bar.slots[d], y);
    }
    SamePlaces(s, t);
  }

  // ---------- The loader

  // A change to the loader's own position and device leaves the CPUs and processes alone.
  lemma LoaderControl(cfg: Config, s: Sys, t: Sys)
    requires ConfigOk(cfg) && Inv(cfg, s) && Shape(cfg, t) && LoaderOk(cfg, t)
    requires t.sched == s.sched && t.cpus == s.cpus && t.procs == s.procs && t.finished == s.finished && t.log == s.log
    requires t.bar.sh.time == s.bar.sh.time
    requires forall c :: 0 <= c < cfg.ncpu ==> t.bar.pc[c] == s.bar.pc[c] && t.bar.slots[c] == s.bar.slots[c]
    ensures Inv(cfg, t)
  {
    hide Places, LoaderOk;
    forall c | 0 <= c < cfg.ncpu
      ensures CpuOk(cfg, t, c)
    {
      assert CpuOk(cfg, s, c);
    }
    forall d, y | 0 <= d < cfg.ncpu && t.cpus[d].proc == Some(y)
      ensures HeldOk(cfg, t.procs, t.cpus[d], t.bar.slots[d], y)
    {
      assert HeldOk(cfg, s.procs, s.cpus[d], s.bar.slots[d], y);
    }
    SamePlaces(s, t);
  }

  // The loader's other turns move only its own position, the flag it leaves behind, and its device.
  lemma LoaderMoves(cfg: Config, s: Sys)
    requires ConfigOk(cfg) && Inv(cfg, s) && Enabled(cfg, s, LoaderStep)
    requires !(s.ldPc == LdTop && |s.procs| < |cfg.size| && s.bar.sh.time >= cfg.start[|s.procs|])
    ensures var t := Next(cfg, s, LoaderStep);
            && Shape(cfg, t) && LoaderOk(cfg, t)
            && t.sched == s.sched && t.cpus == s.cpus && t.procs == s.procs
            && t.finished == s.finished && t.log == s.log
            && t.bar.sh.time == s.bar.sh.time
            && forall c :: 0 <= c < cfg.ncpu ==> t.bar.pc[c] == s.bar.pc[c] && t.bar.slots[c] == s.bar.slots[c]
  {
    hide Conserved, TasksOk;
    ArriveFacts(s.bar, cfg.ncpu);
    B.TimeIsExact(s.bar, cfg.ncpu);
    hide CpuOk, TasksOk, Conserved, LogOk, B.Next, B.PhaseOk, Put;
  }

  lemma LoaderKeepsInv(cfg: Config, s: Sys)
    requires ConfigOk(cfg) && Inv(cfg, s) && Enabled(cfg, s, LoaderStep)
    ensures Inv(cfg, Next(cfg, s, LoaderStep))
  {
    if s.ldPc == LdTop && |s.procs| < |cfg.size| && s.bar.sh.time >= cfg.start[|s.procs|] {
      LoadKeepsInv(cfg, s);
    } else {
      LoaderMoves(cfg, s);
      hide Inv, LoaderNext;
      LoaderControl(cfg, s, Next(cfg, s, LoaderStep));
    }
  }

  lemma LoadKeepsInv(cfg: Config, s: Sys)
    requires ConfigOk(cfg) && Inv(cfg, s) && Enabled(cfg, s, LoaderStep)
    requires s.ldPc == LdTop && |s.procs| < |cfg.size| && s.bar.sh.time >= cfg.start[|s.procs|]
    ensures Inv(cfg, LoaderNext(cfg, s))
  {
    hide Conserved, TasksOk, LoaderOk, Places;
    var t := LoaderNext(cfg, s);
    var x := TaskOf(cfg, |s.procs|);
    B.TimeIsExact(s.bar, cfg.ncpu);
    PutKeepsOk(s.sched, x);
    assert Shape(cfg, t);
    forall c | 0 <= c < cfg.ncpu
      ensures CpuOk(cfg, t, c)
    {
      assert CpuOk(cfg, s, c);
    }
    LoadTasks(cfg, s);
    LoadConserves(cfg, s, t);
    LoadLoader(cfg, s);
  }

  lemma LoadLoader(cfg: Config, s: Sys)
    requires ConfigOk(cfg) && Inv(cfg, s) && Enabled(cfg, s, LoaderStep)
    requires s.ldPc == LdTop && |s.procs| < |cfg.size| && s.bar.sh.time >= cfg.start[|s.procs|]
    requires Shape(cfg, LoaderNext(cfg, s))
    ensures LoaderOk(cfg, LoaderNext(cfg, s))
  {
    hide TasksOk, LogOk, Conserved;
    B.TimeIsExact(s.bar, cfg.ncpu);
  }

  lemma LongerInfo(cfg: Config, procs: seq<Info>, info: Info, y: Task)
    requires |procs| < |cfg.size|
    ensures forall now :: QueuedOk(cfg, procs, now, y) ==> QueuedOk(cfg, procs + [info], now, y)
    ensures forall cpu, slot :: HeldOk(cfg, procs, cpu, slot, y) ==> HeldOk(cfg, procs + [info], cpu, slot, y)
    ensures FinishedOk(cfg, procs, y) ==> FinishedOk(cfg, procs + [info], y)
  {
  }

  lemma LoadTasks(cfg: Config, s: Sys)
    requires ConfigOk(cfg) && Inv(cfg, s) && Enabled(cfg, s, LoaderStep)
    requires s.ldPc == LdTop && |s.procs| < |cfg.size| && s.bar.sh.time >= cfg.start[|s.procs|]
    requires Shape(cfg, LoaderNext(cfg, s))
    ensures TasksOk(cfg, LoaderNext(cfg, s))
  {
    var t := LoaderNext(cfg, s);
    var x, info := TaskOf(cfg, |s.procs|), t.procs[|s.procs|];
    assert t.procs == s.procs + [info];
    forall y | InQueues(t.sched, y)
      ensures QueuedOk(cfg, t.procs, t.bar.sh.time, y)
    {
      if y != x {
        assert InQueues(s.sched, y);
        LongerInfo(cfg, s.procs, info, y);
        assert QueuedOk(cfg, s.procs, s.bar.sh.time, y);
      }
    }
    forall d, y | 0 <= d < cfg.ncpu && t.cpus[d].proc == Some(y)
      ensures HeldOk(cfg, t.procs, t.cpus[d], t.bar.slots[d], y)
    {
      LongerInfo(cfg, s.procs, info, y);
      assert HeldOk(cfg, s.procs, s.cpus[d], s.bar.slots[d], y);
    }
    forall y | y in t.finished
      ensures FinishedOk(cfg, t.procs, y)
    {
      LongerInfo(cfg, s.procs, info, y);
      assert FinishedOk(cfg, s.procs, y);
    }
  }

  lemma LoadConserves(cfg: Config, s: Sys, t: Sys)
    requires |s.procs| < |cfg.prio| && Conserved(cfg, s) && SchedShape(s) && SchedShape(t)
    requires cfg.prio[|s.procs|] < MAX_PRIO && |s.sched.queues[cfg.prio[|s.procs|]]| < MAX_QUEUE_SIZE
    requires t.sched == Put(s.sched, TaskOf(cfg, |s.procs|))
    requires t.cpus == s.cpus && t.finished == s.finished && |t.procs| == |s.procs| + 1
    ensures Conserved(cfg, t)
  {
    hide Places, Total, HeldBy;
    var x := TaskOf(cfg, |s.procs|);
    var q := s.sched.queues[x.prio] + [x];
    PlacesAt(s);
    PlacesAt(t);
    assert Places(t) == Places(s)[x.prio := multiset(q)];
    AddOne(Places(s), x.prio, multiset(q), x);
  }

  lemma AddOne(ms: seq<multiset<Task>>, p: nat, m: multiset<Task>, x: Task)
    requires p < |ms| && m == ms[p] + multiset{x}
    ensures Total(ms[p := m]) == Total(ms) + multiset{x}
  {
    TotalUpdate(ms, p, m);
    var t0, t1 := Total(ms), Total(ms[p := m]);
    forall z: Task
      ensures t1[z] == (t0 + multiset{x})[z]
    {
      assert (t1 + ms[p])[z] == (t0 + m)[z];
    }
  }

  // ---------- All steps

  lemma CpuKeepsInv(cfg: Config, s: Sys, c: nat)
    requires ConfigOk(cfg) && Inv(cfg, s) && Enabled(cfg, s, CpuStep(c))
    ensures Inv(cfg, Next(cfg, s, CpuStep(c)))
  {
    var cpu := s.cpus[c];
    assert CpuOk(cfg, s, c);
    HeldIsLoaded(cfg, s, c);
    match cpu.pc
    case Top =>
      match cpu.proc {
        case None =>
          var (sched, r) := Get(s.sched);
          TakeKeepsInv(cfg, s, c, if r == None then CallSlot else Recheck);
          assert cpu.timeLeft == 0;
        case Some(x) =>
          if s.procs[x.pid].pc == cfg.size[x.pid] {
            FinishKeepsInv(cfg, s, c, x);
            TakeKeepsInv(cfg, Release(s, c, x), c, Recheck);
            ReleaseThenTake(cfg, s, c, x);
          } else if cpu.timeLeft == 0 {
            PutKeepsInv(cfg, s, c, x);
          } else {
            ControlKeepsInv(cfg, s, c, Recheck);
          }
      }
    case AfterPut => TakeKeepsInv(cfg, s, c, Recheck);
    case Recheck =>
      match cpu.proc {
        case None => ControlKeepsInv(cfg, s, c, if s.done then Stopping else CallSlot);
        case Some(x) => RunKeepsInv(cfg, s, c, x);
      }
    case CallSlot => CpuArriveKeepsInv(cfg, s, c);
    case Stopping => CpuDetachKeepsInv(cfg, s, c);
    case Stopped =>
  }

  lemma ReleaseThenTake(cfg: Config, s: Sys, c: nat, x: Task)
    requires ConfigOk(cfg) && Inv(cfg, s) && c < cfg.ncpu && s.bar.pc[c] == B.Work
    requires s.cpus[c].proc == Some(x) && s.cpus[c].pc == Top && x.prio < MAX_PRIO
    requires x.pid < |s.procs| && s.procs[x.pid].pc == cfg.size[x.pid]
    ensures CpuTop(cfg, s, c, s.bar.sh.time) == GetNext(Release(s, c, x), c)
  {
    var freed := s.cpus[c].(pc := AfterPut, proc := None, timeLeft := 0);
    var taken := Cpu(Recheck, Get(s.sched).1, 0, s.cpus[c].lastRun);
    assert s.cpus[c := freed][c := taken] == s.cpus[c := taken];
  }

  lemma NextKeepsInv(cfg: Config, s: Sys, step: Step)
    requires ConfigOk(cfg) && Inv(cfg, s) && Enabled(cfg, s, step)
    ensures Inv(cfg, Next(cfg, s, step))
  {
    match step
    case CpuStep(c) => CpuKeepsInv(cfg, s, c);
    case LoaderStep => LoaderKeepsInv(cfg, s);
    case BarrierStep(b) => BarrierKeepsInv(cfg, s, b);
  }

  // ---------- What every reachable state satisfies

  // Each loaded process is in exactly one place, once: one level queue, one CPU, or finished.
  lemma ProcessInOnePlace(cfg: Config, s: Sys, i: nat) returns (a: nat)
    requires ConfigOk(cfg) && Inv(cfg, s) && i < |s.procs|
    ensures a < |Places(s)| && Places(s)[a][TaskOf(cfg, i)] == 1
    ensures forall b :: 0 <= b < |Places(s)| && b != a ==> TaskOf(cfg, i) !in Places(s)[b]
  {
    hide TasksOk, LogOk, LoaderOk, CpuOk, Places;
    var x := TaskOf(cfg, i);
    LoadedOnce(cfg, |s.procs|, x);
    assert Conserved(cfg, s);
    a := SomePart(Places(s), x);
    PartOfTotal(Places(s), a, x);
    forall b | 0 <= b < |Places(s)| && b != a
      ensures x !in Places(s)[b]
    {
      if x in Places(s)[b] {
        OnePlace(cfg, s, a, b, x);
      }
    }
  }

  // A process on a level queue is on the queue of its own priority.
  lemma QueuedAtOwnLevel(cfg: Config, s: Sys, p: nat, x: Task)
    requires ConfigOk(cfg) && Inv(cfg, s) && p < MAX_PRIO && x in s.sched.queues[p]
    ensures x.pid < |s.procs| && x.prio == p == cfg.prio[x.pid]
  {
    assert LevelOk(s.sched.queues[p], p);
    assert QueuedOk(cfg, s.procs, s.bar.sh.time, x);
  }

  // The load schedule in closed form: the latest of the start times so far, each pushed on by one
  // slot per process loaded after it.
  lemma {:induction false} LoadTimeIsLatest(cfg: Config, i: nat) returns (j: nat)
    requires ConfigOk(cfg) && i < |cfg.start|
    ensures forall k :: 0 <= k <= i ==> LoadTime(cfg, i) >= cfg.start[k] + i - k
    ensures j <= i && LoadTime(cfg, i) == cfg.start[j] + i - j
  {
    if i == 0 || cfg.start[i] > LoadTime(cfg, i - 1) + 1 {
      if i > 0 {
        var k := LoadTimeIsLatest(cfg, i - 1);
      }
      j := i;
    } else {
      j := LoadTimeIsLatest(cfg, i - 1);
    }
  }

  // ---------- Room on the level queues

  // How many of the first k configured processes have priority p.
  function CountAt(cfg: Config, k: nat, p: nat): nat
    requires k <= |cfg.prio|
  {
    if k == 0 then 0 else CountAt(cfg, k - 1, p) + if cfg.prio[k - 1] == p then 1 else 0
  }

  function LoadedAt(cfg: Config, k: nat, p: nat): multiset<Task>
    requires k <= |cfg.prio|
  {
    if k == 0 then multiset{}
    else LoadedAt(cfg, k - 1, p) + if cfg.prio[k - 1] == p then multiset{TaskOf(cfg, k - 1)} else multiset{}
  }

  lemma {:induction false} LoadedAtFacts(cfg: Config, k: nat, p: nat)
    requires k <= |cfg.prio|
    ensures |LoadedAt(cfg, k, p)| == CountAt(cfg, k, p)
    ensures forall x: Task :: LoadedAt(cfg, k, p)[x] == if x.prio == p then LoadedTasks(cfg, k)[x] else 0
  {
    if k > 0 {
      LoadedAtFacts(cfg, k - 1, p);
    }
  }

  lemma {:induction false} CountGrows(cfg: Config, k: nat, n: nat, p: nat)
    requires k <= n <= |cfg.prio|
    ensures CountAt(cfg, k, p) <= CountAt(cfg, n, p)
    decreases n
  {
    if k < n {
      CountGrows(cfg, k, n - 1, p);
    }
  }

  lemma SubmultisetSize(a: multiset<Task>, b: multiset<Task>)
    requires a <= b
    ensures |a| <= |b|
  {
    assert b == a + (b - a);
  }

  // Two places holding only processes of one level hold together at most what all places hold of it.
  lemma TwoPartsSize(ms: seq<multiset<Task>>, a: nat, b: nat, held: multiset<Task>, level: multiset<Task>, p: nat)
    requires a < b < |ms| && held <= ms[b]
    requires forall x: Task :: x in ms[a] + held ==> x.prio == p
    requires forall x: Task :: level[x] == if x.prio == p then Total(ms)[x] else 0
    ensures |ms[a]| + |held| <= |level|
  {
    hide Total;
    forall x: Task
      ensures (ms[a] + held)[x] <= level[x]
    {
      TwoPartsOfTotal(ms, a, b, x);
      assert x in ms[a] + held || (ms[a] + held)[x] == 0;
    }
    SubmultisetSize(ms[a] + held, level);
  }

  // What waits at a level, together with a process of that level on a CPU or finished, is among the
  // loaded processes of the level.
  lemma WaitingAmongLoaded(cfg: Config, s: Sys, p: nat, held: multiset<Task>, a: nat)
    requires |s.procs| <= |cfg.prio| && SchedShape(s) && Conserved(cfg, s) && p < MAX_PRIO <= a <= MAX_PRIO + |s.cpus|
    requires LevelOk(s.sched.queues[p], p)
    requires held <= PlaceAt(s, a) && forall x :: x in held ==> x.prio == p
    ensures |s.sched.queues[p]| + |held| <= CountAt(cfg, |s.procs|, p)
  {
    hide Total, LoadedTasks, HeldBy;
    PlacesAt(s);
    LoadedAtFacts(cfg, |s.procs|, p);
    hide Places, LoadedAt, CountAt;
    assert Places(s)[p] == multiset(s.sched.queues[p]);
    TwoPartsSize(Places(s), p, a, held, LoadedAt(cfg, |s.procs|, p), p);
  }

  // If at most ten configured processes share each priority, every put finds room: the condition on
  // puts in `Enabled` holds by itself in every reachable state.
  lemma PutFindsRoom(cfg: Config, s: Sys, step: Step)
    requires ConfigOk(cfg) && Inv(cfg, s)
    requires forall p :: 0 <= p < MAX_PRIO ==> CountAt(cfg, |cfg.prio|, p) <= MAX_QUEUE_SIZE
    requires PutBy(cfg, s, step).Some?
    ensures PutBy(cfg, s, step).value.prio < MAX_PRIO
    ensures |s.sched.queues[PutBy(cfg, s, step).value.prio]| < MAX_QUEUE_SIZE
  {
    hide Conserved, LogOk, LoaderOk, B.Inv;
    var x := PutBy(cfg, s, step).value;
    match step
    case CpuStep(c) =>
      HeldIsLoaded(cfg, s, c);
      assert HeldBy(s.cpus[c]) == multiset{x};
      WaitingAmongLoaded(cfg, s, x.prio, multiset{x}, MAX_PRIO + c);
      CountGrows(cfg, |s.procs|, |cfg.prio|, x.prio);
    case LoaderStep =>
      WaitingAmongLoaded(cfg, s, x.prio, multiset{}, MAX_PRIO);
      CountGrows(cfg, |s.procs| + 1, |cfg.prio|, x.prio);
  }

  // ---------- Whole runs

  ghost predicate CanRun(cfg: Config, s: Sys, steps: seq<Step>)
    requires ConfigOk(cfg) && Inv(cfg, s)
    decreases |steps|
  {
    steps == [] ||
    (Enabled(cfg, s, steps[0]) && (NextKeepsInv(cfg, s, steps[0]); CanRun(cfg, Next(cfg, s, steps[0]), steps[1..])))
  }

  ghost function Run(cfg: Config, s: Sys, steps: seq<Step>): Sys
    requires ConfigOk(cfg) && Inv(cfg, s) && CanRun(cfg, s, steps)
    decreases |steps|
  {
    if steps == [] then s else (NextKeepsInv(cfg, s, steps[0]); Run(cfg, Next(cfg, s, steps[0]), steps[1..]))
  }

  // Any interleaving of CPUs, loader, timer and wakeups keeps the invariant.
  lemma {:induction false} AllStepsKeepInv(cfg: Config, s: Sys, steps: seq<Step>)
    requires ConfigOk(cfg) && Inv(cfg, s) && CanRun(cfg, s, steps)
    ensures Inv(cfg, Run(cfg, s, steps))
    decreases |steps|
  {
    if steps != [] {
      NextKeepsInv(cfg, s, steps[0]);
      hide Inv, Next, Enabled;
      AllStepsKeepInv(cfg, Next(cfg, s, steps[0]), steps[1..]);
    }
  }

  // From the start of the system, in every run: no process and no CPU executes two instructions in
  // one time slot; every loaded process was loaded on schedule; a finished process of n instructions
  // finished in the slot after its last turn, no earlier than n slots after it was loaded, and, if n >= 1,
  // was run exactly n times in exactly ceil(n / time_slot) dispatches; time left is below the quantum, and
  // none without a process.
  lemma EveryRun(cfg: Config, steps: seq<Step>)
    requires ConfigOk(cfg) && (InitInv(cfg); CanRun(cfg, InitSys(cfg), steps))
    ensures Inv(cfg, InitSys(cfg))
    ensures var s := Run(cfg, InitSys(cfg), steps);
            && Inv(cfg, s)
            && (forall i, j :: 0 <= i < j < |s.log| && s.log[i].slot == s.log[j].slot ==>
                  s.log[i].pid != s.log[j].pid && s.log[i].cpu != s.log[j].cpu)
            && (forall i :: 0 <= i < |s.procs| ==> s.procs[i].loadTime == LoadTime(cfg, i))
            && (forall x :: x in s.finished ==>
                  && x.pid < |s.procs| && s.procs[x.pid].finish.Some?
                  && s.procs[x.pid].finish.value >= LoadTime(cfg, x.pid) + cfg.size[x.pid]
                  && s.procs[x.pid].finish.value == s.procs[x.pid].lastRun + 1
                  && (cfg.size[x.pid] >= 1 ==>
                        s.procs[x.pid].runs == cfg.size[x.pid]
                        && s.procs[x.pid].dispatched == Word.DivRoundUp(cfg.size[x.pid], cfg.timeSlot)))
            && (forall c :: 0 <= c < cfg.ncpu ==>
                  0 <= s.cpus[c].timeLeft < cfg.timeSlot && (s.cpus[c].proc == None ==> s.cpus[c].timeLeft == 0))
  {
    hide Conserved, SchedOk;
    InitInv(cfg);
    AllStepsKeepInv(cfg, InitSys(cfg), steps);
    var s := Run(cfg, InitSys(cfg), steps);
    hide InitSys, Run, CanRun;
    forall x | x in s.finished
      ensures FinishedOk(cfg, s.procs, x)
    {
    }
    forall c | 0 <= c < cfg.ncpu
      ensures 0 <= s.cpus[c].timeLeft < cfg.timeSlot && (s.cpus[c].proc == None ==> s.cpus[c].timeLeft == 0)
    {
      assert CpuOk(cfg, s, c);
    }
  }
}
