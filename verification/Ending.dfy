/** How the composed machine ends. Once the loader is done, every run settles within a number of slots:
    then either every CPU has stopped, with whatever still waits abandoned, or all processes are finished
    and the CPUs left wait for ever. */
module Ending {
  import opened ReadyQueue
  import opened Sched
  import opened Os
  import opened OsProofs
  import opened Progress
  import opened Parts
  import B = Barrier

  // ---------- Settled states

  predicate Leaving(cpu: Cpu) { cpu.pc == Stopping || cpu.pc == Stopped }

  // Between two looks at the queues, with nothing in hand: such a CPU does not look at `done`.
  predicate Idle(cpu: Cpu) { cpu.proc == None && (cpu.pc == Top || cpu.pc == CallSlot) }

  predicate SomeIdle(s: Sys) { exists c :: 0 <= c < |s.cpus| && Idle(s.cpus[c]) }

  predicate Done(cfg: Config, s: Sys) { s.done && |s.procs| == |cfg.size| }

  // Every CPU is on its way out or idle, and if one is idle then nothing waits for it.
  predicate Settled(cfg: Config, s: Sys) {
    && Done(cfg, s)
    && (forall c :: 0 <= c < |s.cpus| ==> s.cpus[c].proc == None && (Idle(s.cpus[c]) || Leaving(s.cpus[c])))
    && (SomeIdle(s) ==> AllEmpty(s.sched))
  }

  lemma SettledStep(cfg: Config, s: Sys, step: Step)
    requires ConfigOk(cfg) && Inv(cfg, s) && Enabled(cfg, s, step) && Settled(cfg, s)
    ensures var t := Next(cfg, s, step);
            && Settled(cfg, t) && t.sched == s.sched && |t.cpus| == |s.cpus|
            && forall c :: 0 <= c < |s.cpus| ==> (Idle(t.cpus[c]) <==> Idle(s.cpus[c]))
  {
    hide TasksOk, Conserved, LogOk, CpuOk, B.Next, B.Inv, SchedOk;
    var t := Next(cfg, s, step);
    assert |t.cpus| == |s.cpus|;
    assert forall c :: 0 <= c < |s.cpus| ==> (Idle(t.cpus[c]) <==> Idle(s.cpus[c]));
  }

  // ---------- What is left to do

  // The instructions a process has still to run, or the one turn of an empty process.
  function Owed(size: nat, info: Info): nat {
    if size == 0 then (if info.dispatched == 0 then 1 else 0)
    else if info.pc < size then size - info.pc else 0
  }

  function Owing(cfg: Config, procs: seq<Info>): seq<nat>
    requires |procs| <= |cfg.size|
  {
    seq(|procs|, i requires 0 <= i < |procs| => Owed(cfg.size[i], procs[i]))
  }

  function Attached(cpus: seq<Cpu>): seq<nat> {
    seq(|cpus|, c requires 0 <= c < |cpus| => if Leaving(cpus[c]) then 0 else 1)
  }

  function WorkLeft(cfg: Config, s: Sys): nat
    requires |s.procs| <= |cfg.size|
  {
    B.Sum(Owing(cfg, s.procs)) + B.Sum(Attached(s.cpus))
  }

  predicate Busy(cpu: Cpu) { cpu.pc == AfterPut || cpu.pc == Recheck }

  lemma OwingUpdate(cfg: Config, procs: seq<Info>, i: nat, info: Info)
    requires i < |procs| <= |cfg.size|
    ensures B.Sum(Owing(cfg, procs[i := info])) + Owed(cfg.size[i], procs[i])
         == B.Sum(Owing(cfg, procs)) + Owed(cfg.size[i], info)
  {
    assert Owing(cfg, procs[i := info]) == Owing(cfg, procs)[i := Owed(cfg.size[i], info)];
    B.SumUpdate(Owing(cfg, procs), i, Owed(cfg.size[i], info));
  }

  lemma AttachedUpdate(cpus: seq<Cpu>, c: nat, cpu: Cpu)
    requires c < |cpus|
    ensures B.Sum(Attached(cpus[c := cpu])) + (if Leaving(cpus[c]) then 0 else 1)
         == B.Sum(Attached(cpus)) + if Leaving(cpu) then 0 else 1
  {
    assert Attached(cpus[c := cpu]) == Attached(cpus)[c := if Leaving(cpu) then 0 else 1];
    B.SumUpdate(Attached(cpus), c, if Leaving(cpu) then 0 else 1);
  }

  // A turn of a CPU past its recheck uses up work: an instruction, or the CPU itself.
  lemma RunUsesWork(cfg: Config, s: Sys, c: nat, now: nat, slot: nat, x: Task)
    requires c < |s.cpus| && s.cpus[c].pc == Recheck && s.cpus[c].proc == Some(x)
    requires HeldOk(cfg, s.procs, s.cpus[c], slot, x) && s.cpus[c].timeLeft >= 0
    ensures var t := CpuRecheck(cfg, s, c, now);
            |t.procs| == |s.procs| && WorkLeft(cfg, t) < WorkLeft(cfg, s)
  {
    var t := CpuRecheck(cfg, s, c, now);
    hide Owing, Attached, B.Sum;
    OwingUpdate(cfg, s.procs, x.pid, t.procs[x.pid]);
    AttachedUpdate(s.cpus, c, t.cpus[c]);
    assert cfg.size[x.pid] > 0 ==> s.procs[x.pid].pc < cfg.size[x.pid];
    assert cfg.size[x.pid] == 0 ==> s.procs[x.pid].dispatched == 0 && s.cpus[c].timeLeft <= 0;
    assert t.cpus == s.cpus[c := t.cpus[c]] && t.procs == s.procs[x.pid := t.procs[x.pid]];
  }

  lemma StopUsesWork(cfg: Config, s: Sys, c: nat, now: nat)
    requires c < |s.cpus| && s.cpus[c].pc == Recheck && s.cpus[c].proc == None && Done(cfg, s)
    ensures var t := CpuRecheck(cfg, s, c, now);
            |t.procs| == |s.procs| && WorkLeft(cfg, t) < WorkLeft(cfg, s)
  {
    AttachedUpdate(s.cpus, c, CpuRecheck(cfg, s, c, now).cpus[c]);
    hide Owing, Attached, B.Sum;
  }

  lemma RecheckUsesWork(cfg: Config, s: Sys, c: nat)
    requires ConfigOk(cfg) && Inv(cfg, s) && Enabled(cfg, s, CpuStep(c)) && Done(cfg, s) && s.cpus[c].pc == Recheck
    ensures Done(cfg, Next(cfg, s, CpuStep(c))) && WorkLeft(cfg, Next(cfg, s, CpuStep(c))) < WorkLeft(cfg, s)
  {
    assert CpuOk(cfg, s, c);
    hide Conserved, LogOk, LoaderOk, B.PhaseOk, SchedOk, WorkLeft, B.Next, Get, Put;
    HeldIsLoaded(cfg, s, c);
    if s.cpus[c].proc.Some? {
      assert HeldOk(cfg, s.procs, s.cpus[c], s.bar.slots[c], s.cpus[c].proc.value);
      hide TasksOk, HeldOk;
      RunUsesWork(cfg, s, c, s.bar.sh.time, s.bar.slots[c], s.cpus[c].proc.value);
    } else {
      hide TasksOk;
      StopUsesWork(cfg, s, c, s.bar.sh.time);
    }
  }

  // What the head of the loop does: the CPU comes out of it busy, or idle because get gave it nothing.
  ghost predicate TopTurn(s: Sys, t: Sys, c: nat)
    requires |s.sched.queues| == |s.sched.slot| == MAX_PRIO && c < |t.cpus|
  {
    Busy(t.cpus[c]) || (t.cpus[c].pc == CallSlot && t.cpus[c].proc == None
                        && Get(s.sched).1 == None && t.sched == Get(s.sched).0)
  }

  lemma TopKeepsWork(cfg: Config, s: Sys, c: nat, now: nat)
    requires |s.sched.queues| == |s.sched.slot| == MAX_PRIO && c < |s.cpus| && s.cpus[c].pc == Top
    requires |s.procs| <= |cfg.size|
    requires s.cpus[c].proc.Some? ==> s.cpus[c].proc.value.pid < |s.procs| && s.cpus[c].proc.value.prio < MAX_PRIO
    ensures var t := CpuTop(cfg, s, c, now);
            && |t.procs| == |s.procs| && WorkLeft(cfg, t) == WorkLeft(cfg, s) && t.done == s.done && t.bar == s.bar
            && |t.cpus| == |s.cpus| && t.cpus == s.cpus[c := t.cpus[c]] && TopTurn(s, t, c)
  {
    hide Owing, Attached, B.Sum, Get, Put;
    var t := CpuTop(cfg, s, c, now);
    AttachedUpdate(s.cpus, c, t.cpus[c]);
    if s.cpus[c].proc.Some? {
      var x := s.cpus[c].proc.value;
      OwingUpdate(cfg, s.procs, x.pid, t.procs[x.pid]);
      assert t.procs == s.procs[x.pid := t.procs[x.pid]];
    }
  }

  // Any turn but the one past the recheck leaves the work as it is.
  lemma OtherTurn(cfg: Config, s: Sys, c: nat)
    requires ConfigOk(cfg) && Inv(cfg, s) && Enabled(cfg, s, CpuStep(c)) && Done(cfg, s) && s.cpus[c].pc != Recheck
    ensures var t := Next(cfg, s, CpuStep(c));
            && Done(cfg, t) && WorkLeft(cfg, t) == WorkLeft(cfg, s)
            && |t.cpus| == |s.cpus| && t.cpus == s.cpus[c := t.cpus[c]] && t.bar.sh.time == s.bar.sh.time
            && (Leaving(s.cpus[c]) ==> Leaving(t.cpus[c]) && t.sched == s.sched && t.bar.slots == s.bar.slots)
            && (s.cpus[c].pc == AfterPut ==> Busy(t.cpus[c]) && t.bar == s.bar)
            && (s.cpus[c].pc == CallSlot ==>
                  t.sched == s.sched && t.cpus[c].pc == Top && t.cpus[c].proc == s.cpus[c].proc
                  && t.bar.slots == s.bar.slots[c := s.bar.slots[c] + 1])
            && (s.cpus[c].pc == Top ==> t.bar == s.bar && TopTurn(s, t, c))
  {
    hide TasksOk, Conserved, LogOk, LoaderOk, B.PhaseOk, WorkLeft, B.Next, Get, Put;
    var t := Next(cfg, s, CpuStep(c));
    HeldIsLoaded(cfg, s, c);
    assert CpuOk(cfg, s, c);
    if s.cpus[c].pc == Top {
      TopKeepsWork(cfg, s, c, s.bar.sh.time);
      hide CpuTop, TopTurn;
    } else {
      ArriveFacts(s.bar, c);
      AttachedUpdate(s.cpus, c, t.cpus[c]);
      SameWork(cfg, s, t);
    }
  }

  lemma SameWork(cfg: Config, s: Sys, t: Sys)
    requires |s.procs| <= |cfg.size| && t.procs == s.procs && B.Sum(Attached(t.cpus)) == B.Sum(Attached(s.cpus))
    ensures WorkLeft(cfg, t) == WorkLeft(cfg, s)
  {
  }

  // ---------- One slot

  // CPU c has ended the current slot, or has nothing left to do in it but say so.
  predicate Arrived(s: Sys, c: nat)
    requires c < |s.cpus| <= |s.bar.slots|
  {
    !Leaving(s.cpus[c]) && (s.cpus[c].pc == CallSlot || s.bar.slots[c] == s.bar.sh.time + 1)
  }

  predicate NoneReady(q: SchedState)
    requires |q.queues| == |q.slot| == MAX_PRIO
  {
    forall p :: 0 <= p < MAX_PRIO ==> !Ready(q, p)
  }

  ghost predicate NoneArrived(s: Sys)
    requires |s.cpus| <= |s.bar.slots|
  {
    forall c :: 0 <= c < |s.cpus| ==> !Arrived(s, c)
  }

  // How the scheduler stands in a slot that began with it at q0 and in which no work was done: as it
  // did, or with its budgets reset, for the benefit of the one CPU that has arrived.
  ghost predicate Unserved(q0: SchedState, s: Sys)
    requires |q0.queues| == |q0.slot| == MAX_PRIO && |s.cpus| <= |s.bar.slots|
  {
    if AllEmpty(q0) || NoneArrived(s) then s.sched == q0
    else
      && NoneReady(q0) && s.sched == q0.(slot := FullSlots())
      && forall c, d :: 0 <= c < |s.cpus| && 0 <= d < |s.cpus| && Arrived(s, c) && Arrived(s, d) ==> c == d
  }

  // Nobody has done any work: who has arrived came with nothing in hand.
  ghost predicate Fruitless(q0: SchedState, s: Sys)
    requires |q0.queues| == |q0.slot| == MAX_PRIO && |s.cpus| <= |s.bar.slots|
  {
    && (forall c :: 0 <= c < |s.cpus| && Arrived(s, c) ==> s.cpus[c].proc == None)
    && Unserved(q0, s)
  }

  ghost predicate SomeBusy(s: Sys) { exists c :: 0 <= c < |s.cpus| && Busy(s.cpus[c]) }

  // In a slot that began with n0 work left: some of it is done, or about to be, or nothing was done.
  ghost predicate SlotInv(cfg: Config, s: Sys, n0: nat, q0: SchedState)
    requires |s.procs| <= |cfg.size| && |q0.queues| == |q0.slot| == MAX_PRIO && |s.cpus| <= |s.bar.slots|
  {
    WorkLeft(cfg, s) < n0 || (WorkLeft(cfg, s) == n0 && (SomeBusy(s) || Fruitless(q0, s)))
  }

  // A get that gives nothing resets the budgets, so a second one in the slot would give something.
  lemma IdleTurn(q0: SchedState, s: Sys, t: Sys, c: nat)
    requires |q0.queues| == |q0.slot| == MAX_PRIO && SchedOk(s.sched)
    requires c < |s.cpus| == |t.cpus| <= |s.bar.slots| && t.bar == s.bar && t.cpus == s.cpus[c := t.cpus[c]]
    requires Fruitless(q0, s) && !Arrived(s, c)
    requires t.cpus[c].pc == CallSlot && t.cpus[c].proc == None
    requires Get(s.sched).1 == None && t.sched == Get(s.sched).0
    ensures Fruitless(q0, t)
  {
    GetNothingExactly(s.sched);
    hide Get;
    assert forall d :: 0 <= d < |s.cpus| && d != c ==> (Arrived(t, d) <==> Arrived(s, d));
    assert Arrived(t, c);
    if !AllEmpty(q0) {
      var p :| 0 <= p < MAX_PRIO && q0.queues[p] != [];
      assert s.sched.queues[p] != [] && s.sched.slot[p] == 0;
      assert FullSlots()[p] > 0;
      assert NoneArrived(s);
    }
  }

  // A move that leaves the arrivals as they are.
  lemma QuietMove(q0: SchedState, s: Sys, t: Sys)
    requires |q0.queues| == |q0.slot| == MAX_PRIO && |s.cpus| == |t.cpus| <= |s.bar.slots| && |t.cpus| <= |t.bar.slots|
    requires t.sched == s.sched && Fruitless(q0, s)
    requires forall c :: 0 <= c < |s.cpus| ==>
               (Arrived(t, c) <==> Arrived(s, c)) && (Arrived(s, c) ==> t.cpus[c].proc == s.cpus[c].proc)
    ensures Fruitless(q0, t)
  {
    hide Arrived;
  }

  lemma CpuKeepsSlot(cfg: Config, s: Sys, c: nat, n0: nat, q0: SchedState)
    requires ConfigOk(cfg) && Inv(cfg, s) && Enabled(cfg, s, CpuStep(c)) && Done(cfg, s)
    requires |q0.queues| == |q0.slot| == MAX_PRIO && SlotInv(cfg, s, n0, q0)
    ensures var t := Next(cfg, s, CpuStep(c));
            Done(cfg, t) && |t.cpus| <= |t.bar.slots| && SlotInv(cfg, t, n0, q0)
  {
    hide TasksOk, Conserved, LogOk, LoaderOk, CpuOk, B.PhaseOk, WorkLeft, Get, Put, B.Next;
    var t := Next(cfg, s, CpuStep(c));
    if s.cpus[c].pc == Recheck {
      RecheckUsesWork(cfg, s, c);
    } else {
      OtherTurn(cfg, s, c);
      B.TimeIsExact(s.bar, c);
      hide Next;
      if SomeBusy(s) {
        var d :| 0 <= d < |s.cpus| && Busy(s.cpus[d]);
        assert Busy(t.cpus[d]);
      } else if s.cpus[c].pc == Top && !Busy(t.cpus[c]) && WorkLeft(cfg, s) == n0 {
        IdleTurn(q0, s, t, c);
      } else if Busy(t.cpus[c]) {
        assert SomeBusy(t);
      } else if WorkLeft(cfg, s) == n0 {
        hide Fruitless;
        QuietMove(q0, s, t);
      }
    }
  }

  lemma OthersKeepSlot(cfg: Config, s: Sys, step: Step, n0: nat, q0: SchedState)
    requires ConfigOk(cfg) && Inv(cfg, s) && Enabled(cfg, s, step) && Done(cfg, s) && !step.CpuStep?
    requires |q0.queues| == |q0.slot| == MAX_PRIO && SlotInv(cfg, s, n0, q0)
    ensures var t := Next(cfg, s, step);
            && Done(cfg, t) && |t.cpus| <= |t.bar.slots| && t.sched == s.sched && t.cpus == s.cpus
            && WorkLeft(cfg, t) == WorkLeft(cfg, s)
            && (t.bar.sh.time == s.bar.sh.time ==> SlotInv(cfg, t, n0, q0))
  {
    hide TasksOk, Conserved, LogOk, CpuOk, B.PhaseOk, Put, B.Next;
    var t := Next(cfg, s, step);
    if step.LoaderStep? {
      ArriveFacts(s.bar, cfg.ncpu);
    } else {
      BarrierFacts(s.bar, step.b);
    }
    SameWork(cfg, s, t);
    if Fruitless(q0, s) && t.bar.sh.time == s.bar.sh.time {
      assert forall c :: 0 <= c < |s.cpus| ==> (Arrived(t, c) <==> Arrived(s, c));
      hide Fruitless;
      QuietMove(q0, s, t);
    }
  }

  // ---------- From slot to slot

  // Set when a process waits and no level has budget left: the next get gives nothing.
  function Spent(q: SchedState): nat
    requires |q.queues| == |q.slot| == MAX_PRIO
  {
    if !AllEmpty(q) && NoneReady(q) then 1 else 0
  }

  // How many more slots it can take to settle, seen from the start of a slot.
  function SlotsLeft(n: nat, q: SchedState): nat
    requires |q.queues| == |q.slot| == MAX_PRIO
  {
    2 * n + Spent(q)
  }

  lemma AtTick(cfg: Config, s: Sys, c: nat)
    requires ConfigOk(cfg) && Inv(cfg, s) && s.bar.tpc == B.Tick && c < cfg.ncpu
    ensures if Leaving(s.cpus[c]) then s.cpus[c].pc == Stopped && s.cpus[c].proc == None
            else s.cpus[c].pc == Top && s.bar.slots[c] == s.bar.sh.time + 1
  {
    B.TickWaitsForAll(s.bar, c);
    assert CpuOk(cfg, s, c);
  }

  // A slot in which no work was done leaves nothing to wait for, or fresh budgets.
  lemma FruitlessSlot(cfg: Config, s: Sys, q0: SchedState)
    requires |q0.queues| == |q0.slot| == MAX_PRIO && |s.cpus| <= |s.bar.slots| && Done(cfg, s) && Fruitless(q0, s)
    requires forall c :: 0 <= c < |s.cpus| ==> if Leaving(s.cpus[c]) then s.cpus[c].proc == None
               else s.cpus[c].pc == Top && Arrived(s, c)
    ensures |s.sched.queues| == |s.sched.slot| == MAX_PRIO
    ensures Settled(cfg, s) || Spent(s.sched) < Spent(q0)
  {
    if !Settled(cfg, s) {
      assert SomeIdle(s) && !AllEmpty(s.sched);
      var c :| 0 <= c < |s.cpus| && Idle(s.cpus[c]);
      assert Arrived(s, c);
      assert NoneReady(q0) && s.sched == q0.(slot := FullSlots()) && !AllEmpty(q0);
      var p :| 0 <= p < MAX_PRIO && s.sched.queues[p] != [];
      assert Ready(s.sched, p);
    }
  }

  // Over a tick: settled, or fewer slots left; and the new slot begins.
  lemma TickTurn(cfg: Config, s: Sys, n0: nat, q0: SchedState)
    requires ConfigOk(cfg) && Inv(cfg, s) && Enabled(cfg, s, BarrierStep(B.TimerStep)) && Done(cfg, s)
    requires s.bar.tpc == B.Tick
    requires |q0.queues| == |q0.slot| == MAX_PRIO && SlotInv(cfg, s, n0, q0)
    ensures var t := Next(cfg, s, BarrierStep(B.TimerStep));
            && Done(cfg, t) && |t.cpus| <= |t.bar.slots| && |t.sched.queues| == |t.sched.slot| == MAX_PRIO
            && t.bar.sh.time == s.bar.sh.time + 1
            && (Settled(cfg, t) || SlotsLeft(WorkLeft(cfg, t), t.sched) < SlotsLeft(n0, q0))
            && SlotInv(cfg, t, WorkLeft(cfg, t), t.sched)
  {
    hide TasksOk, Conserved, LogOk, LoaderOk, CpuOk, B.PhaseOk;
    var t := Next(cfg, s, BarrierStep(B.TimerStep));
    SameWork(cfg, s, t);
    forall c | 0 <= c < cfg.ncpu
      ensures if Leaving(s.cpus[c]) then s.cpus[c].proc == None else s.cpus[c].pc == Top && Arrived(s, c)
      ensures !Busy(s.cpus[c]) && !Arrived(t, c)
    {
      AtTick(cfg, s, c);
    }
    if WorkLeft(cfg, s) == n0 {
      FruitlessSlot(cfg, s, q0);
    }
  }

  // ---------- Every run settles

  // Settled, or on the way: the slot at hand began with n0 work left, early enough for the deadline.
  ghost predicate OnTheWay(cfg: Config, s: Sys, n0: nat, q0: SchedState, deadline: nat)
    requires |s.procs| <= |cfg.size| && |q0.queues| == |q0.slot| == MAX_PRIO && |s.cpus| <= |s.bar.slots|
  {
    Done(cfg, s) && (Settled(cfg, s) || (SlotInv(cfg, s, n0, q0) && s.bar.sh.time + SlotsLeft(n0, q0) <= deadline))
  }

  lemma StepOnTheWay(cfg: Config, s: Sys, step: Step, n0: nat, q0: SchedState, deadline: nat)
    returns (n: nat, q: SchedState)
    requires ConfigOk(cfg) && Inv(cfg, s) && Enabled(cfg, s, step)
    requires |q0.queues| == |q0.slot| == MAX_PRIO && OnTheWay(cfg, s, n0, q0, deadline)
    ensures |q.queues| == |q.slot| == MAX_PRIO
    ensures Inv(cfg, Next(cfg, s, step)) && OnTheWay(cfg, Next(cfg, s, step), n, q, deadline)
  {
    hide LoaderOk, TasksOk, Conserved, LogOk, CpuOk, B.PhaseOk, WorkLeft, Settled, SlotInv, SlotsLeft;
    var t := Next(cfg, s, step);
    NextKeepsInv(cfg, s, step);
    n, q := n0, q0;
    if Settled(cfg, s) {
      SettledStep(cfg, s, step);
      DoneOfSettled(cfg, t);
    } else if step.CpuStep? {
      CpuKeepsSlot(cfg, s, step.c, n0, q0);
      StepTimes(cfg, s, step);
    } else {
      StepTimes(cfg, s, step);
      OthersKeepSlot(cfg, s, step, n0, q0);
      if t.bar.sh.time != s.bar.sh.time {
        TickTurn(cfg, s, n0, q0);
        n, q := WorkLeft(cfg, t), t.sched;
      }
    }
  }

  lemma DoneOfSettled(cfg: Config, s: Sys)
    requires Settled(cfg, s)
    ensures Done(cfg, s)
  {
  }

  // Only the timer's tick moves the time, by one.
  lemma StepTimes(cfg: Config, s: Sys, step: Step)
    requires ConfigOk(cfg) && Inv(cfg, s) && Enabled(cfg, s, step)
    ensures Next(cfg, s, step).bar.sh.time ==
            s.bar.sh.time + if step == BarrierStep(B.TimerStep) && s.bar.tpc == B.Tick then 1 else 0
  {
    hide LoaderOk, TasksOk, Conserved, LogOk, CpuOk, B.PhaseOk, B.Next, Get, Put;
    match step
    case BarrierStep(b) => B.StepTime(s.bar, b);
    case LoaderStep => ArriveFacts(s.bar, cfg.ncpu);
    case CpuStep(c) =>
      ArriveFacts(s.bar, c);
      HeldIsLoaded(cfg, s, c);
  }

  lemma {:induction false} SettlesBy(cfg: Config, s: Sys, steps: seq<Step>, n0: nat, q0: SchedState, deadline: nat)
    requires ConfigOk(cfg) && Inv(cfg, s) && CanRun(cfg, s, steps)
    requires |q0.queues| == |q0.slot| == MAX_PRIO && OnTheWay(cfg, s, n0, q0, deadline)
    ensures var t := Run(cfg, s, steps); t.bar.sh.time > deadline ==> Settled(cfg, t)
    decreases |steps|
  {
    hide Next, Enabled, LoaderOk, TasksOk, Conserved, LogOk, CpuOk, B.Inv, SlotInv;
    if steps != [] {
      var n, q := StepOnTheWay(cfg, s, steps[0], n0, q0, deadline);
      SettlesBy(cfg, Next(cfg, s, steps[0]), steps[1..], n, q, deadline);
    }
  }

  function Whole(size: seq<nat>): seq<nat> {
    seq(|size|, i requires 0 <= i < |size| => if size[i] == 0 then 1 else size[i])
  }

  // All the work there can be: every instruction of every process, one turn of every empty one, and
  // the CPUs themselves.
  function AllWork(cfg: Config): nat { B.Sum(Whole(cfg.size)) + cfg.ncpu }

  lemma {:induction false} SumMonotone(a: seq<nat>, b: seq<nat>)
    requires |a| == |b| && forall i :: 0 <= i < |a| ==> a[i] <= b[i]
    ensures B.Sum(a) <= B.Sum(b)
  {
    if a != [] {
      SumMonotone(a[1..], b[1..]);
    }
  }

  lemma WorkBound(cfg: Config, s: Sys)
    requires |s.procs| == |cfg.size| && |s.cpus| == cfg.ncpu
    ensures WorkLeft(cfg, s) <= AllWork(cfg)
  {
    SumMonotone(Owing(cfg, s.procs), Whole(cfg.size));
    B.SumBound(Attached(s.cpus), 1);
  }

  // The loader is done in the slot after it loads the last process.
  lemma DoneInTime(cfg: Config, s: Sys)
    requires ConfigOk(cfg) && Inv(cfg, s) && !s.done
    ensures s.bar.sh.time <= LoadFloor(cfg, |cfg.size|)
  {
    hide TasksOk, Conserved, LogOk, CpuOk, SchedOk;
    var d := cfg.ncpu;
    assert B.DeviceOk(s.bar, d);
    var j := if s.bar.tpc.Release? then s.bar.tpc.j else |s.bar.pc|;
    assert if d < j then B.Paced(s.bar, d) else B.Held(s.bar, d);
    LoadCeilingBound(cfg, |s.procs|);
  }

  lemma {:induction false} LoadTimesGrow(cfg: Config, i: nat, j: nat)
    requires ConfigOk(cfg) && i <= j < |cfg.start|
    ensures LoadTime(cfg, i) <= LoadTime(cfg, j)
    decreases j
  {
    if i < j {
      LoadTimesGrow(cfg, i, j - 1);
    }
  }

  lemma LoadCeilingBound(cfg: Config, i: nat)
    requires ConfigOk(cfg) && i <= |cfg.start|
    ensures LoadCeiling(cfg, i) <= LoadFloor(cfg, |cfg.start|)
  {
    if i < |cfg.start| {
      LoadTimesGrow(cfg, i, |cfg.start| - 1);
    }
  }

  // When every run has settled: the loader's last slot, and two slots for each piece of work.
  function SettleTime(cfg: Config): nat
    requires ConfigOk(cfg)
  {
    LoadFloor(cfg, |cfg.start|) + 2 * AllWork(cfg) + 3
  }

  // From any state, done or not.
  lemma {:induction false} SettlesFrom(cfg: Config, s: Sys, steps: seq<Step>)
    requires ConfigOk(cfg) && Inv(cfg, s) && CanRun(cfg, s, steps)
    requires s.bar.sh.time <= LoadFloor(cfg, |cfg.start|)
    ensures var t := Run(cfg, s, steps); t.bar.sh.time > SettleTime(cfg) ==> Settled(cfg, t)
    decreases |steps|
  {
    if s.done {
      WorkBound(cfg, s);
      assert OnTheWay(cfg, s, WorkLeft(cfg, s) + 1, s.sched, SettleTime(cfg));
      SettlesBy(cfg, s, steps, WorkLeft(cfg, s) + 1, s.sched, SettleTime(cfg));
    } else if steps != [] {
      NextKeepsInv(cfg, s, steps[0]);
      StepTimes(cfg, s, steps[0]);
      StaysInTime(cfg, s, steps[0]);
      SettlesFrom(cfg, Next(cfg, s, steps[0]), steps[1..]);
    }
  }

  // Before the loader is done the time stays within bounds, and the step that makes it done takes none.
  lemma StaysInTime(cfg: Config, s: Sys, step: Step)
    requires ConfigOk(cfg) && Inv(cfg, s) && Enabled(cfg, s, step) && !s.done
    ensures Next(cfg, s, step).bar.sh.time <= LoadFloor(cfg, |cfg.start|)
  {
    var t := Next(cfg, s, step);
    NextKeepsInv(cfg, s, step);
    StepTimes(cfg, s, step);
    DoneInTime(cfg, s);
    if !t.done {
      DoneInTime(cfg, t);
    }
  }

  // From the start, whatever is scheduled: past that time the machine is settled.
  lemma EveryRunSettles(cfg: Config, steps: seq<Step>)
    requires ConfigOk(cfg) && (InitInv(cfg); CanRun(cfg, InitSys(cfg), steps))
    ensures Inv(cfg, InitSys(cfg))
    ensures var t := Run(cfg, InitSys(cfg), steps); t.bar.sh.time > SettleTime(cfg) ==> Settled(cfg, t)
  {
    InitInv(cfg);
    SettlesFrom(cfg, InitSys(cfg), steps);
  }

  // ---------- What being settled means

  lemma {:induction false} OnlyPart(ms: seq<multiset<Task>>, a: nat)
    requires a < |ms| && forall b :: 0 <= b < |ms| && b != a ==> ms[b] == multiset{}
    ensures Total(ms) == ms[a]
  {
    if a > 0 {
      OnlyPart(ms[1..], a - 1);
    } else {
      EmptyTotal(ms[1..]);
    }
  }

  // With an idle CPU left, every process is finished.
  lemma IdleMeansFinished(cfg: Config, s: Sys)
    requires ConfigOk(cfg) && Inv(cfg, s) && Settled(cfg, s) && SomeIdle(s)
    ensures s.finished == LoadedTasks(cfg, |cfg.prio|)
  {
    hide TasksOk, LogOk, LoaderOk, CpuOk, B.Inv, Places;
    PlacesAt(s);
    OnlyPart(Places(s), MAX_PRIO + |s.cpus|);
  }

  // With none left, a process is finished or abandoned on its level queue.
  lemma FinishedOrAbandoned(cfg: Config, s: Sys, i: nat)
    requires ConfigOk(cfg) && Inv(cfg, s) && Settled(cfg, s) && i < |cfg.prio|
    ensures TaskOf(cfg, i) in s.finished <==> TaskOf(cfg, i) !in s.sched.queues[cfg.prio[i]]
  {
    hide TasksOk, LogOk, LoaderOk, CpuOk, B.Inv, Places, Conserved;
    var a := ProcessInOnePlace(cfg, s, i);
    PlacesAt(s);
    var x, last := TaskOf(cfg, i), MAX_PRIO + |s.cpus|;
    assert x in Places(s)[a];
    assert Places(s)[last] == s.finished && Places(s)[cfg.prio[i]] == multiset(s.sched.queues[cfg.prio[i]]);
    forall b | MAX_PRIO <= b < last
      ensures Places(s)[b] == multiset{}
    {
      assert Places(s)[b] == HeldBy(s.cpus[b - MAX_PRIO]);
    }
    if a < MAX_PRIO {
      QueuedAtOwnLevel(cfg, s, a, x);
      assert x !in Places(s)[last];
    }
  }

  // ---------- Who stops

  lemma {:induction false} SettledRun(cfg: Config, s: Sys, steps: seq<Step>)
    requires ConfigOk(cfg) && Inv(cfg, s) && CanRun(cfg, s, steps) && Settled(cfg, s)
    ensures var t := Run(cfg, s, steps);
            && Inv(cfg, t) && Settled(cfg, t) && t.sched == s.sched && |t.cpus| == |s.cpus|
            && forall c :: 0 <= c < |s.cpus| ==> (Idle(t.cpus[c]) <==> Idle(s.cpus[c]))
    decreases |steps|
  {
    hide Next, Enabled, LoaderOk, TasksOk, Conserved, LogOk, CpuOk, B.Inv, Settled, Idle;
    if steps != [] {
      NextKeepsInv(cfg, s, steps[0]);
      SettledStep(cfg, s, steps[0]);
      SettledRun(cfg, Next(cfg, s, steps[0]), steps[1..]);
    }
  }

  lemma StoppedStep(cfg: Config, s: Sys, step: Step, c: nat)
    requires ConfigOk(cfg) && Inv(cfg, s) && Enabled(cfg, s, step) && Settled(cfg, s) && c < cfg.ncpu
    ensures s.cpus[c].pc == Stopped ==> Next(cfg, s, step).cpus[c].pc == Stopped
    ensures !Idle(s.cpus[c]) && Next(cfg, s, step).bar.sh.time > s.bar.sh.time ==>
              Next(cfg, s, step).cpus[c].pc == Stopped
  {
    hide TasksOk, Conserved, LogOk, LoaderOk, B.Next, B.PhaseOk, Get, Put;
    assert CpuOk(cfg, s, c);
    StepTimes(cfg, s, step);
    if s.bar.tpc == B.Tick {
      AtTick(cfg, s, c);
    }
  }

  lemma {:induction false} StaysStopped(cfg: Config, s: Sys, c: nat, steps: seq<Step>)
    requires ConfigOk(cfg) && Inv(cfg, s) && CanRun(cfg, s, steps) && Settled(cfg, s) && c < cfg.ncpu
    requires s.cpus[c].pc == Stopped
    ensures Inv(cfg, Run(cfg, s, steps)) && Run(cfg, s, steps).cpus[c].pc == Stopped
    decreases |steps|
  {
    hide Next, Enabled, LoaderOk, TasksOk, Conserved, LogOk, CpuOk, B.Inv, Settled;
    if steps != [] {
      NextKeepsInv(cfg, s, steps[0]);
      SettledStep(cfg, s, steps[0]);
      StoppedStep(cfg, s, steps[0], c);
      StaysStopped(cfg, Next(cfg, s, steps[0]), c, steps[1..]);
    }
  }

  // Once the time has moved on from a settled state, a CPU has stopped if and only if it was not idle.
  lemma {:induction false} StopsExactly(cfg: Config, s: Sys, c: nat, steps: seq<Step>)
    requires ConfigOk(cfg) && Inv(cfg, s) && CanRun(cfg, s, steps) && Settled(cfg, s) && c < cfg.ncpu
    requires Run(cfg, s, steps).bar.sh.time > s.bar.sh.time
    ensures Inv(cfg, Run(cfg, s, steps))
    ensures Run(cfg, s, steps).cpus[c].pc == Stopped <==> !Idle(s.cpus[c])
    decreases |steps|
  {
    hide Next, Enabled, LoaderOk, TasksOk, Conserved, LogOk, CpuOk, B.Inv, Settled;
    NextKeepsInv(cfg, s, steps[0]);
    SettledStep(cfg, s, steps[0]);
    StepTimes(cfg, s, steps[0]);
    var t := Next(cfg, s, steps[0]);
    if Idle(s.cpus[c]) {
      SettledRun(cfg, t, steps[1..]);
    } else if t.bar.sh.time > s.bar.sh.time {
      StoppedStep(cfg, s, steps[0], c);
      StaysStopped(cfg, t, c, steps[1..]);
    } else {
      StopsExactly(cfg, t, c, steps[1..]);
    }
  }

  // ---------- When the whole machine stops

  // The ticks the timer can still make once no device needs it.
  function TicksLeft(b: B.State): nat {
    if exists d :: 0 <= d < |b.pc| && b.pc[d] != B.Gone then 2
    else
      match b.tpc
      case Exited => 0
      case Top => 1
      case Look(_) => if b.fshCount == b.eventCount then 1 else 2
      case Tick => if b.fshCount == b.eventCount then 1 else 2
      case Release(_) => if b.fshCount == b.eventCount then 0 else 1
      case Check => if b.fshCount == b.eventCount then 0 else 1
  }

  function EndRank(cfg: Config, s: Sys): nat
    requires |s.bar.sh.done| == |s.bar.sh.asleep| == |s.bar.pc|
  {
    TicksLeft(s.bar) * (48 * cfg.ncpu + 67) + SysRank(s)
  }

  // A timer with no device left to wait for.
  lemma TimerAlone(b: B.State)
    requires B.Inv(b) && B.AllGone(b) && B.Enabled(b, B.TimerStep)
    ensures B.AllGone(B.TimerNext(b)) && TicksLeft(B.TimerNext(b)) <= TicksLeft(b) - if b.tpc == B.Tick then 1 else 0
  {
    if b.tpc.Look? && b.tpc.i < |b.pc| {
      assert B.DeviceOk(b, b.tpc.i);
    }
    hide B.PhaseOk, B.SleepOk;
  }

  ghost predicate Winding(cfg: Config, s: Sys)
    requires ConfigOk(cfg)
  {
    Inv(cfg, s) && Settled(cfg, s) && !SomeIdle(s)
  }

  // No tick waits for a device any more.
  lemma GoneAtTick(cfg: Config, s: Sys)
    requires ConfigOk(cfg) && Winding(cfg, s) && s.bar.tpc == B.Tick
    ensures B.AllGone(s.bar)
  {
    hide TasksOk, Conserved, LogOk, B.PhaseOk;
    forall d | 0 <= d < |s.bar.pc|
      ensures s.bar.pc[d] == B.Gone
    {
      B.TickWaitsForAll(s.bar, d);
      if d < cfg.ncpu {
        assert CpuOk(cfg, s, d) && !Idle(s.cpus[d]);
      }
    }
  }

  lemma WindingTicks(cfg: Config, s: Sys, step: Step)
    requires ConfigOk(cfg) && Winding(cfg, s) && Enabled(cfg, s, step) && Real(step)
    ensures var t := Next(cfg, s, step);
            TicksLeft(t.bar) <= TicksLeft(s.bar) - if t.bar.sh.time > s.bar.sh.time then 1 else 0
  {
    hide TasksOk, Conserved, LogOk, B.PhaseOk, B.SleepOk, Get;
    var t := Next(cfg, s, step);
    StepTimes(cfg, s, step);
    if step == BarrierStep(B.TimerStep) {
      if s.bar.tpc == B.Tick {
        GoneAtTick(cfg, s);
      }
      if B.AllGone(s.bar) {
        TimerAlone(s.bar);
      }
    }
  }

  // Every real step of a winding machine uses up some of the rank.
  lemma WindingStep(cfg: Config, s: Sys, step: Step)
    requires ConfigOk(cfg) && Winding(cfg, s) && Enabled(cfg, s, step) && Real(step)
    ensures Winding(cfg, Next(cfg, s, step)) && EndRank(cfg, Next(cfg, s, step)) < EndRank(cfg, s)
  {
    hide TasksOk, Conserved, LogOk, LoaderOk, CpuOk, B.PhaseOk, B.Next, Get, Put, TicksLeft, SysRank;
    var t := Next(cfg, s, step);
    StepUsesRank(cfg, s, step);
    SettledStep(cfg, s, step);
    WindingTicks(cfg, s, step);
    SysRankBound(cfg, t);
    var ticked := t.bar.sh.time > s.bar.sh.time;
    RankDrops(TicksLeft(s.bar), TicksLeft(t.bar), 48 * cfg.ncpu + 67, SysRank(s), SysRank(t), ticked);
  }

  lemma RankDrops(ticks: nat, ticks': nat, slot: nat, rank: nat, rank': nat, tick: bool)
    requires ticks' <= ticks - (if tick then 1 else 0)
    requires if tick then rank' < slot else rank' < rank
    ensures ticks' * slot + rank' < ticks * slot + rank
  {
    var d := if tick then 1 else 0;
    assert ticks * slot == (ticks - d - ticks') * slot + ticks' * slot + d * slot;
    assert (ticks - d - ticks') * slot >= 0;
  }

  predicate AllReal(steps: seq<Step>) { forall i :: 0 <= i < |steps| ==> Real(steps[i]) }

  // A settled machine without an idle CPU stops: its runs of real steps are bounded ...
  lemma {:induction false} WindingStops(cfg: Config, s: Sys, steps: seq<Step>)
    requires ConfigOk(cfg) && Winding(cfg, s) && CanRun(cfg, s, steps) && AllReal(steps)
    ensures |steps| <= EndRank(cfg, s) < 3 * (48 * cfg.ncpu + 67)
    decreases |steps|
  {
    hide Inv, Settled, Next, Enabled, SysRank, Real, TicksLeft;
    SysRankBound(cfg, s);
    TwoTicks(s.bar, 48 * cfg.ncpu + 67);
    if steps != [] {
      WindingStep(cfg, s, steps[0]);
      WindingStops(cfg, Next(cfg, s, steps[0]), steps[1..]);
    }
  }

  lemma TwoTicks(b: B.State, slot: nat)
    ensures TicksLeft(b) * slot <= 2 * slot
  {
    assert TicksLeft(b) <= 2;
  }

  // ... and end only when everyone has stopped.
  lemma SettledCanStep(cfg: Config, s: Sys) returns (step: Step)
    requires ConfigOk(cfg) && Inv(cfg, s) && Settled(cfg, s) && !AllStopped(s)
    ensures Real(step) && Enabled(cfg, s, step)
  {
    step := SomeStep(cfg, s);
    hide B.Inv, TasksOk, Conserved, LogOk, CpuOk, Enabled;
    assert PutBy(cfg, s, step) == None;
  }

  // ---------- The CPU that waits for ever

  // What is left of the quantum of the process a CPU holds.
  function QuantumLeft(cfg: Config, cpu: Cpu): int {
    if cpu.pc == Recheck && cpu.timeLeft == 0 then cfg.timeSlot else cpu.timeLeft
  }

  // The process CPU d holds, if any, finishes within its quantum.
  predicate LastQuantum(cfg: Config, s: Sys, d: nat)
    requires d < |s.cpus|
  {
    s.cpus[d].proc.Some? ==>
      var pid := s.cpus[d].proc.value.pid;
      pid < |s.procs| <= |cfg.size| && cfg.size[pid] - s.procs[pid].pc <= QuantumLeft(cfg, s.cpus[d])
  }

  // CPU c is idle, and no process will wait again.
  predicate Doomed(cfg: Config, s: Sys, c: nat) {
    && |s.procs| == |cfg.size| && AllEmpty(s.sched)
    && c < |s.cpus| && Idle(s.cpus[c])
    && forall d :: 0 <= d < |s.cpus| ==> LastQuantum(cfg, s, d)
  }

  lemma DoomedPutsNothing(cfg: Config, s: Sys, c: nat, step: Step)
    requires ConfigOk(cfg) && Inv(cfg, s) && Doomed(cfg, s, c)
    ensures PutBy(cfg, s, step) == None
  {
    hide B.PhaseOk, Conserved, LogOk, CpuOk, LoaderOk;
    if step.CpuStep? && step.c < |s.cpus| && s.cpus[step.c].proc.Some? {
      assert HeldOk(cfg, s.procs, s.cpus[step.c], s.bar.slots[step.c], s.cpus[step.c].proc.value);
      assert LastQuantum(cfg, s, step.c);
    }
  }

  // A turn past the recheck uses an instruction and a part of the quantum.
  lemma RunKeepsQuanta(cfg: Config, s: Sys, d: nat, now: nat, x: Task)
    requires d < |s.cpus| && s.cpus[d].pc == Recheck && s.cpus[d].proc == Some(x)
    requires x.pid < |s.procs| <= |cfg.size| && s.procs[x.pid].pc <= cfg.size[x.pid]
    requires cfg.timeSlot >= 1 && s.cpus[d].timeLeft >= 0
    requires forall e :: 0 <= e < |s.cpus| && e != d && s.cpus[e].proc.Some? ==> s.cpus[e].proc.value.pid != x.pid
    requires forall e :: 0 <= e < |s.cpus| ==> LastQuantum(cfg, s, e)
    ensures var t := CpuRecheck(cfg, s, d, now);
            |t.cpus| == |s.cpus| && forall e :: 0 <= e < |t.cpus| ==> LastQuantum(cfg, t, e)
  {
    var t := CpuRecheck(cfg, s, d, now);
    assert LastQuantum(cfg, s, d);
    forall e | 0 <= e < |t.cpus|
      ensures LastQuantum(cfg, t, e)
    {
      assert LastQuantum(cfg, s, e);
    }
  }

  // Any other turn takes no process from a queue and puts none there.
  lemma TopKeepsQuanta(cfg: Config, s: Sys, d: nat, now: nat)
    requires |s.sched.queues| == |s.sched.slot| == MAX_PRIO && AllEmpty(s.sched)
    requires d < |s.cpus| && s.cpus[d].pc == Top && |s.procs| <= |cfg.size|
    requires s.cpus[d].proc.Some? ==>
               var x := s.cpus[d].proc.value;
               x.pid < |s.procs| && s.procs[x.pid].pc <= cfg.size[x.pid] && x.prio < MAX_PRIO
    requires forall e :: 0 <= e < |s.cpus| ==> LastQuantum(cfg, s, e)
    ensures var t := CpuTop(cfg, s, d, now);
            && |t.procs| == |s.procs| && t.sched == s.sched && |t.cpus| == |s.cpus|
            && t.cpus == s.cpus[d := t.cpus[d]] && (Idle(s.cpus[d]) ==> Idle(t.cpus[d]))
            && forall e :: 0 <= e < |t.cpus| ==> LastQuantum(cfg, t, e)
  {
    var t := CpuTop(cfg, s, d, now);
    assert LastQuantum(cfg, s, d);
    EmptyGet(s.sched);
    hide Get, Put;
    forall e | 0 <= e < |t.cpus|
      ensures LastQuantum(cfg, t, e)
    {
      assert LastQuantum(cfg, s, e);
    }
  }

  lemma EmptyGet(q: SchedState)
    requires AllEmpty(q) && |q.queues| == |q.slot| == MAX_PRIO
    ensures Get(q) == (q, None)
  {
  }

  // What the invariant says of the process a CPU holds.
  lemma HeldFacts(cfg: Config, s: Sys, d: nat)
    requires ConfigOk(cfg) && Inv(cfg, s) && d < cfg.ncpu
    ensures |s.sched.queues| == |s.sched.slot| == MAX_PRIO && |s.cpus| == cfg.ncpu && s.cpus[d].timeLeft >= 0
    ensures s.cpus[d].proc.Some? ==>
              var x := s.cpus[d].proc.value;
              && x.pid < |s.procs| <= |cfg.size| && x.prio < MAX_PRIO && s.procs[x.pid].pc <= cfg.size[x.pid]
              && forall e :: 0 <= e < |s.cpus| && e != d && s.cpus[e].proc.Some? ==> s.cpus[e].proc.value.pid != x.pid
  {
    hide Conserved, LogOk, LoaderOk, B.PhaseOk;
    HeldIsLoaded(cfg, s, d);
    assert CpuOk(cfg, s, d);
    if s.cpus[d].proc.Some? {
      assert HeldOk(cfg, s.procs, s.cpus[d], s.bar.slots[d], s.cpus[d].proc.value);
      HolderIsAlone(cfg, s, d, s.cpus[d].proc.value);
    }
  }

  lemma DoomedCpuStep(cfg: Config, s: Sys, c: nat, d: nat)
    requires ConfigOk(cfg) && Inv(cfg, s) && Enabled(cfg, s, CpuStep(d)) && Doomed(cfg, s, c)
    ensures Doomed(cfg, Next(cfg, s, CpuStep(d)), c)
  {
    hide Conserved, LogOk, LoaderOk, CpuOk, TasksOk, SchedOk, B.Inv, B.Next, Put, Get, LastQuantum, AllEmpty;
    HeldFacts(cfg, s, d);
    EmptyGet(s.sched);
    var t := Next(cfg, s, CpuStep(d));
    if s.cpus[d].pc == Top {
      TopKeepsQuanta(cfg, s, d, s.bar.sh.time);
      hide CpuTop;
    } else if s.cpus[d].pc == Recheck && s.cpus[d].proc.Some? {
      RunKeepsQuanta(cfg, s, d, s.bar.sh.time, s.cpus[d].proc.value);
    } else {
      OthersKeepQuanta(cfg, s, t, d);
    }
  }

  lemma OthersKeepQuanta(cfg: Config, s: Sys, t: Sys, d: nat)
    requires |t.cpus| == |s.cpus| && t.procs == s.procs && d < |s.cpus| && t.cpus == s.cpus[d := t.cpus[d]]
    requires t.cpus[d].proc == None || (t.cpus[d].proc == s.cpus[d].proc && t.cpus[d].timeLeft == s.cpus[d].timeLeft
                                        && s.cpus[d].pc != Recheck && t.cpus[d].pc != Recheck)
    requires forall e :: 0 <= e < |s.cpus| ==> LastQuantum(cfg, s, e)
    ensures forall e :: 0 <= e < |t.cpus| ==> LastQuantum(cfg, t, e)
  {
    forall e | 0 <= e < |t.cpus|
      ensures LastQuantum(cfg, t, e)
    {
      assert LastQuantum(cfg, s, e);
    }
  }

  lemma DoomedStep(cfg: Config, s: Sys, c: nat, step: Step)
    requires ConfigOk(cfg) && Inv(cfg, s) && Enabled(cfg, s, step) && Doomed(cfg, s, c)
    ensures Doomed(cfg, Next(cfg, s, step), c)
  {
    hide TasksOk, Conserved, LogOk, LoaderOk, CpuOk, B.PhaseOk, B.Next, SchedOk, Put;
    if step.CpuStep? {
      hide Doomed;
      DoomedCpuStep(cfg, s, c, step.c);
    } else {
      var t := Next(cfg, s, step);
      forall e | 0 <= e < |t.cpus|
        ensures LastQuantum(cfg, t, e)
      {
        assert LastQuantum(cfg, s, e);
      }
    }
  }

  // An idle CPU does not look at `done`: when the processes still on CPUs will finish within their
  // quanta it waits for ever, whatever is scheduled, and so the timer never exits.
  lemma {:induction false} IdleCpuNeverStops(cfg: Config, s: Sys, c: nat, steps: seq<Step>)
    requires ConfigOk(cfg) && Inv(cfg, s) && CanRun(cfg, s, steps) && Doomed(cfg, s, c)
    ensures Inv(cfg, Run(cfg, s, steps)) && Doomed(cfg, Run(cfg, s, steps), c) && !AllStopped(Run(cfg, s, steps))
    decreases |steps|
  {
    if steps == [] {
      assert CpuOk(cfg, s, c);
    } else {
      hide Next, Enabled, LoaderOk, TasksOk, Conserved, LogOk, CpuOk, B.Inv, Doomed;
      NextKeepsInv(cfg, s, steps[0]);
      DoomedStep(cfg, s, c, steps[0]);
      IdleCpuNeverStops(cfg, Next(cfg, s, steps[0]), c, steps[1..]);
    }
  }

  // Such a machine has runs of real steps of every length.
  lemma {:induction false} RunsForEver(cfg: Config, s: Sys, c: nat, n: nat) returns (steps: seq<Step>)
    requires ConfigOk(cfg) && Inv(cfg, s) && Doomed(cfg, s, c)
    ensures |steps| == n && AllReal(steps) && CanRun(cfg, s, steps)
    decreases n
  {
    hide Next, Enabled, LoaderOk, TasksOk, Conserved, LogOk, CpuOk, B.Inv, Doomed, Real;
    if n == 0 {
      steps := [];
    } else {
      IdleCpuNeverStops(cfg, s, c, []);
      var step := SomeStep(cfg, s);
      DoomedPutsNothing(cfg, s, c, step);
      NextKeepsInv(cfg, s, step);
      DoomedStep(cfg, s, c, step);
      var rest := RunsForEver(cfg, Next(cfg, s, step), c, n - 1);
      steps := [step] + rest;
      assert steps[1..] == rest;
    }
  }

  // With no process at all every CPU is in that state from the start.
  lemma IdleFromStart(cfg: Config, c: nat)
    requires ConfigOk(cfg) && |cfg.size| == 0 && c < cfg.ncpu
    ensures Inv(cfg, InitSys(cfg)) && Doomed(cfg, InitSys(cfg), c)
  {
    InitInv(cfg);
  }

  lemma SettledIdleIsDoomed(cfg: Config, s: Sys, c: nat)
    requires Settled(cfg, s) && c < |s.cpus| && Idle(s.cpus[c])
    ensures Doomed(cfg, s, c)
  {
  }

  // ---------- The one way to go on for ever

  lemma {:induction false} RunJoin(cfg: Config, s: Sys, a: seq<Step>, b: seq<Step>)
    requires ConfigOk(cfg) && Inv(cfg, s) && CanRun(cfg, s, a + b)
    ensures CanRun(cfg, s, a) && Inv(cfg, Run(cfg, s, a)) && CanRun(cfg, Run(cfg, s, a), b)
    ensures Run(cfg, s, a + b) == Run(cfg, Run(cfg, s, a), b)
    decreases |a|
  {
    hide Next, Enabled, LoaderOk, TasksOk, Conserved, LogOk, CpuOk, B.Inv, Shape;
    if a == [] {
      assert [] + b == b;
    } else {
      assert (a + b)[1..] == a[1..] + b;
      NextKeepsInv(cfg, s, a[0]);
      RunJoin(cfg, Next(cfg, s, a[0]), a[1..], b);
    }
  }

  // Real steps take time.
  lemma {:induction false} StepsTakeTime(cfg: Config, s: Sys, steps: seq<Step>)
    requires ConfigOk(cfg) && Inv(cfg, s) && CanRun(cfg, s, steps) && AllReal(steps)
    ensures Run(cfg, s, steps).bar.sh.time >= s.bar.sh.time
    ensures |steps| <= SysRank(s) + (Run(cfg, s, steps).bar.sh.time - s.bar.sh.time) * (48 * cfg.ncpu + 67)
    decreases |steps|
  {
    hide Next, Enabled, LoaderOk, TasksOk, Conserved, LogOk, CpuOk, SchedOk, B.PhaseOk, SysRank, Real;
    if steps != [] {
      var t := Next(cfg, s, steps[0]);
      StepUsesRank(cfg, s, steps[0]);
      StepTimes(cfg, s, steps[0]);
      SysRankBound(cfg, t);
      StepsTakeTime(cfg, t, steps[1..]);
      var k, slot := Run(cfg, s, steps).bar.sh.time - t.bar.sh.time, 48 * cfg.ncpu + 67;
      assert (k + 1) * slot == k * slot + slot;
    }
  }

  lemma TimeFromSteps(len: nat, rank: nat, k: nat, st: nat, slot: nat)
    requires len <= rank + k * slot && rank < slot && len >= (st + 1) * slot
    ensures k > st
  {
    assert (st + 1 - k) * slot == (st + 1) * slot - k * slot;
    AtLeastOnce(st + 1 - k, slot);
  }

  lemma AtLeastOnce(a: int, b: nat)
    ensures a >= 1 ==> a * b >= b
  {
  }

  lemma LongEnough(cfg: Config, steps: seq<Step>)
    requires ConfigOk(cfg) && (InitInv(cfg); CanRun(cfg, InitSys(cfg), steps)) && AllReal(steps)
    requires |steps| >= (SettleTime(cfg) + 1) * (48 * cfg.ncpu + 67)
    ensures Inv(cfg, InitSys(cfg)) && Settled(cfg, Run(cfg, InitSys(cfg), steps))
  {
    hide Next, Enabled, LoaderOk, TasksOk, Conserved, LogOk, CpuOk, SchedOk, SysRank, Real, Settled, SettleTime;
    InitInv(cfg);
    var s, slot := InitSys(cfg), 48 * cfg.ncpu + 67;
    SysRankBound(cfg, s);
    StepsTakeTime(cfg, s, steps);
    EveryRunSettles(cfg, steps);
    TimeFromSteps(|steps|, SysRank(s), Run(cfg, s, steps).bar.sh.time, SettleTime(cfg), slot);
  }

  // From a settled state, a run this long has an idle CPU.
  lemma LongRunHasIdle(cfg: Config, s: Sys, steps: seq<Step>)
    requires ConfigOk(cfg) && Inv(cfg, s) && Settled(cfg, s) && CanRun(cfg, s, steps) && AllReal(steps)
    requires |steps| >= 3 * (48 * cfg.ncpu + 67)
    ensures var t := Run(cfg, s, steps);
            Inv(cfg, t) && Settled(cfg, t) && SomeIdle(t) && t.finished == LoadedTasks(cfg, |cfg.prio|)
  {
    hide LoaderOk, TasksOk, Conserved, LogOk, CpuOk, SchedOk, B.Inv, EndRank, Real, Settled, CanRun, Run;
    SettledRun(cfg, s, steps);
    if !SomeIdle(s) {
      WindingStops(cfg, s, steps);
    }
    IdleMeansFinished(cfg, Run(cfg, s, steps));
  }

  // Any run of real steps from the start that is this long ends settled with an idle CPU, every process
  // finished: a machine that goes on for ever does so in this way and in no other.
  lemma LongRunsIdle(cfg: Config, steps: seq<Step>)
    requires ConfigOk(cfg) && (InitInv(cfg); CanRun(cfg, InitSys(cfg), steps)) && AllReal(steps)
    requires |steps| >= (SettleTime(cfg) + 4) * (48 * cfg.ncpu + 67)
    ensures Inv(cfg, InitSys(cfg))
    ensures var t := Run(cfg, InitSys(cfg), steps);
            Inv(cfg, t) && Settled(cfg, t) && SomeIdle(t) && t.finished == LoadedTasks(cfg, |cfg.prio|)
  {
    hide LoaderOk, TasksOk, Conserved, LogOk, CpuOk, Shape, Real, Settled, SettleTime, InitSys;
    hide CanRun, Run, SomeIdle, LoadedTasks;
    InitInv(cfg);
    var slot := 48 * cfg.ncpu + 67;
    var n := (SettleTime(cfg) + 1) * slot;
    assert (SettleTime(cfg) + 4) * slot == n + 3 * slot;
    var first, rest := steps[..n], steps[n..];
    assert steps == first + rest;
    RunJoin(cfg, InitSys(cfg), first, rest);
    LongEnough(cfg, first);
    LongRunHasIdle(cfg, Run(cfg, InitSys(cfg), first), rest);
  }

  ghost predicate Bounded(cfg: Config, s: Sys, n: nat)
    requires ConfigOk(cfg) && Inv(cfg, s)
  {
    forall steps :: CanRun(cfg, s, steps) && AllReal(steps) ==> |steps| <= n
  }

  // A settled machine comes to a stop if and only if no CPU is idle.
  lemma MachineStopsExactly(cfg: Config, s: Sys)
    requires ConfigOk(cfg) && Inv(cfg, s) && Settled(cfg, s)
    ensures (exists n: nat :: Bounded(cfg, s, n)) <==> !SomeIdle(s)
  {
    hide Inv, Settled, Next, Enabled, Real, EndRank;
    if SomeIdle(s) {
      var c :| 0 <= c < |s.cpus| && Idle(s.cpus[c]);
      SettledIdleIsDoomed(cfg, s, c);
      forall n: nat
        ensures !Bounded(cfg, s, n)
      {
        var steps := RunsForEver(cfg, s, c, n + 1);
      }
    } else {
      forall steps | CanRun(cfg, s, steps) && AllReal(steps)
        ensures |steps| <= 3 * (48 * cfg.ncpu + 67)
      {
        WindingStops(cfg, s, steps);
      }
      assert Bounded(cfg, s, 3 * (48 * cfg.ncpu + 67));
    }
  }

  // ---------- Stopping with work left

  // A CPU that has just put a process back, and goes on undisturbed, stops if and only if the loader is
  // done and every level with a process has spent its budget. The processes stay where they are.
  lemma StopsAfterPutExactly(cfg: Config, s: Sys, c: nat)
    requires ConfigOk(cfg) && Inv(cfg, s) && Enabled(cfg, s, CpuStep(c)) && s.cpus[c].pc == AfterPut
    ensures var t := Next(cfg, s, CpuStep(c));
            && Inv(cfg, t) && Enabled(cfg, t, CpuStep(c))
            && var u := Next(cfg, t, CpuStep(c));
               && c < |u.cpus|
               && (u.cpus[c].pc == Stopping <==>
                     s.done && forall p :: 0 <= p < MAX_PRIO && s.sched.queues[p] != [] ==> s.sched.slot[p] == 0)
               && (u.cpus[c].pc == Stopping ==> u.sched.queues == s.sched.queues)
  {
    hide Conserved, LogOk, LoaderOk, TasksOk, SchedOk, B.PhaseOk, B.Next;
    NextKeepsInv(cfg, s, CpuStep(c));
    GetNothingExactly(s.sched);
    hide TasksOk, Conserved, LogOk, LoaderOk, B.PhaseOk, B.Next, Get, SchedOk;
    HeldIsLoaded(cfg, Next(cfg, s, CpuStep(c)), c);
  }
}
