/** No CPU wastes a slot: whenever it looks for a process and some level has one and budget for it, it
    takes it and runs it in the same slot. */
module WorkConserving {
  import opened ReadyQueue
  import opened Sched
  import opened Os
  import opened OsProofs
  import B = Barrier

  // Level p has a process and budget for it, and no level before it has.
  predicate IsNext(q: SchedState, p: nat)
    requires |q.queues| == |q.slot| == MAX_PRIO
  {
    && p < MAX_PRIO && q.queues[p] != [] && q.slot[p] > 0
    && forall r :: 0 <= r < p ==> q.queues[r] == [] || q.slot[r] <= 0
  }

  predicate NoneToTake(q: SchedState)
    requires |q.queues| == |q.slot| == MAX_PRIO
  {
    forall p :: 0 <= p < MAX_PRIO ==> q.queues[p] == [] || q.slot[p] <= 0
  }

  // CPU c is about to look for a process: it has none, or has just put one back, or holds a finished one.
  predicate Looking(cfg: Config, s: Sys, c: nat) {
    c < |s.cpus| &&
    (s.cpus[c].pc == AfterPut
     || (s.cpus[c].pc == Top
         && match s.cpus[c].proc
            case None => true
            case Some(x) => x.pid < |s.procs| <= |cfg.size| && s.procs[x.pid].pc == cfg.size[x.pid]))
  }

  lemma NextIsFirst(q: SchedState, p: nat)
    requires SchedOk(q) && IsNext(q, p)
    ensures FirstReady(q, 0) == p
  {
    assert Ready(q, p);
  }

  lemma GetTakesNext(q: SchedState, p: nat)
    requires SchedOk(q) && IsNext(q, p)
    ensures Get(q) == (SchedState(q.queues[p := q.queues[p][1..]], q.slot[p := q.slot[p] - 1]), Some(q.queues[p][0]))
  {
    NextIsFirst(q, p);
    GetDispatches(q);
  }

  lemma GetTakesNone(q: SchedState)
    requires SchedOk(q) && NoneToTake(q)
    ensures Get(q).1 == None && Get(q).0.queues == q.queues
    ensures AllEmpty(q) ==> Get(q).0 == q
    ensures !AllEmpty(q) ==>
              |Get(q).0.slot| == MAX_PRIO && forall p :: 0 <= p < MAX_PRIO ==> Get(q).0.slot[p] == MAX_PRIO - p
  {
    GetNothingExactly(q);
  }

  lemma NoneOrNext(q: SchedState)
    requires SchedOk(q) && !NoneToTake(q)
    ensures IsNext(q, FirstReady(q, 0))
  {
    var p :| 0 <= p < MAX_PRIO && q.queues[p] != [] && q.slot[p] > 0;
    assert Ready(q, p);
    forall r | 0 <= r < FirstReady(q, 0)
      ensures q.queues[r] == [] || q.slot[r] <= 0
    {
      assert !Ready(q, r);
    }
  }

  // What a look does, done or not: the CPU comes out holding the oldest process of the least level that has
  // one and budget for it, at the cost of one unit, whenever there is such a level; only else with nothing.
  lemma TakesTheNext(cfg: Config, s: Sys, c: nat)
    requires ConfigOk(cfg) && Inv(cfg, s) && Enabled(cfg, s, CpuStep(c)) && Looking(cfg, s, c)
    ensures |s.sched.queues| == |s.sched.slot| == MAX_PRIO
    ensures var t := Next(cfg, s, CpuStep(c));
            && |t.cpus| == |s.cpus|
            && (forall p :: 0 <= p < MAX_PRIO && IsNext(s.sched, p) ==>
                  && t.cpus[c].proc == Some(s.sched.queues[p][0]) && t.cpus[c].pc == Recheck && t.cpus[c].timeLeft == 0
                  && t.sched.queues == s.sched.queues[p := s.sched.queues[p][1..]]
                  && t.sched.slot == s.sched.slot[p := s.sched.slot[p] - 1])
            && (NoneToTake(s.sched) ==> t.cpus[c].proc == None && t.sched.queues == s.sched.queues)
            && (NoneToTake(s.sched) && AllEmpty(s.sched) ==> t.sched == s.sched)
            && (NoneToTake(s.sched) && !AllEmpty(s.sched) ==>
                  |t.sched.slot| == MAX_PRIO && forall p :: 0 <= p < MAX_PRIO ==> t.sched.slot[p] == 140 - p)
  {
    SizesOk(s.sched);
    forall p | 0 <= p < MAX_PRIO && IsNext(s.sched, p)
      ensures Get(s.sched) ==
              (SchedState(s.sched.queues[p := s.sched.queues[p][1..]], s.sched.slot[p := s.sched.slot[p] - 1]),
               Some(s.sched.queues[p][0]))
    {
      GetTakesNext(s.sched, p);
    }
    if NoneToTake(s.sched) {
      GetTakesNone(s.sched);
    }
    hide TasksOk, Conserved, LogOk, LoaderOk, B.PhaseOk, B.Next, Get, Put, IsNext, NoneToTake, AllEmpty, SchedOk;
    HeldIsLoaded(cfg, s, c);
    assert CpuOk(cfg, s, c);
  }

  lemma SizesOk(q: SchedState)
    requires SchedOk(q)
    ensures |q.queues| == |q.slot| == MAX_PRIO
  {
  }

  // ---------- Over runs

  // The slots in which a CPU looked for a process and there was none to take.
  ghost function Missed(cfg: Config, s: Sys, step: Step): set<(nat, nat)>
    requires ConfigOk(cfg) && Inv(cfg, s) && Enabled(cfg, s, step)
  {
    if step.CpuStep? && Looking(cfg, s, step.c) && NoneToTake(s.sched) then {(step.c, s.bar.slots[step.c])} else {}
  }

  ghost function Misses(cfg: Config, s: Sys, steps: seq<Step>): set<(nat, nat)>
    requires ConfigOk(cfg) && Inv(cfg, s) && CanRun(cfg, s, steps)
    decreases |steps|
  {
    if steps == [] then {}
    else
      NextKeepsInv(cfg, s, steps[0]);
      Missed(cfg, s, steps[0]) + Misses(cfg, Next(cfg, s, steps[0]), steps[1..])
  }

  // CPU c executed an instruction in slot k.
  ghost predicate Ran(log: seq<Exec>, c: nat, k: nat) {
    exists i :: 0 <= i < |log| && log[i].cpu == c && log[i].slot == k
  }

  ghost predicate Explained(s: Sys, misses: set<(nat, nat)>, c: nat, k: nat) { Ran(s.log, c, k) || (c, k) in misses }

  // Every slot a CPU has ended is explained, and so is the present one once it has nothing more to do in it.
  ghost predicate Conserving(s: Sys, misses: set<(nat, nat)>)
    requires |s.cpus| <= |s.bar.slots|
  {
    && (forall c: nat, k: nat :: c < |s.cpus| && k < s.bar.slots[c] ==> Explained(s, misses, c, k))
    && (forall c: nat :: c < |s.cpus| && s.cpus[c].pc == CallSlot ==> Explained(s, misses, c, s.bar.slots[c]))
    && (forall c: nat :: c < |s.cpus| && s.cpus[c].pc == Recheck && s.cpus[c].proc == None ==>
          (c, s.bar.slots[c]) in misses)
  }

  lemma RanStays(log: seq<Exec>, more: seq<Exec>, c: nat, k: nat)
    ensures Ran(log, c, k) ==> Ran(log + more, c, k)
  {
    if Ran(log, c, k) {
      var i :| 0 <= i < |log| && log[i].cpu == c && log[i].slot == k;
      assert (log + more)[i] == log[i];
    }
  }

  // A step that ends no slot and executes nothing.
  lemma MoveConserving(s: Sys, t: Sys, c: nat, misses: set<(nat, nat)>, more: set<(nat, nat)>)
    requires |s.cpus| == |t.cpus| <= |s.bar.slots| && |t.cpus| <= |t.bar.slots| && Conserving(s, misses)
    requires t.log == s.log && misses <= more
    requires forall d :: 0 <= d < |s.cpus| ==> t.bar.slots[d] == s.bar.slots[d]
    requires forall d :: 0 <= d < |s.cpus| && d != c ==> t.cpus[d] == s.cpus[d]
    requires c < |s.cpus| && t.cpus[c].pc == CallSlot ==> Explained(t, more, c, t.bar.slots[c])
    requires c < |s.cpus| && t.cpus[c].pc == Recheck && t.cpus[c].proc == None ==> (c, t.bar.slots[c]) in more
    ensures Conserving(t, more)
  {
    hide Ran;
    forall d: nat | d < |s.cpus|
      ensures t.bar.slots[d] == s.bar.slots[d] && (d != c ==> t.cpus[d] == s.cpus[d])
      ensures forall k: nat :: Explained(s, misses, d, k) ==> Explained(t, more, d, k)
    {
    }
    hide Explained;
  }

  lemma RunConserving(cfg: Config, s: Sys, c: nat, misses: set<(nat, nat)>)
    requires c < |s.cpus| <= |s.bar.slots| && Conserving(s, misses) && s.cpus[c].proc.Some?
    requires s.cpus[c].proc.value.pid < |s.procs| <= |cfg.size|
    ensures Conserving(CpuRecheck(cfg, s, c, s.bar.slots[c]), misses)
  {
    var t := CpuRecheck(cfg, s, c, s.bar.slots[c]);
    var exec := [Exec(c, s.cpus[c].proc.value.pid, s.bar.slots[c])];
    assert t.log == s.log + exec && t.log[|s.log|] == exec[0];
    assert Ran(t.log, c, s.bar.slots[c]);
    forall d: nat, k: nat | Explained(s, misses, d, k)
      ensures Explained(t, misses, d, k)
    {
      RanStays(s.log, exec, d, k);
    }
    hide Ran, Explained;
  }

  lemma ArriveConserving(s: Sys, t: Sys, c: nat, misses: set<(nat, nat)>)
    requires c < |s.cpus| == |t.cpus| <= |s.bar.slots| && |t.cpus| <= |t.bar.slots| && Conserving(s, misses)
    requires s.cpus[c].pc == CallSlot && t.cpus[c].pc == Top && t.log == s.log
    requires forall d :: 0 <= d < |s.cpus| && d != c ==> t.bar.slots[d] == s.bar.slots[d] && t.cpus[d] == s.cpus[d]
    requires t.bar.slots[c] == s.bar.slots[c] + 1
    ensures Conserving(t, misses)
  {
    hide Ran;
    forall d: nat | d < |s.cpus|
      ensures d != c ==> t.bar.slots[d] == s.bar.slots[d] && t.cpus[d] == s.cpus[d]
      ensures forall k: nat :: Explained(s, misses, d, k) ==> Explained(t, misses, d, k)
    {
    }
    hide Explained;
  }

  lemma LookConserving(cfg: Config, s: Sys, c: nat, misses: set<(nat, nat)>)
    requires ConfigOk(cfg) && Inv(cfg, s) && Enabled(cfg, s, CpuStep(c)) && Conserving(s, misses) && Looking(cfg, s, c)
    ensures Conserving(Next(cfg, s, CpuStep(c)), misses + Missed(cfg, s, CpuStep(c)))
  {
    var t, more := Next(cfg, s, CpuStep(c)), misses + Missed(cfg, s, CpuStep(c));
    TakesTheNext(cfg, s, c);
    if !NoneToTake(s.sched) {
      NoneOrNext(s.sched);
    }
    LookMoves(cfg, s, c);
    hide Next, Inv, IsNext, NoneToTake, AllEmpty, Conserving, Ran;
    MoveConserving(s, t, c, misses, more);
  }

  // A look moves the CPU only.
  lemma LookMoves(cfg: Config, s: Sys, c: nat)
    requires ConfigOk(cfg) && Inv(cfg, s) && Enabled(cfg, s, CpuStep(c)) && Looking(cfg, s, c)
    ensures var t := Next(cfg, s, CpuStep(c));
            && t.bar == s.bar && t.log == s.log && |t.cpus| == |s.cpus| <= |s.bar.slots|
            && t.cpus == s.cpus[c := t.cpus[c]] && (t.cpus[c].pc == Recheck || t.cpus[c].pc == CallSlot)
            && (t.cpus[c].pc == CallSlot ==> t.cpus[c].proc == None)
  {
    hide TasksOk, Conserved, LogOk, LoaderOk, B.PhaseOk, B.Next, Get, Put;
    HeldIsLoaded(cfg, s, c);
    assert CpuOk(cfg, s, c);
  }

  lemma MoreMisses(s: Sys, misses: set<(nat, nat)>, more: set<(nat, nat)>)
    requires |s.cpus| <= |s.bar.slots| && Conserving(s, misses) && misses <= more
    ensures Conserving(s, more)
  {
    hide Ran;
    forall c: nat, k: nat | Explained(s, misses, c, k)
      ensures Explained(s, more, c, k)
    {
    }
    hide Explained;
  }

  // The turns of a CPU that is not looking.
  lemma BusyConserving(cfg: Config, s: Sys, c: nat, misses: set<(nat, nat)>)
    requires ConfigOk(cfg) && Inv(cfg, s) && Enabled(cfg, s, CpuStep(c)) && Conserving(s, misses) && !Looking(cfg, s, c)
    ensures var t := Next(cfg, s, CpuStep(c)); |t.cpus| <= |t.bar.slots| && Conserving(t, misses)
  {
    hide TasksOk, Conserved, LogOk, LoaderOk, B.PhaseOk, B.Next, Get, Put, Conserving;
    var t := Next(cfg, s, CpuStep(c));
    HeldIsLoaded(cfg, s, c);
    assert CpuOk(cfg, s, c);
    B.TimeIsExact(s.bar, c);
    ArriveFacts(s.bar, c);
    if s.cpus[c].pc == Recheck && s.cpus[c].proc.Some? {
      RunConserving(cfg, s, c, misses);
    } else if s.cpus[c].pc == CallSlot {
      ArriveConserving(s, t, c, misses);
    } else {
      MissedAlready(s, c, misses);
      MoveConserving(s, t, c, misses, misses);
    }
  }

  lemma MissedAlready(s: Sys, c: nat, misses: set<(nat, nat)>)
    requires c < |s.cpus| <= |s.bar.slots| && Conserving(s, misses)
    ensures s.cpus[c].pc == Recheck && s.cpus[c].proc == None ==> (c, s.bar.slots[c]) in misses
  {
  }

  lemma StepConserving(cfg: Config, s: Sys, step: Step, misses: set<(nat, nat)>)
    requires ConfigOk(cfg) && Inv(cfg, s) && Enabled(cfg, s, step) && Conserving(s, misses)
    ensures var t := Next(cfg, s, step);
            |t.cpus| <= |t.bar.slots| && Conserving(t, misses + Missed(cfg, s, step))
  {
    hide TasksOk, Conserved, LogOk, LoaderOk, CpuOk, B.PhaseOk, B.Next, Get, Put, Conserving, Looking, NoneToTake;
    var t := Next(cfg, s, step);
    if step.CpuStep? {
      if Looking(cfg, s, step.c) {
        LookMoves(cfg, s, step.c);
        LookConserving(cfg, s, step.c, misses);
      } else {
        BusyConserving(cfg, s, step.c, misses);
        MoreMisses(t, misses, misses + Missed(cfg, s, step));
      }
    } else {
      if step.LoaderStep? {
        ArriveFacts(s.bar, cfg.ncpu);
      } else {
        BarrierFacts(s.bar, step.b);
      }
      MoveConserving(s, t, |s.cpus|, misses, misses + Missed(cfg, s, step));
    }
  }

  lemma {:induction false} RunKeepsConserving(cfg: Config, s: Sys, steps: seq<Step>, misses: set<(nat, nat)>)
    requires ConfigOk(cfg) && Inv(cfg, s) && CanRun(cfg, s, steps) && Conserving(s, misses)
    ensures var t := Run(cfg, s, steps);
            |t.cpus| <= |t.bar.slots| && Conserving(t, misses + Misses(cfg, s, steps))
    decreases |steps|
  {
    hide Next, Enabled, LoaderOk, TasksOk, Conserved, LogOk, CpuOk, SchedOk, B.PhaseOk, Conserving, Missed;
    if steps == [] {
      assert misses + {} == misses;
    } else {
      var t, more := Next(cfg, s, steps[0]), misses + Missed(cfg, s, steps[0]);
      NextKeepsInv(cfg, s, steps[0]);
      StepConserving(cfg, s, steps[0], misses);
      RunKeepsConserving(cfg, t, steps[1..], more);
      assert more + Misses(cfg, t, steps[1..]) == misses + Misses(cfg, s, steps);
    }
  }

  // In every run from the start, every slot a CPU has ended is one in which it executed an instruction, or
  // one in which it looked for a process and no level had both a process and budget.
  lemma NoSlotWasted(cfg: Config, steps: seq<Step>)
    requires ConfigOk(cfg) && (InitInv(cfg); CanRun(cfg, InitSys(cfg), steps))
    ensures Inv(cfg, InitSys(cfg))
    ensures var t := Run(cfg, InitSys(cfg), steps);
            && Inv(cfg, t) && |t.bar.slots| == cfg.ncpu + 1
            && forall c: nat, k: nat :: c < cfg.ncpu && k < t.bar.slots[c] ==>
                 Ran(t.log, c, k) || (c, k) in Misses(cfg, InitSys(cfg), steps)
  {
    InitInv(cfg);
    StartConserving(cfg);
    hide LoaderOk, TasksOk, Conserved, LogOk, CpuOk, SchedOk, B.PhaseOk, B.DeviceOk, Enabled;
    hide Conserving, Misses, Run, CanRun, InitSys;
    AllStepsKeepInv(cfg, InitSys(cfg), steps);
    RunKeepsConserving(cfg, InitSys(cfg), steps, {});
    assert {} + Misses(cfg, InitSys(cfg), steps) == Misses(cfg, InitSys(cfg), steps);
    AllExplained(Run(cfg, InitSys(cfg), steps), Misses(cfg, InitSys(cfg), steps));
    hide Ran;
  }

  lemma StartConserving(cfg: Config)
    ensures |InitSys(cfg).cpus| <= |InitSys(cfg).bar.slots| && Conserving(InitSys(cfg), {})
  {
  }

  lemma AllExplained(s: Sys, misses: set<(nat, nat)>)
    requires |s.cpus| <= |s.bar.slots| && Conserving(s, misses)
    ensures forall c: nat, k: nat :: c < |s.cpus| && k < s.bar.slots[c] ==> Ran(s.log, c, k) || (c, k) in misses
  {
    hide Ran;
    forall c: nat, k: nat | c < |s.cpus| && k < s.bar.slots[c]
      ensures Ran(s.log, c, k) || (c, k) in misses
    {
      assert Explained(s, misses, c, k);
    }
  }
}
