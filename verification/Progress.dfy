/** Progress of the composed machine: some thread can always step until everyone is gone, and every
    slot ends. */
module Progress {
  import opened ReadyQueue
  import opened Sched
  import opened Os
  import opened OsProofs
  import B = Barrier

  predicate Real(step: Step) { step.BarrierStep? ==> B.Real(step.b) }

  // At most ten configured processes share each priority.
  predicate RoomForAll(cfg: Config) {
    forall p :: 0 <= p < MAX_PRIO ==> CountAt(cfg, |cfg.prio|, p) <= MAX_QUEUE_SIZE
  }

  ghost predicate AllStopped(s: Sys) { B.AllGone(s.bar) && s.bar.tpc == B.Exited }

  // Someone always has a step to take; all it may lack is room on the queue it puts a process on.
  lemma SomeStep(cfg: Config, s: Sys) returns (step: Step)
    requires ConfigOk(cfg) && Inv(cfg, s) && !AllStopped(s)
    ensures Real(step)
    ensures PutBy(cfg, s, step) == None
            || (PutBy(cfg, s, step).value.prio < MAX_PRIO
                && |s.sched.queues[PutBy(cfg, s, step).value.prio]| < MAX_QUEUE_SIZE)
            ==> Enabled(cfg, s, step)
  {
    var b := B.NoDeadlock(s.bar);
    if b.Arrive? || b.Detach? {
      step := if b.d == cfg.ncpu then LoaderStep else CpuStep(b.d);
    } else {
      step := BarrierStep(b);
    }
  }

  // No deadlock: some thread can take a step, without help from a spurious wakeup, until every CPU and
  // the loader have stopped and the timer has exited.
  lemma NoDeadlock(cfg: Config, s: Sys) returns (step: Step)
    requires ConfigOk(cfg) && Inv(cfg, s) && RoomForAll(cfg) && !AllStopped(s)
    ensures Real(step) && Enabled(cfg, s, step)
  {
    step := SomeStep(cfg, s);
    if PutBy(cfg, s, step).Some? {
      PutFindsRoom(cfg, s, step);
    }
  }

  // ---------- Every slot ends

  function CpuRank(pc: CpuPc): nat {
    match pc
    case Top => 4
    case AfterPut => 3
    case Recheck => 2
    case CallSlot => 1
    case Stopping => 1
    case Stopped => 0
  }

  function LoaderRank(pc: LdPc): nat {
    match pc
    case LdTop => 2
    case LdSlot => 1
    case LdStopping => 1
    case LdStopped => 0
  }

  function CpuRanks(cpus: seq<Cpu>): seq<nat> { seq(|cpus|, c requires 0 <= c < |cpus| => CpuRank(cpus[c].pc)) }

  // How many more steps of any thread the current slot can take.
  function SysRank(s: Sys): nat
    requires |s.bar.sh.done| == |s.bar.sh.asleep| == |s.bar.pc|
  {
    4 * B.Rank(s.bar) + B.Sum(CpuRanks(s.cpus)) + LoaderRank(s.ldPc)
  }

  lemma SysRankBound(cfg: Config, s: Sys)
    requires ConfigOk(cfg) && Inv(cfg, s)
    ensures SysRank(s) <= 48 * cfg.ncpu + 66
  {
    B.RankBound(s.bar);
    B.SumBound(CpuRanks(s.cpus), 4);
  }

  lemma OneCpuRank(cpus: seq<Cpu>, c: nat, cpu: Cpu)
    requires c < |cpus|
    ensures B.Sum(CpuRanks(cpus[c := cpu])) + CpuRank(cpus[c].pc) == B.Sum(CpuRanks(cpus)) + CpuRank(cpu.pc)
  {
    assert CpuRanks(cpus[c := cpu]) == CpuRanks(cpus)[c := CpuRank(cpu.pc)];
    B.SumUpdate(CpuRanks(cpus), c, CpuRank(cpu.pc));
  }

  lemma TopShape(cfg: Config, s: Sys, c: nat, now: nat)
    requires |s.sched.queues| == |s.sched.slot| == MAX_PRIO && c < |s.cpus| && s.cpus[c].pc == Top
    requires s.cpus[c].proc.Some? ==>
               s.cpus[c].proc.value.pid < |s.procs| <= |cfg.size| && s.cpus[c].proc.value.prio < MAX_PRIO
    ensures var t := CpuTop(cfg, s, c, now);
            && |t.cpus| == |s.cpus| && t.cpus == s.cpus[c := t.cpus[c]]
            && t.ldPc == s.ldPc && t.bar == s.bar && CpuRank(t.cpus[c].pc) < CpuRank(Top)
  {
    hide Get, Put;
  }

  // A CPU's step changes its own entry, and the barrier only through its own device.
  lemma CpuStepShape(cfg: Config, s: Sys, c: nat)
    requires ConfigOk(cfg) && Inv(cfg, s) && Enabled(cfg, s, CpuStep(c))
    ensures var t := Next(cfg, s, CpuStep(c));
            && c < |s.cpus| == |t.cpus| && t.cpus == s.cpus[c := t.cpus[c]] && t.ldPc == s.ldPc
            && (s.cpus[c].pc != CallSlot && s.cpus[c].pc != Stopping ==>
                  t.bar == s.bar && CpuRank(t.cpus[c].pc) < CpuRank(s.cpus[c].pc))
            && (s.cpus[c].pc == CallSlot ==> t.bar == B.Next(s.bar, B.Arrive(c)) && t.cpus[c].pc == Top)
            && (s.cpus[c].pc == Stopping ==> t.bar == B.Next(s.bar, B.Detach(c)) && t.cpus[c].pc == Stopped)
  {
    hide TasksOk, Conserved, LogOk, LoaderOk, CpuOk, B.Inv, B.Next, SchedOk, Get, Put;
    CpuAtWork(cfg, s, c);
    if s.cpus[c].pc == Top {
      TopShape(cfg, s, c, s.bar.sh.time);
      hide CpuTop;
    }
  }

  lemma CpuAtWork(cfg: Config, s: Sys, c: nat)
    requires ConfigOk(cfg) && Inv(cfg, s) && c < cfg.ncpu && s.bar.pc[c] == B.Work
    ensures |s.sched.queues| == |s.sched.slot| == MAX_PRIO && s.cpus[c].pc != Stopped
    ensures s.cpus[c].proc.Some? ==>
              s.cpus[c].proc.value.pid < |s.procs| <= |cfg.size| && s.cpus[c].proc.value.prio < MAX_PRIO
  {
    hide TasksOk, Conserved, LogOk, LoaderOk, B.PhaseOk;
    HeldIsLoaded(cfg, s, c);
    assert CpuOk(cfg, s, c);
  }

  lemma CpuUsesRank(cfg: Config, s: Sys, c: nat)
    requires ConfigOk(cfg) && Inv(cfg, s) && Enabled(cfg, s, CpuStep(c))
    requires Inv(cfg, Next(cfg, s, CpuStep(c)))
    ensures SysRank(Next(cfg, s, CpuStep(c))) < SysRank(s)
    ensures Next(cfg, s, CpuStep(c)).bar.sh.time == s.bar.sh.time
  {
    hide TasksOk, Conserved, LogOk, LoaderOk, CpuOk, Next, B.Next, B.Rank, B.Inv, SchedOk, B.Sum, CpuRanks;
    var t := Next(cfg, s, CpuStep(c));
    CpuStepShape(cfg, s, c);
    OneCpuRank(s.cpus, c, t.cpus[c]);
    if s.cpus[c].pc == CallSlot {
      B.StepUsesRank(s.bar, B.Arrive(c));
      B.StepTime(s.bar, B.Arrive(c));
    } else if s.cpus[c].pc == Stopping {
      B.StepUsesRank(s.bar, B.Detach(c));
      B.StepTime(s.bar, B.Detach(c));
    }
  }

  lemma LoaderUsesRank(cfg: Config, s: Sys)
    requires ConfigOk(cfg) && Inv(cfg, s) && Enabled(cfg, s, LoaderStep)
    requires Inv(cfg, Next(cfg, s, LoaderStep))
    ensures SysRank(Next(cfg, s, LoaderStep)) < SysRank(s)
    ensures Next(cfg, s, LoaderStep).bar.sh.time == s.bar.sh.time
  {
    hide TasksOk, Conserved, LogOk, CpuOk, B.Next, B.Rank, B.Inv, SchedOk, B.Sum, CpuRanks, Put;
    if s.ldPc == LdSlot {
      B.StepUsesRank(s.bar, B.Arrive(cfg.ncpu));
      B.StepTime(s.bar, B.Arrive(cfg.ncpu));
    } else if s.ldPc == LdStopping {
      B.StepUsesRank(s.bar, B.Detach(cfg.ncpu));
      B.StepTime(s.bar, B.Detach(cfg.ncpu));
    }
  }

  // Every real step but the tick itself uses up some rank; only the tick changes the time.
  lemma StepUsesRank(cfg: Config, s: Sys, step: Step)
    requires ConfigOk(cfg) && Inv(cfg, s) && Enabled(cfg, s, step) && Real(step)
    ensures var t := Next(cfg, s, step);
            && Inv(cfg, t) && s.bar.sh.time <= t.bar.sh.time
            && (t.bar.sh.time == s.bar.sh.time ==> SysRank(t) < SysRank(s))
  {
    NextKeepsInv(cfg, s, step);
    hide Conserved, TasksOk, LogOk, LoaderOk, CpuOk, B.Next, B.Rank, B.Inv, B.Sum, CpuRanks;
    match step
    case CpuStep(c) => CpuUsesRank(cfg, s, c);
    case LoaderStep => LoaderUsesRank(cfg, s);
    case BarrierStep(b) =>
      B.StepTime(s.bar, b);
      if !(b == B.TimerStep && s.bar.tpc == B.Tick) {
        B.StepUsesRank(s.bar, b);
      }
  }

  // A slot ends within 48n + 66 steps of CPUs, loader and timer together: no run of real steps is
  // longer than that without the time moving on.
  lemma {:induction false} SlotEnds(cfg: Config, s: Sys, steps: seq<Step>)
    requires ConfigOk(cfg) && Inv(cfg, s) && CanRun(cfg, s, steps)
    requires forall i :: 0 <= i < |steps| ==> Real(steps[i])
    requires Run(cfg, s, steps).bar.sh.time == s.bar.sh.time
    ensures |steps| <= SysRank(s) <= 48 * cfg.ncpu + 66
    decreases |steps|
  {
    hide Inv, Next, Enabled, SysRank, Real;
    SysRankBound(cfg, s);
    if steps != [] {
      StepUsesRank(cfg, s, steps[0]);
      RealRunTime(cfg, Next(cfg, s, steps[0]), steps[1..]);
      SlotEnds(cfg, Next(cfg, s, steps[0]), steps[1..]);
    }
  }

  lemma {:induction false} RealRunTime(cfg: Config, s: Sys, steps: seq<Step>)
    requires ConfigOk(cfg) && Inv(cfg, s) && CanRun(cfg, s, steps)
    requires forall i :: 0 <= i < |steps| ==> Real(steps[i])
    ensures Run(cfg, s, steps).bar.sh.time >= s.bar.sh.time
    decreases |steps|
  {
    hide Inv, Next, Enabled, SysRank, Real;
    if steps != [] {
      StepUsesRank(cfg, s, steps[0]);
      RealRunTime(cfg, Next(cfg, s, steps[0]), steps[1..]);
    }
  }
}
