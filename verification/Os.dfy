/** The CPU threads and the loader thread of src/os.c on top of the scheduler and the barrier, as one
    interleaved machine. A CPU or the loader moves only while its barrier device is at work. */
module Os {
  import opened ReadyQueue
  import opened Sched
  import opened Parts
  import B = Barrier
  import Word

  // What read_config and the process files give: process i starts at start[i], has priority prio[i]
  // and size[i] instructions.
  datatype Config = Config(ncpu: nat, timeSlot: nat, start: seq<nat>, prio: seq<nat>, size: seq<nat>)

  predicate ConfigOk(cfg: Config) {
    && cfg.timeSlot >= 1
    && |cfg.start| == |cfg.prio| == |cfg.size|
    && forall i :: 0 <= i < |cfg.prio| ==> cfg.prio[i] < MAX_PRIO
  }

  // Where cpu_routine is: at the head of its loop, between put_proc and get_proc, about to recheck
  // the process it holds, about to call next_slot, about to detach, or gone.
  datatype CpuPc = Top | AfterPut | Recheck | CallSlot | Stopping | Stopped

  // `lastRun` is the slot of the last instruction this CPU executed, or -1.
  datatype Cpu = Cpu(pc: CpuPc, proc: Option<Task>, timeLeft: int, lastRun: int)

  datatype LdPc = LdTop | LdSlot | LdStopping | LdStopped

  // A loaded process: its program counter, how often it was dispatched and run, the slot of its last
  // instruction, when it was loaded and when it finished.
  datatype Info = Info(pc: nat, dispatched: nat, runs: nat, lastRun: int, loadTime: nat, finish: Option<nat>)

  datatype Exec = Exec(cpu: nat, pid: nat, slot: nat)

  datatype Sys = Sys(sched: SchedState, cpus: seq<Cpu>, ldPc: LdPc, done: bool, bar: B.State,
                     procs: seq<Info>, finished: multiset<Task>, log: seq<Exec>)

  datatype Step = CpuStep(c: nat) | LoaderStep | BarrierStep(b: B.Step)

  function TaskOf(cfg: Config, i: nat): Task
    requires i < |cfg.prio|
  {
    Task(i, cfg.prio[i])
  }

  function InitSys(cfg: Config): Sys {
    Sys(InitSched(), seq(cfg.ncpu, c => Cpu(Top, None, 0, -1)), LdTop, false, B.Init(cfg.ncpu + 1), [], multiset{}, [])
  }

  // ---------- Steps

  ghost predicate Shape(cfg: Config, s: Sys) {
    && |s.cpus| == cfg.ncpu && |s.bar.pc| == cfg.ncpu + 1
    && B.Inv(s.bar) && SchedOk(s.sched)
    && |s.procs| <= |cfg.size|
  }

  function GetNext(s: Sys, c: nat): Sys
    requires |s.sched.queues| == |s.sched.slot| == MAX_PRIO && c < |s.cpus|
  {
    var (sched, r) := Get(s.sched);
    s.(sched := sched, cpus := s.cpus[c := s.cpus[c].(pc := Recheck, proc := r, timeLeft := 0)])
  }

  // The head of the loop of cpu_routine.
  function CpuTop(cfg: Config, s: Sys, c: nat, now: nat): Sys
    requires |s.sched.queues| == |s.sched.slot| == MAX_PRIO && c < |s.cpus|
    requires s.cpus[c].proc.Some? ==>
               s.cpus[c].proc.value.pid < |s.procs| <= |cfg.size| && s.cpus[c].proc.value.prio < MAX_PRIO
  {
    var cpu := s.cpus[c];
    match cpu.proc
    case None =>
      var (sched, r) := Get(s.sched);
      s.(sched := sched, cpus := s.cpus[c := cpu.(pc := if r == None then CallSlot else Recheck, proc := r)])
    case Some(x) =>
      var info := s.procs[x.pid];
      if info.pc == cfg.size[x.pid] then
        GetNext(s.(finished := s.finished + multiset{x},
                   procs := s.procs[x.pid := info.(finish := Some(now))]), c)
      else if cpu.timeLeft == 0 then
        s.(sched := Put(s.sched, x), cpus := s.cpus[c := cpu.(pc := AfterPut, proc := None)])
      else
        s.(cpus := s.cpus[c := cpu.(pc := Recheck)])
  }

  // From the recheck on: stop, skip the slot, or dispatch if needed and run one instruction.
  function CpuRecheck(cfg: Config, s: Sys, c: nat, now: nat): Sys
    requires c < |s.cpus|
    requires s.cpus[c].proc.Some? ==> s.cpus[c].proc.value.pid < |s.procs| <= |cfg.size|
  {
    var cpu := s.cpus[c];
    match cpu.proc
    case None => s.(cpus := s.cpus[c := cpu.(pc := if s.done then Stopping else CallSlot)])
    case Some(x) =>
      var info := s.procs[x.pid];
      var begins := cpu.timeLeft == 0;
      var left := if begins then cfg.timeSlot else cpu.timeLeft;
      s.(cpus := s.cpus[c := cpu.(pc := CallSlot, timeLeft := left - 1, lastRun := now)],
         procs := s.procs[x.pid := info.(pc := if info.pc < cfg.size[x.pid] then info.pc + 1 else info.pc,
                                         dispatched := info.dispatched + (if begins then 1 else 0),
                                         runs := info.runs + 1,
                                         lastRun := now)],
         log := s.log + [Exec(c, x.pid, now)])
  }

  // ld_routine
  function LoaderNext(cfg: Config, s: Sys): Sys
    requires ConfigOk(cfg) && |s.sched.queues| == MAX_PRIO && |s.procs| <= |cfg.size|
  {
    var i, now := |s.procs|, s.bar.sh.time;
    if i == |cfg.size| then s.(done := true, ldPc := LdStopping)
    else if now < cfg.start[i] then s.(ldPc := LdSlot)
    else
      s.(sched := Put(s.sched, TaskOf(cfg, i)), ldPc := LdSlot,
         procs := s.procs + [Info(0, 0, 0, now - 1, now, None)])
  }

  // The process a step would put on its level queue.
  function PutBy(cfg: Config, s: Sys, step: Step): Option<Task>
    requires ConfigOk(cfg)
  {
    match step
    case CpuStep(c) =>
      if c < |s.cpus| && s.cpus[c].pc == Top && s.cpus[c].proc.Some? && s.cpus[c].timeLeft == 0
         && s.cpus[c].proc.value.pid < |s.procs| <= |cfg.size|
         && s.procs[s.cpus[c].proc.value.pid].pc != cfg.size[s.cpus[c].proc.value.pid]
      then s.cpus[c].proc else None
    case LoaderStep =>
      if s.ldPc == LdTop && |s.procs| < |cfg.size| && s.bar.sh.time >= cfg.start[|s.procs|]
      then Some(TaskOf(cfg, |s.procs|)) else None
    case BarrierStep(b) => None
  }

  // A thread moves while its device is at work; a put finds room, because at most ten processes of a
  // level are alive.
  ghost predicate Enabled(cfg: Config, s: Sys, step: Step)
    requires ConfigOk(cfg) && Shape(cfg, s)
  {
    && (match step
        case CpuStep(c) => c < cfg.ncpu && s.bar.pc[c] == B.Work
        case LoaderStep => s.bar.pc[cfg.ncpu] == B.Work
        case BarrierStep(b) => !b.Arrive? && !b.Detach? && B.Enabled(s.bar, b))
    && (PutBy(cfg, s, step).Some? ==>
          PutBy(cfg, s, step).value.prio < MAX_PRIO
          && |s.sched.queues[PutBy(cfg, s, step).value.prio]| < MAX_QUEUE_SIZE)
  }

  ghost function Next(cfg: Config, s: Sys, step: Step): Sys
    requires ConfigOk(cfg) && Inv(cfg, s) && Enabled(cfg, s, step)
  {
    match step
    case BarrierStep(b) => s.(bar := B.Next(s.bar, b))
    case LoaderStep =>
      (match s.ldPc
       case LdTop => LoaderNext(cfg, s)
       case LdSlot => s.(ldPc := LdTop, bar := B.Next(s.bar, B.Arrive(cfg.ncpu)))
       case LdStopping => s.(ldPc := LdStopped, bar := B.Next(s.bar, B.Detach(cfg.ncpu)))
       case LdStopped => s)
    case CpuStep(c) =>
      HeldIsLoaded(cfg, s, c);
      (match s.cpus[c].pc
       case Top => CpuTop(cfg, s, c, s.bar.sh.time)
       case AfterPut => GetNext(s, c)
       case Recheck => CpuRecheck(cfg, s, c, s.bar.sh.time)
       case CallSlot => s.(cpus := s.cpus[c := s.cpus[c].(pc := Top)], bar := B.Next(s.bar, B.Arrive(c)))
       case Stopping => s.(cpus := s.cpus[c := s.cpus[c].(pc := Stopped)], bar := B.Next(s.bar, B.Detach(c)))
       case Stopped => s)
  }

  // ---------- The invariant

  // When process i is loaded: at its start time, or one slot after its predecessor.
  function LoadTime(cfg: Config, i: nat): nat
    requires i < |cfg.start|
  {
    if i == 0 then cfg.start[0]
    else if cfg.start[i] > LoadTime(cfg, i - 1) + 1 then cfg.start[i] else LoadTime(cfg, i - 1) + 1
  }

  // The first slot in which the loader can look at process i.
  function LoadFloor(cfg: Config, i: nat): nat
    requires i <= |cfg.start|
  {
    if i == 0 then 0 else LoadTime(cfg, i - 1) + 1
  }

  // The last slot in which it can: the one it loads the process in, or the one it stops in.
  function LoadCeiling(cfg: Config, i: nat): nat
    requires i <= |cfg.start|
  {
    if i < |cfg.start| then LoadTime(cfg, i) else LoadFloor(cfg, i)
  }

  ghost predicate LoaderOk(cfg: Config, s: Sys)
    requires ConfigOk(cfg) && Shape(cfg, s)
  {
    var i, n := |s.procs|, cfg.ncpu;
    && (forall j :: 0 <= j < i ==> s.procs[j].loadTime == LoadTime(cfg, j))
    && (s.bar.pc[n] == B.Waiting ==> s.ldPc == LdTop)
    && (s.ldPc == LdStopped <==> s.bar.pc[n] == B.Gone)
    && (s.done <==> s.ldPc == LdStopping || s.ldPc == LdStopped)
    && (s.done ==> i == |cfg.size|)
    && (s.ldPc == LdTop ==>
          LoadFloor(cfg, i) <= s.bar.slots[n] <= LoadCeiling(cfg, i))
    && (s.ldPc == LdSlot ==>
          LoadFloor(cfg, i) <= s.bar.slots[n] + 1 <= LoadCeiling(cfg, i))
  }

  ghost predicate CpuOk(cfg: Config, s: Sys, c: nat)
    requires c < |s.cpus| && c < |s.bar.pc| == |s.bar.slots|
  {
    var cpu := s.cpus[c];
    && (s.bar.pc[c] == B.Waiting ==> cpu.pc == Top)
    && (cpu.pc == Stopped <==> s.bar.pc[c] == B.Gone)
    && (cpu.pc == AfterPut || cpu.pc == Stopping || cpu.pc == Stopped ==> cpu.proc == None)
    && (cpu.proc == None ==> cpu.timeLeft == 0)
    && 0 <= cpu.timeLeft < cfg.timeSlot
    && (if cpu.pc == CallSlot then cpu.lastRun <= s.bar.slots[c] else cpu.lastRun < s.bar.slots[c])
  }

  predicate Loaded(cfg: Config, procs: seq<Info>, x: Task) {
    x.pid < |procs| <= |cfg.size| && |cfg.size| == |cfg.prio| && x == TaskOf(cfg, x.pid)
  }

  // Instructions done never exceed the slots since loading.
  predicate InPace(cfg: Config, procs: seq<Info>, x: Task)
    requires Loaded(cfg, procs, x)
  {
    var info := procs[x.pid];
    && info.pc <= cfg.size[x.pid]
    && info.pc <= info.lastRun + 1 - info.loadTime
    && info.loadTime - 1 <= info.lastRun
    && (cfg.size[x.pid] > 0 ==> info.runs == info.pc)
  }

  // A waiting process has used whole quanta and is not done.
  predicate QueuedOk(cfg: Config, procs: seq<Info>, now: nat, x: Task) {
    && Loaded(cfg, procs, x) && InPace(cfg, procs, x)
    && procs[x.pid].pc == procs[x.pid].dispatched * cfg.timeSlot
    && (procs[x.pid].pc < cfg.size[x.pid] || procs[x.pid].dispatched == 0)
    && procs[x.pid].lastRun < now
  }

  // A process on a CPU: what it has run and what is left make up its quanta.
  predicate HeldOk(cfg: Config, procs: seq<Info>, cpu: Cpu, slot: nat, x: Task) {
    && Loaded(cfg, procs, x) && InPace(cfg, procs, x)
    && (cfg.size[x.pid] > 0 ==> procs[x.pid].pc + cpu.timeLeft == procs[x.pid].dispatched * cfg.timeSlot)
    && (cpu.pc == Recheck ==> procs[x.pid].pc < cfg.size[x.pid] || procs[x.pid].dispatched == 0)
    && (cpu.timeLeft > 0 ==> procs[x.pid].dispatched > 0)
    && (if cpu.pc == CallSlot then procs[x.pid].lastRun == slot
        else if cpu.pc == Top || cpu.timeLeft > 0 then procs[x.pid].lastRun + 1 == slot
        else procs[x.pid].lastRun < slot)
  }

  // A finished process ran all its instructions in exactly the quanta they need.
  predicate FinishedOk(cfg: Config, procs: seq<Info>, x: Task) {
    && Loaded(cfg, procs, x) && procs[x.pid].finish.Some?
    && procs[x.pid].pc == cfg.size[x.pid]
    && procs[x.pid].finish.value >= procs[x.pid].loadTime + cfg.size[x.pid]
    && procs[x.pid].finish.value == procs[x.pid].lastRun + 1
    && (cfg.timeSlot >= 1 && cfg.size[x.pid] >= 1 ==>
          procs[x.pid].runs == cfg.size[x.pid]
          && procs[x.pid].dispatched == Word.DivRoundUp(cfg.size[x.pid], cfg.timeSlot))
  }

  predicate InQueues(sched: SchedState, x: Task) {
    x.prio < |sched.queues| && x in sched.queues[x.prio]
  }

  ghost predicate TasksOk(cfg: Config, s: Sys)
    requires Shape(cfg, s)
  {
    && (forall x :: InQueues(s.sched, x) ==> QueuedOk(cfg, s.procs, s.bar.sh.time, x))
    && (forall c, x :: 0 <= c < cfg.ncpu && s.cpus[c].proc == Some(x) ==>
          HeldOk(cfg, s.procs, s.cpus[c], s.bar.slots[c], x))
    && (forall x :: x in s.finished ==> FinishedOk(cfg, s.procs, x))
  }

  function HeldBy(cpu: Cpu): multiset<Task> {
    match cpu.proc case None => multiset{} case Some(x) => multiset{x}
  }

  // The places a process can be: the level queues, the CPUs, and the finished ones.
  function PlaceAt(s: Sys, a: nat): multiset<Task>
    requires a <= |s.sched.queues| + |s.cpus|
  {
    var n := |s.sched.queues|;
    if a < n then multiset(s.sched.queues[a])
    else if a < n + |s.cpus| then HeldBy(s.cpus[a - n])
    else s.finished
  }

  function Places(s: Sys): seq<multiset<Task>> {
    seq(|s.sched.queues| + |s.cpus| + 1, a requires 0 <= a <= |s.sched.queues| + |s.cpus| => PlaceAt(s, a))
  }

  function LoadedTasks(cfg: Config, k: nat): multiset<Task>
    requires k <= |cfg.prio|
  {
    if k == 0 then multiset{} else LoadedTasks(cfg, k - 1) + multiset{TaskOf(cfg, k - 1)}
  }

  // Every loaded process is in exactly one place.
  ghost predicate Conserved(cfg: Config, s: Sys)
    requires |s.procs| <= |cfg.prio|
  {
    Total(Places(s)) == LoadedTasks(cfg, |s.procs|)
  }

  // No process and no CPU appears twice in one slot.
  ghost predicate LogOk(cfg: Config, s: Sys)
    requires |s.cpus| == cfg.ncpu
  {
    && (forall i :: 0 <= i < |s.log| ==>
          s.log[i].pid < |s.procs| && s.log[i].slot <= s.procs[s.log[i].pid].lastRun
          && s.log[i].cpu < cfg.ncpu && s.log[i].slot <= s.cpus[s.log[i].cpu].lastRun)
    && (forall i, j :: 0 <= i < j < |s.log| ==>
          (s.log[i].pid == s.log[j].pid || s.log[i].cpu == s.log[j].cpu) ==> s.log[i].slot < s.log[j].slot)
  }

  ghost predicate Inv(cfg: Config, s: Sys)
    requires ConfigOk(cfg)
  {
    && Shape(cfg, s)
    && LoaderOk(cfg, s)
    && (forall c :: 0 <= c < cfg.ncpu ==> CpuOk(cfg, s, c))
    && TasksOk(cfg, s)
    && Conserved(cfg, s)
    && LogOk(cfg, s)
  }

  lemma HeldIsLoaded(cfg: Config, s: Sys, c: nat)
    requires ConfigOk(cfg) && Inv(cfg, s) && c < cfg.ncpu
    ensures s.cpus[c].proc.Some? ==>
              s.cpus[c].proc.value.pid < |s.procs| <= |cfg.size| && s.cpus[c].proc.value.prio < MAX_PRIO
  {
    if s.cpus[c].proc.Some? {
      assert HeldOk(cfg, s.procs, s.cpus[c], s.bar.slots[c], s.cpus[c].proc.value);
    }
  }

  lemma InitInv(cfg: Config)
    requires ConfigOk(cfg)
    ensures Inv(cfg, InitSys(cfg))
  {
    var s := InitSys(cfg);
    B.InitInv(cfg.ncpu + 1);
    InitSchedOk();
    forall a | 0 <= a < |Places(s)|
      ensures Places(s)[a] == multiset{}
    {
    }
    EmptyTotal(Places(s));
  }
}
