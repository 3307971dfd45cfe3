/** Two runs from the start of the machine: one that leaves a process behind, and one after which a CPU
    waits for ever. */
module EndingRuns {
  import opened ReadyQueue
  import opened Sched
  import opened Os
  import opened OsProofs
  import opened Ending
  import B = Barrier

  // ---------- Reaching a state

  ghost predicate Reaches(cfg: Config, s: Sys, t: Sys)
    requires ConfigOk(cfg) && Inv(cfg, s)
  {
    exists steps :: CanRun(cfg, s, steps) && Run(cfg, s, steps) == t
  }

  lemma Here(cfg: Config, s: Sys)
    requires ConfigOk(cfg) && Inv(cfg, s)
    ensures Reaches(cfg, s, s)
  {
    assert CanRun(cfg, s, []) && Run(cfg, s, []) == s;
  }

  // The machine makes the step and is in t.
  ghost predicate Moves(cfg: Config, s: Sys, step: Step, t: Sys)
    requires ConfigOk(cfg) && Inv(cfg, s)
  {
    Enabled(cfg, s, step) && Next(cfg, s, step) == t
  }

  lemma Onward(cfg: Config, s: Sys, step: Step, t: Sys)
    requires ConfigOk(cfg) && Inv(cfg, s) && Moves(cfg, s, step, t)
    ensures Inv(cfg, t)
  {
    NextKeepsInv(cfg, s, step);
  }

  // One step and then the rest.
  lemma StepThen(cfg: Config, s: Sys, step: Step, t: Sys, u: Sys)
    requires ConfigOk(cfg) && Inv(cfg, s) && Moves(cfg, s, step, t)
    requires Inv(cfg, t) && Reaches(cfg, t, u)
    ensures Reaches(cfg, s, u)
  {
    hide Inv, Next, Enabled;
    NextKeepsInv(cfg, s, step);
    var rest :| CanRun(cfg, t, rest) && Run(cfg, t, rest) == u;
    var steps := [step] + rest;
    assert steps[1..] == rest;
    assert CanRun(cfg, s, steps) && Run(cfg, s, steps) == u;
  }

  // ---------- A CPU that waits for ever

  // Two CPUs and one process of one instruction. The second CPU finds nothing, the process is loaded,
  // the first CPU takes it.
  function Pair(): Config { Config(2, 1, [0], [0], [1]) }

  function OneQueued(q: SchedState, x: Task): SchedState
    requires x.prio < |q.queues|
  {
    q.(queues := q.queues[x.prio := [x]])
  }

  // The only process there is comes out of get, if its level has budget left.
  lemma OnlyGet(q: SchedState, x: Task)
    requires SchedOk(q) && AllEmpty(q) && x.prio < MAX_PRIO
    ensures SchedOk(OneQueued(q, x)) && Put(q, x) == OneQueued(q, x)
    ensures Get(OneQueued(q, x)) ==
            if q.slot[x.prio] > 0 then (q.(slot := q.slot[x.prio := q.slot[x.prio] - 1]), Some(x))
            else (OneQueued(q, x).(slot := FullSlots()), None)
  {
    var one := OneQueued(q, x);
    assert [] + [x] == [x] && [x][1..] == [];
    forall p | 0 <= p < MAX_PRIO
      ensures LevelOk(one.queues[p], p)
    {
      assert LevelOk(q.queues[p], p);
    }
    GetCases(one);
    assert !AllEmpty(one) by { assert one.queues[x.prio] != []; }
    if q.slot[x.prio] > 0 {
      assert Ready(one, x.prio);
      assert one.queues[x.prio := []] == q.queues;
    } else {
      assert forall p :: 0 <= p < MAX_PRIO ==> !Ready(one, p);
    }
  }

  lemma InitEmpty()
    ensures SchedOk(InitSched()) && AllEmpty(InitSched())
  {
    InitSchedOk();
  }

  // The machine as it goes through those three steps.
  function Waits(i: nat): Sys {
    var init, x := InitSched(), Task(0, 0);
    var loaded, bar := [Info(0, 0, 0, -1, 0, None)], B.Init(3);
    var start, idle := Cpu(Top, None, 0, -1), Cpu(CallSlot, None, 0, -1);
    match i
    case 0 => Sys(init, [start, start], LdTop, false, bar, [], multiset{}, [])
    case 1 => Sys(init, [start, idle], LdTop, false, bar, [], multiset{}, [])
    case 2 => Sys(OneQueued(init, x), [start, idle], LdSlot, false, bar, loaded, multiset{}, [])
    case _ => Sys(init.(slot := FullSlots()[0 := MAX_PRIO - 1]), [Cpu(Recheck, Some(x), 0, -1), idle], LdSlot, false,
                  bar, loaded, multiset{}, [])
  }

  function WaitsStep(i: nat): Step { if i == 0 then CpuStep(1) else if i == 1 then LoaderStep else CpuStep(0) }

  lemma WaitsEffects()
    ensures CpuTop(Pair(), Waits(0), 1, 0) == Waits(1) && LoaderNext(Pair(), Waits(1)) == Waits(2)
    ensures CpuTop(Pair(), Waits(2), 0, 0) == Waits(3) && InitSys(Pair()) == Waits(0)
  {
    InitEmpty();
    EmptyGet(InitSched());
    OnlyGet(InitSched(), Task(0, 0));
    hide Get, Put, AllEmpty;
  }

  lemma WaitsMoves(i: nat)
    requires i < 3 && Inv(Pair(), Waits(i))
    ensures Moves(Pair(), Waits(i), WaitsStep(i), Waits(i + 1))
  {
    hide TasksOk, Conserved, LogOk, LoaderOk, CpuOk, B.Inv, SchedOk, Get, Put, InitSched, AllEmpty;
    hide LoaderNext, CpuTop, InitSys;
    WaitsEffects();
  }

  lemma {:induction false} WaitsOn(i: nat)
    requires i <= 3 && Inv(Pair(), Waits(i))
    ensures Inv(Pair(), Waits(3)) && Reaches(Pair(), Waits(i), Waits(3))
    decreases 3 - i
  {
    hide Inv, Waits, Moves, Reaches;
    if i == 3 {
      Here(Pair(), Waits(3));
    } else {
      WaitsMoves(i);
      Onward(Pair(), Waits(i), WaitsStep(i), Waits(i + 1));
      WaitsOn(i + 1);
      StepThen(Pair(), Waits(i), WaitsStep(i), Waits(i + 1), Waits(3));
    }
  }

  lemma WaitsForEver()
    ensures Doomed(Pair(), Waits(3), 1) && Waits(3).cpus[0].proc == Some(Task(0, 0))
  {
    InitEmpty();
    hide InitSched;
  }

  // So a CPU can be lost with processes to run, while another CPU still works.
  lemma IdleWitness()
    ensures ConfigOk(Pair()) && Inv(Pair(), InitSys(Pair())) && Reaches(Pair(), InitSys(Pair()), Waits(3))
    ensures Inv(Pair(), Waits(3)) && Doomed(Pair(), Waits(3), 1) && Waits(3).cpus[0].proc == Some(Task(0, 0))
  {
    InitInv(Pair());
    hide Inv, Reaches, Waits, InitSys, Doomed;
    WaitsEffects();
    WaitsOn(0);
    WaitsForEver();
  }

  // ---------- A process left behind

  // One CPU, quanta of one instruction, one process of two instructions at the level with a budget of
  // one. The process runs once; in the next slot the loader is done, the process is put back, and get
  // resets the budgets instead of returning it, so the CPU stops.
  function Single(): Config { Config(1, 1, [0], [139], [2]) }

  function Lone(): Task { Task(0, 139) }

  // The barrier of two devices at work, at the end of a slot, and at work in the next one.
  function BarWork(time: nat, tpc: B.TimerPc, events: nat): B.State {
    B.State(B.Shared(time, [false, false], [false, false], -1, [false, false]), tpc, 0, events, false,
            [B.Work, B.Work], [time, time])
  }

  function BarTimer(time: nat, done: seq<bool>, tpc: B.TimerPc, events: nat): B.State {
    B.State(B.Shared(time, done, [false, false], -1, [false, false]), tpc, 0, events, false,
            [B.Waiting, B.Waiting], [1, 1])
  }

  ghost predicate BarReaches(b: B.State, c: B.State)
    requires B.Inv(b)
  {
    exists steps :: B.CanRun(b, steps) && NoDevice(steps) && B.Run(b, steps) == c
  }

  predicate NoDevice(steps: seq<B.Step>) {
    forall i :: 0 <= i < |steps| ==> !steps[i].Arrive? && !steps[i].Detach?
  }

  lemma BarHere(b: B.State)
    requires B.Inv(b)
    ensures BarReaches(b, b)
  {
    assert B.CanRun(b, []) && NoDevice([]) && B.Run(b, []) == b;
  }

  lemma BarThen(b: B.State, step: B.Step, c: B.State, d: B.State)
    requires B.Inv(b) && B.Enabled(b, step) && B.Next(b, step) == c && B.Inv(c)
    requires !step.Arrive? && !step.Detach? && BarReaches(c, d)
    ensures BarReaches(b, d)
  {
    hide B.Inv, B.Next, B.Enabled;
    var rest :| B.CanRun(c, rest) && NoDevice(rest) && B.Run(c, rest) == d;
    var steps := [step] + rest;
    assert steps[1..] == rest;
    assert B.CanRun(b, steps) && NoDevice(steps) && B.Run(b, steps) == d;
  }

  // The states of the barrier as the timer passes both devices, ticks and releases them, and they leave.
  function Turning(i: nat): B.State {
    match i
    case 0 => BarTimer(0, [true, true], B.Top, 0)
    case 1 => BarTimer(0, [true, true], B.Look(0), 0)
    case 2 => BarTimer(0, [true, true], B.Look(1), 1)
    case 3 => BarTimer(0, [true, true], B.Look(2), 2)
    case 4 => BarTimer(0, [true, true], B.Tick, 2)
    case 5 => BarTimer(1, [true, true], B.Release(0), 2)
    case 6 => BarTimer(1, [false, true], B.Release(1), 2)
    case 7 => BarTimer(1, [false, false], B.Release(2), 2)
    case 8 => BarTimer(1, [false, false], B.Release(2), 2).(pc := [B.Work, B.Waiting])
    case _ => BarWork(1, B.Release(2), 2)
  }

  function TurningStep(i: nat): B.Step {
    if i < 7 then B.TimerStep else if i == 7 then B.Recheck(0) else B.Recheck(1)
  }

  lemma TurningMoves(i: nat)
    requires i < 9
    ensures B.Shape(Turning(i)) && B.Enabled(Turning(i), TurningStep(i))
    ensures B.Next(Turning(i), TurningStep(i)) == Turning(i + 1)
  {
    if i < 7 {
      TurningTimer(i);
      hide B.TimerNext;
    }
  }

  lemma TurningTimer(i: nat)
    requires i < 7
    ensures B.TimerNext(Turning(i)) == Turning(i + 1)
  {
  }

  lemma {:induction false} TurningOn(i: nat)
    requires i <= 9 && B.Inv(Turning(i))
    ensures BarReaches(Turning(i), Turning(9))
    decreases 9 - i
  {
    hide B.Inv, B.Next, B.Enabled, Turning, BarReaches;
    if i == 9 {
      BarHere(Turning(9));
    } else {
      TurningMoves(i);
      B.NextKeepsInv(Turning(i), TurningStep(i));
      TurningOn(i + 1);
      BarThen(Turning(i), TurningStep(i), Turning(i + 1), Turning(9));
    }
  }

  // Steps of the barrier alone are steps of the machine.
  lemma {:induction false} BarrierAlone(cfg: Config, s: Sys, bs: seq<B.Step>)
    requires ConfigOk(cfg) && Inv(cfg, s) && B.CanRun(s.bar, bs) && NoDevice(bs)
    ensures Inv(cfg, s.(bar := B.Run(s.bar, bs))) && Reaches(cfg, s, s.(bar := B.Run(s.bar, bs)))
    decreases |bs|
  {
    hide LoaderOk, TasksOk, Conserved, LogOk, CpuOk, SchedOk, B.Next, B.PhaseOk;
    if bs == [] {
      assert s.(bar := s.bar) == s;
      Here(cfg, s);
    } else {
      var step := BarrierStep(bs[0]);
      assert Moves(cfg, s, step, Next(cfg, s, step));
      NextKeepsInv(cfg, s, step);
      var t := Next(cfg, s, step);
      BarrierAlone(cfg, t, bs[1..]);
      assert t.(bar := B.Run(t.bar, bs[1..])) == s.(bar := B.Run(s.bar, bs));
      StepThen(cfg, s, step, t, t.(bar := B.Run(t.bar, bs[1..])));
    }
  }

  // The machine as it goes through that run; between 5 and 6 only the barrier moves.
  function Going(i: nat): Sys {
    var full, spent := InitSched(), InitSched().(slot := FullSlots()[139 := 0]);
    var loaded, ran := [Info(0, 0, 0, -1, 0, None)], [Info(1, 1, 1, 0, 0, None)];
    var arrived := BarWork(0, B.Top, 0).(sh := B.Shared(0, [true, false], [false, false], -1, [false, false]),
                                         pc := [B.Waiting, B.Work], slots := [1, 0]);
    var held, log, work, next := Some(Lone()), [Exec(0, 0, 0)], BarWork(0, B.Top, 0), Turning(9);
    match i
    case 0 => Sys(full, [Cpu(Top, None, 0, -1)], LdTop, false, work, [], multiset{}, [])
    case 1 => Sys(OneQueued(full, Lone()), [Cpu(Top, None, 0, -1)], LdSlot, false, work, loaded, multiset{}, [])
    case 2 => Sys(spent, [Cpu(Recheck, held, 0, -1)], LdSlot, false, work, loaded, multiset{}, [])
    case 3 => Sys(spent, [Cpu(CallSlot, held, 0, 0)], LdSlot, false, work, ran, multiset{}, log)
    case 4 => Sys(spent, [Cpu(Top, held, 0, 0)], LdSlot, false, arrived, ran, multiset{}, log)
    case 5 => Sys(spent, [Cpu(Top, held, 0, 0)], LdTop, false, Turning(0), ran, multiset{}, log)
    case 6 => Sys(spent, [Cpu(Top, held, 0, 0)], LdTop, false, next, ran, multiset{}, log)
    case 7 => Sys(spent, [Cpu(Top, held, 0, 0)], LdStopping, true, next, ran, multiset{}, log)
    case 8 => Sys(OneQueued(spent, Lone()), [Cpu(AfterPut, None, 0, 0)], LdStopping, true, next, ran, multiset{}, log)
    case 9 => Sys(OneQueued(full, Lone()), [Cpu(Recheck, None, 0, 0)], LdStopping, true, next, ran, multiset{}, log)
    case _ => Sys(OneQueued(full, Lone()), [Cpu(Stopping, None, 0, 0)], LdStopping, true, next, ran, multiset{}, log)
  }

  function GoingStep(i: nat): Step {
    if i == 0 || i == 4 || i == 6 then LoaderStep else CpuStep(0)
  }

  lemma SpentOk()
    ensures SchedOk(InitSched().(slot := FullSlots()[139 := 0]))
    ensures AllEmpty(InitSched().(slot := FullSlots()[139 := 0]))
  {
    InitEmpty();
  }

  lemma GoingLoads()
    ensures LoaderNext(Single(), Going(0)) == Going(1) && LoaderNext(Single(), Going(6)) == Going(7)
  {
    InitEmpty();
    OnlyGet(InitSched(), Lone());
    hide Put, InitSched;
  }

  lemma GoingTakes()
    ensures CpuTop(Single(), Going(1), 0, 0) == Going(2) && CpuRecheck(Single(), Going(2), 0, 0) == Going(3)
  {
    InitEmpty();
    OnlyGet(InitSched(), Lone());
    hide Put, Get;
  }

  lemma GoingPuts()
    ensures CpuTop(Single(), Going(7), 0, 1) == Going(8)
    ensures GetNext(Going(8), 0) == Going(9) && CpuRecheck(Single(), Going(9), 0, 1) == Going(10)
  {
    SpentOk();
    OnlyGet(InitSched().(slot := FullSlots()[139 := 0]), Lone());
    hide Put, Get, AllEmpty, SchedOk;
  }

  lemma GoingArrives()
    ensures B.Next(Going(3).bar, B.Arrive(0)) == Going(4).bar && B.Next(Going(4).bar, B.Arrive(1)) == Going(5).bar
  {
    hide InitSched;
  }

  lemma GoingMoves(i: nat)
    requires i < 10 && i != 5 && Inv(Single(), Going(i))
    ensures Moves(Single(), Going(i), GoingStep(i), Going(i + 1))
  {
    hide TasksOk, Conserved, LogOk, LoaderOk, CpuOk, B.Inv, SchedOk, Get, Put, InitSched, AllEmpty;
    hide LoaderNext, CpuTop, CpuRecheck, B.Next;
    GoingLoads();
    GoingTakes();
    GoingPuts();
    GoingArrives();
  }

  lemma OnlyBarrier()
    ensures Going(5).bar == Turning(0) && Going(5).(bar := Turning(9)) == Going(6)
  {
    hide Turning, InitSched;
  }

  lemma BarIsOk(cfg: Config, s: Sys)
    requires ConfigOk(cfg) && Inv(cfg, s)
    ensures B.Inv(s.bar)
  {
  }

  lemma GoingTurns()
    requires Inv(Single(), Going(5))
    ensures Inv(Single(), Going(6)) && Reaches(Single(), Going(5), Going(6))
  {
    hide Inv, Going, Turning, Reaches, B.Inv, B.Run, B.CanRun;
    OnlyBarrier();
    BarIsOk(Single(), Going(5));
    TurningOn(0);
    var bs :| B.CanRun(Turning(0), bs) && NoDevice(bs) && B.Run(Turning(0), bs) == Turning(9);
    BarrierAlone(Single(), Going(5), bs);
  }

  lemma ReachesThrough(cfg: Config, s: Sys, t: Sys, u: Sys)
    requires ConfigOk(cfg) && Inv(cfg, s) && Inv(cfg, t) && Reaches(cfg, s, t) && Reaches(cfg, t, u)
    ensures Reaches(cfg, s, u)
  {
    hide Inv;
    var a :| CanRun(cfg, s, a) && Run(cfg, s, a) == t;
    var b :| CanRun(cfg, t, b) && Run(cfg, t, b) == u;
    JoinRuns(cfg, s, a, b);
    assert CanRun(cfg, s, a + b) && Run(cfg, s, a + b) == u;
  }

  lemma {:induction false} JoinRuns(cfg: Config, s: Sys, a: seq<Step>, b: seq<Step>)
    requires ConfigOk(cfg) && Inv(cfg, s) && CanRun(cfg, s, a)
    requires Inv(cfg, Run(cfg, s, a)) && CanRun(cfg, Run(cfg, s, a), b)
    ensures CanRun(cfg, s, a + b) && Run(cfg, s, a + b) == Run(cfg, Run(cfg, s, a), b)
    decreases |a|
  {
    hide Next, Enabled, LoaderOk, TasksOk, Conserved, LogOk, CpuOk, B.Inv, Shape;
    if a == [] {
      assert [] + b == b;
    } else {
      assert (a + b)[1..] == a[1..] + b;
      NextKeepsInv(cfg, s, a[0]);
      JoinRuns(cfg, Next(cfg, s, a[0]), a[1..], b);
    }
  }

  lemma {:induction false} GoingOn(i: nat)
    requires i <= 10 && Inv(Single(), Going(i))
    ensures Inv(Single(), Going(10)) && Reaches(Single(), Going(i), Going(10))
    decreases 10 - i
  {
    hide Inv, Going, Moves, Reaches;
    if i == 10 {
      Here(Single(), Going(10));
    } else if i == 5 {
      GoingTurns();
      GoingOn(6);
      ReachesThrough(Single(), Going(5), Going(6), Going(10));
    } else {
      GoingMoves(i);
      Onward(Single(), Going(i), GoingStep(i), Going(i + 1));
      GoingOn(i + 1);
      StepThen(Single(), Going(i), GoingStep(i), Going(i + 1), Going(10));
    }
  }

  lemma GoingStarts()
    ensures InitSys(Single()) == Going(0)
  {
  }

  // Its only CPU is on its way out, and the process, half run, is on its queue.
  ghost predicate LeavesBehind(t: Sys, x: Task) {
    && Settled(Single(), t) && !SomeIdle(t) && |t.sched.queues| == MAX_PRIO
    && t.sched.queues[139] == [x] && |t.procs| == 1 && t.procs[0].pc == 1 && x !in t.finished
  }

  lemma GoingEnds()
    ensures LeavesBehind(Going(10), Lone())
  {
    assert AllEmpty(InitSched());
  }

  // By SettledRun and MachineStopsExactly the machine then stops and leaves the process there for ever.
  lemma AbandonWitness()
    ensures ConfigOk(Single()) && Inv(Single(), InitSys(Single())) && Reaches(Single(), InitSys(Single()), Going(10))
    ensures Inv(Single(), Going(10)) && LeavesBehind(Going(10), Lone())
  {
    InitInv(Single());
    hide Inv, Reaches, Going, InitSys, LeavesBehind;
    GoingStarts();
    GoingOn(0);
    GoingEnds();
  }
}
