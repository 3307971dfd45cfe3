/** The machine of CPUs and the paged memory together: the CPUs' instructions, in the order in which the
    machine executes them, are the turns of the processes on the shared RAM. */
module Composed {
  import opened ReadyQueue
  import opened Sched
  import opened Os
  import opened OsProofs
  import Paging
  import Pte
  import B = Barrier
  import opened FlatStore
  import opened Libmem
  import I = Interleaving
  import R = Refinement
  import Runs

  // Whose instruction was executed, first to last.
  function Order(log: seq<Exec>): seq<nat> { seq(|log|, i requires 0 <= i < |log| => log[i].pid) }

  // Each process had as many turns as it ran instructions.
  predicate TurnsOk(s: Sys) {
    && (forall k :: 0 <= k < |s.log| ==> s.log[k].pid < |s.procs|)
    && (forall p :: 0 <= p < |s.procs| ==> I.Turns(Order(s.log), p) == s.procs[p].runs)
  }

  lemma {:induction false} TurnsSnoc(order: seq<nat>, q: nat, p: nat)
    ensures I.Turns(order + [q], p) == I.Turns(order, p) + if q == p then 1 else 0
  {
    if order == [] {
      assert [] + [q] == [q];
    } else {
      assert (order + [q])[1..] == order[1..] + [q];
      TurnsSnoc(order[1..], q, p);
    }
  }

  lemma {:induction false} NoTurns(order: seq<nat>, p: nat)
    requires forall k :: 0 <= k < |order| ==> order[k] < p
    ensures I.Turns(order, p) == 0
  {
    if order != [] {
      NoTurns(order[1..], p);
    }
  }

  lemma RunTurn(cfg: Config, s: Sys, c: nat, now: nat, x: Task)
    requires TurnsOk(s) && c < |s.cpus| && s.cpus[c].proc == Some(x) && x.pid < |s.procs| <= |cfg.size|
    ensures TurnsOk(CpuRecheck(cfg, s, c, now))
  {
    var t := CpuRecheck(cfg, s, c, now);
    assert Order(t.log) == Order(s.log) + [x.pid];
    forall p | 0 <= p < |t.procs|
      ensures I.Turns(Order(t.log), p) == t.procs[p].runs
    {
      TurnsSnoc(Order(s.log), x.pid, p);
    }
  }

  lemma LoadTurn(cfg: Config, s: Sys)
    requires ConfigOk(cfg) && |s.sched.queues| == MAX_PRIO && |s.procs| <= |cfg.size| && TurnsOk(s)
    ensures TurnsOk(LoaderNext(cfg, s))
  {
    NoTurns(Order(s.log), |s.procs|);
  }

  lemma StepTurns(cfg: Config, s: Sys, step: Step)
    requires ConfigOk(cfg) && Inv(cfg, s) && Enabled(cfg, s, step) && TurnsOk(s)
    ensures TurnsOk(Next(cfg, s, step))
  {
    hide TasksOk, Conserved, LogOk, LoaderOk, CpuOk, B.PhaseOk, B.Next, TurnsOk;
    match step
    case BarrierStep(b) => SameTurns(s, Next(cfg, s, step));
    case LoaderStep =>
      if s.ldPc == LdTop {
        LoadTurn(cfg, s);
      } else {
        SameTurns(s, Next(cfg, s, step));
      }
    case CpuStep(c) =>
      HeldIsLoaded(cfg, s, c);
      if s.cpus[c].pc == Recheck && s.cpus[c].proc.Some? {
        RunTurn(cfg, s, c, s.bar.sh.time, s.cpus[c].proc.value);
      } else {
        SameTurns(s, Next(cfg, s, step));
      }
  }

  lemma SameTurns(s: Sys, t: Sys)
    requires TurnsOk(s) && t.log == s.log && |t.procs| == |s.procs|
    requires forall p :: 0 <= p < |s.procs| ==> t.procs[p].runs == s.procs[p].runs
    ensures TurnsOk(t)
  {
  }

  lemma {:induction false} RunTurns(cfg: Config, s: Sys, steps: seq<Step>)
    requires ConfigOk(cfg) && Inv(cfg, s) && CanRun(cfg, s, steps) && TurnsOk(s)
    ensures TurnsOk(Run(cfg, s, steps))
    decreases |steps|
  {
    hide Inv, Next, Enabled, TurnsOk;
    if steps != [] {
      NextKeepsInv(cfg, s, steps[0]);
      StepTurns(cfg, s, steps[0]);
      RunTurns(cfg, Next(cfg, s, steps[0]), steps[1..]);
    }
  }

  // The programs are those the configuration gives the sizes of.
  predicate Programs(cfg: Config, codes: seq<seq<Inst>>) {
    |codes| == |cfg.size| && forall i :: 0 <= i < |codes| ==> |codes[i]| == cfg.size[i]
  }

  function Zeros(n: nat): seq<nat> { seq(n, i => 0) }

  // The memory calls the CPUs have made so far find the paged memory in order: each is enabled when its
  // turn comes, from fresh processes on.
  ghost predicate MemoryRuns(s: Sys, codes: seq<seq<Inst>>, ramSize: nat) {
    && (forall k :: 0 <= k < |s.log| ==> s.log[k].pid < |codes|)
    && R.SysOk(I.FreshSys(|codes|, ramSize))
    && Runs.RunOk(I.FreshSys(|codes|, ramSize), I.CallsOf(codes, Zeros(|codes|), Order(s.log)))
  }

  // The bytes read so far, each with its process.
  ghost function BytesRead(s: Sys, codes: seq<seq<Inst>>, ramSize: nat): seq<(nat, Paging.Byte)>
    requires MemoryRuns(s, codes, ramSize)
  {
    var calls := I.CallsOf(codes, Zeros(|codes|), Order(s.log));
    I.RunLength(I.FreshSys(|codes|, ramSize), calls);
    I.Reads(calls, Runs.Run(I.FreshSys(|codes|, ramSize), calls).1)
  }

  // What a program reads in its first n turns, alone on an empty flat store.
  ghost function ReadsAlone(code: seq<Inst>, n: nat): seq<Paging.Byte> {
    I.Values(Runs.FlatRun(InitFlat(), I.OpsFrom(code, 0, n)).1)
  }

  lemma ReadsOfTurns(s: Sys, codes: seq<seq<Inst>>, ramSize: nat, p: nat)
    requires MemoryRuns(s, codes, ramSize) && TurnsOk(s) && p < |s.procs| <= |codes|
    requires ramSize / Pte.PAGE_SIZE <= Pte.MAX_FPN
    ensures I.ReadBy(BytesRead(s, codes, ramSize), p) == ReadsAlone(codes[p], s.procs[p].runs)
  {
    hide R.SysOk, Runs.RunOk, Runs.Run, I.Reads, I.CallsOf, I.OpsFrom, I.FreshSys, R.AbsOf, InitFlat, Runs.FlatRun;
    I.FreshSysOk(|codes|, ramSize);
    I.ProgramsArePrivate(I.FreshSys(|codes|, ramSize), codes, Zeros(|codes|), Order(s.log), p);
    FreshStore(|codes|, ramSize, p);
  }

  lemma FreshStore(n: nat, ramSize: nat, p: nat)
    requires p < n && ramSize / Pte.PAGE_SIZE <= Pte.MAX_FPN && R.SysOk(I.FreshSys(n, ramSize))
    ensures Runs.StoreOf(I.FreshSys(n, ramSize), p) == InitFlat()
  {
    hide R.SysOk, R.AbsOf, InitFlat;
    I.FreshSysOk(n, ramSize);
  }

  lemma TurnsFromStart(cfg: Config, steps: seq<Step>)
    requires ConfigOk(cfg) && (InitInv(cfg); CanRun(cfg, InitSys(cfg), steps))
    ensures Inv(cfg, InitSys(cfg))
    ensures var s := Run(cfg, InitSys(cfg), steps); Inv(cfg, s) && TurnsOk(s)
  {
    InitInv(cfg);
    assert TurnsOk(InitSys(cfg));
    hide Inv, TurnsOk, InitSys;
    AllStepsKeepInv(cfg, InitSys(cfg), steps);
    RunTurns(cfg, InitSys(cfg), steps);
  }

  lemma {:induction false} NothingLeft(code: seq<Inst>, pc: nat, n: nat)
    requires pc >= |code|
    ensures I.OpsFrom(code, pc, n) == []
    decreases n
  {
    if n > 0 {
      NothingLeft(code, pc, n - 1);
    }
  }

  // A finished process has had all the turns its program needs.
  lemma FinishedReadsAll(cfg: Config, s: Sys, code: seq<Inst>, p: nat)
    requires ConfigOk(cfg) && Inv(cfg, s) && p < |s.procs| && |code| == cfg.size[p] && TaskOf(cfg, p) in s.finished
    ensures ReadsAlone(code, s.procs[p].runs) == ReadsAlone(code, |code|)
  {
    assert FinishedOk(cfg, s.procs, TaskOf(cfg, p));
    hide Inv, Runs.FlatRun, I.Values, I.OpsFrom;
    if |code| == 0 {
      NothingLeft(code, 0, s.procs[p].runs);
      NothingLeft(code, 0, 0);
    }
  }

  // In every run of the machine, whatever is scheduled and whatever the other processes do: if the
  // memory calls made so far are in order, the bytes a process has read are those its own program reads
  // in as many turns alone; and once it is finished, those its whole program reads alone.
  lemma EachReadsItsOwn(cfg: Config, steps: seq<Step>, codes: seq<seq<Inst>>, ramSize: nat, p: nat)
    requires ConfigOk(cfg) && (InitInv(cfg); CanRun(cfg, InitSys(cfg), steps))
    requires Programs(cfg, codes) && ramSize / Pte.PAGE_SIZE <= Pte.MAX_FPN
    requires (InitInv(cfg); p < |Run(cfg, InitSys(cfg), steps).procs|)
    requires (InitInv(cfg); MemoryRuns(Run(cfg, InitSys(cfg), steps), codes, ramSize))
    ensures Inv(cfg, InitSys(cfg))
    ensures var s := Run(cfg, InitSys(cfg), steps);
            && p < |codes| && p < |cfg.prio|
            && I.ReadBy(BytesRead(s, codes, ramSize), p) == ReadsAlone(codes[p], s.procs[p].runs)
            && (TaskOf(cfg, p) in s.finished ==>
                  I.ReadBy(BytesRead(s, codes, ramSize), p) == ReadsAlone(codes[p], |codes[p]|))
  {
    TurnsFromStart(cfg, steps);
    hide LoaderOk, TasksOk, Conserved, LogOk, CpuOk, SchedOk, B.Inv, Run, CanRun, InitSys;
    hide TurnsOk, MemoryRuns, BytesRead, ReadsAlone;
    var s := Run(cfg, InitSys(cfg), steps);
    ReadsOfTurns(s, codes, ramSize, p);
    if TaskOf(cfg, p) in s.finished {
      FinishedReadsAll(cfg, s, codes[p], p);
    }
  }

  // The counter the machine keeps for a process is the one its program reaches in as many turns: no
  // instruction is skipped and none is executed twice.
  lemma CounterAgrees(cfg: Config, s: Sys, code: seq<Inst>, p: nat)
    requires ConfigOk(cfg) && Inv(cfg, s) && p < |s.procs| && |code| == cfg.size[p]
    ensures s.procs[p].pc == I.CounterAfter(code, 0, s.procs[p].runs)
    ensures s.procs[p].pc == if s.procs[p].runs <= |code| then s.procs[p].runs else |code|
  {
    PcIs(cfg, s, p);
    I.CounterIs(code, 0, s.procs[p].runs);
  }

  lemma PcIs(cfg: Config, s: Sys, p: nat)
    requires ConfigOk(cfg) && Inv(cfg, s) && p < |s.procs|
    ensures s.procs[p].pc <= cfg.size[p] && (cfg.size[p] > 0 ==> s.procs[p].runs == s.procs[p].pc)
  {
    var x := TaskOf(cfg, p);
    var a := ProcessInOnePlace(cfg, s, p);
    PlacesAt(s);
    hide Places, Conserved, LogOk, LoaderOk, CpuOk, B.Inv;
    assert x in PlaceAt(s, a);
    if a < MAX_PRIO {
      QueuedAtOwnLevel(cfg, s, a, x);
      assert QueuedOk(cfg, s.procs, s.bar.sh.time, x);
    } else if a < MAX_PRIO + |s.cpus| {
      assert s.cpus[a - MAX_PRIO].proc == Some(x);
      assert HeldOk(cfg, s.procs, s.cpus[a - MAX_PRIO], s.bar.slots[a - MAX_PRIO], x);
    } else {
      assert FinishedOk(cfg, s.procs, x);
    }
  }

  // Read after write in the machine: once a process has run its instruction k, which reads where its
  // instruction j wrote d, the byte it read is the low byte of d, whatever was scheduled in between.
  lemma MachineReadsWhatItWrote(cfg: Config, steps: seq<Step>, codes: seq<seq<Inst>>, ramSize: nat, p: nat,
                                j: nat, k: nat, d: nat, r: nat, o: nat) returns (v: Paging.Byte)
    requires ConfigOk(cfg) && (InitInv(cfg); CanRun(cfg, InitSys(cfg), steps)) && Programs(cfg, codes)
    requires (InitInv(cfg); MemoryRuns(Run(cfg, InitSys(cfg), steps), codes, ramSize))
    requires (InitInv(cfg);
              var s := Run(cfg, InitSys(cfg), steps); p < |s.procs| && p < |codes| && s.procs[p].runs > k)
    requires j < k < |codes[p]| && codes[p][j] == WriteI(d, r, o) && codes[p][k] == ReadI(r, o)
    requires forall x :: j < x < k ==> I.LeavesByte(codes[p][x], r, o)
    ensures Inv(cfg, InitSys(cfg)) && (d - v as int) % 256 == 0
    ensures var mine := I.ReadBy(BytesRead(Run(cfg, InitSys(cfg), steps), codes, ramSize), p);
            I.ReadsIn(codes[p], 0, k) < |mine| && mine[I.ReadsIn(codes[p], 0, k)] == v
  {
    hide I.Turns, Programs;
    TurnsFromStart(cfg, steps);
    hide Inv, Run, CanRun, InitSys, R.SysOk, Runs.RunOk, Runs.Run;
    hide I.Reads, I.CallsOf, I.FreshSys, I.LeavesByte, I.ReadBy;
    var s := Run(cfg, InitSys(cfg), steps);
    v := I.ProgramReadsWhatItWrote(I.FreshSys(|codes|, ramSize), codes, Zeros(|codes|), Order(s.log), p, j, k, d, r, o);
  }
}
