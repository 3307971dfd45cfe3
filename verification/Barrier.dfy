/** The time-slot barrier of src/timer.c as a state machine: one timer thread and n device threads,
    interleaved at the granularity of their critical sections. Waiting on a condition variable
    releases the lock and joins its wait set; a signal takes the waiter out. */
module Barrier {

  // The variables the threads share. `timerOn` is the device whose event_cond the timer sleeps on,
  // or -1; `asleep[d]` says that device d sleeps on its timer_cond.
  datatype Shared = Shared(time: nat, done: seq<bool>, fsh: seq<bool>, timerOn: int, asleep: seq<bool>)

  // Where the timer thread is: at the head of its loop, about to look at device i, about to add one
  // to the time, about to release device i, about to test whether to break, or gone.
  datatype TimerPc = Top | Look(i: nat) | Tick | Release(j: nat) | Check | Exited

  // A device is outside the barrier, inside next_slot past its first section, or detached.
  datatype DevicePc = Work | Waiting | Gone

  // `slots[d]` counts the slots device d has ended.
  datatype State = State(sh: Shared, tpc: TimerPc, fshCount: nat, eventCount: nat, stop: bool,
                         pc: seq<DevicePc>, slots: seq<nat>)

  datatype Step =
    | TimerStep
    | Arrive(d: nat)
    | Recheck(d: nat)
    | Detach(d: nat)
    | StopTimer
    | SpuriousTimer
    | SpuriousDevice(d: nat)

  // ---------- The critical sections

  function SignalEvent(sh: Shared, d: nat): Shared {
    sh.(timerOn := if sh.timerOn == d then -1 else sh.timerOn)
  }

  // next_slot, first section
  function ArriveSection(sh: Shared, d: nat): Shared
    requires d < |sh.done|
  {
    SignalEvent(sh.(done := sh.done[d := true]), d)
  }

  // next_slot, second section: go to sleep if the slot is not over, else leave.
  function RecheckSection(sh: Shared, d: nat): Shared
    requires d < |sh.done| == |sh.asleep|
  {
    if sh.done[d] then sh.(asleep := sh.asleep[d := true]) else sh
  }

  // detach_event
  function DetachSection(sh: Shared, d: nat): Shared
    requires d < |sh.fsh|
  {
    SignalEvent(sh.(fsh := sh.fsh[d := true]), d)
  }

  // timer_routine, wait phase: sleep if the device has neither ended its slot nor detached.
  function LookSection(sh: Shared, i: nat): Shared
    requires i < |sh.done| == |sh.fsh|
  {
    if !sh.done[i] && !sh.fsh[i] then sh.(timerOn := i) else sh
  }

  // timer_routine, release phase
  function ReleaseSection(sh: Shared, i: nat): Shared
    requires i < |sh.done| == |sh.asleep|
  {
    sh.(done := sh.done[i := false], asleep := sh.asleep[i := false])
  }

  // ---------- The machine

  ghost predicate Shape(s: State) {
    |s.sh.done| == |s.sh.fsh| == |s.sh.asleep| == |s.pc| == |s.slots|
    && -1 <= s.sh.timerOn < |s.pc|
  }

  function Init(n: nat): State {
    State(Shared(0, seq(n, i => false), seq(n, i => false), -1, seq(n, i => false)),
          Top, 0, 0, false, seq(n, i => Work), seq(n, i => 0))
  }

  ghost predicate AllGone(s: State) {
    forall d :: 0 <= d < |s.pc| ==> s.pc[d] == Gone
  }

  ghost predicate Enabled(s: State, step: Step)
    requires Shape(s)
  {
    match step
    case TimerStep => s.tpc != Exited && s.sh.timerOn == -1
    case Arrive(d) => d < |s.pc| && s.pc[d] == Work
    case Recheck(d) => d < |s.pc| && s.pc[d] == Waiting && !s.sh.asleep[d]
    case Detach(d) => d < |s.pc| && s.pc[d] == Work
    case StopTimer => !s.stop && AllGone(s)
    case SpuriousTimer => s.sh.timerOn != -1
    case SpuriousDevice(d) => d < |s.pc| && s.sh.asleep[d]
  }

  function TimerNext(s: State): State
    requires |s.sh.done| == |s.sh.fsh| == |s.sh.asleep| == |s.pc|
  {
    var n := |s.pc|;
    match s.tpc
    case Top => if s.stop then s.(tpc := Exited) else s.(tpc := Look(0), fshCount := 0, eventCount := 0)
    case Look(i) =>
      if i >= n then s.(tpc := Tick)
      else
        var sh := LookSection(s.sh, i);
        if sh.timerOn == i then s.(sh := sh)
        else s.(sh := sh, tpc := Look(i + 1), eventCount := s.eventCount + 1,
                fshCount := s.fshCount + if s.sh.fsh[i] then 1 else 0)
    case Tick => s.(sh := s.sh.(time := s.sh.time + 1), tpc := Release(0))
    case Release(j) => if j >= n then s.(tpc := Check) else s.(sh := ReleaseSection(s.sh, j), tpc := Release(j + 1))
    case Check => if s.fshCount == s.eventCount then s.(tpc := Exited) else s.(tpc := Top)
    case Exited => s
  }

  ghost function Next(s: State, step: Step): State
    requires Shape(s) && Enabled(s, step)
  {
    match step
    case TimerStep => TimerNext(s)
    case Arrive(d) => s.(sh := ArriveSection(s.sh, d), pc := s.pc[d := Waiting], slots := s.slots[d := s.slots[d] + 1])
    case Recheck(d) => s.(sh := RecheckSection(s.sh, d), pc := s.pc[d := if s.sh.done[d] then Waiting else Work])
    case Detach(d) => s.(sh := DetachSection(s.sh, d), pc := s.pc[d := Gone])
    case StopTimer => s.(stop := true)
    case SpuriousTimer => s.(sh := s.sh.(timerOn := -1))
    case SpuriousDevice(d) => s.(sh := s.sh.(asleep := s.sh.asleep[d := false]))
  }

  // ---------- The invariant

  // Slots ended and the clock agree, one more if the device has already ended the current slot.
  predicate InStep(s: State, d: nat)
    requires d < |s.slots| && d < |s.sh.done|
  {
    s.slots[d] == s.sh.time + if s.sh.done[d] then 1 else 0
  }

  // What holds of device d whatever the timer is doing: who sleeps has a reason to.
  predicate DeviceOk(s: State, d: nat)
    requires d < |s.pc| == |s.sh.done| == |s.sh.fsh| == |s.sh.asleep|
  {
    && (s.sh.fsh[d] <==> s.pc[d] == Gone)
    && (s.sh.done[d] ==> s.pc[d] == Waiting)
    && (s.sh.asleep[d] ==> s.pc[d] == Waiting && s.sh.done[d])
  }

  predicate Ended(s: State, d: nat)
    requires d < |s.sh.done| == |s.sh.fsh|
  {
    s.sh.done[d] || s.sh.fsh[d]
  }

  // The timer's two counters after seeing i devices.
  ghost predicate Counted(s: State, i: nat)
    requires Shape(s) && i <= |s.pc|
  {
    s.eventCount == i && s.fshCount <= i && (s.fshCount == i ==> forall e :: 0 <= e < i ==> s.sh.fsh[e])
  }

  // A device that has not detached, outside the release phase or already released.
  predicate Paced(s: State, d: nat)
    requires d < |s.pc| == |s.slots| == |s.sh.done|
  {
    s.pc[d] != Gone ==> InStep(s, d)
  }

  // A device the release loop has still to reach: its last arrival is for the slot just ended.
  predicate Held(s: State, d: nat)
    requires d < |s.pc| == |s.slots| == |s.sh.done|
  {
    s.pc[d] != Gone ==> s.sh.done[d] && s.slots[d] == s.sh.time
  }

  // The timer sleeps only in its wait phase, on a device that gives it nothing to see.
  ghost predicate SleepOk(s: State)
    requires Shape(s)
  {
    s.sh.timerOn != -1 ==> s.tpc == Look(s.sh.timerOn) && !Ended(s, s.sh.timerOn)
  }

  ghost predicate PhaseOk(s: State)
    requires Shape(s)
  {
    match s.tpc
    case Top => forall d :: 0 <= d < |s.pc| ==> Paced(s, d)
    case Look(i) =>
      && i <= |s.pc| && Counted(s, i)
      && (forall d :: 0 <= d < |s.pc| ==> Paced(s, d))
      && (forall e :: 0 <= e < i ==> Ended(s, e))
    case Tick =>
      && Counted(s, |s.pc|)
      && (forall d :: 0 <= d < |s.pc| ==> Paced(s, d))
      && (forall e :: 0 <= e < |s.pc| ==> Ended(s, e))
    case Release(j) =>
      && j <= |s.pc| && Counted(s, |s.pc|)
      && (forall d :: 0 <= d < j ==> Paced(s, d))
      && (forall d :: j <= d < |s.pc| ==> Held(s, d))
    case Check => Counted(s, |s.pc|) && forall d :: 0 <= d < |s.pc| ==> Paced(s, d)
    case Exited => AllGone(s)
  }

  ghost predicate Inv(s: State) {
    && Shape(s)
    && (forall d :: 0 <= d < |s.pc| ==> DeviceOk(s, d))
    && (s.stop ==> AllGone(s))
    && SleepOk(s)
    && PhaseOk(s)
  }

  lemma InitInv(n: nat)
    ensures Inv(Init(n))
  {
  }

  lemma NextKeepsInv(s: State, step: Step)
    requires Inv(s) && Enabled(s, step)
    ensures Inv(Next(s, step))
  {
    var t := Next(s, step);
    DevicesStayOk(s, step);
    hide DeviceOk;
    if step.TimerStep? {
      TimerKeepsPhase(s);
    } else {
      DeviceKeepsPhase(s, step);
    }
  }

  lemma TimerLeavesDeviceOk(s: State, d: nat)
    requires Shape(s) && Enabled(s, TimerStep) && d < |s.pc| && DeviceOk(s, d)
    ensures DeviceOk(TimerNext(s), d)
  {
  }

  lemma DeviceStaysOk(s: State, step: Step, d: nat)
    requires Shape(s) && Enabled(s, step) && d < |s.pc| && DeviceOk(s, d)
    ensures DeviceOk(Next(s, step), d)
  {
    if step.TimerStep? {
      TimerLeavesDeviceOk(s, d);
    } else {
      hide TimerNext;
    }
  }

  lemma DevicesStayOk(s: State, step: Step)
    requires Inv(s) && Enabled(s, step)
    ensures forall d :: 0 <= d < |s.pc| ==> DeviceOk(Next(s, step), d)
    ensures Next(s, step).stop ==> AllGone(Next(s, step))
  {
    hide PhaseOk, DeviceOk;
    forall d | 0 <= d < |s.pc|
      ensures DeviceOk(Next(s, step), d)
    {
      DeviceStaysOk(s, step, d);
    }
  }

  lemma LookKeepsPhase(s: State)
    requires Inv(s) && Enabled(s, TimerStep) && s.tpc.Look?
    ensures var t := TimerNext(s); Shape(t) && PhaseOk(t) && SleepOk(t)
  {
    var t := TimerNext(s);
    hide DeviceOk, AllGone;
    forall d | 0 <= d < |s.pc| ensures Paced(t, d) { assert Paced(s, d); }
    forall e | 0 <= e < s.tpc.i ensures Ended(t, e) { assert Ended(s, e); }
  }

  lemma ReleaseKeepsPhase(s: State)
    requires Inv(s) && Enabled(s, TimerStep) && s.tpc.Release?
    ensures var t := TimerNext(s); Shape(t) && PhaseOk(t) && SleepOk(t)
  {
    var t, j := TimerNext(s), s.tpc.j;
    hide DeviceOk, AllGone;
    forall d | 0 <= d < j ensures Paced(t, d) { assert Paced(s, d); }
    forall d | j <= d < |s.pc| ensures if d == j then Paced(t, d) else Held(t, d) { assert Held(s, d); }
  }

  lemma TimerKeepsPhase(s: State)
    requires Inv(s) && Enabled(s, TimerStep)
    ensures var t := TimerNext(s); Shape(t) && PhaseOk(t) && SleepOk(t)
  {
    var t := TimerNext(s);
    match s.tpc
    case Look(i) => LookKeepsPhase(s);
    case Release(j) => ReleaseKeepsPhase(s);
    case Tick =>
      forall d | 0 <= d < |s.pc|
        ensures Held(t, d)
      {
        assert DeviceOk(s, d) && Paced(s, d) && Ended(s, d);
      }
    case Check =>
      TimerExitsLast(s);
      forall d | 0 <= d < |s.pc| ensures Paced(t, d) { assert Paced(s, d); }
    case Top =>
      forall d | 0 <= d < |s.pc| ensures Paced(t, d) { assert Paced(s, d); }
    case Exited =>
  }

  // A step of a device, or a wakeup, takes no arrival and no detachment back.
  lemma DeviceStaysPaced(s: State, step: Step, d: nat)
    requires Shape(s) && Enabled(s, step) && !step.TimerStep? && d < |s.pc| && DeviceOk(s, d)
    ensures var t := Next(s, step);
            && (Ended(s, d) ==> Ended(t, d))
            && (Paced(s, d) ==> Paced(t, d))
            && (Held(s, d) ==> Held(t, d))
            && (s.sh.fsh[d] ==> t.sh.fsh[d])
  {
    hide TimerNext;
  }

  // It leaves the timer where it is, and wakes it if it gives it something to see.
  lemma DeviceLeavesTimer(s: State, step: Step)
    requires Shape(s) && Enabled(s, step) && !step.TimerStep? && SleepOk(s)
    ensures var t := Next(s, step);
            && Shape(t) && |t.pc| == |s.pc| && SleepOk(t) && t.tpc == s.tpc
            && t.fshCount == s.fshCount && t.eventCount == s.eventCount
            && (AllGone(s) ==> AllGone(t))
  {
    hide TimerNext;
  }

  lemma DeviceKeepsPhase(s: State, step: Step)
    requires Inv(s) && Enabled(s, step) && !step.TimerStep?
    ensures var t := Next(s, step); Shape(t) && PhaseOk(t) && SleepOk(t)
  {
    var t := Next(s, step);
    forall d | 0 <= d < |s.pc|
      ensures Ended(s, d) ==> Ended(t, d)
      ensures Paced(s, d) ==> Paced(t, d)
      ensures Held(s, d) ==> Held(t, d)
      ensures s.sh.fsh[d] ==> t.sh.fsh[d]
    {
      DeviceStaysPaced(s, step, d);
    }
    DeviceLeavesTimer(s, step);
    hide DeviceOk, Ended, Paced, Held, Next, SleepOk, AllGone, Enabled;
  }

  // ---------- Safety

  // No device works in a slot that another device, still attached, has not reached; all attached
  // devices are within one slot of each other.
  lemma NoDeviceRunsAhead(s: State, d: nat, e: nat)
    requires Inv(s) && d < |s.pc| && e < |s.pc|
    requires s.pc[d] != Gone && s.pc[e] != Gone
    ensures s.pc[d] == Work ==> s.slots[d] <= s.slots[e]
    ensures s.slots[d] <= s.slots[e] + 1
  {
    assert DeviceOk(s, d) && DeviceOk(s, e);
    var j := if s.tpc.Release? then s.tpc.j else |s.pc|;
    assert if d < j then Paced(s, d) else Held(s, d);
    assert if e < j then Paced(s, e) else Held(s, e);
  }

  // A device outside the barrier reads as the current time the number of slots it has ended.
  lemma TimeIsExact(s: State, d: nat)
    requires Inv(s) && d < |s.pc| && s.pc[d] == Work
    ensures s.sh.time == s.slots[d]
  {
    assert DeviceOk(s, d);
    var j := if s.tpc.Release? then s.tpc.j else |s.pc|;
    assert if d < j then Paced(s, d) else Held(s, d);
  }

  // The release loop clears only arrivals of the slot just ended, and an arrival for the new slot
  // is never cleared by it.
  lemma NoArrivalIsWiped(s: State, d: nat)
    requires Inv(s) && s.tpc.Release? && d < |s.pc| && s.pc[d] != Gone
    ensures s.tpc.j == d ==> s.sh.done[d] && s.slots[d] == s.sh.time
    ensures s.slots[d] == s.sh.time + 1 ==> s.sh.done[d] && d < s.tpc.j
  {
    assert if d < s.tpc.j then Paced(s, d) else Held(s, d);
  }

  // The time moves on only when every device has ended the slot or detached, and then no device
  // is at work.
  lemma TickWaitsForAll(s: State, d: nat)
    requires Inv(s) && s.tpc == Tick && d < |s.pc|
    ensures s.pc[d] == Gone || (s.pc[d] == Waiting && s.slots[d] == s.sh.time + 1)
  {
    assert DeviceOk(s, d) && Ended(s, d) && Paced(s, d);
  }

  // ---------- No lost wakeup, no deadlock

  // A thread asleep with no wakeup on its way has a reason to sleep.
  lemma NoLostWakeup(s: State, d: nat)
    requires Inv(s) && d < |s.pc|
    ensures s.sh.asleep[d] ==> s.sh.done[d]
    ensures s.sh.timerOn == d ==> s.tpc == Look(d) && !s.sh.done[d] && !s.sh.fsh[d]
  {
    assert DeviceOk(s, d);
  }

  predicate Real(step: Step) { !step.SpuriousTimer? && !step.SpuriousDevice? }

  // Some thread can take a step, without help from a spurious wakeup, until all devices have
  // detached and the timer has exited.
  lemma NoDeadlock(s: State) returns (step: Step)
    requires Inv(s) && !(AllGone(s) && s.tpc == Exited)
    ensures Real(step) && Enabled(s, step)
  {
    if s.tpc != Exited && s.sh.timerOn == -1 {
      return TimerStep;
    }
    if d :| 0 <= d < |s.pc| && s.pc[d] == Work {
      return Arrive(d);
    }
    assert s.tpc != Exited;
    var d: nat := s.sh.timerOn;
    assert DeviceOk(s, d) && !Ended(s, d);
    return Recheck(d);
  }

  // The timer leaves its loop only after every device has detached.
  lemma TimerExitsLast(s: State)
    requires Inv(s)
    ensures s.tpc == Exited ==> AllGone(s)
    ensures s.tpc == Check && s.fshCount == s.eventCount ==> AllGone(s)
  {
    if s.tpc == Check && s.fshCount == s.eventCount {
      forall d | 0 <= d < |s.pc| ensures s.pc[d] == Gone { assert DeviceOk(s, d); }
    }
  }

  // The timer leaves its loop exactly when it is told to at the head of it, or when every device it has
  // looked at in the slot had detached; the first takes no time and looks at nobody.
  lemma TimerExitsExactly(s: State)
    requires Shape(s) && Enabled(s, TimerStep)
    ensures var t := Next(s, TimerStep);
            && (t.tpc == Exited <==> (s.tpc == Top && s.stop) || (s.tpc == Check && s.fshCount == s.eventCount))
            && (t.tpc == Exited ==> t == s.(tpc := Exited))
  {
  }

  // ---------- Every slot ends

  function DeviceRank(pc: DevicePc, done: bool, asleep: bool): nat {
    match pc
    case Gone => 0
    case Work => 3
    case Waiting => if !done then 4 else if asleep then 0 else 1
  }

  function TimerRank(tpc: TimerPc, n: nat, asleep: bool): nat {
    match tpc
    case Top => 2 * n + 2
    case Look(i) => if i > n then 0 else 2 * (n - i) + if asleep then 0 else 1
    case Tick => 0
    case Release(j) => if j > n then 0 else 2 * n + 4 + 5 * (n - j)
    case Check => 2 * n + 3
    case Exited => 0
  }

  function Ranks(s: State): seq<nat>
    requires |s.sh.done| == |s.sh.asleep| == |s.pc|
  {
    seq(|s.pc|, d requires 0 <= d < |s.pc| => DeviceRank(s.pc[d], s.sh.done[d], s.sh.asleep[d]))
  }

  function Sum(q: seq<nat>): nat {
    if q == [] then 0 else q[0] + Sum(q[1..])
  }

  lemma {:induction false} SumUpdate(q: seq<nat>, d: nat, v: nat)
    requires d < |q|
    ensures Sum(q[d := v]) + q[d] == Sum(q) + v
  {
    if d == 0 {
      assert q[d := v][1..] == q[1..];
    } else {
      assert q[d := v][1..] == q[1..][d - 1 := v];
      SumUpdate(q[1..], d - 1, v);
    }
  }

  lemma {:induction false} SumBound(q: seq<nat>, top: nat)
    requires forall i :: 0 <= i < |q| ==> q[i] <= top
    ensures Sum(q) <= top * |q|
  {
    if q != [] {
      SumBound(q[1..], top);
    }
  }

  // How many more steps the current slot can take.
  function Rank(s: State): nat
    requires |s.sh.done| == |s.sh.asleep| == |s.pc|
  {
    TimerRank(s.tpc, |s.pc|, s.sh.timerOn != -1) + Sum(Ranks(s)) + if s.stop then 0 else 1
  }

  lemma RankBound(s: State)
    requires Inv(s)
    ensures Rank(s) <= 11 * |s.pc| + 5
  {
    SumBound(Ranks(s), 4);
  }

  lemma TimerUsesRank(s: State)
    requires Inv(s) && Enabled(s, TimerStep) && s.tpc != Tick
    ensures Rank(TimerNext(s)) < Rank(s)
  {
    var t := TimerNext(s);
    if s.tpc.Look? {
      assert s.tpc.i <= |s.pc|;
    }
    if s.tpc.Release? {
      assert s.tpc.j <= |s.pc|;
    }
    hide Inv, Sum;
    if s.tpc.Release? && s.tpc.j < |s.pc| {
      OneDeviceRank(s, t, s.tpc.j);
    } else {
      assert Ranks(t) == Ranks(s);
    }
  }

  lemma DeviceUsesRank(s: State, step: Step, d: nat)
    requires Inv(s) && Enabled(s, step) && d < |s.pc|
    requires step == Arrive(d) || step == Recheck(d) || step == Detach(d)
    ensures Rank(Next(s, step)) < Rank(s)
  {
    var t := Next(s, step);
    assert DeviceOk(s, d);
    if s.tpc.Look? {
      assert s.tpc.i <= |s.pc|;
    }
    hide Inv, Sum;
    OneDeviceRank(s, t, d);
  }

  // Every real step but the tick itself uses up some rank.
  lemma StepUsesRank(s: State, step: Step)
    requires Inv(s) && Enabled(s, step) && Real(step)
    requires !(step == TimerStep && s.tpc == Tick)
    ensures Inv(Next(s, step)) && Rank(Next(s, step)) < Rank(s)
  {
    NextKeepsInv(s, step);
    hide Inv, Sum;
    match step
    case TimerStep => TimerUsesRank(s);
    case StopTimer => assert Ranks(Next(s, step)) == Ranks(s);
    case Arrive(d) => DeviceUsesRank(s, step, d);
    case Recheck(d) => DeviceUsesRank(s, step, d);
    case Detach(d) => DeviceUsesRank(s, step, d);
  }

  lemma OneDeviceRank(s: State, t: State, d: nat)
    requires Shape(s) && Shape(t) && |t.pc| == |s.pc| && d < |s.pc|
    requires forall e :: 0 <= e < |s.pc| && e != d ==>
               t.pc[e] == s.pc[e] && t.sh.done[e] == s.sh.done[e] && t.sh.asleep[e] == s.sh.asleep[e]
    ensures Sum(Ranks(t)) + Ranks(s)[d] == Sum(Ranks(s)) + Ranks(t)[d]
  {
    assert Ranks(t) == Ranks(s)[d := Ranks(t)[d]];
    SumUpdate(Ranks(s), d, Ranks(t)[d]);
  }

  // ---------- Runs

  ghost predicate CanRun(s: State, steps: seq<Step>)
    requires Inv(s)
    decreases |steps|
  {
    steps == [] || (Enabled(s, steps[0]) && (NextKeepsInv(s, steps[0]); CanRun(Next(s, steps[0]), steps[1..])))
  }

  ghost function Run(s: State, steps: seq<Step>): State
    requires Inv(s) && CanRun(s, steps)
    decreases |steps|
  {
    if steps == [] then s else (NextKeepsInv(s, steps[0]); Run(Next(s, steps[0]), steps[1..]))
  }

  lemma StepTime(s: State, step: Step)
    requires Inv(s) && Enabled(s, step)
    ensures Shape(s) && Inv(Next(s, step)) && |Next(s, step).pc| == |s.pc|
    ensures Next(s, step).sh.time == s.sh.time + if step == TimerStep && s.tpc == Tick then 1 else 0
  {
    NextKeepsInv(s, step);
  }

  lemma {:induction false} RunKeepsInv(s: State, steps: seq<Step>)
    requires Inv(s) && CanRun(s, steps)
    ensures Inv(Run(s, steps)) && Run(s, steps).sh.time >= s.sh.time
    decreases |steps|
  {
    if steps != [] {
      StepTime(s, steps[0]);
      hide Inv, Next, Enabled;
      RunKeepsInv(Next(s, steps[0]), steps[1..]);
    }
  }

  // A slot ends within 11n + 5 steps: no run of real steps is longer than that without the time
  // moving on.
  lemma {:induction false} SlotEnds(s: State, steps: seq<Step>)
    requires Inv(s) && CanRun(s, steps)
    requires forall i :: 0 <= i < |steps| ==> Real(steps[i])
    requires Run(s, steps).sh.time == s.sh.time
    ensures Shape(s) && |steps| <= Rank(s) <= 11 * |s.pc| + 5
    decreases |steps|
  {
    RankBound(s);
    if steps != [] {
      StepTime(s, steps[0]);
      hide Inv, Next, Enabled, Rank;
      RunKeepsInv(Next(s, steps[0]), steps[1..]);
      StepUsesRank(s, steps[0]);
      SlotEnds(Next(s, steps[0]), steps[1..]);
    }
  }
}
