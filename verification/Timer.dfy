/** The critical sections of src/timer.c on the objects they update. Each one, run under its lock,
    does to the shared variables what the barrier machine's step does. */
module Timer {
  import opened Barrier

  // timer_id_t; `asleep` stands for the wait set of its timer_cond.
  class TimerId {
    var done: bool
    var fsh: bool
    var asleep: bool

    constructor ()
      ensures !done && !fsh && !asleep
    {
      done, fsh, asleep := false, false, false;
    }
  }

  // The globals of timer.c; `timerOn` stands for the wait sets of the event_conds.
  class Clock {
    var devList: seq<TimerId>
    var time: nat
    var timerStarted: bool
    var timerOn: int

    ghost predicate Valid()
      reads this
    {
      && -1 <= timerOn < |devList|
      && forall i, j :: 0 <= i < j < |devList| ==> devList[i] != devList[j]
    }

    ghost function Sh(): Shared
      reads this, devList
    {
      Shared(time,
             seq(|devList|, i requires 0 <= i < |devList| reads this, devList => devList[i].done),
             seq(|devList|, i requires 0 <= i < |devList| reads this, devList => devList[i].fsh),
             timerOn,
             seq(|devList|, i requires 0 <= i < |devList| reads this, devList => devList[i].asleep))
    }

    constructor ()
      ensures Valid() && Sh() == Init(0).sh && !timerStarted
    {
      devList := [];
      time := 0;
      timerStarted := false;
      timerOn := -1;
    }

    // attach_event: only before the timer starts; then the shared state is that of a fresh barrier
    // with one device more.
    method AttachEvent() returns (id: TimerId?)
      requires Valid()
      modifies this`devList
      ensures Valid()
      ensures timerStarted ==> id == null && devList == old(devList)
      ensures !timerStarted ==> id != null && fresh(id) && devList == [id] + old(devList)
      ensures !timerStarted && old(Sh()) == Init(|old(devList)|).sh ==> Sh() == Init(|devList|).sh
    {
      if timerStarted {
        return null;
      }
      ghost var was := Sh();
      var container := new TimerId();
      devList := [container] + devList;
      assert Sh().done == [false] + was.done && Sh().fsh == [false] + was.fsh && Sh().asleep == [false] + was.asleep;
      return container;
    }

    method StartTimer()
      modifies this`timerStarted
      ensures timerStarted
    {
      timerStarted := true;
    }

    // current_time
    method CurrentTime() returns (t: nat)
      ensures t == Sh().time
    {
      t := time;
    }

    method SignalEventCond(d: nat)
      requires Valid() && d < |devList|
      modifies this`timerOn
      ensures Valid() && Sh() == SignalEvent(old(Sh()), d)
    {
      if timerOn == d {
        timerOn := -1;
      }
    }

    // next_slot, under event_lock
    method NextSlotArrive(d: nat)
      requires Valid() && d < |devList|
      modifies devList[d], this`timerOn
      ensures Valid() && Sh() == ArriveSection(old(Sh()), d)
    {
      devList[d].done := true;
      SignalEventCond(d);
    }

    // next_slot, under timer_lock: one look at the guard; returns whether the device goes on.
    method NextSlotRecheck(d: nat) returns (goesOn: bool)
      requires Valid() && d < |devList|
      modifies devList[d]
      ensures Valid() && Sh() == RecheckSection(old(Sh()), d)
      ensures goesOn == !Sh().done[d]
    {
      if devList[d].done {
        devList[d].asleep := true;
        return false;
      }
      return true;
    }

    // detach_event
    method DetachEvent(d: nat)
      requires Valid() && d < |devList|
      modifies devList[d], this`timerOn
      ensures Valid() && Sh() == DetachSection(old(Sh()), d)
    {
      devList[d].fsh := true;
      SignalEventCond(d);
    }

    // timer_routine, wait phase, under event_lock: one look at the guard.
    method TimerLook(i: nat) returns (seen: bool, finished: bool)
      requires Valid() && i < |devList|
      modifies this`timerOn
      ensures Valid() && Sh() == LookSection(old(Sh()), i)
      ensures seen == (Sh().done[i] || Sh().fsh[i]) && finished == Sh().fsh[i]
    {
      var id := devList[i];
      if !id.done && !id.fsh {
        timerOn := i;
        return false, false;
      }
      return true, id.fsh;
    }

    // timer_routine, release phase, under timer_lock
    method TimerRelease(i: nat)
      requires Valid() && i < |devList|
      modifies devList[i]
      ensures Valid() && Sh() == ReleaseSection(old(Sh()), i)
    {
      devList[i].done := false;
      devList[i].asleep := false;
    }

    // One step of timer_routine, given where it is: the machine's step on the whole timer state.
    method TimerStep(tpc: TimerPc, fsh: nat, event: nat, timerStop: bool, ghost s: State)
      returns (tpc': TimerPc, fsh': nat, event': nat)
      requires Valid() && timerOn == -1 && tpc != Exited
      requires s.sh == Sh() && s.tpc == tpc && s.fshCount == fsh && s.eventCount == event && s.stop == timerStop
      requires |s.pc| == |devList|
      modifies this`time, this`timerOn, set i | 0 <= i < |devList| :: devList[i]
      ensures Valid()
      ensures TimerNext(s) == s.(sh := Sh(), tpc := tpc', fshCount := fsh', eventCount := event')
    {
      tpc', fsh', event' := tpc, fsh, event;
      match tpc {
        case Top =>
          if timerStop {
            tpc' := Exited;
          } else {
            tpc', fsh', event' := Look(0), 0, 0;
          }
        case Look(i) =>
          if i >= |devList| {
            tpc' := Tick;
          } else {
            var seen, finished := TimerLook(i);
            if seen {
              tpc', event' := Look(i + 1), event + 1;
              if finished {
                fsh' := fsh + 1;
              }
            }
          }
        case Tick =>
          time := time + 1;
          tpc' := Release(0);
        case Release(j) =>
          if j >= |devList| {
            tpc' := Check;
          } else {
            TimerRelease(j);
            tpc' := Release(j + 1);
          }
        case Check =>
          tpc' := if fsh == event then Exited else Top;
        case Exited =>
      }
    }
  }
}
