/** Runs whose accesses stay inside live regions, seen from the machine in which pages may fault: they
    are runs of that machine, with the same memory, and no page ever leaves RAM. */
module NoFaults {
  import opened Pte
  import opened Regions
  import opened Paging
  import opened FlatStore
  import opened Faults
  import opened FaultRuns
  import R = Refinement
  import Runs

  // The call as an action; a region and an offset become an address.
  function ActionOf(s: R.Sys, p: nat, op: Op): Action
    requires op.ReadOp? || op.WriteOp? ==> p in s.procs && op.rgid < |s.procs[p].heap.sym|
  {
    match op
    case Spawn => Start(p)
    case AllocOp(rgid, size) => Allocate(p, rgid, size)
    case FreeOp(slot) => Release(p, slot)
    case ReadOp(rgid, offset) => Load(p, s.procs[p].heap.sym[rgid].start + offset)
    case WriteOp(rgid, offset, value) => Store(p, s.procs[p].heap.sym[rgid].start + offset, value)
  }

  // The same memory, and nothing swapped out.
  ghost predicate Same(s: R.Sys, b: Book) {
    && b.procs == s.procs && b.ram == s.ram
    && b.victims.Keys == b.procs.Keys && forall p :: p in b.procs ==> b.victims[p] == []
  }

  lemma StartIsStep(s: R.Sys, b: Book, p: nat)
    requires R.SysOk(s) && BookOk(b) && Same(s, b) && R.Enabled(s, p, Spawn)
    ensures Ready(b, Start(p))
    ensures var c := Do(b, Start(p)); Same(R.Step(s, p, Spawn).0, c) && c.swp == b.swp
  {
    hide BookOk;
  }

  lemma AllocateIsStep(s: R.Sys, b: Book, p: nat, rgid: nat, size: nat)
    requires R.SysOk(s) && BookOk(b) && Same(s, b) && R.Enabled(s, p, AllocOp(rgid, size))
    ensures Ready(b, Allocate(p, rgid, size))
    ensures var c := Do(b, Allocate(p, rgid, size)); Same(R.Step(s, p, AllocOp(rgid, size)).0, c) && c.swp == b.swp
  {
    hide Layout, BookOk, AllocMem, Pgn;
    assert |s.procs[p].heap.sym| == MAX_SYMTBL;
    hide BookOk, R.Partition, HeapOk, Hazard, R.RamOk;
    R.GrowthRoom(s.procs[p], s.ram, size);
    hide AllocMem, GrowthPages, RoomToGrow;
  }

  lemma ReleaseIsStep(s: R.Sys, b: Book, p: nat, slot: int)
    requires R.SysOk(s) && BookOk(b) && Same(s, b) && R.Enabled(s, p, FreeOp(slot))
    ensures Ready(b, Release(p, slot))
    ensures var c := Do(b, Release(p, slot)); Same(R.Step(s, p, FreeOp(slot)).0, c) && c.swp == b.swp
  {
    hide BookOk, R.SysOk, Free;
  }

  // Inside a live region the page is present, so the access does not fault.
  lemma PresentDoesNotFault(b: Book, p: nat, addr: nat)
    requires BookOk(b) && p in b.procs && Pgn(addr) < |b.procs[p].pgd| && Present(b.procs[p].pgd[Pgn(addr)])
    requires Phys(b.procs[p].pgd, addr) < |b.ram.storage|
    ensures CanTouch(b, p, addr)
    ensures Touch(b, p, addr) == (b, Fpn(b.procs[p].pgd[Pgn(addr)]))
  {
    hide BookOk, Pgn, Offst, Fpn, Present, CanFault;
  }

  lemma RegionInHeap(s: R.Sys, p: nat, rgid: nat, offset: nat)
    requires R.SysOk(s) && R.Enabled(s, p, ReadOp(rgid, offset))
    ensures rgid < |s.procs[p].heap.sym| && s.procs[p].heap.sym[rgid].start + offset < s.procs[p].heap.sbrk
  {
    hide R.Partition, R.RamOk;
  }

  lemma LoadIsStep(s: R.Sys, b: Book, p: nat, rgid: nat, offset: nat)
    requires R.SysOk(s) && BookOk(b) && Same(s, b) && R.Enabled(s, p, ReadOp(rgid, offset))
    ensures rgid < |s.procs[p].heap.sym| && Ready(b, ActionOf(s, p, ReadOp(rgid, offset)))
    ensures var c := Do(b, ActionOf(s, p, ReadOp(rgid, offset)));
            Same(R.Step(s, p, ReadOp(rgid, offset)).0, c) && c.swp == b.swp
  {
    hide BookOk, R.SysOk, CanTouch, Touch;
    RegionInHeap(s, p, rgid, offset);
    var addr := s.procs[p].heap.sym[rgid].start + offset;
    R.AccessInBounds(s, p, addr);
    PresentDoesNotFault(b, p, addr);
  }

  lemma StoreIsStep(s: R.Sys, b: Book, p: nat, rgid: nat, offset: nat, value: Byte)
    requires R.SysOk(s) && BookOk(b) && Same(s, b) && R.Enabled(s, p, WriteOp(rgid, offset, value))
    ensures rgid < |s.procs[p].heap.sym| && Ready(b, ActionOf(s, p, WriteOp(rgid, offset, value)))
    ensures var c := Do(b, ActionOf(s, p, WriteOp(rgid, offset, value)));
            Same(R.Step(s, p, WriteOp(rgid, offset, value)).0, c) && c.swp == b.swp
  {
    hide BookOk, R.SysOk, CanTouch, Touch;
    RegionInHeap(s, p, rgid, offset);
    var addr := s.procs[p].heap.sym[rgid].start + offset;
    R.AccessInBounds(s, p, addr);
    PresentDoesNotFault(b, p, addr);
  }

  // One call inside live regions is one action, on the same memory.
  lemma CallIsAction(s: R.Sys, b: Book, p: nat, op: Op)
    requires R.SysOk(s) && BookOk(b) && Same(s, b) && R.Enabled(s, p, op)
    ensures op.ReadOp? || op.WriteOp? ==> p in s.procs && op.rgid < |s.procs[p].heap.sym|
    ensures Ready(b, ActionOf(s, p, op))
    ensures var c := Do(b, ActionOf(s, p, op)); Same(R.Step(s, p, op).0, c) && c.swp == b.swp
  {
    hide R.SysOk, BookOk, Same, R.Step, Do, Ready;
    match op
    case Spawn => StartIsStep(s, b, p);
    case AllocOp(rgid, size) => AllocateIsStep(s, b, p, rgid, size);
    case FreeOp(slot) => ReleaseIsStep(s, b, p, slot);
    case ReadOp(rgid, offset) => LoadIsStep(s, b, p, rgid, offset);
    case WriteOp(rgid, offset, value) => StoreIsStep(s, b, p, rgid, offset, value);
  }

  ghost function ActionsOf(s: R.Sys, calls: seq<Runs.Call>): seq<Action>
    requires R.SysOk(s) && Runs.RunOk(s, calls)
    decreases |calls|
  {
    if calls == [] then []
    else
      R.StepRefines(s, calls[0].p, calls[0].op);
      [ActionOf(s, calls[0].p, calls[0].op)] + ActionsOf(R.Step(s, calls[0].p, calls[0].op).0, calls[1..])
  }

  // A run inside live regions is a run of the faulting machine that never faults: the memory comes out
  // the same, no page was swapped out, and the swap device was never touched.
  lemma {:induction false} RegionRunsNeverFault(s: R.Sys, b: Book, calls: seq<Runs.Call>)
    requires R.SysOk(s) && Runs.RunOk(s, calls) && RunInv(b) && Same(s, b)
    ensures CanRun(b, ActionsOf(s, calls))
    ensures var c := RunAll(b, ActionsOf(s, calls));
            Same(Runs.Run(s, calls).0, c) && c.swp == b.swp
    decreases |calls|
  {
    hide R.SysOk, RunInv, BookOk, Same, R.Step, R.Enabled, Do, Ready;
    if calls != [] {
      var p, op := calls[0].p, calls[0].op;
      R.StepRefines(s, p, op);
      BooksAreOk(b);
      CallIsAction(s, b, p, op);
      DoKeepsRunInv(b, ActionOf(s, p, op));
      RegionRunsNeverFault(R.Step(s, p, op).0, Do(b, ActionOf(s, p, op)), calls[1..]);
      FirstAction(b, ActionOf(s, p, op), ActionsOf(R.Step(s, p, op).0, calls[1..]));
    }
  }

  lemma BooksAreOk(b: Book)
    requires RunInv(b)
    ensures BookOk(b)
  {
    hide BookOk;
  }
}
