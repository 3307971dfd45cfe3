/** One instruction of src/cpu.c: the program counter and the dispatch to the memory library. */
module Cpu {
  import opened Pte
  import opened Regions
  import opened Paging
  import opened FlatStore
  import opened Refinement
  import opened Libmem

  predicate IsMemory(inst: Inst) { !inst.Calc? }

  function OpOf(inst: Inst): Op
    requires IsMemory(inst)
  {
    match inst
    case AllocI(size, reg) => AllocOp(reg, size)
    case FreeI(reg) => FreeOp(reg)
    case ReadI(source, offset) => ReadOp(source, offset)
    case WriteI(data, destination, offset) => WriteOp(destination, offset, FromRegister(data))
  }

  // The process is process p of the system s.
  ghost predicate IsProc(proc: Pcb, s: Sys, p: nat)
    reads proc, proc.symrgtbl, proc.pgd, proc.mram, proc.mram.storage, proc.activeMswp
  {
    proc.Valid() && p in s.procs && proc.State() == s.procs[p] && proc.mram.Dev() == s.ram
  }

  // Inside a live region the page is present, so an access changes no page table and hits RAM at
  // the address the system step uses.
  lemma AccessIsStep(proc: Pcb, s: Sys, p: nat, rgid: nat, offset: nat)
    requires IsProc(proc, s, p) && SysOk(s) && Enabled(s, p, ReadOp(rgid, offset))
    ensures rgid < MAX_SYMTBL
    ensures var addr := proc.symrgtbl[rgid].start + offset;
            && proc.CanAccess(addr) && Pgn(addr) < |proc.pgd[..]|
            && GetPage(proc.State(), proc.mram.storage[..], proc.activeMswp.Dev(), Pgn(addr))
               == (proc.State(), proc.activeMswp.Dev(), Fpn(proc.pgd[Pgn(addr)]))
            && Fpn(proc.pgd[Pgn(addr)]) * PAGE_SIZE + Offst(addr) == Phys(s.procs[p].pgd, addr)
            && Phys(s.procs[p].pgd, addr) < |s.ram.storage|
  {
    var addr := proc.symrgtbl[rgid].start + offset;
    assert proc.symrgtbl[rgid] == s.procs[p].heap.sym[rgid];
    AccessInBounds(s, p, addr);
  }

  // liballoc
  method Liballoc(proc: Pcb, size: nat, reg: nat, ghost s: Sys, ghost p: nat) returns (val: int)
    requires IsProc(proc, s, p) && SysOk(s) && Enabled(s, p, AllocOp(reg, size))
    modifies proc`vmEnd, proc`sbrk, proc`vmFreergList, proc`fifoPgn
    modifies proc.pgd, proc.symrgtbl, proc.mram`freeFpList, proc.mram.storage, proc.activeMswp.storage
    ensures var (t, r) := Step(s, p, AllocOp(reg, size));
            && IsProc(proc, t, p)
            && val == 0 && reg < proc.symrgtbl.Length && r == Address(proc.symrgtbl[reg].start)
  {
    hide AllocMem, Alloc, GrowthPages, Hazard, HeapOk, Partition;
    GrowthRoom(s.procs[p], s.ram, size);
    var addr;
    val, addr := proc.AllocRegion(reg, size);
    AllocSlot(s.procs[p], s.ram, reg, size);
  }

  lemma AllocSlot(mm: Mm, ram: Device, rgid: nat, size: nat)
    requires rgid < |mm.heap.sym| && RoomToGrow(mm, ram, size)
    ensures var (mm', ram', a) := AllocMem(mm, ram, rgid, size);
            |mm'.heap.sym| == |mm.heap.sym| && mm'.heap.sym[rgid].start == a
  {
    hide MapPages;
  }

  // libfree
  method Libfree(proc: Pcb, reg: nat, ghost s: Sys, ghost p: nat) returns (val: int)
    requires IsProc(proc, s, p) && SysOk(s)
    modifies proc`vmFreergList, proc.symrgtbl
    ensures var (t, r) := Step(s, p, FreeOp(reg));
            IsProc(proc, t, p) && r == Code(val)
  {
    hide Free, HeapOk, Partition;
    val := proc.FreeRegion(reg);
    assert proc.pgd[..] == s.procs[p].pgd;
  }

  // libread: `seen` is the value reported.
  method Libread(proc: Pcb, source: nat, offset: nat, ghost s: Sys, ghost p: nat) returns (val: int, seen: Byte)
    requires IsProc(proc, s, p) && SysOk(s) && Enabled(s, p, ReadOp(source, offset))
    modifies proc`vmEnd, proc`sbrk, proc`vmFreergList, proc`fifoPgn, proc.pgd, proc.mram`freeFpList, proc.mram.storage
    modifies proc.activeMswp`freeFpList, proc.activeMswp.storage
    ensures IsProc(proc, s, p)
    ensures val == 0 && Step(s, p, ReadOp(source, offset)) == (s, Data(seen))
  {
    hide SysOk;
    AccessIsStep(proc, s, p, source, offset);
    hide GetPage, Phys, Enabled;
    val, seen := proc.ReadRegion(source, offset);
  }

  // libwrite
  method Libwrite(proc: Pcb, data: Byte, destination: nat, offset: nat, ghost s: Sys, ghost p: nat) returns (val: int)
    requires IsProc(proc, s, p) && SysOk(s) && Enabled(s, p, WriteOp(destination, offset, data))
    modifies proc`vmEnd, proc`sbrk, proc`vmFreergList, proc`fifoPgn, proc.pgd, proc.mram`freeFpList, proc.mram.storage
    modifies proc.activeMswp`freeFpList, proc.activeMswp.storage
    ensures var (t, r) := Step(s, p, WriteOp(destination, offset, data));
            IsProc(proc, t, p) && r == Code(val)
  {
    hide SysOk;
    AccessIsStep(proc, s, p, destination, offset);
    hide GetPage, Phys, Enabled;
    val := proc.WriteRegion(destination, offset, data);
  }

  // The instruction a process is at, when it is a memory operation.
  predicate AtMemory(code: seq<Inst>, pc: nat) { pc < |code| && IsMemory(code[pc]) }

  function OpAt(code: seq<Inst>, pc: nat): Op
    requires AtMemory(code, pc)
  {
    OpOf(code[pc])
  }

  function NextPc(code: seq<Inst>, pc: nat): nat { if pc < |code| then pc + 1 else pc }

  ghost predicate CanRun(s: Sys, p: nat, code: seq<Inst>, pc: nat) {
    SysOk(s) && (AtMemory(code, pc) ==> Enabled(s, p, OpAt(code, pc)))
  }

  // The system after the instruction: a step if it is a memory operation, else the same.
  ghost function After(s: Sys, p: nat, code: seq<Inst>, pc: nat): Sys
    requires CanRun(s, p, code, pc)
  {
    if AtMemory(code, pc) then Step(s, p, OpAt(code, pc)).0 else s
  }

  // What the CPU reports is the outcome of that step: the byte read, or the return code. Any other
  // instruction reports 1.
  ghost predicate Reported(s: Sys, p: nat, code: seq<Inst>, pc: nat, stat: int, seen: Byte)
    requires CanRun(s, p, code, pc)
  {
    if AtMemory(code, pc) then Reports(Step(s, p, OpAt(code, pc)).1, stat, seen) else stat == 1
  }

  predicate Reports(r: Outcome, stat: int, seen: Byte) {
    match r
    case Data(value) => stat == 0 && seen == value
    case Code(code) => stat == code
    case Address(_) => stat == 0
  }

  // The dispatch of run to the memory calls.
  method Execute(proc: Pcb, ins: Inst, ghost s: Sys, ghost p: nat) returns (stat: int, seen: Byte)
    requires IsProc(proc, s, p) && SysOk(s) && IsMemory(ins) && Enabled(s, p, OpOf(ins))
    modifies proc`vmEnd, proc`sbrk, proc`vmFreergList, proc`fifoPgn
    modifies proc.pgd, proc.symrgtbl, proc.mram`freeFpList, proc.mram.storage
    modifies proc.activeMswp`freeFpList, proc.activeMswp.storage
    ensures var (t, r) := Step(s, p, OpOf(ins)); IsProc(proc, t, p) && Reports(r, stat, seen)
  {
    hide SysOk, Enabled, Step;
    seen := 0;
    match ins {
      case AllocI(size, reg) => stat := Liballoc(proc, size, reg, s, p);
      case FreeI(reg) => stat := Libfree(proc, reg, s, p);
      case ReadI(source, offset) => stat, seen := Libread(proc, source, offset, s, p);
      case WriteI(data, destination, offset) =>
        stat := Libwrite(proc, FromRegister(data), destination, offset, s, p);
    }
  }

  // run: step the program counter and execute one instruction. Against any system the process is
  // part of, the effect is the system's step.
  method Run(proc: Pcb, ghost s: Sys, ghost p: nat) returns (stat: int, seen: Byte)
    requires IsProc(proc, s, p) && CanRun(s, p, proc.code, proc.pc)
    modifies proc, proc.pgd, proc.symrgtbl, proc.mram`freeFpList, proc.mram.storage
    modifies proc.activeMswp`freeFpList, proc.activeMswp.storage
    ensures proc.pc == NextPc(proc.code, old(proc.pc))
    ensures IsProc(proc, After(s, p, proc.code, old(proc.pc)), p)
    ensures Reported(s, p, proc.code, old(proc.pc), stat, seen)
    ensures old(proc.pc) >= |proc.code| || proc.code[old(proc.pc)] == Calc ==> stat == 1
  {
    hide Step, SysOk, Enabled, Reports;
    seen := 0;
    if proc.pc >= |proc.code| {
      return 1, seen;
    }
    var ins := proc.code[proc.pc];
    proc.pc := proc.pc + 1;
    stat := 1;
    if IsMemory(ins) {
      stat, seen := Execute(proc, ins, s, p);
    }
  }
}
