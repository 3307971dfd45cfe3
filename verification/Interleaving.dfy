/** Several processes on one RAM, in place: their objects share the devices, the CPU threads execute an
    instruction of one or another in any order, and each process sees its own flat store only. */
module Interleaving {
  import opened Pte
  import opened Regions
  import opened Paging
  import opened FlatStore
  import opened Refinement
  import Runs
  import opened MemphyDevice
  import opened Libmem
  import opened Cpu

  // The objects are different, and so are their tables; they share the two devices.
  ghost predicate Separate(procs: seq<Pcb>, ram: Memphy, swp: Memphy) {
    && (forall i :: 0 <= i < |procs| ==> procs[i].mram == ram && procs[i].activeMswp == swp)
    && (forall i, j :: 0 <= i < j < |procs| ==> Differs(procs[i], procs[j]))
  }

  predicate Differs(a: Pcb, b: Pcb) { a != b && a.pgd != b.pgd && a.symrgtbl != b.symrgtbl }

  ghost function Objects(procs: seq<Pcb>, ram: Memphy, swp: Memphy): set<object>
    reads ram, swp
  {
    {ram, ram.storage, swp, swp.storage} + (set i | 0 <= i < |procs| :: procs[i])
    + (set i | 0 <= i < |procs| :: procs[i].pgd) + (set i | 0 <= i < |procs| :: procs[i].symrgtbl)
  }

  lemma StepLeavesOthers(s: Sys, p: nat, op: Op, q: nat)
    requires SysOk(s) && Enabled(s, p, op) && q in s.procs && q != p
    ensures var t := Step(s, p, op).0; q in t.procs && t.procs[q] == s.procs[q]
  {
    hide SysOk, AllocMem, Free, Phys;
  }

  lemma AfterLeavesOthers(s: Sys, p: nat, code: seq<Inst>, pc: nat)
    requires CanRun(s, p, code, pc)
    ensures var t := After(s, p, code, pc);
            SysOk(t) && forall q :: q in s.procs && q != p ==> q in t.procs && t.procs[q] == s.procs[q]
  {
    hide SysOk, Enabled, Step;
    if AtMemory(code, pc) {
      StepRefines(s, p, OpAt(code, pc));
      forall q | q in s.procs && q != p
        ensures q in After(s, p, code, pc).procs && After(s, p, code, pc).procs[q] == s.procs[q]
      {
        StepLeavesOthers(s, p, OpAt(code, pc), q);
      }
    }
  }

  // What a turn of `proc` may change is not part of the object or the tables of `other`.
  ghost predicate Beside(proc: Pcb, other: Pcb)
    reads proc.mram, proc.activeMswp
  {
    && other != proc && other.pgd != proc.pgd && other.symrgtbl != proc.symrgtbl
    && other.mram == proc.mram && other.activeMswp == proc.activeMswp
    && other.pgd as object != proc.mram.storage && other.pgd as object != proc.activeMswp.storage
  }

  lemma AllBeside(procs: seq<Pcb>, ram: Memphy, swp: Memphy, s: Sys, i: nat)
    requires Separate(procs, ram, swp) && i < |procs|
    requires forall j :: 0 <= j < |procs| ==> IsProc(procs[j], s, j)
    ensures forall j :: 0 <= j < |procs| && j != i ==> Beside(procs[i], procs[j])
  {
    forall j | 0 <= j < |procs| && j != i
      ensures Beside(procs[i], procs[j])
    {
      assert IsProc(procs[j], s, j) && IsProc(procs[i], s, i);
      assert i < j ==> Differs(procs[i], procs[j]);
      assert j < i ==> Differs(procs[j], procs[i]);
    }
  }

  // One instruction of process i: the system makes its step, and every object is again its process.
  method Turn(procs: seq<Pcb>, ram: Memphy, swp: Memphy, proc: Pcb, i: nat, ghost s: Sys)
    returns (stat: int, seen: Byte)
    requires Separate(procs, ram, swp) && i < |procs| && proc == procs[i]
    requires CanRun(s, i, proc.code, proc.pc) && forall j :: 0 <= j < |procs| ==> IsProc(procs[j], s, j)
    modifies proc, proc.pgd, proc.symrgtbl, proc.mram`freeFpList, proc.mram.storage
    modifies proc.activeMswp`freeFpList, proc.activeMswp.storage
    ensures var t := After(s, i, proc.code, old(proc.pc)); forall j :: 0 <= j < |procs| ==> IsProc(procs[j], t, j)
    ensures forall j :: 0 <= j < |procs| ==>
              procs[j].pc == if j == i then NextPc(proc.code, old(proc.pc)) else old(procs[j].pc)
    ensures Reported(s, i, proc.code, old(proc.pc), stat, seen)
  {
    hide SysOk, Enabled, After, Reported, AtMemory, NextPc;
    AfterLeavesOthers(s, i, proc.code, proc.pc);
    AllBeside(procs, ram, swp, s, i);
    hide CanRun, Separate;
    stat, seen := Run(proc, s, i);
  }

  // ---------- Any interleaving

  function Codes(procs: seq<Pcb>): (codes: seq<seq<Inst>>)
    ensures |codes| == |procs|
  {
    seq(|procs|, i requires 0 <= i < |procs| => procs[i].code)
  }

  // The memory calls made when the processes execute an instruction each in the given order.
  function CallsOf(codes: seq<seq<Inst>>, pcs: seq<nat>, order: seq<nat>): seq<Runs.Call>
    requires |codes| == |pcs| && forall k :: 0 <= k < |order| ==> order[k] < |codes|
    decreases |order|
  {
    if order == [] then []
    else
      var i := order[0];
      var rest := CallsOf(codes, pcs[i := NextPc(codes[i], pcs[i])], order[1..]);
      if AtMemory(codes[i], pcs[i]) then [Runs.Call(i, OpAt(codes[i], pcs[i]))] + rest else rest
  }

  // The bytes read, each with the process that read it.
  function Reads(calls: seq<Runs.Call>, outs: seq<Outcome>): seq<(nat, Byte)>
    requires |outs| == |calls|
    decreases |calls|
  {
    if calls == [] then []
    else (if outs[0].Data? then [(calls[0].p, outs[0].value)] else []) + Reads(calls[1..], outs[1..])
  }

  lemma {:induction false} RunLength(s: Sys, calls: seq<Runs.Call>)
    requires SysOk(s) && Runs.RunOk(s, calls)
    ensures |Runs.Run(s, calls).1| == |calls|
    decreases |calls|
  {
    hide SysOk, Step, Enabled;
    if calls != [] {
      StepRefines(s, calls[0].p, calls[0].op);
      RunLength(Step(s, calls[0].p, calls[0].op).0, calls[1..]);
    }
  }

  predicate AtRead(code: seq<Inst>, pc: nat) { pc < |code| && code[pc].ReadI? }

  lemma RunCons(s: Sys, c: Runs.Call, rest: seq<Runs.Call>)
    requires SysOk(s) && Runs.RunOk(s, [c] + rest)
    ensures Enabled(s, c.p, c.op)
    ensures var (t, r) := Step(s, c.p, c.op);
            && SysOk(t) && Runs.RunOk(t, rest) && |Runs.Run(t, rest).1| == |rest|
            && Runs.Run(s, [c] + rest) == (Runs.Run(t, rest).0, [r] + Runs.Run(t, rest).1)
  {
    hide SysOk, Enabled, Step;
    assert ([c] + rest)[1..] == rest;
    StepRefines(s, c.p, c.op);
    RunLength(Step(s, c.p, c.op).0, rest);
  }

  lemma ReadsCons(c: Runs.Call, r: Outcome, rest: seq<Runs.Call>, outs: seq<Outcome>)
    requires |outs| == |rest|
    ensures Reads([c] + rest, [r] + outs) == (if r.Data? then [(c.p, r.value)] else []) + Reads(rest, outs)
  {
    assert ([c] + rest)[1..] == rest && ([r] + outs)[1..] == outs;
  }

  lemma OnlyReadsSee(s: Sys, p: nat, op: Op)
    requires SysOk(s) && Enabled(s, p, op)
    ensures Step(s, p, op).1.Data? <==> op.ReadOp?
  {
    hide SysOk, AllocMem, Free, Phys;
  }

  lemma FirstCanRun(s: Sys, codes: seq<seq<Inst>>, pcs: seq<nat>, order: seq<nat>)
    requires |codes| == |pcs| && order != [] && forall k :: 0 <= k < |order| ==> order[k] < |codes|
    requires SysOk(s) && Runs.RunOk(s, CallsOf(codes, pcs, order))
    ensures CanRun(s, order[0], codes[order[0]], pcs[order[0]])
    ensures SysOk(After(s, order[0], codes[order[0]], pcs[order[0]]))
  {
    var i := order[0];
    hide SysOk, Enabled, Step;
    if AtMemory(codes[i], pcs[i]) {
      StepRefines(s, i, OpAt(codes[i], pcs[i]));
    }
  }

  // The first of the instructions, taken off the run.
  lemma FirstTurn(s: Sys, codes: seq<seq<Inst>>, pcs: seq<nat>, order: seq<nat>)
    requires |codes| == |pcs| && order != [] && forall k :: 0 <= k < |order| ==> order[k] < |codes|
    requires SysOk(s) && Runs.RunOk(s, CallsOf(codes, pcs, order))
    requires CanRun(s, order[0], codes[order[0]], pcs[order[0]])
    requires SysOk(After(s, order[0], codes[order[0]], pcs[order[0]]))
    ensures var i, calls := order[0], CallsOf(codes, pcs, order);
            var t := After(s, i, codes[i], pcs[i]);
            var rest := CallsOf(codes, pcs[i := NextPc(codes[i], pcs[i])], order[1..]);
            && Runs.RunOk(t, rest)
            && Runs.Run(s, calls).0 == Runs.Run(t, rest).0
            && |Runs.Run(s, calls).1| == |calls| && |Runs.Run(t, rest).1| == |rest|
            && forall stat, seen {:trigger Reported(s, i, codes[i], pcs[i], stat, seen)} ::
                 Reported(s, i, codes[i], pcs[i], stat, seen) ==>
                   Reads(calls, Runs.Run(s, calls).1) ==
                   (if AtRead(codes[i], pcs[i]) then [(i, seen)] else []) + Reads(rest, Runs.Run(t, rest).1)
  {
    hide SysOk, Enabled, Step;
    var i := order[0];
    var rest := CallsOf(codes, pcs[i := NextPc(codes[i], pcs[i])], order[1..]);
    if AtMemory(codes[i], pcs[i]) {
      var c := Runs.Call(i, OpAt(codes[i], pcs[i]));
      RunCons(s, c, rest);
      var (t, r) := Step(s, c.p, c.op);
      ReadsCons(c, r, rest, Runs.Run(t, rest).1);
      OnlyReadsSee(s, c.p, c.op);
      hide Reads, Runs.Run, Runs.RunOk;
    } else {
      RunLength(s, rest);
    }
  }

  // Object j is process j of the system and stands at the given instruction.
  ghost predicate InSystem(procs: seq<Pcb>, ram: Memphy, swp: Memphy, s: Sys, pcs: seq<nat>)
    requires Separate(procs, ram, swp)
    reads Objects(procs, ram, swp)
  {
    |pcs| == |procs| && forall j :: 0 <= j < |procs| ==> IsProc(procs[j], s, j) && procs[j].pc == pcs[j]
  }

  // The turns process p has.
  function Turns(order: seq<nat>, p: nat): nat {
    if order == [] then 0 else (if order[0] == p then 1 else 0) + Turns(order[1..], p)
  }

  function CounterAfter(code: seq<Inst>, pc: nat, n: nat): nat
    decreases n
  {
    if n == 0 then pc else CounterAfter(code, NextPc(code, pc), n - 1)
  }

  // The first turn moves one counter; the others take it from there.
  lemma CountersGoOn(codes: seq<seq<Inst>>, pcs: seq<nat>, order: seq<nat>)
    requires |codes| == |pcs| && order != [] && order[0] < |codes|
    ensures var pcs' := pcs[order[0] := NextPc(codes[order[0]], pcs[order[0]])];
            forall j :: 0 <= j < |codes| ==>
              CounterAfter(codes[j], pcs'[j], Turns(order[1..], j)) == CounterAfter(codes[j], pcs[j], Turns(order, j))
  {
  }

  lemma NobodysTurn(s: Sys, codes: seq<seq<Inst>>, pcs: seq<nat>)
    requires |codes| == |pcs| && SysOk(s)
    ensures CallsOf(codes, pcs, []) == [] && Runs.RunOk(s, []) && Runs.Run(s, []) == (s, []) && Reads([], []) == []
    ensures forall j :: 0 <= j < |codes| ==> CounterAfter(codes[j], pcs[j], Turns([], j)) == pcs[j]
  {
    hide SysOk;
  }

  // The processes execute an instruction each, in any order: the memory calls they make are a run of
  // the system, the objects end as its processes, and the bytes they read are those of the run.
  method RunInterleaved(procs: seq<Pcb>, ram: Memphy, swp: Memphy, order: seq<nat>, ghost s: Sys, ghost pcs: seq<nat>)
    returns (seen: seq<(nat, Byte)>)
    requires Separate(procs, ram, swp) && SysOk(s) && InSystem(procs, ram, swp, s, pcs)
    requires forall k :: 0 <= k < |order| ==> order[k] < |procs|
    requires Runs.RunOk(s, CallsOf(Codes(procs), pcs, order))
    modifies Objects(procs, ram, swp)
    decreases |order|
    ensures var calls := CallsOf(Codes(procs), pcs, order);
            var (t, outs) := Runs.Run(s, calls);
            && (forall j :: 0 <= j < |procs| ==> IsProc(procs[j], t, j))
            && |outs| == |calls| && seen == Reads(calls, outs)
    ensures forall j :: 0 <= j < |procs| ==> procs[j].pc == CounterAfter(procs[j].code, pcs[j], Turns(order, j))
  {
    hide SysOk, IsProc, Runs.RunOk, After, CanRun, Reported, Runs.Run, Reads, CallsOf, CounterAfter, Turns, NextPc;
    seen := [];
    if order == [] {
      NobodysTurn(s, Codes(procs), pcs);
      return;
    }
    var i := order[0];
    var proc := procs[i];
    var isRead := AtRead(proc.code, proc.pc);
    FirstCanRun(s, Codes(procs), pcs, order);
    FirstTurn(s, Codes(procs), pcs, order);
    CountersGoOn(Codes(procs), pcs, order);
    var stat, value := Turn(procs, ram, swp, proc, i, s);
    ghost var t := After(s, i, proc.code, pcs[i]);
    var rest := RunInterleaved(procs, ram, swp, order[1..], t, pcs[i := NextPc(proc.code, pcs[i])]);
    seen := (if isRead then [(i, value)] else []) + rest;
  }

  // ---------- What one process sees

  // The memory operations of a program over its next n turns.
  function OpsFrom(code: seq<Inst>, pc: nat, n: nat): seq<Op>
    decreases n
  {
    if n == 0 then []
    else (if AtMemory(code, pc) then [OpAt(code, pc)] else []) + OpsFrom(code, NextPc(code, pc), n - 1)
  }

  function ReadBy(seen: seq<(nat, Byte)>, p: nat): seq<Byte> {
    if seen == [] then [] else (if seen[0].0 == p then [seen[0].1] else []) + ReadBy(seen[1..], p)
  }

  function Values(outs: seq<Outcome>): seq<Byte> {
    if outs == [] then [] else (if outs[0].Data? then [outs[0].value] else []) + Values(outs[1..])
  }

  lemma {:induction false} OwnIsProgram(codes: seq<seq<Inst>>, pcs: seq<nat>, order: seq<nat>, p: nat)
    requires |codes| == |pcs| && p < |codes| && forall k :: 0 <= k < |order| ==> order[k] < |codes|
    ensures Runs.Own(CallsOf(codes, pcs, order), p) == OpsFrom(codes[p], pcs[p], Turns(order, p))
    decreases |order|
  {
    if order != [] {
      var i := order[0];
      var rest := CallsOf(codes, pcs[i := NextPc(codes[i], pcs[i])], order[1..]);
      OwnIsProgram(codes, pcs[i := NextPc(codes[i], pcs[i])], order[1..], p);
      if AtMemory(codes[i], pcs[i]) {
        assert ([Runs.Call(i, OpAt(codes[i], pcs[i]))] + rest)[1..] == rest;
      }
    }
  }

  lemma {:induction false} ReadsOfProcess(calls: seq<Runs.Call>, outs: seq<Outcome>, p: nat)
    requires |outs| == |calls|
    ensures ReadBy(Reads(calls, outs), p) == Values(Runs.OwnOutcomes(calls, outs, p))
    decreases |calls|
  {
    if calls != [] {
      ReadsOfProcess(calls[1..], outs[1..], p);
      var own := Runs.OwnOutcomes(calls[1..], outs[1..], p);
      var seen := Reads(calls[1..], outs[1..]);
      assert Runs.OwnOutcomes(calls, outs, p) == (if calls[0].p == p then [outs[0]] else []) + own;
      assert ([outs[0]] + own)[1..] == own && [] + own == own && [] + seen == seen;
      if outs[0].Data? {
        assert Reads(calls, outs) == [(calls[0].p, outs[0].value)] + seen;
        assert ([(calls[0].p, outs[0].value)] + seen)[1..] == seen;
      }
    }
  }

  // Whatever the order of the turns and whatever the other programs do, the bytes a process reads are
  // those its own program reads when it runs the same number of turns alone on its flat store.
  lemma ProgramsArePrivate(s: Sys, codes: seq<seq<Inst>>, pcs: seq<nat>, order: seq<nat>, p: nat)
    requires |codes| == |pcs| && p < |codes| && forall k :: 0 <= k < |order| ==> order[k] < |codes|
    requires SysOk(s) && Runs.RunOk(s, CallsOf(codes, pcs, order))
    ensures var calls := CallsOf(codes, pcs, order);
            var outs := Runs.Run(s, calls).1;
            && |outs| == |calls|
            && ReadBy(Reads(calls, outs), p)
               == Values(Runs.FlatRun(Runs.StoreOf(s, p), OpsFrom(codes[p], pcs[p], Turns(order, p))).1)
  {
    hide SysOk, Runs.Run, Runs.RunOk, Runs.FlatRun, Runs.StoreOf, CallsOf, OpsFrom, Reads;
    var calls := CallsOf(codes, pcs, order);
    RunLength(s, calls);
    Runs.RunRefinesFlat(s, calls, p);
    OwnIsProgram(codes, pcs, order, p);
    ReadsOfProcess(calls, Runs.Run(s, calls).1, p);
  }

  // ---------- Programs as text

  // The memory operations a piece of program text stands for, one instruction after the other.
  function OpsOf(text: seq<Inst>): seq<Op> {
    if text == [] then []
    else
      (match text[0]
       case Calc => []
       case AllocI(size, reg) => [AllocOp(reg, size)]
       case FreeI(reg) => [FreeOp(reg)]
       case ReadI(source, offset) => [ReadOp(source, offset)]
       case WriteI(data, destination, offset) => [WriteOp(destination, offset, FromRegister(data))])
      + OpsOf(text[1..])
  }

  // After n turns the counter is n further on, but never past the end of the program.
  lemma {:induction false} CounterIs(code: seq<Inst>, pc: nat, n: nat)
    requires pc <= |code|
    ensures CounterAfter(code, pc, n) == if pc + n <= |code| then pc + n else |code|
    decreases n
  {
    if n > 0 {
      CounterIs(code, NextPc(code, pc), n - 1);
    }
  }

  // In n turns a program makes the operations of the n instructions from its counter on, each once and in
  // order, and none past its end.
  lemma {:induction false} TurnsMakeText(code: seq<Inst>, pc: nat, n: nat)
    requires pc <= |code|
    ensures OpsFrom(code, pc, n) == OpsOf(code[pc..if pc + n <= |code| then pc + n else |code|])
    decreases n
  {
    if n > 0 {
      TurnsMakeText(code, NextPc(code, pc), n - 1);
      if pc < |code| {
        var end := if pc + n <= |code| then pc + n else |code|;
        assert code[pc..end][0] == code[pc] && code[pc..end][1..] == code[pc + 1..end];
      }
    }
  }

  // n fresh processes on a formatted RAM.
  function FreshSys(n: nat, ramSize: nat): Sys {
    Sys(map p: nat | p < n && Between(0, p, n) :: InitMm(), InitDevice(ramSize))
  }

  // Objects fresh from their constructors, on a fresh RAM, are the processes of such a system, and each
  // has an empty flat store.
  lemma {:induction false} FreshSysOk(n: nat, ramSize: nat)
    requires ramSize / PAGE_SIZE <= MAX_FPN
    ensures SysOk(FreshSys(n, ramSize))
    ensures forall p: nat :: p < n ==> AbsOf(FreshSys(n, ramSize), p) == InitFlat()
  {
    hide SysOk, InitDevice, InitMm, AbsOf, InitFlat;
    if n == 0 {
      InitSysOk(ramSize);
      assert FreshSys(0, ramSize) == InitSys(ramSize);
    } else {
      FreshSysOk(n - 1, ramSize);
      SpawnStep(FreshSys(n - 1, ramSize), n - 1);
      assert FreshSys(n, ramSize) == Step(FreshSys(n - 1, ramSize), n - 1, Spawn).0;
    }
  }

  // ---------- Read after write, on program text

  // How many bytes a program has reported once its counter goes from i to k.
  function ReadsIn(code: seq<Inst>, i: nat, k: nat): nat
    requires i <= k <= |code|
    decreases k - i
  {
    if i == k then 0 else (if code[i].ReadI? then 1 else 0) + ReadsIn(code, i + 1, k)
  }

  // The instruction neither frees region r nor writes at (r, o).
  predicate LeavesByte(ins: Inst, r: nat, o: nat) {
    ins != FreeI(r) && !(ins.WriteI? && ins.destination == r && ins.offset == o)
  }

  // The byte behind (r, o) of process p.
  ghost predicate ByteIs(s: Sys, p: nat, r: nat, o: nat, v: Byte) {
    && SysOk(s) && p in s.procs && Accessible(AbsOf(s, p), r, o) && Runs.Content(s, p, r, o) == v
  }

  // The bytes process p reports when the processes have their turns in the given order.
  ghost function BytesOf(s: Sys, codes: seq<seq<Inst>>, pcs: seq<nat>, order: seq<nat>, p: nat): seq<Byte>
    requires |codes| == |pcs| && forall k :: 0 <= k < |order| ==> order[k] < |codes|
    requires SysOk(s) && Runs.RunOk(s, CallsOf(codes, pcs, order))
  {
    RunLength(s, CallsOf(codes, pcs, order));
    ReadBy(Reads(CallsOf(codes, pcs, order), Runs.Run(s, CallsOf(codes, pcs, order)).1), p)
  }

  // What the first turn adds to them.
  lemma FirstByte(s: Sys, codes: seq<seq<Inst>>, pcs: seq<nat>, order: seq<nat>, p: nat) returns (seen: Byte)
    requires |codes| == |pcs| && order != [] && forall k :: 0 <= k < |order| ==> order[k] < |codes|
    requires SysOk(s) && Runs.RunOk(s, CallsOf(codes, pcs, order))
    ensures CanRun(s, order[0], codes[order[0]], pcs[order[0]])
    ensures var i := order[0];
            var t, pcs' := After(s, i, codes[i], pcs[i]), pcs[i := NextPc(codes[i], pcs[i])];
            && SysOk(t) && Runs.RunOk(t, CallsOf(codes, pcs', order[1..]))
            && BytesOf(s, codes, pcs, order, p) ==
               (if i == p && AtRead(codes[i], pcs[i]) then [seen] else []) + BytesOf(t, codes, pcs', order[1..], p)
            && (AtRead(codes[i], pcs[i]) ==> Step(s, i, OpAt(codes[i], pcs[i])).1 == Data(seen))
  {
    hide SysOk, Enabled, Step, CallsOf, Runs.Run, Runs.RunOk, Reads, ReadBy, After, Reported, NextPc;
    var i := order[0];
    FirstCanRun(s, codes, pcs, order);
    FirstTurn(s, codes, pcs, order);
    var stat;
    stat, seen := SomeReport(s, i, codes[i], pcs[i]);
    var t, pcs' := After(s, i, codes[i], pcs[i]), pcs[i := NextPc(codes[i], pcs[i])];
    var rest := Reads(CallsOf(codes, pcs', order[1..]), Runs.Run(t, CallsOf(codes, pcs', order[1..])).1);
    ReadByCons(i, seen, rest, p);
    assert [] + rest == rest && [] + ReadBy(rest, p) == ReadBy(rest, p);
  }

  // A turn always reports something, and a read the byte of its step.
  lemma SomeReport(s: Sys, p: nat, code: seq<Inst>, pc: nat) returns (stat: int, seen: Byte)
    requires CanRun(s, p, code, pc)
    ensures Reported(s, p, code, pc, stat, seen)
    ensures AtRead(code, pc) ==> Step(s, p, OpAt(code, pc)).1 == Data(seen)
  {
    hide SysOk, Enabled, Step;
    stat, seen := 1, 0;
    if AtMemory(code, pc) {
      var r := Step(s, p, OpAt(code, pc)).1;
      OnlyReadsSee(s, p, OpAt(code, pc));
      seen := if r.Data? then r.value else 0;
      stat := if r.Code? then r.code else 0;
    }
  }

  lemma ReadByCons(q: nat, v: Byte, seen: seq<(nat, Byte)>, p: nat)
    ensures ReadBy([(q, v)] + seen, p) == (if q == p then [v] else []) + ReadBy(seen, p)
  {
    assert ([(q, v)] + seen)[1..] == seen;
  }

  // A turn that does not touch the byte leaves it.
  lemma TurnKeepsByte(s: Sys, q: nat, code: seq<Inst>, pc: nat, p: nat, r: nat, o: nat, v: Byte)
    requires ByteIs(s, p, r, o, v) && CanRun(s, q, code, pc)
    requires q == p && pc < |code| ==> LeavesByte(code[pc], r, o)
    ensures ByteIs(After(s, q, code, pc), p, r, o, v)
  {
    hide SysOk, Enabled, Step, AbsOf, Runs.Content;
    if AtMemory(code, pc) {
      Runs.CallKeepsContent(s, Runs.Call(q, OpAt(code, pc)), p, r, o);
    }
  }

  // A write leaves the low byte of its datum.
  lemma WriteSetsByte(s: Sys, p: nat, code: seq<Inst>, pc: nat, d: nat, r: nat, o: nat)
    requires SysOk(s) && CanRun(s, p, code, pc) && pc < |code| && code[pc] == WriteI(d, r, o)
    ensures ByteIs(After(s, p, code, pc), p, r, o, FromRegister(d))
  {
    hide SysOk, Step, AbsOf, Runs.Content;
    StepRefines(s, p, OpAt(code, pc));
    hide Enabled;
    Runs.CallKeepsContent(s, Runs.Call(p, OpAt(code, pc)), p, r, o);
  }

  // The byte is still there when the program comes to read it.
  lemma {:induction false} HeldByte(s: Sys, codes: seq<seq<Inst>>, pcs: seq<nat>, order: seq<nat>, p: nat,
                                    k: nat, r: nat, o: nat, v: Byte)
    requires |codes| == |pcs| && p < |codes| && forall x :: 0 <= x < |order| ==> order[x] < |codes|
    requires ByteIs(s, p, r, o, v) && Runs.RunOk(s, CallsOf(codes, pcs, order))
    requires pcs[p] <= k < |codes[p]| && codes[p][k] == ReadI(r, o)
    requires forall x :: pcs[p] <= x < k ==> LeavesByte(codes[p][x], r, o)
    requires Turns(order, p) > k - pcs[p]
    ensures var mine := BytesOf(s, codes, pcs, order, p);
            ReadsIn(codes[p], pcs[p], k) < |mine| && mine[ReadsIn(codes[p], pcs[p], k)] == v
    decreases |order|
  {
    hide SysOk, Enabled, Step, Runs.RunOk, CallsOf, AbsOf, Runs.Content, Accessible, BytesOf, After;
    var q := order[0];
    var seen := FirstByte(s, codes, pcs, order, p);
    if q == p && pcs[p] == k {
      ReadSeesByte(s, p, codes[p], k, r, o, v, seen);
    } else {
      TurnKeepsByte(s, q, codes[q], pcs[q], p, r, o, v);
      HeldByte(After(s, q, codes[q], pcs[q]), codes, pcs[q := NextPc(codes[q], pcs[q])], order[1..], p, k, r, o, v);
    }
  }

  lemma ReadSeesByte(s: Sys, p: nat, code: seq<Inst>, k: nat, r: nat, o: nat, v: Byte, seen: Byte)
    requires ByteIs(s, p, r, o, v) && CanRun(s, p, code, k) && k < |code| && code[k] == ReadI(r, o)
    requires Step(s, p, OpAt(code, k)).1 == Data(seen)
    ensures seen == v
  {
    hide SysOk, Step, AbsOf;
    Runs.ReadSeesContent(s, p, r, o);
  }

  // Read after write, on the text of a program. Instruction j writes d at offset o of region r, instruction
  // k reads there, and none between frees the region or writes there. Then, whatever the order of the
  // turns and whatever the other programs do, once the program has had its turn k the byte it reports for
  // it is the low byte of d.
  lemma {:induction false} ProgramReadsWhatItWrote(s: Sys, codes: seq<seq<Inst>>, pcs: seq<nat>, order: seq<nat>,
                                                   p: nat, j: nat, k: nat, d: nat, r: nat, o: nat) returns (v: Byte)
    requires |codes| == |pcs| && p < |codes| && forall x :: 0 <= x < |order| ==> order[x] < |codes|
    requires SysOk(s) && Runs.RunOk(s, CallsOf(codes, pcs, order))
    requires pcs[p] <= j < k < |codes[p]| && codes[p][j] == WriteI(d, r, o) && codes[p][k] == ReadI(r, o)
    requires forall x :: j < x < k ==> LeavesByte(codes[p][x], r, o)
    requires Turns(order, p) > k - pcs[p]
    ensures (d - v as int) % 256 == 0
    ensures var mine := BytesOf(s, codes, pcs, order, p);
            ReadsIn(codes[p], pcs[p], k) < |mine| && mine[ReadsIn(codes[p], pcs[p], k)] == v
    decreases |order|
  {
    hide SysOk, Enabled, Step, Runs.RunOk, CallsOf, ByteIs, BytesOf, After, LeavesByte, FromRegister;
    var q := order[0];
    var seen := FirstByte(s, codes, pcs, order, p);
    var t, pcs' := After(s, q, codes[q], pcs[q]), pcs[q := NextPc(codes[q], pcs[q])];
    if q == p && pcs[p] == j {
      v := FromRegister(d);
      RegisterByte(d);
      WriteSetsByte(s, p, codes[p], j, d, r, o);
      HeldByte(t, codes, pcs', order[1..], p, k, r, o, v);
    } else {
      v := ProgramReadsWhatItWrote(t, codes, pcs', order[1..], p, j, k, d, r, o);
    }
  }
}
