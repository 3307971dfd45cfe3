/** Runs of any number of processes on one RAM: refinement of the private flat stores, isolation of
    each process from the others, and read-after-write. */
module Runs {
  import opened Pte
  import opened Regions
  import opened Paging
  import opened FlatStore
  import opened Refinement

  datatype Call = Call(p: nat, op: Op)

  // Every call is enabled when its turn comes.
  ghost predicate RunOk(s: Sys, calls: seq<Call>)
    requires SysOk(s)
    decreases |calls|
  {
    calls == [] ||
    (&& Enabled(s, calls[0].p, calls[0].op)
     && (StepRefines(s, calls[0].p, calls[0].op);
         RunOk(Step(s, calls[0].p, calls[0].op).0, calls[1..])))
  }

  ghost function Run(s: Sys, calls: seq<Call>): (Sys, seq<Outcome>)
    requires SysOk(s) && RunOk(s, calls)
    decreases |calls|
  {
    if calls == [] then (s, [])
    else
      StepRefines(s, calls[0].p, calls[0].op);
      var (t, r) := Step(s, calls[0].p, calls[0].op);
      var (u, rest) := Run(t, calls[1..]);
      (u, [r] + rest)
  }

  // A process's own calls, and the outcomes of those calls.
  function Own(calls: seq<Call>, p: nat): seq<Op> {
    if calls == [] then []
    else (if calls[0].p == p then [calls[0].op] else []) + Own(calls[1..], p)
  }

  function OwnOutcomes(calls: seq<Call>, outs: seq<Outcome>, p: nat): seq<Outcome>
    requires |outs| == |calls|
    decreases |calls|
  {
    if calls == [] then []
    else (if calls[0].p == p then [outs[0]] else []) + OwnOutcomes(calls[1..], outs[1..], p)
  }

  // A process alone on its flat store.
  ghost function FlatRun(f: Flat, ops: seq<Op>): (Flat, seq<Outcome>)
    decreases |ops|
  {
    if ops == [] then (f, [])
    else
      var (g, r) := FlatStep(f, ops[0]);
      var (h, rest) := FlatRun(g, ops[1..]);
      (h, [r] + rest)
  }

  ghost function StoreOf(s: Sys, p: nat): Flat
    requires SysOk(s)
  {
    if p in s.procs then AbsOf(s, p) else InitFlat()
  }

  // In any interleaving each process gets the outcomes, and ends in the store, that it would get
  // running its own calls alone on a private flat store.
  lemma {:induction false} RunRefinesFlat(s: Sys, calls: seq<Call>, p: nat)
    requires SysOk(s) && RunOk(s, calls)
    ensures var (t, outs) := Run(s, calls);
            && SysOk(t) && |outs| == |calls|
            && FlatRun(StoreOf(s, p), Own(calls, p)) == (StoreOf(t, p), OwnOutcomes(calls, outs, p))
    decreases |calls|
  {
    hide Step, AbsOf, SysOk, FlatStep;
    if calls != [] {
      var c := calls[0];
      StepRefines(s, c.p, c.op);
      var (t, r) := Step(s, c.p, c.op);
      RunRefinesFlat(t, calls[1..], p);
      var outs := Run(t, calls[1..]).1;
      assert ([r] + outs)[1..] == outs;
      if c.p == p {
        FlatRunCons(StoreOf(s, p), c.op, Own(calls[1..], p));
      } else {
        assert Own(calls, p) == Own(calls[1..], p);
        assert OwnOutcomes(calls, [r] + outs, p) == OwnOutcomes(calls[1..], outs, p);
      }
    }
  }

  lemma FlatRunCons(f: Flat, op: Op, ops: seq<Op>)
    ensures var (g, r) := FlatStep(f, op);
            FlatRun(f, [op] + ops) == (FlatRun(g, ops).0, [r] + FlatRun(g, ops).1)
  {
    assert ([op] + ops)[1..] == ops;
  }

  // Isolation: what a process observes depends on its own calls only, not on the other processes,
  // the interleaving, or the size of the RAM.
  lemma Isolation(ram1: nat, calls1: seq<Call>, ram2: nat, calls2: seq<Call>, p: nat)
    requires ram1 / PAGE_SIZE <= MAX_FPN && (InitSysOk(ram1); RunOk(InitSys(ram1), calls1))
    requires ram2 / PAGE_SIZE <= MAX_FPN && (InitSysOk(ram2); RunOk(InitSys(ram2), calls2))
    requires Own(calls1, p) == Own(calls2, p)
    ensures SysOk(InitSys(ram1)) && SysOk(InitSys(ram2))
    ensures var outs1, outs2 := Run(InitSys(ram1), calls1).1, Run(InitSys(ram2), calls2).1;
            && |outs1| == |calls1| && |outs2| == |calls2|
            && OwnOutcomes(calls1, outs1, p) == OwnOutcomes(calls2, outs2, p)
  {
    InitSysOk(ram1);
    InitSysOk(ram2);
    RunRefinesFlat(InitSys(ram1), calls1, p);
    RunRefinesFlat(InitSys(ram2), calls2, p);
  }

  // The last value process p wrote at (region, offset), or what was there at the start.
  function LastWritten(calls: seq<Call>, p: nat, rgid: nat, offset: nat, start: Byte): Byte
    decreases |calls|
  {
    if calls == [] then start
    else
      var c := calls[0];
      LastWritten(calls[1..], p, rgid, offset,
                  if c.p == p && c.op.WriteOp? && c.op.rgid == rgid && c.op.offset == offset
                  then c.op.value else start)
  }

  predicate Keeps(calls: seq<Call>, p: nat, rgid: nat) {
    forall i :: 0 <= i < |calls| && calls[i].p == p ==> calls[i].op != FreeOp(rgid)
  }

  ghost function Content(s: Sys, p: nat, rgid: nat, offset: nat): Byte
    requires SysOk(s) && p in s.procs && Accessible(AbsOf(s, p), rgid, offset)
  {
    AbsOf(s, p).bytes[AbsOf(s, p).sym[rgid].start + offset]
  }

  // On the flat store, an operation that neither frees nor reuses the slot changes the byte behind
  // (region, offset) only by writing exactly there, because live regions do not overlap.
  lemma FlatStepContent(f: Flat, op: Op, rgid: nat, offset: nat)
    requires Accessible(f, rgid, offset)
    requires forall k :: 0 <= k < |f.sym| && k != rgid && Live(f.sym[k]) ==> Outside(f.sym[k], f.sym[rgid])
    requires !op.Spawn? && op != FreeOp(rgid) && !(op.AllocOp? && op.rgid == rgid)
    ensures var g := FlatStep(f, op).0;
            && Accessible(g, rgid, offset) && g.sym[rgid] == f.sym[rgid]
            && g.bytes[g.sym[rgid].start + offset] ==
               (if op.WriteOp? && op.rgid == rgid && op.offset == offset then op.value
                else f.bytes[f.sym[rgid].start + offset])
  {
  }

  lemma StoreFacts(s: Sys, p: nat, rgid: nat)
    requires SysOk(s) && p in s.procs
    ensures AbsOf(s, p).sym == s.procs[p].heap.sym
    ensures rgid < |AbsOf(s, p).sym| && Live(AbsOf(s, p).sym[rgid]) ==>
              forall k :: 0 <= k < |AbsOf(s, p).sym| && k != rgid && Live(AbsOf(s, p).sym[k]) ==>
                Outside(AbsOf(s, p).sym[k], AbsOf(s, p).sym[rgid])
  {
    var sym := s.procs[p].heap.sym;
    forall k | 0 <= k < |sym| && rgid < |sym| && k != rgid && Live(sym[k]) && Live(sym[rgid])
      ensures Outside(sym[k], sym[rgid])
    {
      assert k < rgid ==> Outside(sym[k], sym[rgid]);
      assert rgid < k ==> Outside(sym[rgid], sym[k]);
    }
  }

  // One call changes the byte behind (process, region, offset) only by writing exactly there.
  lemma CallKeepsContent(s: Sys, c: Call, p: nat, rgid: nat, offset: nat)
    requires SysOk(s) && Enabled(s, c.p, c.op)
    requires p in s.procs && Accessible(AbsOf(s, p), rgid, offset)
    requires c.p == p ==> c.op != FreeOp(rgid)
    ensures var t := Step(s, c.p, c.op).0;
            && SysOk(t) && p in t.procs && Accessible(AbsOf(t, p), rgid, offset)
            && Content(t, p, rgid, offset) ==
               LastWritten([c], p, rgid, offset, Content(s, p, rgid, offset))
  {
    hide SysOk, AbsOf, Step, FlatStep;
    StepRefines(s, c.p, c.op);
    if c.p == p {
      StoreFacts(s, p, rgid);
      FlatStepContent(AbsOf(s, p), c.op, rgid, offset);
    }
  }

  lemma ReadSeesContent(s: Sys, p: nat, rgid: nat, offset: nat)
    requires SysOk(s) && p in s.procs && Accessible(AbsOf(s, p), rgid, offset)
    ensures Enabled(s, p, ReadOp(rgid, offset))
    ensures Step(s, p, ReadOp(rgid, offset)).1 == Data(Content(s, p, rgid, offset))
  {
    hide SysOk, AbsOf, Step;
    StoreFacts(s, p, rgid);
    StepRefines(s, p, ReadOp(rgid, offset));
  }

  // Read-after-write over whole runs: as long as the region is not freed, reading it returns the
  // last byte written there, whatever every process did in between.
  lemma {:induction false} ReadReturnsLastWrite(s: Sys, calls: seq<Call>, p: nat, rgid: nat, offset: nat)
    requires SysOk(s) && RunOk(s, calls) && Keeps(calls, p, rgid)
    requires p in s.procs && Accessible(AbsOf(s, p), rgid, offset)
    ensures var t := Run(s, calls).0;
            && SysOk(t) && Enabled(t, p, ReadOp(rgid, offset))
            && Step(t, p, ReadOp(rgid, offset)).1
               == Data(LastWritten(calls, p, rgid, offset, Content(s, p, rgid, offset)))
    decreases |calls|
  {
    hide SysOk, AbsOf, Step, Enabled, Content;
    if calls == [] {
      ReadSeesContent(s, p, rgid, offset);
    } else {
      CallKeepsContent(s, calls[0], p, rgid, offset);
      ReadReturnsLastWrite(Step(s, calls[0].p, calls[0].op).0, calls[1..], p, rgid, offset);
    }
  }
}
