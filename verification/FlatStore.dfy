/** The reference the paged memory is measured against: every process has a private flat array of
    bytes, a set of free byte addresses and a table of regions. No pages, frames or lists. */
module FlatStore {
  import opened Pte
  import opened Regions
  import opened Paging

  datatype Flat = Flat(bytes: seq<Byte>, free: set<nat>, sym: seq<Region>)

  datatype Op =
    | Spawn
    | AllocOp(rgid: nat, size: nat)
    | FreeOp(slot: int)
    | ReadOp(rgid: nat, offset: nat)
    | WriteOp(rgid: nat, offset: nat, value: Byte)

  datatype Outcome = Code(code: int) | Address(addr: nat) | Data(value: Byte)

  predicate Between(lo: nat, b: nat, hi: nat) { lo <= b < hi }

  ghost function Span(lo: nat, hi: nat): set<nat> {
    set b: nat | b < hi && Between(lo, b, hi)
  }

  ghost predicate RunAt(free: set<nat>, a: nat, size: nat) { Span(a, a + size) <= free }

  // The least address from which `size` bytes are free, or `limit`.
  ghost function FirstRun(free: set<nat>, size: nat, from: nat, limit: nat): nat
    decreases limit - from
  {
    if from >= limit then limit
    else if RunAt(free, from, size) then from
    else FirstRun(free, size, from + 1, limit)
  }

  function InitFlat(): Flat {
    Flat([], {}, seq(MAX_SYMTBL, i => Region(0, 0)))
  }

  ghost function FlatAlloc(f: Flat, rgid: nat, size: nat): (Flat, nat)
    requires rgid < |f.sym|
  {
    var top := |f.bytes|;
    var a := FirstRun(f.free, size, 0, top);
    var grown := if a == top then PageAlign(size) else 0;
    (Flat(f.bytes + seq(grown, i => 0),
          f.free + Span(top, top + grown) - Span(a, a + size),
          f.sym[rgid := Region(a, a + size)]),
     a)
  }

  ghost function FlatFree(f: Flat, rgid: int): (Flat, int) {
    if !(0 <= rgid < |f.sym| && Live(f.sym[rgid])) then (f, -1)
    else
      (f.(free := f.free + Span(f.sym[rgid].start, f.sym[rgid].end), sym := f.sym[rgid := Region(0, 0)]), 0)
  }

  predicate Accessible(f: Flat, rgid: nat, offset: nat) {
    rgid < |f.sym| && offset < Len(f.sym[rgid]) && f.sym[rgid].end <= |f.bytes|
  }

  // One operation of one process. Calls outside the table or outside a region mean nothing here;
  // the runs considered below never make them.
  ghost function FlatStep(f: Flat, op: Op): (Flat, Outcome) {
    match op
    case Spawn => (InitFlat(), Code(0))
    case AllocOp(rgid, size) =>
      if rgid < |f.sym| then var (g, a) := FlatAlloc(f, rgid, size); (g, Address(a)) else (f, Code(-1))
    case FreeOp(slot) => var (g, code) := FlatFree(f, slot); (g, Code(code))
    case ReadOp(rgid, offset) =>
      (f, if Accessible(f, rgid, offset) then Data(f.bytes[f.sym[rgid].start + offset]) else Code(-1))
    case WriteOp(rgid, offset, value) =>
      if Accessible(f, rgid, offset) then (f.(bytes := f.bytes[f.sym[rgid].start + offset := value]), Code(0))
      else (f, Code(-1))
  }

  lemma {:induction false} FirstRunIsLeast(free: set<nat>, size: nat, from: nat, limit: nat)
    requires from <= limit
    ensures var a := FirstRun(free, size, from, limit);
            && from <= a <= limit
            && (a < limit ==> RunAt(free, a, size))
            && (forall c: nat :: from <= c < a ==> !RunAt(free, c, size))
    decreases limit - from
  {
    if from < limit && !RunAt(free, from, size) {
      FirstRunIsLeast(free, size, from + 1, limit);
    }
  }
}
