/** Paged memory refines the flat store: any interleaving of operations of any number of processes
    on one RAM, with the accesses inside live regions, behaves as if each process had its own. */
module Refinement {
  import opened Pte
  import opened Regions
  import opened Paging
  import opened FlatStore

  datatype Sys = Sys(procs: map<nat, Mm>, ram: Device)

  function Pages(mm: Mm): nat { mm.heap.sbrk / PAGE_SIZE }

  function Frames(mm: Mm): seq<nat>
    requires Pages(mm) <= |mm.pgd|
  {
    FrameTable(mm.pgd, Pages(mm))
  }

  // A process's page table: resident exactly below the break, untouched above it.
  ghost predicate ProcOk(mm: Mm) {
    && HeapOk(mm.heap)
    && |mm.pgd| == MAX_PGN
    && mm.heap.sbrk <= ADDRESS_LIMIT
    && (forall g :: 0 <= g < Pages(mm) ==> Resident(mm.pgd[g]))
    && (forall g :: Pages(mm) <= g < MAX_PGN ==> mm.pgd[g] == 0)
  }

  function Used(ram: Device): int { |ram.storage| / PAGE_SIZE - |ram.free| }

  // Frames leave the free list in order, and the bytes of a frame nobody got are still zero.
  ghost predicate RamOk(ram: Device) {
    && |ram.storage| / PAGE_SIZE <= MAX_FPN
    && 0 <= Used(ram)
    && (forall i :: 0 <= i < |ram.free| ==> ram.free[i] == Used(ram) + i)
    && (forall a :: Used(ram) * PAGE_SIZE <= a < |ram.storage| ==> ram.storage[a] == 0)
  }

  ghost predicate Maps(procs: map<nat, Mm>, p: nat, g: nat, f: nat) {
    p in procs && ProcOk(procs[p]) && g < Pages(procs[p]) && Frames(procs[p])[g] == f
  }

  ghost predicate Taken(procs: map<nat, Mm>, f: nat) {
    exists p, g :: Maps(procs, p, g, f)
  }

  // The free list and the page tables of all processes partition the frames.
  ghost predicate Partition(procs: map<nat, Mm>, used: int) {
    && (forall p: nat, g: nat, f: nat :: Maps(procs, p, g, f) ==> f < used)
    && (forall p: nat, g: nat, q: nat, h: nat, f: nat ::
          Maps(procs, p, g, f) && Maps(procs, q, h, f) ==> p == q && g == h)
    && (forall f: nat :: f < used ==> Taken(procs, f))
  }

  ghost predicate SysOk(s: Sys) {
    && RamOk(s.ram)
    && (forall p :: p in s.procs ==> ProcOk(s.procs[p]))
    && Partition(s.procs, Used(s.ram))
  }

  function InitSys(ramSize: nat): Sys {
    Sys(map[], InitDevice(ramSize))
  }

  lemma InitSysOk(ramSize: nat)
    requires ramSize / PAGE_SIZE <= MAX_FPN
    ensures SysOk(InitSys(ramSize))
  {
  }

  // What the source needs of a call: the slot is empty and no node is one byte short of the size,
  // growth finds its frames and stays below 4 MB, and accesses stay inside a live region.
  ghost predicate Enabled(s: Sys, p: nat, op: Op) {
    match op
    case Spawn => p !in s.procs
    case AllocOp(rgid, size) =>
      && p in s.procs && size >= 1 && rgid < |s.procs[p].heap.sym|
      && !Hazard(s.procs[p].heap.free, size) && !Live(s.procs[p].heap.sym[rgid])
      && GrowthPages(s.procs[p].heap, size) <= |s.ram.free|
      && s.procs[p].heap.vmEnd + GrowthPages(s.procs[p].heap, size) * PAGE_SIZE <= ADDRESS_LIMIT
    case FreeOp(slot) => p in s.procs
    case ReadOp(rgid, offset) =>
      p in s.procs && rgid < |s.procs[p].heap.sym| && offset < Len(s.procs[p].heap.sym[rgid])
    case WriteOp(rgid, offset, value) =>
      p in s.procs && rgid < |s.procs[p].heap.sym| && offset < Len(s.procs[p].heap.sym[rgid])
  }

  // ---------- The memory a process sees

  // Where a page table in decoded form puts a byte.
  function Location(frames: seq<nat>, a: nat): nat
    requires a < |frames| * PAGE_SIZE
  {
    frames[a / PAGE_SIZE] * PAGE_SIZE + a % PAGE_SIZE
  }

  ghost predicate Backed(storage: seq<Byte>, frames: seq<nat>) {
    forall g :: 0 <= g < |frames| ==> InFrame(frames[g], storage)
  }

  lemma BackedLocation(storage: seq<Byte>, frames: seq<nat>, a: nat)
    requires Backed(storage, frames) && a < |frames| * PAGE_SIZE
    ensures Location(frames, a) < |storage|
  {
    assert InFrame(frames[a / PAGE_SIZE], storage);
  }

  ghost function View(storage: seq<Byte>, frames: seq<nat>): (v: seq<Byte>)
    requires Backed(storage, frames)
  {
    seq(|frames| * PAGE_SIZE, a requires 0 <= a < |frames| * PAGE_SIZE =>
      (BackedLocation(storage, frames, a); storage[Location(frames, a)]))
  }

  ghost function FreeSet(h: Heap): set<nat> {
    set b: nat | b < h.sbrk && InFree(h.free, b)
  }

  ghost function Abs(mm: Mm, storage: seq<Byte>): Flat
    requires ProcOk(mm) && Backed(storage, Frames(mm))
  {
    Flat(View(storage, Frames(mm)), FreeSet(mm.heap), mm.heap.sym)
  }

  lemma SysBacked(s: Sys, p: nat)
    requires SysOk(s) && p in s.procs
    ensures Backed(s.ram.storage, Frames(s.procs[p]))
    ensures |Frames(s.procs[p])| * PAGE_SIZE == s.procs[p].heap.sbrk
  {
    var fs := Frames(s.procs[p]);
    forall g | 0 <= g < |fs|
      ensures InFrame(fs[g], s.ram.storage)
    {
      assert Maps(s.procs, p, g, fs[g]);
    }
  }

  // Every access below the break finds its page resident and its physical address inside RAM;
  // the address is the one the decoded table gives.
  lemma AccessInBounds(s: Sys, p: nat, addr: nat)
    requires SysOk(s) && p in s.procs && addr < s.procs[p].heap.sbrk
    ensures var pgd := s.procs[p].pgd;
            && Pgn(addr) < |pgd| && Present(pgd[Pgn(addr)])
            && Pgn(addr) < |Frames(s.procs[p])|
            && addr < |Frames(s.procs[p])| * PAGE_SIZE
            && Phys(pgd, addr) == Location(Frames(s.procs[p]), addr)
            && Phys(pgd, addr) < |s.ram.storage|
  {
    var mm := s.procs[p];
    AddressSplit(addr);
    FrameTableAt(mm.pgd, Pages(mm), addr / PAGE_SIZE);
    SysBacked(s, p);
    assert InFrame(Frames(mm)[addr / PAGE_SIZE], s.ram.storage);
  }

  // ---------- One operation

  lemma GrowthFits(h: Heap, size: nat)
    requires HeapOk(h) && size >= 1
    ensures h.sbrk + GrowthPages(h, size) * PAGE_SIZE == Alloc(h, 0, size).0.sbrk
    ensures GrowthPages(h, size) == 0 <==> BestFit(h.free, size, |h.free|) >= 0
    ensures GrowthPages(h, size) != 0 ==> Alloc(h, 0, size).1 == h.sbrk
    ensures GrowthPages(h, size) != 0 ==> GrowthPages(h, size) * PAGE_SIZE == PageAlign(size)
  {
    PageAlignRoundsUp(size);
    PageAlignRoundsUp(PageAlign(size));
    if BestFit(h.free, size, |h.free|) < 0 {
      GrowthBreak(h, 0, size);
    }
  }

  // Growth starts at the page of the old end, and the table has room for it.
  lemma GrowthRoom(mm: Mm, ram: Device, size: nat)
    requires ProcOk(mm) && size >= 1
    requires GrowthPages(mm.heap, size) <= |ram.free|
    requires mm.heap.vmEnd + GrowthPages(mm.heap, size) * PAGE_SIZE <= ADDRESS_LIMIT
    ensures RoomToGrow(mm, ram, size)
    ensures GrowthPages(mm.heap, size) != 0 ==> Pgn(mm.heap.vmEnd) == Pages(mm)
  {
    GrowthFits(mm.heap, size);
    if GrowthPages(mm.heap, size) != 0 {
      AddressSplit(mm.heap.vmEnd);
    }
  }

  ghost function Step(s: Sys, p: nat, op: Op): (Sys, Outcome)
    requires SysOk(s) && Enabled(s, p, op)
  {
    match op
    case Spawn => (s.(procs := s.procs[p := InitMm()]), Code(0))
    case AllocOp(rgid, size) =>
      GrowthRoom(s.procs[p], s.ram, size);
      var (mm, ram, a) := AllocMem(s.procs[p], s.ram, rgid, size);
      (Sys(s.procs[p := mm], ram), Address(a))
    case FreeOp(slot) =>
      var (h, code) := Free(s.procs[p].heap, slot);
      (s.(procs := s.procs[p := s.procs[p].(heap := h)]), Code(code))
    case ReadOp(rgid, offset) =>
      var addr := s.procs[p].heap.sym[rgid].start + offset;
      AccessInBounds(s, p, addr);
      (s, Data(s.ram.storage[Phys(s.procs[p].pgd, addr)]))
    case WriteOp(rgid, offset, value) =>
      var addr := s.procs[p].heap.sym[rgid].start + offset;
      AccessInBounds(s, p, addr);
      (s.(ram := s.ram.(storage := s.ram.storage[Phys(s.procs[p].pgd, addr) := value])), Code(0))
  }

  ghost function AbsOf(s: Sys, p: nat): Flat
    requires SysOk(s) && p in s.procs
  {
    SysBacked(s, p);
    Abs(s.procs[p], s.ram.storage)
  }

  // Processes whose decoded tables did not change keep the partition.
  lemma SameTablesKeepPartition(procs: map<nat, Mm>, procs': map<nat, Mm>, used: int)
    requires Partition(procs, used)
    requires forall q: nat, g: nat, f: nat :: Maps(procs', q, g, f) <==> Maps(procs, q, g, f)
    ensures Partition(procs', used)
  {
    forall f: nat | f < used
      ensures Taken(procs', f)
    {
      assert Taken(procs, f);
      var q, g :| Maps(procs, q, g, f);
      assert Maps(procs', q, g, f);
    }
  }

  lemma FreeSetAfterFree(h: Heap, slot: int)
    requires HeapOk(h) && Freeable(h, slot)
    ensures FreeSet(Free(h, slot).0) == FreeSet(h) + Span(h.sym[slot].start, h.sym[slot].end)
  {
    forall b: nat
      ensures b in FreeSet(Free(h, slot).0) <==> b in FreeSet(h) + Span(h.sym[slot].start, h.sym[slot].end)
    {
      FreeBytes(h, slot, b);
    }
  }

  lemma FreeStep(s: Sys, p: nat, slot: int)
    requires SysOk(s) && p in s.procs
    ensures var (t, r) := Step(s, p, FreeOp(slot));
            && SysOk(t) && t.procs.Keys == s.procs.Keys
            && (AbsOf(t, p), r) == FlatStep(AbsOf(s, p), FreeOp(slot))
            && forall q :: q in s.procs && q != p ==> AbsOf(t, q) == AbsOf(s, q)
  {
    FreeStepOk(s, p, slot);
    FreeStepOwn(s, p, slot);
    hide HeapOk, FlatStep, RamOk, Partition;
  }

  lemma FreeStepOwn(s: Sys, p: nat, slot: int)
    requires SysOk(s) && p in s.procs && SysOk(Step(s, p, FreeOp(slot)).0)
    ensures var (t, r) := Step(s, p, FreeOp(slot));
            p in t.procs && (AbsOf(t, p), r) == FlatStep(AbsOf(s, p), FreeOp(slot))
  {
    if Freeable(s.procs[p].heap, slot) {
      FreeSetAfterFree(s.procs[p].heap, slot);
    }
  }

  lemma FreeStepOk(s: Sys, p: nat, slot: int)
    requires SysOk(s) && p in s.procs
    ensures SysOk(Step(s, p, FreeOp(slot)).0)
  {
    hide HeapOk, Coalesced, Layout, Phys;
    FreeKeepsHeap(s.procs[p].heap, slot);
    SameTablesKeepPartition(s.procs, Step(s, p, FreeOp(slot)).0.procs, Used(s.ram));
  }

  lemma SpawnStep(s: Sys, p: nat)
    requires SysOk(s) && p !in s.procs
    ensures var (t, r) := Step(s, p, Spawn);
            && SysOk(t) && t.procs.Keys == s.procs.Keys + {p}
            && AbsOf(t, p) == InitFlat() && r == Code(0)
            && forall q :: q in s.procs ==> AbsOf(t, q) == AbsOf(s, q)
  {
    hide HeapOk, InFree;
    var (t, r) := Step(s, p, Spawn);
    InitHeapOk();
    assert Frames(t.procs[p]) == [];
    SameTablesKeepPartition(s.procs, t.procs, Used(s.ram));
    assert AbsOf(t, p).bytes == [];
  }

  lemma ReadStep(s: Sys, p: nat, rgid: nat, offset: nat)
    requires SysOk(s) && Enabled(s, p, ReadOp(rgid, offset))
    ensures Accessible(AbsOf(s, p), rgid, offset)
    ensures Step(s, p, ReadOp(rgid, offset)) == (s, FlatStep(AbsOf(s, p), ReadOp(rgid, offset)).1)
  {
    SysBacked(s, p);
    AccessInBounds(s, p, s.procs[p].heap.sym[rgid].start + offset);
  }

  // Distinct bytes of distinct heaps lie at distinct physical addresses.
  lemma DistinctBytes(s: Sys, p: nat, a: nat, q: nat, b: nat)
    requires SysOk(s) && p in s.procs && q in s.procs
    requires a < |Frames(s.procs[p])| * PAGE_SIZE && b < |Frames(s.procs[q])| * PAGE_SIZE
    requires Location(Frames(s.procs[p]), a) == Location(Frames(s.procs[q]), b)
    ensures p == q && a == b
  {
    var f, e := Frames(s.procs[p])[a / PAGE_SIZE], Frames(s.procs[q])[b / PAGE_SIZE];
    assert f == e && a % PAGE_SIZE == b % PAGE_SIZE;
    assert Maps(s.procs, p, a / PAGE_SIZE, f) && Maps(s.procs, q, b / PAGE_SIZE, f);
  }

  // Storing one byte changes a view at that byte's own address and nowhere else.
  lemma StoreInView(storage: seq<Byte>, frames: seq<nat>, addr: nat, value: Byte)
    requires Backed(storage, frames) && addr < |frames| * PAGE_SIZE
    requires forall b: nat :: b < |frames| * PAGE_SIZE && Location(frames, b) == Location(frames, addr) ==> b == addr
    ensures Location(frames, addr) < |storage|
    ensures var storage' := storage[Location(frames, addr) := value];
            Backed(storage', frames) && View(storage', frames) == View(storage, frames)[addr := value]
  {
    BackedLocation(storage, frames, addr);
  }

  lemma StoreOutsideView(storage: seq<Byte>, frames: seq<nat>, x: nat, value: Byte)
    requires Backed(storage, frames) && x < |storage|
    requires forall b: nat :: b < |frames| * PAGE_SIZE ==> Location(frames, b) != x
    ensures Backed(storage[x := value], frames) && View(storage[x := value], frames) == View(storage, frames)
  {
  }

  lemma StoreOk(s: Sys, x: nat, value: Byte)
    requires SysOk(s) && x < |s.ram.storage| && x < Used(s.ram) * PAGE_SIZE
    ensures SysOk(s.(ram := s.ram.(storage := s.ram.storage[x := value])))
  {
  }

  lemma WriteStep(s: Sys, p: nat, rgid: nat, offset: nat, value: Byte)
    requires SysOk(s) && Enabled(s, p, WriteOp(rgid, offset, value))
    ensures var (t, r) := Step(s, p, WriteOp(rgid, offset, value));
            && SysOk(t) && t.procs == s.procs
            && Accessible(AbsOf(s, p), rgid, offset)
            && (AbsOf(t, p), r) == FlatStep(AbsOf(s, p), WriteOp(rgid, offset, value))
            && forall q :: q in s.procs && q != p ==> AbsOf(t, q) == AbsOf(s, q)
  {
    hide Coalesced, RamOk, Frames, Phys;
    var addr := s.procs[p].heap.sym[rgid].start + offset;
    AccessInBounds(s, p, addr);
    SysBacked(s, p);
    var fs := Frames(s.procs[p]);
    var x := Location(fs, addr);
    var t := s.(ram := s.ram.(storage := s.ram.storage[x := value]));
    assert Step(s, p, WriteOp(rgid, offset, value)) == (t, Code(0));
    assert Maps(s.procs, p, addr / PAGE_SIZE, fs[addr / PAGE_SIZE]);
    StoreOk(s, x, value);
    forall b: nat | b < |fs| * PAGE_SIZE && Location(fs, b) == x
      ensures b == addr
    {
      DistinctBytes(s, p, b, p, addr);
    }
    StoreInView(s.ram.storage, fs, addr, value);
    forall q | q in s.procs && q != p
      ensures AbsOf(t, q) == AbsOf(s, q)
    {
      SysBacked(s, q);
      forall b: nat | b < |Frames(s.procs[q])| * PAGE_SIZE
        ensures Location(Frames(s.procs[q]), b) != x
      {
        if Location(Frames(s.procs[q]), b) == x {
          DistinctBytes(s, q, b, p, addr);
        }
      }
      StoreOutsideView(s.ram.storage, Frames(s.procs[q]), x, value);
    }
  }

  lemma RunAtIsFreeRun(h: Heap, c: nat, size: nat)
    requires HeapOk(h)
    ensures RunAt(FreeSet(h), c, size) <==> FreeRun(h.free, c, size)
  {
    if RunAt(FreeSet(h), c, size) {
      forall b: nat | c <= b < c + size
        ensures InFree(h.free, b)
      {
        assert b in Span(c, c + size);
      }
    }
    if FreeRun(h.free, c, size) {
      forall b: nat | b in Span(c, c + size)
        ensures b in FreeSet(h)
      {
        WithinBreak(h, b);
      }
    }
  }

  // The list allocator picks the address the flat store picks.
  lemma AllocPicksFirstRun(h: Heap, rgid: nat, size: nat)
    requires HeapOk(h) && rgid < MAX_SYMTBL && size >= 1 && !Hazard(h.free, size)
    ensures Alloc(h, rgid, size).1 == FirstRun(FreeSet(h), size, 0, h.sbrk)
  {
    var a, c := Alloc(h, rgid, size).1, FirstRun(FreeSet(h), size, 0, h.sbrk);
    FirstRunIsLeast(FreeSet(h), size, 0, h.sbrk);
    AllocIsFirstFit(h, rgid, size);
    forall b: nat
      ensures RunAt(FreeSet(h), b, size) <==> FreeRun(h.free, b, size)
      ensures RunAt(FreeSet(h), b, size) ==> b < h.sbrk
    {
      RunAtIsFreeRun(h, b, size);
      if RunAt(FreeSet(h), b, size) {
        assert b in Span(b, b + size);
      }
    }
    if c < h.sbrk {
      assert FreeRun(h.free, c, size);
      assert a <= c;
    }
    if FreeRun(h.free, a, size) {
      assert RunAt(FreeSet(h), a, size);
      assert c <= a;
    }
  }

  lemma FreeSetAfterAlloc(h: Heap, rgid: nat, size: nat)
    requires HeapOk(h) && rgid < MAX_SYMTBL && size >= 1
    requires !Hazard(h.free, size) && !Live(h.sym[rgid])
    ensures var (g, a) := Alloc(h, rgid, size);
            FreeSet(g) == FreeSet(h) + Span(h.sbrk, g.sbrk) - Span(a, a + size)
  {
    var (g, a) := Alloc(h, rgid, size);
    AllocKeepsHeap(h, rgid, size);
    GrowsUp(h, rgid, size);
    forall b: nat
      ensures b in FreeSet(g) <==> b in FreeSet(h) + Span(h.sbrk, g.sbrk) - Span(a, a + size)
    {
      AllocBytes(h, rgid, size, b);
      WithinBreak(h, b);
      WithinBreak(g, b);
    }
  }

  lemma SymAfterAlloc(h: Heap, rgid: nat, size: nat)
    requires HeapOk(h) && rgid < MAX_SYMTBL && size >= 1 && !Hazard(h.free, size)
    ensures var (g, a) := Alloc(h, rgid, size);
            && g.sym == h.sym[rgid := Region(a, a + size)]
            && g.sbrk == h.sbrk + (if a == h.sbrk then PageAlign(size) else 0)
            && GrowthPages(h, size) * PAGE_SIZE == g.sbrk - h.sbrk
  {
    GrowthFits(h, size);
    HazardIsShortPick(h.free, size);
    BestFitIsLowest(h.free, size, |h.free|);
    if BestFit(h.free, size, |h.free|) < 0 {
      GrowthBreak(h, rgid, size);
    }
  }

  lemma AllocMatchesFlat(h: Heap, rgid: nat, size: nat, bytes: seq<Byte>)
    requires HeapOk(h) && rgid < MAX_SYMTBL && size >= 1
    requires !Hazard(h.free, size) && !Live(h.sym[rgid]) && |bytes| == h.sbrk
    ensures var (g, a) := Alloc(h, rgid, size);
            FlatAlloc(Flat(bytes, FreeSet(h), h.sym), rgid, size)
            == (Flat(bytes + seq(GrowthPages(h, size) * PAGE_SIZE, i => 0), FreeSet(g), g.sym), a)
  {
    hide HeapOk, Coalesced, InFree, Hazard, Alloc, FirstRun, PageAlign, BestFit, Span;
    AllocPicksFirstRun(h, rgid, size);
    FreeSetAfterAlloc(h, rgid, size);
    SymAfterAlloc(h, rgid, size);
  }

  // ---------- Growth

  // The frames an allocation maps, in page order.
  function NewFrames(ram: Device, n: nat): seq<nat>
    requires n <= |ram.free|
  {
    Reverse(ram.free[..n])
  }

  // Frames in closed form: growing by n pages after `used` frames were handed out to all
  // processes maps the i-th new page to frame used + n - 1 - i.
  lemma NewFramesClosedForm(ram: Device, n: nat)
    requires RamOk(ram) && n <= |ram.free|
    ensures |NewFrames(ram, n)| == n
    ensures forall i :: 0 <= i < n ==> NewFrames(ram, n)[i] == Used(ram) + n - 1 - i
  {
    ReverseLength(ram.free[..n]);
    forall i | 0 <= i < n
      ensures NewFrames(ram, n)[i] == Used(ram) + n - 1 - i
    {
      ReverseAt(ram.free[..n], i);
    }
  }

  // The decoded effect of an allocation on the page table: the new frames are appended, pages at
  // and above the new break stay untouched, and the free list loses its first n frames.
  lemma AllocTable(mm: Mm, ram: Device, rgid: nat, size: nat)
    requires ProcOk(mm) && RamOk(ram)
    requires rgid < MAX_SYMTBL && size >= 1 && !Hazard(mm.heap.free, size) && !Live(mm.heap.sym[rgid])
    requires GrowthPages(mm.heap, size) <= |ram.free|
    requires mm.heap.vmEnd + GrowthPages(mm.heap, size) * PAGE_SIZE <= ADDRESS_LIMIT
    ensures RoomToGrow(mm, ram, size)
    ensures var n := GrowthPages(mm.heap, size);
            var (mm', ram', a) := AllocMem(mm, ram, rgid, size);
            && mm'.heap == Alloc(mm.heap, rgid, size).0
            && ProcOk(mm') && Frames(mm') == Frames(mm) + NewFrames(ram, n)
            && ram' == ram.(free := ram.free[n..])
  {
    hide Alloc, FrameTable;
    hide Coalesced, Layout, Hazard, InFree, InLive;
    var n := GrowthPages(mm.heap, size);
    GrowthRoom(mm, ram, size);
    AllocKeepsHeap(mm.heap, rgid, size);
    SymAfterAlloc(mm.heap, rgid, size);
    NewFramesClosedForm(ram, n);
    if n == 0 {
      assert Frames(mm) + NewFrames(ram, n) == Frames(mm);
    } else {
      MapPagesDecoded(mm.pgd, mm.fifo, Pages(mm), NewFrames(ram, n));
    }
  }

  lemma GrowthKeepsPartition(procs: map<nat, Mm>, procs': map<nat, Mm>, p: nat, base: nat, n: nat, used: nat)
    requires Partition(procs, used)
    requires forall q: nat, g: nat, f: nat :: Maps(procs', q, g, f) <==>
               Maps(procs, q, g, f) || (q == p && base <= g < base + n && f == used + n - 1 - (g - base))
    requires forall g: nat, f: nat :: Maps(procs, p, g, f) ==> g < base
    ensures Partition(procs', used + n)
  {
    forall f: nat | f < used + n
      ensures Taken(procs', f)
    {
      if f < used {
        assert Taken(procs, f);
        var q, g :| Maps(procs, q, g, f);
        assert Maps(procs', q, g, f);
      } else {
        assert Maps(procs', p, base + (used + n - 1 - f), f);
      }
    }
  }

  lemma AllocStepMaps(s: Sys, p: nat, rgid: nat, size: nat, q: nat, g: nat, f: nat)
    requires SysOk(s) && Enabled(s, p, AllocOp(rgid, size))
    ensures var n, base := GrowthPages(s.procs[p].heap, size), Pages(s.procs[p]);
            Maps(Step(s, p, AllocOp(rgid, size)).0.procs, q, g, f) <==>
              Maps(s.procs, q, g, f) || (q == p && base <= g < base + n && f == Used(s.ram) + n - 1 - (g - base))
  {
    hide FrameTable;
    hide Partition, Coalesced, Layout, Hazard, InFree, InLive;
    var n := GrowthPages(s.procs[p].heap, size);
    AllocTable(s.procs[p], s.ram, rgid, size);
    NewFramesClosedForm(s.ram, n);
  }

  lemma AllocStepOk(s: Sys, p: nat, rgid: nat, size: nat)
    requires SysOk(s) && Enabled(s, p, AllocOp(rgid, size))
    ensures SysOk(Step(s, p, AllocOp(rgid, size)).0)
  {
    hide Frames, AllocMem, Alloc, GrowthPages, Reverse;
    hide Coalesced, Layout, Hazard, InFree, InLive;
    var t := Step(s, p, AllocOp(rgid, size)).0;
    var n := GrowthPages(s.procs[p].heap, size);
    AllocTable(s.procs[p], s.ram, rgid, size);
    forall q: nat, g: nat, f: nat
      ensures Maps(t.procs, q, g, f) <==>
        Maps(s.procs, q, g, f) || (q == p && Pages(s.procs[p]) <= g < Pages(s.procs[p]) + n
          && f == Used(s.ram) + n - 1 - (g - Pages(s.procs[p])))
    {
      AllocStepMaps(s, p, rgid, size, q, g, f);
    }
    GrowthKeepsPartition(s.procs, t.procs, p, Pages(s.procs[p]), n, Used(s.ram));
  }

  // New pages start out as zeros, after the bytes that were there.
  lemma GrownView(ram: Device, frames: seq<nat>, n: nat)
    requires RamOk(ram) && n <= |ram.free|
    requires Backed(ram.storage, frames)
    ensures Backed(ram.storage, frames + NewFrames(ram, n))
    ensures View(ram.storage, frames + NewFrames(ram, n))
         == View(ram.storage, frames) + seq(n * PAGE_SIZE, i => 0)
  {
    NewFramesClosedForm(ram, n);
    var all := frames + NewFrames(ram, n);
    forall g | 0 <= g < |all|
      ensures InFrame(all[g], ram.storage)
      ensures g >= |frames| ==> all[g] >= Used(ram)
    {
    }
    forall a: nat | a < |all| * PAGE_SIZE
      ensures Location(all, a) < |ram.storage|
      ensures ram.storage[Location(all, a)] == if a < |frames| * PAGE_SIZE then View(ram.storage, frames)[a] else 0
    {
      BackedLocation(ram.storage, all, a);
      if a >= |frames| * PAGE_SIZE {
        assert a / PAGE_SIZE >= |frames|;
      }
    }
  }

  lemma AllocStepOwn(s: Sys, p: nat, rgid: nat, size: nat)
    requires SysOk(s) && Enabled(s, p, AllocOp(rgid, size)) && SysOk(Step(s, p, AllocOp(rgid, size)).0)
    ensures var (t, r) := Step(s, p, AllocOp(rgid, size));
            p in t.procs && (AbsOf(t, p), r) == FlatStep(AbsOf(s, p), AllocOp(rgid, size))
  {
    SysBacked(s, p);
    AllocTable(s.procs[p], s.ram, rgid, size);
    AllocMatchesFlat(s.procs[p].heap, rgid, size, AbsOf(s, p).bytes);
    GrownView(s.ram, Frames(s.procs[p]), GrowthPages(s.procs[p].heap, size));
  }

  lemma AllocStep(s: Sys, p: nat, rgid: nat, size: nat)
    requires SysOk(s) && Enabled(s, p, AllocOp(rgid, size))
    ensures var (t, r) := Step(s, p, AllocOp(rgid, size));
            && SysOk(t) && t.procs.Keys == s.procs.Keys
            && (AbsOf(t, p), r) == FlatStep(AbsOf(s, p), AllocOp(rgid, size))
            && forall q :: q in s.procs && q != p ==> AbsOf(t, q) == AbsOf(s, q)
  {
    hide Coalesced, Layout, Partition, RamOk, Frames, AllocMem, Alloc, Free, FlatStep;
    AllocStepOk(s, p, rgid, size);
    AllocStepOwn(s, p, rgid, size);
    AllocTable(s.procs[p], s.ram, rgid, size);
    hide HeapOk, FlatStep, RamOk, Partition, Hazard;
  }

  // One call: the invariant holds again, the caller's flat store makes the flat step with the same
  // outcome, and nobody else's store changes.
  lemma StepRefines(s: Sys, p: nat, op: Op)
    requires SysOk(s) && Enabled(s, p, op)
    ensures var (t, r) := Step(s, p, op);
            && SysOk(t)
            && t.procs.Keys == s.procs.Keys + {p}
            && (op.ReadOp? || op.WriteOp? ==> Accessible(AbsOf(s, p), op.rgid, op.offset))
            && (AbsOf(t, p), r) == FlatStep(if op.Spawn? then InitFlat() else AbsOf(s, p), op)
            && forall q :: q in s.procs && q != p ==> AbsOf(t, q) == AbsOf(s, q)
  {
    hide SysOk, AbsOf, Step;
    match op
    case Spawn => SpawnStep(s, p);
    case AllocOp(rgid, size) => AllocStep(s, p, rgid, size);
    case FreeOp(slot) => FreeStep(s, p, slot);
    case ReadOp(rgid, offset) => ReadStep(s, p, rgid, offset);
    case WriteOp(rgid, offset, value) => WriteStep(s, p, rgid, offset, value);
  }

  // Every frame of the RAM has exactly one owner: it is on the free list, or exactly one page of one
  // process is mapped to it.
  lemma FrameHasOneOwner(s: Sys, f: nat)
    requires SysOk(s) && f < |s.ram.storage| / PAGE_SIZE
    ensures f in s.ram.free <==> !Taken(s.procs, f)
    ensures forall p: nat, g: nat, q: nat, h: nat ::
              Maps(s.procs, p, g, f) && Maps(s.procs, q, h, f) ==> p == q && g == h
  {
    var u := Used(s.ram);
    if f < u {
      assert Taken(s.procs, f);
    } else {
      assert s.ram.free[f - u] == f;
    }
  }
}
