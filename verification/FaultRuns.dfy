/** Whole runs in which pages may fault: any processes start, allocate, free, and read and write at any
    address, inside their regions or not, on one RAM and one swap device. */
module FaultRuns {
  import opened Pte
  import opened Regions
  import opened Paging
  import opened Faults

  datatype Action =
    | Start(p: nat)
    | Allocate(p: nat, rgid: nat, size: nat)
    | Release(p: nat, slot: int)
    | Load(p: nat, addr: nat)
    | Store(p: nat, addr: nat, value: Byte)

  // ---------- Actions

  // The first page an allocation adds.
  function GrowthBase(h: Heap, size: nat): nat {
    if GrowthPages(h, size) == 0 then 0 else Pgn(h.vmEnd)
  }

  predicate CanTouch(b: Book, p: nat, addr: nat) {
    && p in b.procs && Pgn(addr) < |b.procs[p].pgd|
    && (Present(b.procs[p].pgd[Pgn(addr)]) || CanFault(b.procs[p], b.ram.storage, b.swp, Pgn(addr)))
    && GetPage(b.procs[p], b.ram.storage, b.swp, Pgn(addr)).2 * PAGE_SIZE + Offst(addr) < |b.ram.storage|
  }

  // The slot of an allocation is empty, no node is one byte short, growth finds its frames, and no
  // access past the break has brought its pages in before. An access finds its page or can fault.
  ghost predicate Ready(b: Book, act: Action)
    requires BookOk(b)
  {
    match act
    case Start(p) => p !in b.procs
    case Allocate(p, rgid, size) =>
      && p in b.procs && rgid < MAX_SYMTBL && rgid < |b.procs[p].heap.sym|
      && !Hazard(b.procs[p].heap.free, size) && !Live(b.procs[p].heap.sym[rgid])
      && RoomToGrow(b.procs[p], b.ram, size)
      && Can(b, MapNew(p, GrowthBase(b.procs[p].heap, size), GrowthPages(b.procs[p].heap, size)))
    case Release(p, slot) => p in b.procs
    case Load(p, addr) => CanTouch(b, p, addr)
    case Store(p, addr, value) => CanTouch(b, p, addr)
  }

  // pg_getpage, with the pages mapped and lost noted: the book after it and the frame of the page.
  ghost function Touch(b: Book, p: nat, addr: nat): (Book, nat)
    requires BookOk(b) && CanTouch(b, p, addr)
  {
    var g, mm := Pgn(addr), b.procs[p];
    var (mm', swp, fpn) := GetPage(mm, b.ram.storage, b.swp, g);
    if Present(mm.pgd[g]) then (b, fpn)
    else
      (b.(procs := b.procs[p := mm'], swp := swp,
          mapped := b.mapped[p := b.mapped[p] + [g]],
          victims := b.victims[p := b.victims[p] + [mm.fifo[|mm.fifo| - 1]]]),
       fpn)
  }

  ghost function Do(b: Book, act: Action): Book
    requires BookOk(b) && Ready(b, act)
  {
    match act
    case Start(p) => Next(b, Create(p))
    case Allocate(p, rgid, size) =>
      var h := b.procs[p].heap;
      var (mm, ram, a) := AllocMem(b.procs[p], b.ram, rgid, size);
      b.(procs := b.procs[p := mm], ram := ram,
         mapped := b.mapped[p := b.mapped[p] + Iota(GrowthBase(h, size), GrowthBase(h, size) + GrowthPages(h, size))])
    case Release(p, slot) => WithHeap(b, p, Free(b.procs[p].heap, slot).0)
    case Load(p, addr) => Touch(b, p, addr).0
    case Store(p, addr, value) =>
      var (c, fpn) := Touch(b, p, addr);
      c.(ram := c.ram.(storage := c.ram.storage[fpn * PAGE_SIZE + Offst(addr) := value]))
  }

  function WithHeap(b: Book, p: nat, h: Heap): Book
    requires p in b.procs
  {
    b.(procs := b.procs[p := b.procs[p].(heap := h)])
  }

  // ---------- What every run keeps

  // No frame and no swap slot gets lost: each is on its free list or holds a page.
  ghost predicate Accounted(b: Book) {
    && (forall f: nat :: f < FrameCount(b.ram) ==> f in b.ram.free || Held(b.procs, InRam(f)))
    && (forall k: nat :: k < FrameCount(b.swp) ==> k in b.swp.free || Held(b.procs, InSwap(k)))
  }

  function FrameCount(d: Device): nat { |d.storage| / PAGE_SIZE }

  ghost predicate Held(procs: map<nat, Mm>, e: PageState) {
    exists p: nat, g: nat :: At(procs, p, g, e)
  }

  ghost predicate HeapsOk(b: Book) {
    forall p :: p in b.procs ==> HeapOk(b.procs[p].heap)
  }

  ghost predicate RunInv(b: Book) {
    BookOk(b) && Accounted(b) && HeapsOk(b)
  }

  // The bookkeeping looks at page tables, queues, logs and free lists only.
  ghost predicate SameBooks(b: Book, c: Book) {
    && c.ram.free == b.ram.free && |c.ram.storage| == |b.ram.storage| && c.swp == b.swp
    && c.mapped == b.mapped && c.victims == b.victims
    && c.procs.Keys == b.procs.Keys
    && (forall p :: p in b.procs ==> c.procs[p].pgd == b.procs[p].pgd && c.procs[p].fifo == b.procs[p].fifo)
  }

  lemma SameAt(b: Book, c: Book)
    requires SameBooks(b, c)
    ensures forall p: nat, g: nat, e: PageState :: At(c.procs, p, g, e) <==> At(b.procs, p, g, e)
  {
  }

  lemma SameBooksKeep(b: Book, c: Book)
    requires BookOk(b) && Accounted(b) && SameBooks(b, c)
    ensures BookOk(c) && Accounted(c)
  {
    SameAt(b, c);
    hide At, Decode, Reverse, NoRepeats;
    forall p | p in c.procs
      ensures QueueOk(c.procs[p])
    {
      assert QueueOk(b.procs[p]);
    }
    hide QueueOk;
    SameHeld(b.procs, c.procs);
  }

  lemma SameHeld(procs: map<nat, Mm>, procs': map<nat, Mm>)
    requires forall p: nat, g: nat, e: PageState :: At(procs', p, g, e) <==> At(procs, p, g, e)
    ensures forall e: PageState :: Held(procs', e) <==> Held(procs, e)
  {
    hide At;
  }

  // An allocation maps as many pages as it grows by, none included, and changes the heap.
  lemma AllocMemMaps(mm: Mm, ram: Device, rgid: nat, size: nat)
    requires rgid < |mm.heap.sym| && RoomToGrow(mm, ram, size)
    requires GrowthBase(mm.heap, size) + GrowthPages(mm.heap, size) <= |mm.pgd|
    ensures var h, n := Alloc(mm.heap, rgid, size).0, GrowthPages(mm.heap, size);
            var (pgd, fifo) := (ReverseLength(ram.free[..n]);
                                MapPages(mm.pgd, mm.fifo, GrowthBase(mm.heap, size), Reverse(ram.free[..n])));
            && AllocMem(mm, ram, rgid, size).0 == Mm(h, pgd, fifo)
            && AllocMem(mm, ram, rgid, size).1 == ram.(free := ram.free[n..])
  {
    hide Alloc, Pgn, GrowthPages;
    if GrowthPages(mm.heap, size) == 0 {
      assert ram.free[..0] == [] && ram.free[0..] == ram.free;
    }
  }

  // So it is a step of new mappings, but for the heap.
  lemma AllocateIsMapNew(b: Book, p: nat, rgid: nat, size: nat)
    requires BookOk(b) && Ready(b, Allocate(p, rgid, size))
    ensures var h := b.procs[p].heap;
            var c := Next(b, MapNew(p, GrowthBase(h, size), GrowthPages(h, size)));
            p in c.procs && Do(b, Allocate(p, rgid, size)) == WithHeap(c, p, Alloc(h, rgid, size).0)
            && c.procs[p].heap == h
  {
    hide Distinct, Owned, QueueOk, FreeListOk, Hazard, Reverse, Alloc, Pgn, GrowthPages, Present;
    var mm, base, n := b.procs[p], GrowthBase(b.procs[p].heap, size), GrowthPages(b.procs[p].heap, size);
    AllocMemMaps(mm, b.ram, rgid, size);
    hide GrowthBase, MapPages, AllocMem, BookOk, Iota;
    var c, mm' := Next(b, MapNew(p, base, n)), AllocMem(mm, b.ram, rgid, size).0;
    assert c.procs == b.procs[p := mm.(pgd := mm'.pgd, fifo := mm'.fifo)];
    assert c.procs[p := c.procs[p].(heap := mm'.heap)] == b.procs[p := mm'];
  }

  // An access to an absent page is a fault, any other leaves the book as it is.
  lemma TouchIsFault(b: Book, p: nat, addr: nat)
    requires BookOk(b) && CanTouch(b, p, addr)
    ensures var absent := !Present(b.procs[p].pgd[Pgn(addr)]);
            && (absent ==> Can(b, Fault(p, Pgn(addr))))
            && Touch(b, p, addr).0 == if absent then Next(b, Fault(p, Pgn(addr))) else b
  {
    hide Pgn;
  }

  // A fault trades a swap slot: the victim's frame goes to the wanted page, the slot to the victim.
  lemma FaultKeepsHeld(b: Book, p: nat, pgn: nat)
    requires BookOk(b) && Can(b, Fault(p, pgn))
    ensures forall e: PageState ::
              Held(b.procs, e) || e == InSwap(b.swp.free[0]) ==> Held(Next(b, Fault(p, pgn)).procs, e)
  {
    var c := Next(b, Fault(p, pgn));
    var vic, slot := b.procs[p].fifo[|b.procs[p].fifo| - 1], InSwap(b.swp.free[0]);
    FaultDecoded(b, p, pgn);
    FaultAt(b, p, pgn, p, vic, slot);
    assert At(c.procs, p, vic, slot);
    forall q: nat, g: nat, e: PageState | At(b.procs, q, g, e)
      ensures Held(c.procs, e)
    {
      var g' := if q == p && g == vic then pgn else g;
      FaultAt(b, p, pgn, q, g', e);
      assert At(c.procs, q, g', e);
    }
  }

  // New mappings take frames from the free list; the pages they are given to hold them.
  lemma MapKeepsHeld(b: Book, p: nat, base: nat, n: nat)
    requires BookOk(b) && Can(b, MapNew(p, base, n))
    ensures forall e: PageState ::
              Held(b.procs, e) || (e.InRam? && e.fpn in b.ram.free[..n]) ==> Held(Next(b, MapNew(p, base, n)).procs, e)
  {
    var c := Next(b, MapNew(p, base, n));
    MapDecoded(b, p, base, n);
    forall q: nat, g: nat, e: PageState | At(b.procs, q, g, e)
      ensures Held(c.procs, e)
    {
      MapAt(b, p, base, n, q, g, e);
      assert At(c.procs, q, g, e);
    }
    forall i | 0 <= i < n
      ensures Held(c.procs, InRam(b.ram.free[i]))
    {
      MapAt(b, p, base, n, p, base + n - 1 - i, InRam(b.ram.free[i]));
      assert At(c.procs, p, base + n - 1 - i, InRam(b.ram.free[i]));
    }
  }

  // What leaves a free list or a page table turns up in some page table.
  lemma AccountedAfter(b: Book, c: Book)
    requires Accounted(b) && FrameCount(c.ram) == FrameCount(b.ram) && FrameCount(c.swp) == FrameCount(b.swp)
    requires forall e: PageState :: Held(b.procs, e) ==> Held(c.procs, e)
    requires forall f: nat :: f in b.ram.free ==> f in c.ram.free || Held(c.procs, InRam(f))
    requires forall k: nat :: k in b.swp.free ==> k in c.swp.free || Held(c.procs, InSwap(k))
    ensures Accounted(c)
  {
    hide Held;
  }

  lemma FaultLeaves(b: Book, p: nat, pgn: nat)
    requires BookOk(b) && Can(b, Fault(p, pgn))
    ensures var c := Next(b, Fault(p, pgn));
            && c.ram == b.ram && |b.swp.free| > 0 && c.swp.free == b.swp.free[1..]
            && |c.swp.storage| == |b.swp.storage| && c.procs.Keys == b.procs.Keys
            && forall q :: q in b.procs ==> c.procs[q].heap == b.procs[q].heap
  {
    hide Pgn, Present, SetSwap, SetFpn, Fpn, Swp;
  }

  lemma FaultAccounted(b: Book, p: nat, pgn: nat)
    requires BookOk(b) && Can(b, Fault(p, pgn)) && Accounted(b)
    ensures Accounted(Next(b, Fault(p, pgn)))
  {
    hide Distinct, Accounted;
    var c := Next(b, Fault(p, pgn));
    FaultLeaves(b, p, pgn);
    FaultKeepsHeld(b, p, pgn);
    hide Next, Can, BookOk, Accounted, Held;
    assert forall k: nat :: k in b.swp.free ==> k == b.swp.free[0] || k in b.swp.free[1..];
    AccountedAfter(b, c);
  }

  lemma FaultKeepsRunInv(b: Book, p: nat, pgn: nat)
    requires RunInv(b) && Can(b, Fault(p, pgn))
    ensures RunInv(Next(b, Fault(p, pgn)))
  {
    FaultKeepsBook(b, p, pgn);
    FaultLeaves(b, p, pgn);
    FaultAccounted(b, p, pgn);
    hide BookOk, Next, HeapOk, Accounted, Can;
  }

  lemma MapLeaves(b: Book, p: nat, base: nat, n: nat)
    requires BookOk(b) && Can(b, MapNew(p, base, n))
    ensures var c := Next(b, MapNew(p, base, n));
            && c.swp == b.swp && n <= |b.ram.free| && c.ram == b.ram.(free := b.ram.free[n..])
            && c.procs.Keys == b.procs.Keys
            && forall q :: q in b.procs ==> c.procs[q].heap == b.procs[q].heap
  {
    hide MapPages, Reverse;
  }

  lemma InEitherPart(s: seq<nat>, n: nat)
    requires n <= |s|
    ensures forall x: nat :: x in s ==> x in s[..n] || x in s[n..]
  {
    assert s == s[..n] + s[n..];
  }

  lemma MapAccounted(b: Book, p: nat, base: nat, n: nat)
    requires BookOk(b) && Can(b, MapNew(p, base, n)) && Accounted(b)
    ensures Accounted(Next(b, MapNew(p, base, n)))
  {
    var c := Next(b, MapNew(p, base, n));
    MapLeaves(b, p, base, n);
    MapKeepsHeld(b, p, base, n);
    hide Next, Can, BookOk, Accounted, Held;
    InEitherPart(b.ram.free, n);
    AccountedAfter(b, c);
  }

  lemma MapKeepsRunInv(b: Book, p: nat, base: nat, n: nat)
    requires RunInv(b) && Can(b, MapNew(p, base, n))
    ensures RunInv(Next(b, MapNew(p, base, n)))
  {
    MapKeepsBook(b, p, base, n);
    MapLeaves(b, p, base, n);
    MapAccounted(b, p, base, n);
    hide BookOk, Next, HeapOk, Accounted, Can;
  }

  lemma StartKeepsHeld(b: Book, p: nat)
    requires BookOk(b) && Can(b, Create(p))
    ensures forall e: PageState :: Held(b.procs, e) ==> Held(Next(b, Create(p)).procs, e)
  {
    hide BookOk, Decode;
    var c := Next(b, Create(p));
    forall q: nat, g: nat, e: PageState | At(b.procs, q, g, e)
      ensures Held(c.procs, e)
    {
      assert At(c.procs, q, g, e);
    }
  }

  lemma StartKeepsRunInv(b: Book, p: nat)
    requires RunInv(b) && Can(b, Create(p))
    ensures RunInv(Next(b, Create(p)))
  {
    CreateKeepsBook(b, p);
    StartKeepsHeld(b, p);
    InitHeapOk();
    hide BookOk, HeapOk, Held, InitHeap;
    AccountedAfter(b, Next(b, Create(p)));
  }

  // An access keeps everything, whether it faults or not.
  lemma TouchKeepsRunInv(b: Book, p: nat, addr: nat)
    requires RunInv(b) && CanTouch(b, p, addr)
    ensures RunInv(Touch(b, p, addr).0)
  {
    TouchIsFault(b, p, addr);
    hide BookOk, Touch, CanTouch, Pgn, Next;
    if !Present(b.procs[p].pgd[Pgn(addr)]) {
      FaultKeepsRunInv(b, p, Pgn(addr));
    }
  }

  // The invariant over b carries to a state with the same books and good heaps.
  lemma SameBooksKeepRunInv(b: Book, c: Book)
    requires RunInv(b) && SameBooks(b, c) && HeapsOk(c)
    ensures RunInv(c)
  {
    hide BookOk, Accounted, SameBooks, HeapOk;
    SameBooksKeep(b, c);
  }

  lemma WithHeapKeepsRunInv(b: Book, p: nat, h: Heap)
    requires RunInv(b) && p in b.procs && HeapOk(h)
    ensures RunInv(WithHeap(b, p, h))
  {
    hide BookOk, Accounted, HeapOk;
    SameBooksKeepRunInv(b, WithHeap(b, p, h));
  }

  lemma AllocateKeepsRunInv(b: Book, p: nat, rgid: nat, size: nat)
    requires RunInv(b) && Ready(b, Allocate(p, rgid, size))
    ensures RunInv(Do(b, Allocate(p, rgid, size)))
  {
    var h := b.procs[p].heap;
    var base, n := GrowthBase(h, size), GrowthPages(h, size);
    AllocateIsMapNew(b, p, rgid, size);
    MapKeepsRunInv(b, p, base, n);
    AllocKeepsHeap(h, rgid, size);
    hide RunInv, HeapOk, WithHeap;
    WithHeapKeepsRunInv(Next(b, MapNew(p, base, n)), p, Alloc(h, rgid, size).0);
  }

  lemma TouchHitsRam(b: Book, p: nat, addr: nat)
    requires BookOk(b) && CanTouch(b, p, addr)
    ensures var (c, fpn) := Touch(b, p, addr);
            c.ram == b.ram && fpn * PAGE_SIZE + Offst(addr) < |b.ram.storage|
  {
  }

  // A write faults as a read of the same address does, and then changes one byte of RAM: the one at the
  // address's offset in the frame the page's entry names. A read changes none.
  lemma StoreBytes(b: Book, p: nat, addr: nat, value: Byte)
    requires BookOk(b) && CanTouch(b, p, addr)
    ensures var c := Do(b, Load(p, addr));
            && c.ram == b.ram && p in c.procs && addr / PAGE_SIZE % MAX_PGN < |c.procs[p].pgd|
            && var a := Fpn(c.procs[p].pgd[addr / PAGE_SIZE % MAX_PGN]) * PAGE_SIZE + addr % PAGE_SIZE;
               && a < |b.ram.storage|
               && Do(b, Store(p, addr, value)) == c.(ram := b.ram.(storage := b.ram.storage[a := value]))
  {
    AnyAddress(addr);
    TouchHitsRam(b, p, addr);
    TouchFrame(b, p, addr);
    hide BookOk, CanTouch, Touch, Fpn;
  }

  lemma TouchFrame(b: Book, p: nat, addr: nat)
    requires BookOk(b) && CanTouch(b, p, addr)
    ensures var (c, fpn) := Touch(b, p, addr);
            p in c.procs && Pgn(addr) < |c.procs[p].pgd| && fpn == Fpn(c.procs[p].pgd[Pgn(addr)])
  {
    hide SetFpn, SetSwap, Fpn, Swp, Present, CopyPage, Pgn;
  }

  lemma StoreKeepsRunInv(b: Book, p: nat, addr: nat, value: Byte)
    requires RunInv(b) && CanTouch(b, p, addr)
    ensures RunInv(Do(b, Store(p, addr, value)))
  {
    hide BookOk, Accounted, HeapOk, Touch, CanTouch, GetPage;
    TouchHitsRam(b, p, addr);
    TouchKeepsRunInv(b, p, addr);
    var c, d := Touch(b, p, addr).0, Do(b, Store(p, addr, value));
    assert d.procs == c.procs && |d.ram.storage| == |c.ram.storage|;
    SameBooksKeepRunInv(c, d);
  }

  lemma DoKeepsRunInv(b: Book, act: Action)
    requires RunInv(b) && Ready(b, act)
    ensures RunInv(Do(b, act))
  {
    hide BookOk, Accounted, HeapOk, Touch, CanTouch, AllocMem, Free, Hazard;
    match act
    case Start(p) => StartKeepsRunInv(b, p);
    case Allocate(p, rgid, size) => AllocateKeepsRunInv(b, p, rgid, size);
    case Release(p, slot) =>
      FreeKeepsHeap(b.procs[p].heap, slot);
      SameBooksKeepRunInv(b, Do(b, act));
    case Load(p, addr) => TouchKeepsRunInv(b, p, addr);
    case Store(p, addr, value) => StoreKeepsRunInv(b, p, addr, value);
  }

  // ---------- Whole runs

  ghost predicate CanRun(b: Book, acts: seq<Action>)
    requires RunInv(b)
    decreases |acts|
  {
    acts == [] || (Ready(b, acts[0]) && (DoKeepsRunInv(b, acts[0]); CanRun(Do(b, acts[0]), acts[1..])))
  }

  ghost function RunAll(b: Book, acts: seq<Action>): Book
    requires RunInv(b) && CanRun(b, acts)
    decreases |acts|
  {
    if acts == [] then b else (DoKeepsRunInv(b, acts[0]); RunAll(Do(b, acts[0]), acts[1..]))
  }

  lemma DoKeepsSizes(b: Book, act: Action)
    requires BookOk(b) && Ready(b, act)
    ensures FrameCount(Do(b, act).ram) == FrameCount(b.ram) && FrameCount(Do(b, act).swp) == FrameCount(b.swp)
  {
    hide MapPages, Reverse, SetFpn, SetSwap, Fpn, Swp, Pgn, Present, Alloc, Free;
  }

  lemma {:induction false} RunKeepsInv(b: Book, acts: seq<Action>)
    requires RunInv(b) && CanRun(b, acts)
    ensures var c := RunAll(b, acts);
            RunInv(c) && FrameCount(c.ram) == FrameCount(b.ram) && FrameCount(c.swp) == FrameCount(b.swp)
    decreases |acts|
  {
    hide Accounted, BookOk, HeapsOk, Do, Ready, FrameCount;
    if acts != [] {
      DoKeepsRunInv(b, acts[0]);
      DoKeepsSizes(b, acts[0]);
      RunKeepsInv(Do(b, acts[0]), acts[1..]);
    }
  }

  lemma FirstAction(b: Book, act: Action, acts: seq<Action>)
    requires RunInv(b) && Ready(b, act) && RunInv(Do(b, act)) && CanRun(Do(b, act), acts)
    ensures CanRun(b, [act] + acts) && RunAll(b, [act] + acts) == RunAll(Do(b, act), acts)
  {
    hide BookOk, Accounted, HeapsOk, Do, Ready, CanTouch;
    assert ([act] + acts)[1..] == acts;
  }

  lemma InitRunInv(ramSize: nat, swpSize: nat)
    requires ramSize / PAGE_SIZE <= MAX_FPN && swpSize / PAGE_SIZE <= MAX_SWP
    ensures RunInv(InitBook(ramSize, swpSize))
  {
    InitBookOk(ramSize, swpSize);
    forall d: Device, size: nat, f: nat | d == InitDevice(size) && f < FrameCount(d)
      ensures f in d.free
    {
      assert d.free[f] == f;
    }
  }

  // From fresh devices, in every run: each process's queue holds its resident pages, each once; the
  // pages it lost are exactly the oldest of those it mapped, in mapping order; every frame and every
  // swap slot is on its free list or holds exactly one page of one process; and every heap is tiled.
  lemma EveryFaultRun(ramSize: nat, swpSize: nat, acts: seq<Action>)
    requires ramSize / PAGE_SIZE <= MAX_FPN && swpSize / PAGE_SIZE <= MAX_SWP
    requires (InitRunInv(ramSize, swpSize); CanRun(InitBook(ramSize, swpSize), acts))
    ensures RunInv(InitBook(ramSize, swpSize))
    ensures var b := RunAll(InitBook(ramSize, swpSize), acts);
            && (forall p :: p in b.procs ==>
                  && p in b.victims && p in b.mapped && HeapOk(b.procs[p].heap)
                  && NoRepeats(b.procs[p].fifo) && |b.procs[p].pgd| == MAX_PGN
                  && (forall g: nat :: g in b.procs[p].fifo <==> g < MAX_PGN && Decode(b.procs[p].pgd[g]).InRam?)
                  && b.victims[p] <= b.mapped[p])
            && (forall f: nat :: f < ramSize / PAGE_SIZE ==> (f in b.ram.free <==> !Held(b.procs, InRam(f))))
            && (forall k: nat :: k < swpSize / PAGE_SIZE ==> (k in b.swp.free <==> !Held(b.procs, InSwap(k))))
            && (forall p: nat, g: nat, q: nat, h: nat, e: PageState ::
                  At(b.procs, p, g, e) && At(b.procs, q, h, e) ==> p == q && g == h)
  {
    var init := InitBook(ramSize, swpSize);
    InitRunInv(ramSize, swpSize);
    RunKeepsInv(init, acts);
    var b := RunAll(init, acts);
    hide RunAll, CanRun, HeapOk;
    forall p | p in b.procs
      ensures b.victims[p] <= b.mapped[p] && QueueOk(b.procs[p])
    {
      assert b.mapped[p][..|b.victims[p]|] == b.victims[p];
    }
    hide QueueOk, NoRepeats;
    assert FrameCount(b.ram) == ramSize / PAGE_SIZE && FrameCount(b.swp) == swpSize / PAGE_SIZE;
  }

  // ---------- A run that faults

  // One process fills the only frame of RAM and then touches the page past its break.
  function FaultingRun(): seq<Action> { [Start(0), Allocate(0, 0, PAGE_SIZE), Load(0, PAGE_SIZE)] }

  lemma FirstPage()
    ensures var h := InitHeap();
            && GrowthPages(h, PAGE_SIZE) == 1 && GrowthBase(h, PAGE_SIZE) == 0 && !Hazard(h.free, PAGE_SIZE)
            && Pgn(PAGE_SIZE) == 1 && Offst(PAGE_SIZE) == 0 && Swp(0) == 0 && !Present(0)
  {
    AddressSplit(0);
    AddressSplit(PAGE_SIZE);
    EntryFields(0);
    EntryFlags(0);
    PageAlignRoundsUp(PAGE_SIZE);
    hide Pgn, Offst, Swp, Present, PageAlign;
    assert BestFit(InitHeap().free, PAGE_SIZE, 1) == -1;
  }

  lemma FirstGrowth()
    ensures var mm, ram := InitMm(), InitDevice(PAGE_SIZE);
            && RoomToGrow(mm, ram, PAGE_SIZE)
            && var (mm', ram', a) := AllocMem(mm, ram, 0, PAGE_SIZE);
               && mm'.pgd == mm.pgd[0 := SetFpn(0, 0)] && mm'.fifo == [0] && ram' == ram.(free := [])
  {
    FirstPage();
    AddressSplit(0);
    OneFrame();
    var mm, ram := InitMm(), InitDevice(PAGE_SIZE);
    OnePage(mm.pgd, 0);
    hide GrowthPages, Pgn, Hazard, Alloc, SetFpn, Reverse, InitDevice, MapPages;
    AllocMemMaps(mm, ram, 0, PAGE_SIZE);
  }

  lemma OneFrame()
    ensures InitDevice(PAGE_SIZE).free == [0] && [0][..1] == [0] && [0][1..] == [] && Reverse([0]) == [0]
  {
    assert Reverse([]) == [];
  }

  lemma OnePage(pgd: seq<bv32>, f: nat)
    requires |pgd| > 0
    ensures MapPages(pgd, [], 0, [f]) == (pgd[0 := SetFpn(pgd[0], f)], [0])
  {
    hide SetFpn;
    var pgd' := pgd[0 := SetFpn(pgd[0], f)];
    assert [f][1..] == [] && [0] + [] == [0];
    assert MapPages(pgd', [0], 1, []) == (pgd', [0]);
  }

  // The book once the process has started.
  function Started(): Book {
    Book(map[0 := InitMm()], InitDevice(PAGE_SIZE), InitDevice(PAGE_SIZE), map[0 := []], map[0 := []])
  }

  lemma StartedOk()
    ensures var init := InitBook(PAGE_SIZE, PAGE_SIZE);
            && RunInv(init) && Ready(init, Start(0)) && Do(init, Start(0)) == Started() && RunInv(Started())
  {
    InitRunInv(PAGE_SIZE, PAGE_SIZE);
    var init := InitBook(PAGE_SIZE, PAGE_SIZE);
    DoKeepsRunInv(init, Start(0));
    hide InitMm, InitDevice, RunInv, BookOk;
    assert Do(init, Start(0)) == Started();
  }

  // The book once it has its page.
  ghost predicate Filled(c: Book) {
    && 0 in c.procs && 0 in c.victims && c.procs[0].fifo == [0] && c.victims[0] == []
    && c.procs[0].pgd == InitMm().pgd[0 := SetFpn(0, 0)]
    && |c.ram.storage| == PAGE_SIZE && c.swp == InitDevice(PAGE_SIZE)
  }

  // Its next access finds page 1 absent, and page 0 is the one to go.
  lemma SecondPageFaults(mm: Mm, ram: seq<Byte>, swp: Device)
    requires mm.pgd == InitMm().pgd[0 := SetFpn(0, 0)] && mm.fifo == [0]
    requires |ram| == PAGE_SIZE && swp == InitDevice(PAGE_SIZE)
    ensures !Present(mm.pgd[1]) && CanFault(mm, ram, swp, 1) && GetPage(mm, ram, swp, 1).2 == 0
  {
    FirstPage();
    SetFpnReadsBack(0, 0);
    assert Fpn(mm.pgd[0]) == 0 && mm.pgd[1] == 0 && swp.free[0] == 0;
    hide SetFpn, SetSwap, Fpn, Swp, Pgn, Offst, Present, GrowthPages, Hazard;
    SetFpnReadsBack(0, Fpn(mm.pgd[0]));
  }

  lemma LoadIsReady(c: Book)
    requires BookOk(c) && Filled(c)
    ensures Ready(c, Load(0, PAGE_SIZE))
    ensures Do(c, Load(0, PAGE_SIZE)).victims == c.victims[0 := [0]]
  {
    hide BookOk, GetPage, CanFault, Present, SetFpn, GrowthPages, Hazard;
    FirstPage();
    SecondPageFaults(c.procs[0], c.ram.storage, c.swp);
    assert c.victims[0] + [c.procs[0].fifo[0]] == [0];
  }

  lemma LoadFaults(c: Book)
    requires RunInv(c) && Filled(c)
    ensures CanRun(c, [Load(0, PAGE_SIZE)]) && RunAll(c, [Load(0, PAGE_SIZE)]).victims == c.victims[0 := [0]]
  {
    hide BookOk, Accounted, HeapsOk, Filled, Do, Ready;
    LoadIsReady(c);
    DoKeepsRunInv(c, Load(0, PAGE_SIZE));
    FirstAction(c, Load(0, PAGE_SIZE), []);
    assert [Load(0, PAGE_SIZE)] + [] == [Load(0, PAGE_SIZE)];
  }

  lemma AllocateFills()
    ensures var b := Started();
            RunInv(b) && Ready(b, Allocate(0, 0, PAGE_SIZE)) && Filled(Do(b, Allocate(0, 0, PAGE_SIZE)))
  {
    FirstPage();
    FirstGrowth();
    StartedOk();
    hide Accounted, HeapsOk, BookOk, GrowthPages, GrowthBase, Hazard, RoomToGrow, AllocMem, SetFpn;
    assert Ready(Started(), Allocate(0, 0, PAGE_SIZE));
  }

  lemma AllocateThenLoad()
    ensures var b, acts := Started(), [Allocate(0, 0, PAGE_SIZE), Load(0, PAGE_SIZE)];
            RunInv(b) && CanRun(b, acts) && 0 in RunAll(b, acts).victims && RunAll(b, acts).victims[0] == [0]
  {
    AllocateFills();
    hide BookOk, Accounted, HeapsOk, Filled, Do, Ready, Started;
    DoKeepsRunInv(Started(), Allocate(0, 0, PAGE_SIZE));
    LoadFaults(Do(Started(), Allocate(0, 0, PAGE_SIZE)));
    FirstAction(Started(), Allocate(0, 0, PAGE_SIZE), [Load(0, PAGE_SIZE)]);
    assert [Allocate(0, 0, PAGE_SIZE)] + [Load(0, PAGE_SIZE)] == [Allocate(0, 0, PAGE_SIZE), Load(0, PAGE_SIZE)];
  }

  // Faults do happen: in this run the process's first page is swapped out.
  lemma FaultWitness()
    ensures var init := InitBook(PAGE_SIZE, PAGE_SIZE);
            && RunInv(init) && CanRun(init, FaultingRun())
            && 0 in RunAll(init, FaultingRun()).victims && RunAll(init, FaultingRun()).victims[0] == [0]
  {
    StartedOk();
    AllocateThenLoad();
    hide BookOk, Accounted, HeapsOk, Do, Ready, Started;
    var rest := [Allocate(0, 0, PAGE_SIZE), Load(0, PAGE_SIZE)];
    FirstAction(InitBook(PAGE_SIZE, PAGE_SIZE), Start(0), rest);
    assert [Start(0)] + rest == FaultingRun();
  }
}
