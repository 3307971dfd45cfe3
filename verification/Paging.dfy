/** Paged memory on values: frames of one storage device, a process's page table, and what the
    operations of src/mm.c, src/mm-memphy.c and src/libmem.c do to them. */
module Paging {
  import opened Pte
  import opened Regions

  // BYTE is a signed char.
  newtype Byte = x: int | -128 <= x < 128

  // A storage device: its bytes and its list of free frames.
  datatype Device = Device(storage: seq<Byte>, free: seq<nat>)

  // A process's memory: its heap area, page table and page queue.
  datatype Mm = Mm(heap: Heap, pgd: seq<bv32>, fifo: seq<nat>)

  function Iota(lo: nat, hi: nat): (s: seq<nat>)
    requires lo <= hi
  {
    seq(hi - lo, i => lo + i)
  }

  function Reverse(s: seq<nat>): seq<nat> {
    if s == [] then [] else Reverse(s[1..]) + [s[0]]
  }

  // init_memphy and MEMPHY_format; fresh storage counts as zero.
  function InitDevice(maxSize: nat): Device {
    Device(seq(maxSize, i => 0), Iota(0, maxSize / PAGE_SIZE))
  }

  // init_mm
  function InitMm(): Mm {
    Mm(InitHeap(), seq(MAX_PGN, i => 0), [])
  }

  // vmap_page_range: map the frames to consecutive pages and queue each page.
  function MapPages(pgd: seq<bv32>, fifo: seq<nat>, pgn: nat, frames: seq<nat>): (r: (seq<bv32>, seq<nat>))
    requires pgn + |frames| <= |pgd|
    ensures |r.0| == |pgd|
    decreases |frames|
  {
    if frames == [] then (pgd, fifo)
    else MapPages(pgd[pgn := SetFpn(pgd[pgn], frames[0])], [pgn] + fifo, pgn + 1, frames[1..])
  }

  // How many pages an allocation adds to the heap.
  function GrowthPages(h: Heap, size: nat): nat {
    if NeedsGrowth(h, size) && !Overlaps(h, h.sbrk, h.sbrk + PageAlign(PageAlign(size)))
    then PageAlign(PageAlign(size)) / PAGE_SIZE
    else 0
  }

  predicate RoomToGrow(mm: Mm, ram: Device, size: nat) {
    && GrowthPages(mm.heap, size) <= |ram.free|
    && (GrowthPages(mm.heap, size) != 0 ==> Pgn(mm.heap.vmEnd) + GrowthPages(mm.heap, size) <= |mm.pgd|)
  }

  // __alloc with the frames of the growth: alloc_pages_range hands them over last popped first.
  function AllocMem(mm: Mm, ram: Device, rgid: nat, size: nat): (Mm, Device, nat)
    requires rgid < |mm.heap.sym| && RoomToGrow(mm, ram, size)
  {
    var n := GrowthPages(mm.heap, size);
    var (h, a) := Alloc(mm.heap, rgid, size);
    if n == 0 then (mm.(heap := h), ram, a)
    else
      ReverseLength(ram.free[..n]);
      var (pgd, fifo) := MapPages(mm.pgd, mm.fifo, Pgn(mm.heap.vmEnd), Reverse(ram.free[..n]));
      (Mm(h, pgd, fifo), ram.(free := ram.free[n..]), a)
  }

  lemma {:induction false} ReverseLength(s: seq<nat>)
    ensures |Reverse(s)| == |s|
  {
    if s != [] {
      ReverseLength(s[1..]);
    }
  }

  // inc_vma_limit: move the break up by whole pages and map them, unless the overlap check refuses.
  function GrowMem(mm: Mm, ram: Device, incSz: nat): (Mm, Device)
    requires CanGrow(mm, ram, incSz)
  {
    var n := PageAlign(incSz) / PAGE_SIZE;
    if Overlaps(mm.heap, mm.heap.sbrk, mm.heap.sbrk + PageAlign(incSz)) || n == 0 then
      (mm.(heap := Grow(mm.heap, incSz)), ram)
    else
      ReverseLength(ram.free[..n]);
      var (pgd, fifo) := MapPages(mm.pgd, mm.fifo, Pgn(mm.heap.vmEnd), Reverse(ram.free[..n]));
      (Mm(Grow(mm.heap, incSz), pgd, fifo), ram.(free := ram.free[n..]))
  }

  lemma GrowKeepsStorage(mm: Mm, ram: Device, incSz: nat)
    requires CanGrow(mm, ram, incSz)
    ensures GrowMem(mm, ram, incSz).1.storage == ram.storage
  {
    hide MapPages, Reverse;
  }

  predicate CanGrow(mm: Mm, ram: Device, incSz: nat) {
    var n := PageAlign(incSz) / PAGE_SIZE;
    Overlaps(mm.heap, mm.heap.sbrk, mm.heap.sbrk + PageAlign(incSz)) || n == 0
    || (n <= |ram.free| && Pgn(mm.heap.vmEnd) + n <= |mm.pgd|)
  }

  // The slot filled in for a region at the break.
  function Slotted(h: Heap, rgid: nat, size: nat): Heap
    requires rgid < |h.sym|
  {
    h.(sym := h.sym[rgid := Region(h.sbrk, h.sbrk + size)])
  }

  // What lies between `top` and the break enlisted.
  function RestInHeap(h: Heap, top: nat): Heap {
    if top < h.sbrk then h.(free := Enlist(h.free, Region(top, h.sbrk))) else h
  }

  // The memory once __alloc has filled in the slot, and once it has enlisted the rest.
  function Marked(mm: Mm, rgid: nat, size: nat): Mm
    requires rgid < |mm.heap.sym|
  {
    mm.(heap := Slotted(mm.heap, rgid, size))
  }

  function RestEnlisted(mm: Mm, top: nat): Mm { mm.(heap := RestInHeap(mm.heap, top)) }

  lemma AllocHeapGrows(h: Heap, rgid: nat, size: nat)
    requires rgid < |h.sym| && BestFit(h.free, size, |h.free|) == -1
    ensures var marked := Slotted(h, rgid, size);
            var g := if NeedsGrowth(h, size) then Grow(marked, PageAlign(size)) else marked;
            Alloc(h, rgid, size) == (RestInHeap(g, h.sbrk + size), h.sbrk)
  {
    hide BestFit, PageAlign, NeedsGrowth;
  }

  lemma GrowIsGrowth(mm: Mm, ram: Device, rgid: nat, size: nat)
    requires rgid < |mm.heap.sym| && RoomToGrow(mm, ram, size) && NeedsGrowth(mm.heap, size)
    ensures CanGrow(Marked(mm, rgid, size), ram, PageAlign(size))
    ensures var n := GrowthPages(mm.heap, size);
            var h := Grow(Slotted(mm.heap, rgid, size), PageAlign(size));
            GrowMem(Marked(mm, rgid, size), ram, PageAlign(size)) ==
              (if n == 0 then (mm.(heap := h), ram)
               else
                 ReverseLength(ram.free[..n]);
                 var (pgd, fifo) := MapPages(mm.pgd, mm.fifo, Pgn(mm.heap.vmEnd), Reverse(ram.free[..n]));
                 (Mm(h, pgd, fifo), ram.(free := ram.free[n..])))
  {
    hide MapPages, BestFit, PageAlign, Reverse, Pgn, Grow;
  }

  // When no node is eligible, allocation is: fill in the slot, grow if needed, enlist the rest.
  lemma AllocMemGrows(mm: Mm, ram: Device, rgid: nat, size: nat)
    requires rgid < |mm.heap.sym| && RoomToGrow(mm, ram, size)
    requires BestFit(mm.heap.free, size, |mm.heap.free|) == -1
    ensures NeedsGrowth(mm.heap, size) <==> mm.heap.vmEnd - mm.heap.sbrk + 1 < PageAlign(size)
    ensures NeedsGrowth(mm.heap, size) ==> CanGrow(Marked(mm, rgid, size), ram, PageAlign(size))
    ensures var (mm', ram') := if NeedsGrowth(mm.heap, size)
                               then GrowMem(Marked(mm, rgid, size), ram, PageAlign(size))
                               else (Marked(mm, rgid, size), ram);
            AllocMem(mm, ram, rgid, size) == (RestEnlisted(mm', mm.heap.sbrk + size), ram', mm.heap.sbrk)
  {
    AllocHeapGrows(mm.heap, rgid, size);
    hide BestFit, PageAlign, MapPages, Reverse, Pgn, Alloc, GrowMem, Grow, Slotted, RestInHeap, Enlist, CanGrow;
    if NeedsGrowth(mm.heap, size) {
      GrowIsGrowth(mm, ram, rgid, size);
    }
  }

  lemma AllocMemFits(mm: Mm, ram: Device, rgid: nat, size: nat)
    requires rgid < |mm.heap.sym| && RoomToGrow(mm, ram, size)
    requires BestFit(mm.heap.free, size, |mm.heap.free|) >= 0
    ensures var k := BestFit(mm.heap.free, size, |mm.heap.free|);
            var a := mm.heap.free[k].start;
            AllocMem(mm, ram, rgid, size) ==
              (mm.(heap := mm.heap.(free := Cut(mm.heap.free, k, size),
                                    sym := mm.heap.sym[rgid := Region(a, a + size)])),
               ram, a)
  {
  }

  // A byte passed through an unsigned register: sign-extended on the way in, truncated on the way out.
  function ToRegister(b: Byte): nat { if b < 0 then (b as int) + 0x1_0000_0000 else b as int }

  function FromRegister(u: nat): Byte {
    var low := u % 256;
    if low >= 128 then (low - 256) as Byte else low as Byte
  }

  lemma RegisterKeepsByte(b: Byte)
    ensures FromRegister(ToRegister(b)) == b
  {
  }

  // What a register holds and what a byte stores agree modulo 256, whatever the register holds: with the
  // range of a byte this says which byte it is.
  lemma RegisterByte(u: nat)
    ensures (u - FromRegister(u) as int) % 256 == 0
  {
  }

  // A byte in a register is its value modulo 2^32.
  lemma RegisterWord(b: Byte)
    ensures ToRegister(b) < 0x1_0000_0000 && (ToRegister(b) - b as int) % 0x1_0000_0000 == 0
  {
  }

  // The physical address behind a virtual one whose page is present.
  function Phys(pgd: seq<bv32>, addr: nat): nat
    requires Pgn(addr) < |pgd|
  {
    Fpn(pgd[Pgn(addr)]) * PAGE_SIZE + Offst(addr)
  }

  // __swap_cp_page: copy one frame of a device over one frame of another.
  function CopyPage(src: seq<Byte>, srcFpn: nat, dst: seq<Byte>, dstFpn: nat): (r: seq<Byte>)
    requires (srcFpn + 1) * PAGE_SIZE <= |src| && (dstFpn + 1) * PAGE_SIZE <= |dst|
    ensures |r| == |dst|
  {
    dst[..dstFpn * PAGE_SIZE] + src[srcFpn * PAGE_SIZE..(srcFpn + 1) * PAGE_SIZE] + dst[(dstFpn + 1) * PAGE_SIZE..]
  }

  // Byte by byte: the whole frame is copied and nothing else changes.
  lemma CopyPageBytes(src: seq<Byte>, srcFpn: nat, dst: seq<Byte>, dstFpn: nat, a: nat)
    requires (srcFpn + 1) * PAGE_SIZE <= |src| && (dstFpn + 1) * PAGE_SIZE <= |dst| && a < |dst|
    ensures CopyPage(src, srcFpn, dst, dstFpn)[a] ==
            if dstFpn * PAGE_SIZE <= a < (dstFpn + 1) * PAGE_SIZE then
              src[srcFpn * PAGE_SIZE + (a - dstFpn * PAGE_SIZE)]
            else dst[a]
  {
  }

  predicate InFrame(fpn: nat, storage: seq<Byte>) { (fpn + 1) * PAGE_SIZE <= |storage| }

  // What pg_getpage needs when the page is absent: a victim, a free swap frame, and frames in
  // range for the two copies it makes, both of them from RAM to swap.
  predicate CanFault(mm: Mm, ram: seq<Byte>, swp: Device, pgn: nat) {
    && |mm.fifo| > 0 && mm.fifo[|mm.fifo| - 1] < |mm.pgd| && |swp.free| > 0 && pgn < |mm.pgd|
    && var vicFpn := Fpn(mm.pgd[mm.fifo[|mm.fifo| - 1]]);
    && InFrame(vicFpn, ram) && InFrame(swp.free[0], swp.storage)
    && InFrame(Swp(mm.pgd[pgn]), ram) && InFrame(vicFpn, swp.storage)
  }

  // pg_getpage: the memory and swap device after it, and the frame of the page.
  function GetPage(mm: Mm, ram: seq<Byte>, swp: Device, pgn: nat): (Mm, Device, nat)
    requires pgn < |mm.pgd|
    requires Present(mm.pgd[pgn]) || CanFault(mm, ram, swp, pgn)
  {
    var pte := mm.pgd[pgn];
    if Present(pte) then (mm, swp, Fpn(pte))
    else
      var vicPgn, fifo := mm.fifo[|mm.fifo| - 1], mm.fifo[..|mm.fifo| - 1];
      var swpFpn, vicFpn := swp.free[0], Fpn(mm.pgd[vicPgn]);
      var out := CopyPage(ram, vicFpn, swp.storage, swpFpn);
      var pgd := mm.pgd[vicPgn := SetSwap(mm.pgd[vicPgn], 0, swpFpn)];
      var back := CopyPage(ram, Swp(pte), out, vicFpn);
      var pgd' := pgd[pgn := SetFpn(pgd[pgn], vicFpn)];
      (mm.(pgd := pgd', fifo := [pgn] + fifo), Device(back, swp.free[1..]), Fpn(pgd'[pgn]))
  }

  // ---------- Decoded page tables

  // The frames of the first n pages.
  function FrameTable(pgd: seq<bv32>, n: nat): (fs: seq<nat>)
    requires n <= |pgd|
    ensures |fs| == n
  {
    if n == 0 then [] else FrameTable(pgd, n - 1) + [Fpn(pgd[n - 1])]
  }

  lemma {:induction false} FrameTableAt(pgd: seq<bv32>, n: nat, g: nat)
    requires g < n <= |pgd|
    ensures FrameTable(pgd, n)[g] == Fpn(pgd[g])
  {
    if g < n - 1 {
      FrameTableAt(pgd, n - 1, g);
    }
  }

  lemma {:induction false} FrameTableFrame(pgd: seq<bv32>, pgd': seq<bv32>, n: nat)
    requires n <= |pgd| && |pgd'| == |pgd|
    requires forall g :: 0 <= g < n ==> pgd'[g] == pgd[g]
    ensures FrameTable(pgd', n) == FrameTable(pgd, n)
  {
    if n > 0 {
      FrameTableFrame(pgd, pgd', n - 1);
    }
  }

  // Mapping frames above the n known pages appends them to the decoded table and marks the
  // pages resident; every other entry stays as it was.
  lemma {:induction false} MapPagesDecoded(pgd: seq<bv32>, fifo: seq<nat>, n: nat, frames: seq<nat>)
    requires n + |frames| <= |pgd|
    requires forall i :: 0 <= i < |frames| ==> frames[i] < MAX_FPN
    ensures var (pgd', fifo') := MapPages(pgd, fifo, n, frames);
            && FrameTable(pgd', n + |frames|) == FrameTable(pgd, n) + frames
            && (forall g :: n <= g < n + |frames| ==> Resident(pgd'[g]))
            && (forall g :: 0 <= g < |pgd| && !(n <= g < n + |frames|) ==> pgd'[g] == pgd[g])
    decreases |frames|
  {
    if frames == [] {
      assert FrameTable(pgd, n) + frames == FrameTable(pgd, n);
    } else {
      SetFpnReadsBack(pgd[n], frames[0]);
      var pgd1 := pgd[n := SetFpn(pgd[n], frames[0])];
      assert MapPages(pgd, fifo, n, frames) == MapPages(pgd1, [n] + fifo, n + 1, frames[1..]);
      assert FrameTable(pgd1, n + 1) == FrameTable(pgd1, n) + [frames[0]];
      hide SetFpn, Fpn, Resident, MapPages, FrameTable;
      FrameTableFrame(pgd, pgd1, n);
      MapPagesDecoded(pgd1, [n] + fifo, n + 1, frames[1..]);
      HeadFirst(FrameTable(pgd, n), frames);
    }
  }

  lemma HeadFirst(table: seq<nat>, frames: seq<nat>)
    requires frames != []
    ensures (table + [frames[0]]) + frames[1..] == table + frames
  {
  }

  lemma {:induction false} MapPagesQueue(pgd: seq<bv32>, fifo: seq<nat>, n: nat, frames: seq<nat>)
    requires n + |frames| <= |pgd|
    ensures MapPages(pgd, fifo, n, frames).1 == Reverse(Iota(n, n + |frames|)) + fifo
    decreases |frames|
  {
    var pages := Iota(n, n + |frames|);
    if frames == [] {
      assert pages == [];
    } else {
      MapPagesQueue(pgd[n := SetFpn(pgd[n], frames[0])], [n] + fifo, n + 1, frames[1..]);
      assert pages[1..] == Iota(n + 1, n + 1 + |frames[1..]|);
      assert pages[0] == n;
    }
  }

  lemma {:induction false} ReverseAt(s: seq<nat>, i: nat)
    requires i < |s|
    ensures |Reverse(s)| == |s| && Reverse(s)[i] == s[|s| - 1 - i]
  {
    ReverseLength(s);
    ReverseLength(s[1..]);
    if i < |s| - 1 {
      ReverseAt(s[1..], i);
    }
  }

  lemma {:induction false} ReverseSnoc(s: seq<nat>, x: nat)
    ensures Reverse(s + [x]) == [x] + Reverse(s)
  {
    if s == [] {
      assert [] + [x] == [x];
    } else {
      ReverseSnoc(s[1..], x);
      assert (s + [x])[1..] == s[1..] + [x];
    }
  }
}
