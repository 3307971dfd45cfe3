/** The heap allocator of src/libmem.c on values: the unordered list of free regions, the symbol
    table of live regions and the break of the one memory area. */
module Regions {
  import opened Pte

  const MAX_SYMTBL: nat := 30

  datatype Region = Region(start: nat, end: nat)

  datatype Heap = Heap(free: seq<Region>, sym: seq<Region>, vmEnd: nat, sbrk: nat)

  function Len(r: Region): int { r.end - r.start }

  predicate Live(r: Region) { r.start < r.end }

  predicate Holds(r: Region, b: nat) { r.start <= b < r.end }

  // init_mm: one empty free node and no live region.
  function InitHeap(): Heap {
    Heap([Region(0, 0)], seq(MAX_SYMTBL, i => Region(0, 0)), 0, 0)
  }

  // The test of get_free_vmrg_area, one byte too generous.
  predicate Eligible(r: Region, size: nat) { Len(r) + 1 >= size }

  // The scan of get_free_vmrg_area over the first n nodes: the index it settles on, or -1.
  function BestFit(fl: seq<Region>, size: nat, n: nat): (k: int)
    requires n <= |fl|
    ensures -1 <= k < n
  {
    if n == 0 then -1
    else
      var k := BestFit(fl, size, n - 1);
      if Eligible(fl[n - 1], size) && (k == -1 || fl[n - 1].start < fl[k].start) then n - 1 else k
  }

  // Cutting `size` bytes off the front of a node, in place.
  function Cut(fl: seq<Region>, k: nat, size: nat): seq<Region>
    requires k < |fl|
  {
    fl[k := Region(fl[k].start + size, fl[k].end)]
  }

  // validate_overlap_vm_area against the single area [0, vmEnd)
  predicate Overlaps(h: Heap, start: nat, end: nat) { !(start >= h.vmEnd || end <= 0) }

  // What inc_vma_limit does to the area, before any page is mapped.
  function Grow(h: Heap, incSz: nat): Heap {
    var top := h.sbrk + PageAlign(incSz);
    if Overlaps(h, h.sbrk, top) then h else h.(vmEnd := top, sbrk := top)
  }

  predicate NeedsGrowth(h: Heap, size: nat) {
    BestFit(h.free, size, |h.free|) == -1 && h.vmEnd - h.sbrk + 1 < PageAlign(size)
  }

  // enlist_vm_freerg_list
  function Enlist(fl: seq<Region>, r: Region): seq<Region> {
    if r.start >= r.end then fl else [r] + fl
  }

  // __alloc: the new heap and the address of the region.
  function Alloc(h: Heap, rgid: nat, size: nat): (Heap, nat)
    requires rgid < |h.sym|
  {
    var k := BestFit(h.free, size, |h.free|);
    if k >= 0 then
      var a := h.free[k].start;
      (h.(free := Cut(h.free, k, size), sym := h.sym[rgid := Region(a, a + size)]), a)
    else
      var a := h.sbrk;
      var g := if NeedsGrowth(h, size) then Grow(h, PageAlign(size)) else h;
      var rest := if a + size < g.sbrk then Enlist(g.free, Region(a + size, g.sbrk)) else g.free;
      (g.(free := rest, sym := h.sym[rgid := Region(a, a + size)]), a)
  }

  // The loop of __free: absorb the nodes that touch the freed region, keep the others in order.
  function Coalesce(r: Region, fl: seq<Region>): (Region, seq<Region>)
    decreases |fl|
  {
    if fl == [] then (r, [])
    else if r.end == fl[0].start then Coalesce(Region(r.start, fl[0].end), fl[1..])
    else if r.start == fl[0].end then Coalesce(Region(fl[0].start, r.end), fl[1..])
    else
      var (m, rest) := Coalesce(r, fl[1..]);
      (m, [fl[0]] + rest)
  }

  predicate Freeable(h: Heap, rgid: int) { 0 <= rgid < MAX_SYMTBL && rgid < |h.sym| && Live(h.sym[rgid]) }

  // __free: the new heap and the return code.
  function Free(h: Heap, rgid: int): (Heap, int) {
    if !Freeable(h, rgid) then (h, -1)
    else
      var (m, rest) := Coalesce(h.sym[rgid], h.free);
      (h.(free := [m] + rest, sym := h.sym[rgid := Region(0, 0)]), 0)
  }

  // ---------- What a heap must look like

  // The closed intervals of two nodes share no point, so the nodes do not even touch.
  predicate Apart(r: Region, s: Region) { r.end < s.start || s.end < r.start }

  ghost predicate Coalesced(fl: seq<Region>) {
    && (forall i :: 0 <= i < |fl| ==> fl[i].start <= fl[i].end)
    && (forall i, j :: 0 <= i < j < |fl| ==> Apart(fl[i], fl[j]))
  }

  // No point of the node lies strictly inside the region.
  predicate Outside(n: Region, r: Region) { n.end <= r.start || r.end <= n.start }

  ghost predicate InFree(fl: seq<Region>, b: nat) {
    exists i :: 0 <= i < |fl| && Holds(fl[i], b)
  }

  ghost predicate InLive(sym: seq<Region>, b: nat) {
    exists k :: 0 <= k < |sym| && Holds(sym[k], b)
  }

  // Live regions and free nodes lie inside [0, sbrk) and do not overlap.
  ghost predicate Layout(fl: seq<Region>, sym: seq<Region>, sbrk: nat) {
    && (forall i :: 0 <= i < |fl| ==> fl[i].end <= sbrk)
    && (forall k :: 0 <= k < |sym| && Live(sym[k]) ==> sym[k].end <= sbrk)
    && (forall k, l :: 0 <= k < l < |sym| && Live(sym[k]) && Live(sym[l]) ==> Outside(sym[k], sym[l]))
    && (forall i, k :: 0 <= i < |fl| && 0 <= k < |sym| && Live(sym[k]) ==> Outside(fl[i], sym[k]))
  }

  // The break is page-aligned, the free list is never empty and is coalesced.
  ghost predicate Shaped(h: Heap) {
    && |h.sym| == MAX_SYMTBL
    && |h.free| > 0
    && h.vmEnd == h.sbrk
    && h.sbrk % PAGE_SIZE == 0
    && Coalesced(h.free)
    && Layout(h.free, h.sym, h.sbrk)
  }

  // Live regions and free nodes together tile [0, sbrk) exactly.
  ghost predicate HeapOk(h: Heap) {
    && Shaped(h)
    && (forall b: nat :: b < h.sbrk ==> InFree(h.free, b) || InLive(h.sym, b))
  }

  // The over-generous test picks a node one byte short: a node of length size - 1 lies below
  // every node that really fits.
  ghost predicate Hazard(fl: seq<Region>, size: nat) {
    exists i :: 0 <= i < |fl| && Len(fl[i]) == size - 1
      && forall j :: 0 <= j < |fl| && Len(fl[j]) >= size ==> fl[i].start < fl[j].start
  }

  lemma InitHeapOk()
    ensures HeapOk(InitHeap())
  {
  }

  // ---------- Allocation

  // The scan finds an eligible node of least start, or there is none.
  lemma {:induction false} BestFitIsLowest(fl: seq<Region>, size: nat, n: nat)
    requires n <= |fl|
    ensures var k := BestFit(fl, size, n);
            && (k >= 0 ==> Eligible(fl[k], size))
            && (forall j :: 0 <= j < n && Eligible(fl[j], size) ==> k >= 0 && fl[k].start <= fl[j].start)
  {
    if n > 0 {
      BestFitIsLowest(fl, size, n - 1);
    }
  }

  // The hazard is exactly that the scan settles on a node one byte short.
  lemma HazardIsShortPick(fl: seq<Region>, size: nat)
    requires Coalesced(fl)
    ensures var k := BestFit(fl, size, |fl|);
            Hazard(fl, size) <==> k >= 0 && Len(fl[k]) == size - 1
  {
    BestFitIsLowest(fl, size, |fl|);
    var k := BestFit(fl, size, |fl|);
    if k >= 0 && Len(fl[k]) == size - 1 {
      forall j | 0 <= j < |fl| && Len(fl[j]) >= size
        ensures fl[k].start < fl[j].start
      {
        assert Eligible(fl[j], size);
        assert j < k ==> Apart(fl[j], fl[k]);
        assert k < j ==> Apart(fl[k], fl[j]);
      }
    }
    if Hazard(fl, size) {
      var i :| 0 <= i < |fl| && Len(fl[i]) == size - 1
        && forall j :: 0 <= j < |fl| && Len(fl[j]) >= size ==> fl[i].start < fl[j].start;
      assert Eligible(fl[i], size);
    }
  }

  // In a coalesced list a run of free bytes lies in one node.
  lemma {:induction false} RunInOneNode(fl: seq<Region>, a: nat, n: nat) returns (i: nat)
    requires Coalesced(fl) && n > 0
    requires forall b: nat :: a <= b < a + n ==> InFree(fl, b)
    ensures i < |fl| && fl[i].start <= a && a + n <= fl[i].end
  {
    assert InFree(fl, a + n - 1);
    if n == 1 {
      i :| 0 <= i < |fl| && Holds(fl[i], a);
    } else {
      i := RunInOneNode(fl, a, n - 1);
      var j :| 0 <= j < |fl| && Holds(fl[j], a + n - 1);
      assert i < j ==> Apart(fl[i], fl[j]);
      assert j < i ==> Apart(fl[j], fl[i]);
    }
  }

  // All of [a, a + size) is free.
  ghost predicate FreeRun(fl: seq<Region>, a: nat, size: nat) {
    forall b: nat :: a <= b < a + size ==> InFree(fl, b)
  }

  // Away from the hazard, allocation is first fit by address on the set of free bytes, whatever
  // the order of the list; when no run fits, the region starts at the old break.
  lemma AllocIsFirstFit(h: Heap, rgid: nat, size: nat)
    requires HeapOk(h) && rgid < MAX_SYMTBL && size >= 1
    requires !Hazard(h.free, size)
    ensures var a := Alloc(h, rgid, size).1;
            if exists c: nat :: FreeRun(h.free, c, size)
            then FreeRun(h.free, a, size) && forall c: nat :: FreeRun(h.free, c, size) ==> a <= c
            else a == h.sbrk
  {
    HazardIsShortPick(h.free, size);
    BestFitIsLowest(h.free, size, |h.free|);
    var k := BestFit(h.free, size, |h.free|);
    forall c: nat | FreeRun(h.free, c, size)
      ensures k >= 0 && h.free[k].start <= c
    {
      var i := RunInOneNode(h.free, c, size);
      assert Eligible(h.free[i], size);
    }
    if k >= 0 {
      forall b: nat | h.free[k].start <= b < h.free[k].start + size
        ensures InFree(h.free, b)
      {
        assert Holds(h.free[k], b);
      }
      assert FreeRun(h.free, h.free[k].start, size);
    }
  }

  // An allocation takes exactly its own bytes from the free set, which first gains the new pages.
  lemma AllocBytes(h: Heap, rgid: nat, size: nat, b: nat)
    requires HeapOk(h) && rgid < MAX_SYMTBL
    requires !Hazard(h.free, size)
    ensures var (g, a) := Alloc(h, rgid, size);
            InFree(g.free, b) <==> (InFree(h.free, b) || h.sbrk <= b < g.sbrk) && !(a <= b < a + size)
  {
    HazardIsShortPick(h.free, size);
    BestFitIsLowest(h.free, size, |h.free|);
    var k := BestFit(h.free, size, |h.free|);
    if k >= 0 {
      CutBytes(h.free, k, size, b);
    } else {
      GrowthBreak(h, rgid, size);
      EnlistBytes(h.free, Region(h.sbrk + size, h.sbrk + PageAlign(size)), b);
      WithinBreak(h, b);
    }
  }

  // Growth moves the break up by the page-aligned size; the overlap check does not refuse it. A
  // request for no bytes never grows the heap, because every node fits it.
  lemma GrowthBreak(h: Heap, rgid: nat, size: nat)
    requires HeapOk(h) && rgid < MAX_SYMTBL
    requires BestFit(h.free, size, |h.free|) < 0
    ensures var (g, a) := Alloc(h, rgid, size);
            && NeedsGrowth(h, size)
            && a == h.sbrk && g.sbrk == g.vmEnd == h.sbrk + PageAlign(size)
            && g.sbrk % PAGE_SIZE == 0 && a + size <= g.sbrk
            && g.free == Enlist(h.free, Region(a + size, g.sbrk))
            && g.sym == h.sym[rgid := Region(a, a + size)]
  {
    SomeSize(h, size);
    hide PageAlign, BestFit, Coalesced, Layout, InFree, InLive;
    PageAlignRoundsUp(size);
    PageAlignRoundsUp(PageAlign(size));
    PageMultiples(h.sbrk, PageAlign(size));
  }

  lemma SomeSize(h: Heap, size: nat)
    requires Shaped(h) && BestFit(h.free, size, |h.free|) < 0
    ensures size >= 1
  {
    BestFitIsLowest(h.free, size, |h.free|);
    assert h.free[0].start <= h.free[0].end;
  }

  lemma PageMultiples(a: nat, b: nat)
    requires a % PAGE_SIZE == 0 && b % PAGE_SIZE == 0 && b >= 1
    ensures (a + b) % PAGE_SIZE == 0 && b >= PAGE_SIZE
  {
  }

  lemma WithinBreak(h: Heap, b: nat)
    requires HeapOk(h)
    ensures InFree(h.free, b) ==> b < h.sbrk
  {
  }

  lemma CutBytes(fl: seq<Region>, k: nat, size: nat, b: nat)
    requires Coalesced(fl) && k < |fl| && Len(fl[k]) >= size
    ensures InFree(Cut(fl, k, size), b) <==> InFree(fl, b) && !(fl[k].start <= b < fl[k].start + size)
  {
    var cut := Cut(fl, k, size);
    if InFree(cut, b) {
      var i :| 0 <= i < |cut| && Holds(cut[i], b);
      assert Holds(fl[i], b);
      assert i < k ==> Apart(fl[i], fl[k]);
      assert k < i ==> Apart(fl[k], fl[i]);
    }
    if InFree(fl, b) && !(fl[k].start <= b < fl[k].start + size) {
      var i :| 0 <= i < |fl| && Holds(fl[i], b);
      assert Holds(cut[i], b);
    }
  }

  lemma EnlistBytes(fl: seq<Region>, r: Region, b: nat)
    ensures InFree(Enlist(fl, r), b) <==> InFree(fl, b) || Holds(r, b)
  {
    var fl' := Enlist(fl, r);
    if Live(r) {
      if InFree(fl, b) {
        var i :| 0 <= i < |fl| && Holds(fl[i], b);
        assert Holds(fl'[i + 1], b);
      }
      if Holds(r, b) {
        assert Holds(fl'[0], b);
      }
      if InFree(fl', b) {
        var i :| 0 <= i < |fl'| && Holds(fl'[i], b);
        assert i > 0 ==> Holds(fl[i - 1], b);
      }
    }
  }

  // Setting an empty slot to a region adds exactly that region's bytes to the live set.
  lemma SetSlotBytes(sym: seq<Region>, k: nat, r: Region, b: nat)
    requires k < |sym| && !Live(sym[k])
    ensures InLive(sym[k := r], b) <==> InLive(sym, b) || Holds(r, b)
  {
    var sym' := sym[k := r];
    if InLive(sym, b) {
      var i :| 0 <= i < |sym| && Holds(sym[i], b);
      assert Holds(sym'[i], b);
    }
    if Holds(r, b) {
      assert Holds(sym'[k], b);
    }
    if InLive(sym', b) {
      var i :| 0 <= i < |sym'| && Holds(sym'[i], b);
      assert i != k ==> Holds(sym[i], b);
    }
  }

  lemma ClearSlotBytes(sym: seq<Region>, k: nat, b: nat)
    requires k < |sym|
    ensures InLive(sym, b) ==> InLive(sym[k := Region(0, 0)], b) || Holds(sym[k], b)
  {
    if InLive(sym, b) {
      var i :| 0 <= i < |sym| && Holds(sym[i], b);
      assert i != k ==> Holds(sym[k := Region(0, 0)][i], b);
    }
  }

  // An allocation that avoids the hazard and uses an empty slot keeps the tiling and the
  // coalescing.
  lemma AllocKeepsHeap(h: Heap, rgid: nat, size: nat)
    requires HeapOk(h) && rgid < MAX_SYMTBL
    requires !Hazard(h.free, size) && !Live(h.sym[rgid])
    ensures HeapOk(Alloc(h, rgid, size).0)
  {
    AllocKeepsLayout(h, rgid, size);
    AllocCovers(h, rgid, size);
  }

  lemma AllocKeepsLayout(h: Heap, rgid: nat, size: nat)
    requires HeapOk(h) && rgid < MAX_SYMTBL
    requires !Hazard(h.free, size)
    ensures Shaped(Alloc(h, rgid, size).0)
  {
    HazardIsShortPick(h.free, size);
    BestFitIsLowest(h.free, size, |h.free|);
    var k := BestFit(h.free, size, |h.free|);
    if k >= 0 {
      CutKeepsLayout(h, rgid, size, k);
    } else {
      GrowthKeepsLayout(h, rgid, size);
    }
  }

  lemma AllocCovers(h: Heap, rgid: nat, size: nat)
    requires HeapOk(h) && rgid < MAX_SYMTBL
    requires !Hazard(h.free, size) && !Live(h.sym[rgid])
    ensures var g := Alloc(h, rgid, size).0;
            forall b: nat :: b < g.sbrk ==> InFree(g.free, b) || InLive(g.sym, b)
  {
    var (g, a) := Alloc(h, rgid, size);
    forall b: nat | b < g.sbrk
      ensures InFree(g.free, b) || InLive(g.sym, b)
    {
      AllocBytes(h, rgid, size, b);
      SetSlotBytes(h.sym, rgid, Region(a, a + size), b);
    }
  }

  // A region enlisted strictly above all nodes keeps the list coalesced.
  lemma EnlistOnTop(fl: seq<Region>, r: Region)
    requires Coalesced(fl) && forall i :: 0 <= i < |fl| ==> fl[i].end < r.start
    ensures Coalesced(Enlist(fl, r))
  {
  }

  // Taking [sbrk, sbrk + size) for a slot and enlisting the rest up to the new break keeps the layout.
  lemma LayoutOnTop(fl: seq<Region>, sym: seq<Region>, sbrk: nat, rgid: nat, size: nat, top: nat)
    requires Layout(fl, sym, sbrk) && rgid < |sym| && sbrk + size <= top
    ensures var r := Region(sbrk, sbrk + size);
            Layout(Enlist(fl, Region(sbrk + size, top)), sym[rgid := r], top)
  {
    var all := Enlist(fl, Region(sbrk + size, top));
    forall i | 0 <= i < |all|
      ensures all[i] in fl || all[i] == Region(sbrk + size, top)
    {
    }
  }

  lemma GrowthKeepsLayout(h: Heap, rgid: nat, size: nat)
    requires HeapOk(h) && rgid < MAX_SYMTBL
    requires BestFit(h.free, size, |h.free|) < 0
    ensures Shaped(Alloc(h, rgid, size).0)
  {
    hide BestFit, PageAlign, InFree, InLive, Coalesced;
    GrowthBreak(h, rgid, size);
    SomeSize(h, size);
    var top := Alloc(h, rgid, size).0.sbrk;
    EnlistOnTop(h.free, Region(h.sbrk + size, top));
    hide Layout, Alloc;
    LayoutOnTop(h.free, h.sym, h.sbrk, rgid, size, top);
  }

  lemma CutKeepsLayout(h: Heap, rgid: nat, size: nat, k: nat)
    requires HeapOk(h) && rgid < MAX_SYMTBL
    requires k < |h.free| && Len(h.free[k]) >= size
    ensures var r := Region(h.free[k].start, h.free[k].start + size);
            Shaped(h.(free := Cut(h.free, k, size), sym := h.sym[rgid := r]))
  {
    var fl, sym := Cut(h.free, k, size), h.sym[rgid := Region(h.free[k].start, h.free[k].start + size)];
    forall i, j | 0 <= i < j < |fl|
      ensures Apart(fl[i], fl[j])
    {
      assert Apart(h.free[i], h.free[j]);
    }
    forall i, j | 0 <= i < |fl| && 0 <= j < |sym| && Live(sym[j])
      ensures Outside(fl[i], sym[j])
    {
      if j != rgid {
        assert Outside(h.free[i], h.sym[j]);
      } else if i != k {
        assert i < k ==> Apart(h.free[i], h.free[k]);
        assert k < i ==> Apart(h.free[k], h.free[i]);
      }
    }
  }

  // ---------- Freeing

  ghost predicate Clear(fl: seq<Region>, r: Region) {
    forall i :: 0 <= i < |fl| ==> Outside(fl[i], r)
  }

  ghost predicate ApartFromAll(r: Region, fl: seq<Region>) {
    forall i :: 0 <= i < |fl| ==> Apart(r, fl[i])
  }

  // One unordered pass is enough: in a coalesced list at most one node touches each end of the
  // freed region, so what comes out is coalesced again and holds exactly the bytes that went in.
  lemma {:induction false} CoalesceKeeps(r: Region, fl: seq<Region>)
    requires Live(r) && Coalesced(fl) && Clear(fl, r)
    ensures var (m, rest) := Coalesce(r, fl);
            && m.start <= r.start && r.end <= m.end
            && Coalesced(rest) && ApartFromAll(m, rest)
            && (forall n :: n in rest ==> n in fl)
            && (forall n: Region {:trigger Apart(n, m)} ::
                  n.start <= n.end && Apart(n, r) && ApartFromAll(n, fl) ==> Apart(n, m))
    decreases |fl|
  {
    if fl != [] {
      var c, tail := fl[0], fl[1..];
      HeadApart(fl, r);
      Absorbed(c, r, tail);
      if r.end == c.start {
        CoalesceKeeps(Region(r.start, c.end), tail);
      } else if r.start == c.end {
        CoalesceKeeps(Region(c.start, r.end), tail);
      } else {
        CoalesceKeeps(r, tail);
        var (m, rest) := Coalesce(r, tail);
        assert Apart(c, m);
        assert forall n :: n in rest ==> Apart(c, n);
      }
    }
  }

  // What the pass meets first, and what that leaves it to deal with.
  lemma HeadApart(fl: seq<Region>, r: Region)
    requires fl != [] && Coalesced(fl) && Clear(fl, r)
    ensures Coalesced(fl[1..]) && Clear(fl[1..], r) && ApartFromAll(fl[0], fl[1..])
    ensures fl[0].start <= fl[0].end && Outside(fl[0], r)
  {
    forall i | 0 <= i < |fl[1..]|
      ensures fl[1..][i] == fl[i + 1] && Apart(fl[0], fl[1..][i])
    {
    }
  }

  // The node absorbed keeps the rest of the list clear of the enlarged region.
  lemma Absorbed(c: Region, r: Region, fl: seq<Region>)
    requires Coalesced(fl) && Clear(fl, r) && ApartFromAll(c, fl) && c.start <= c.end && Live(r)
    ensures r.end == c.start ==> Clear(fl, Region(r.start, c.end))
    ensures r.start == c.end ==> Clear(fl, Region(c.start, r.end))
  {
    forall i | 0 <= i < |fl|
      ensures r.end == c.start ==> Outside(fl[i], Region(r.start, c.end))
      ensures r.start == c.end ==> Outside(fl[i], Region(c.start, r.end))
    {
      assert Apart(c, fl[i]) && Outside(fl[i], r);
    }
  }

  lemma {:induction false} CoalesceBytes(r: Region, fl: seq<Region>, b: nat)
    requires Live(r) && Coalesced(fl) && Clear(fl, r)
    ensures var (m, rest) := Coalesce(r, fl);
            Holds(m, b) || InFree(rest, b) <==> Holds(r, b) || InFree(fl, b)
    decreases |fl|
  {
    if fl != [] {
      var c, tail := fl[0], fl[1..];
      HeadApart(fl, r);
      Absorbed(c, r, tail);
      InFreeCons(c, tail, b);
      assert [c] + tail == fl;
      hide InFree, Coalesced, Clear, ApartFromAll;
      if r.end == c.start {
        CoalesceBytes(Region(r.start, c.end), tail, b);
      } else if r.start == c.end {
        CoalesceBytes(Region(c.start, r.end), tail, b);
      } else {
        CoalesceBytes(r, tail, b);
        InFreeCons(c, Coalesce(r, tail).1, b);
      }
    }
  }

  // The nodes that touch the region at neither end.
  function Untouched(r: Region, fl: seq<Region>): seq<Region> {
    if fl == [] then []
    else (if fl[0].end == r.start || fl[0].start == r.end then [] else [fl[0]]) + Untouched(r, fl[1..])
  }

  lemma {:induction false} SameUntouched(r: Region, q: Region, fl: seq<Region>)
    requires forall i :: 0 <= i < |fl| ==>
               (fl[i].end == r.start || fl[i].start == r.end <==> fl[i].end == q.start || fl[i].start == q.end)
    ensures Untouched(r, fl) == Untouched(q, fl)
  {
    if fl != [] {
      SameUntouched(r, q, fl[1..]);
    }
  }

  // What the pass leaves is exactly the nodes that do not touch the freed region, in their order, empty
  // ones included: absorbing a node brings the region up against no other.
  lemma {:induction false} CoalesceLeavesUntouched(r: Region, fl: seq<Region>)
    requires Live(r) && Coalesced(fl) && Clear(fl, r)
    ensures Coalesce(r, fl).1 == Untouched(r, fl)
    decreases |fl|
  {
    if fl != [] {
      var c, tail := fl[0], fl[1..];
      HeadApart(fl, r);
      Absorbed(c, r, tail);
      if r.end == c.start {
        NoNewTouch(c, r, Region(r.start, c.end), tail);
        CoalesceLeavesUntouched(Region(r.start, c.end), tail);
      } else if r.start == c.end {
        NoNewTouch(c, r, Region(c.start, r.end), tail);
        CoalesceLeavesUntouched(Region(c.start, r.end), tail);
      } else {
        CoalesceLeavesUntouched(r, tail);
      }
    }
  }

  lemma NoNewTouch(c: Region, r: Region, q: Region, fl: seq<Region>)
    requires ApartFromAll(c, fl) && c.start <= c.end && forall i :: 0 <= i < |fl| ==> fl[i].start <= fl[i].end
    requires (r.end == c.start && q == Region(r.start, c.end)) || (r.start == c.end && q == Region(c.start, r.end))
    ensures Untouched(q, fl) == Untouched(r, fl)
  {
    forall i | 0 <= i < |fl|
      ensures fl[i].end == q.start || fl[i].start == q.end <==> fl[i].end == r.start || fl[i].start == r.end
    {
      assert Apart(c, fl[i]);
    }
    SameUntouched(q, r, fl);
  }

  lemma InFreeCons(c: Region, fl: seq<Region>, b: nat)
    ensures InFree([c] + fl, b) <==> Holds(c, b) || InFree(fl, b)
  {
    var all := [c] + fl;
    if InFree(fl, b) {
      var i :| 0 <= i < |fl| && Holds(fl[i], b);
      assert Holds(all[i + 1], b);
    }
    if Holds(c, b) {
      assert Holds(all[0], b);
    }
    if InFree(all, b) {
      var i :| 0 <= i < |all| && Holds(all[i], b);
      assert i > 0 ==> Holds(fl[i - 1], b);
    }
  }

  // The merged node stays outside every other live region.
  lemma {:induction false} CoalesceOutside(r: Region, fl: seq<Region>, q: Region)
    requires Live(r) && Coalesced(fl) && Clear(fl, r)
    requires Live(q) && Outside(r, q) && Clear(fl, q)
    ensures Outside(Coalesce(r, fl).0, q)
    decreases |fl|
  {
    if fl != [] {
      var c, tail := fl[0], fl[1..];
      HeadApart(fl, r);
      HeadApart(fl, q);
      Absorbed(c, r, tail);
      hide Coalesced, Clear, ApartFromAll;
      if r.end == c.start {
        CoalesceOutside(Region(r.start, c.end), tail, q);
      } else if r.start == c.end {
        CoalesceOutside(Region(c.start, r.end), tail, q);
      } else {
        CoalesceOutside(r, tail, q);
      }
    }
  }

  // Freeing adds back exactly the region's bytes.
  lemma FreeBytes(h: Heap, rgid: nat, b: nat)
    requires HeapOk(h) && Freeable(h, rgid)
    ensures InFree(Free(h, rgid).0.free, b) <==> InFree(h.free, b) || Holds(h.sym[rgid], b)
  {
    var (m, rest) := Coalesce(h.sym[rgid], h.free);
    CoalesceBytes(h.sym[rgid], h.free, b);
    InFreeCons(m, rest, b);
  }

  // Freeing puts one node that covers the region in front of the nodes that touch it nowhere, and clears
  // the slot; a slot that holds no region is refused and nothing changes.
  lemma FreeExactly(h: Heap, rgid: int)
    requires HeapOk(h)
    ensures var (g, code) := Free(h, rgid);
            if 0 <= rgid < 30 && h.sym[rgid].start < h.sym[rgid].end then
              && code == 0 && |g.free| > 0 && g.free[1..] == Untouched(h.sym[rgid], h.free)
              && g.free[0].start <= h.sym[rgid].start && h.sym[rgid].end <= g.free[0].end
              && g == h.(free := g.free, sym := h.sym[rgid := Region(0, 0)])
            else g == h && code == -1
  {
    if Freeable(h, rgid) {
      CoalesceKeeps(h.sym[rgid], h.free);
      CoalesceLeavesUntouched(h.sym[rgid], h.free);
    }
  }

  lemma FreeKeepsLayout(h: Heap, rgid: nat)
    requires HeapOk(h) && Freeable(h, rgid)
    ensures var g := Free(h, rgid).0;
            Coalesced(g.free) && Layout(g.free, g.sym, g.sbrk)
  {
    var r := h.sym[rgid];
    var (m, rest) := Coalesce(r, h.free);
    var g := Free(h, rgid).0;
    CoalesceKeeps(r, h.free);
    forall k | 0 <= k < |g.sym| && Live(g.sym[k])
      ensures Outside(m, g.sym[k])
    {
      assert k < rgid ==> Outside(h.sym[k], h.sym[rgid]);
      assert rgid < k ==> Outside(h.sym[rgid], h.sym[k]);
      CoalesceOutside(r, h.free, h.sym[k]);
    }
    CoalesceTop(r, h.free, h.sbrk);
    forall i | 1 <= i < |g.free|
      ensures g.free[i] in h.free
    {
      assert g.free[i] in rest;
    }
  }

  lemma {:induction false} CoalesceTop(r: Region, fl: seq<Region>, sbrk: nat)
    requires r.end <= sbrk
    requires forall i :: 0 <= i < |fl| ==> fl[i].end <= sbrk
    ensures Coalesce(r, fl).0.end <= sbrk
    decreases |fl|
  {
    if fl != [] {
      CoalesceTop(Region(r.start, fl[0].end), fl[1..], sbrk);
      CoalesceTop(Region(fl[0].start, r.end), fl[1..], sbrk);
      CoalesceTop(r, fl[1..], sbrk);
    }
  }

  // Freeing keeps the tiling and the coalescing, whatever slot is named.
  lemma FreeKeepsHeap(h: Heap, rgid: int)
    requires HeapOk(h)
    ensures HeapOk(Free(h, rgid).0)
  {
    if Freeable(h, rgid) {
      var g := Free(h, rgid).0;
      FreeKeepsLayout(h, rgid);
      forall b: nat | b < g.sbrk
        ensures InFree(g.free, b) || InLive(g.sym, b)
      {
        FreeBytes(h, rgid, b);
        ClearSlotBytes(h.sym, rgid, b);
      }
    }
  }

  // ---------- When the code meets its own contract

  // Allocation keeps a good heap good if and only if the slot was empty and no hazard was met.
  lemma AllocKeepsHeapExactly(h: Heap, rgid: nat, size: nat)
    requires HeapOk(h) && rgid < MAX_SYMTBL
    ensures HeapOk(Alloc(h, rgid, size).0) <==> !Hazard(h.free, size) && !Live(h.sym[rgid])
  {
    var (g, a) := Alloc(h, rgid, size);
    if Hazard(h.free, size) {
      HazardIsShortPick(h.free, size);
      var k := BestFit(h.free, size, |h.free|);
      assert g.free[k].start == g.free[k].end + 1;
    } else if Live(h.sym[rgid]) {
      LostRegion(h, rgid, size);
    } else {
      AllocKeepsHeap(h, rgid, size);
    }
  }

  // Reusing a live slot loses its bytes: they end up neither free nor live.
  lemma LostRegion(h: Heap, rgid: nat, size: nat)
    requires HeapOk(h) && rgid < MAX_SYMTBL
    requires !Hazard(h.free, size) && Live(h.sym[rgid])
    ensures !HeapOk(Alloc(h, rgid, size).0)
  {
    var (g, a) := Alloc(h, rgid, size);
    var b := h.sym[rgid].start;
    AllocBytes(h, rgid, size, b);
    assert !InFree(h.free, b) by {
      forall i | 0 <= i < |h.free|
        ensures !Holds(h.free[i], b)
      {
        assert Outside(h.free[i], h.sym[rgid]);
      }
    }
    assert !Holds(g.sym[rgid], b) by {
      NewRegionIsNew(h, rgid, size, b);
    }
    if InLive(g.sym, b) {
      var k :| 0 <= k < |g.sym| && Holds(g.sym[k], b);
      assert k < rgid ==> Outside(h.sym[k], h.sym[rgid]);
      assert rgid < k ==> Outside(h.sym[rgid], h.sym[k]);
    }
    assert b < h.sbrk <= g.sbrk by {
      GrowsUp(h, rgid, size);
    }
  }

  lemma GrowsUp(h: Heap, rgid: nat, size: nat)
    requires HeapOk(h) && rgid < MAX_SYMTBL
    ensures h.sbrk <= Alloc(h, rgid, size).0.sbrk
  {
    if BestFit(h.free, size, |h.free|) < 0 {
      GrowthBreak(h, rgid, size);
    }
  }

  // The bytes handed out were free or are new.
  lemma NewRegionIsNew(h: Heap, rgid: nat, size: nat, b: nat)
    requires HeapOk(h) && rgid < MAX_SYMTBL
    requires !Hazard(h.free, size)
    ensures Holds(Alloc(h, rgid, size).0.sym[rgid], b) ==> InFree(h.free, b) || h.sbrk <= b
  {
    HazardIsShortPick(h.free, size);
    BestFitIsLowest(h.free, size, |h.free|);
    var k := BestFit(h.free, size, |h.free|);
    if k >= 0 && Holds(Alloc(h, rgid, size).0.sym[rgid], b) {
      assert Holds(h.free[k], b);
    }
  }

  // What the hazard does: of the region handed out, all but the last byte were free, and the last is the
  // one behind the node, which was not.
  lemma HazardTakesForeignByte(h: Heap, rgid: nat, size: nat, b: nat)
    requires HeapOk(h) && rgid < MAX_SYMTBL && Hazard(h.free, size)
    ensures var (g, a) := Alloc(h, rgid, size);
            && g.sym == h.sym[rgid := Region(a, a + size)] && g.sbrk == h.sbrk && size >= 1
            && (a <= b < a + size - 1 ==> InFree(h.free, b))
            && (b == a + size - 1 ==> !InFree(h.free, b))
  {
    HazardIsShortPick(h.free, size);
    var k := BestFit(h.free, size, |h.free|);
    var a := h.free[k].start;
    assert a <= h.free[k].end;
    if a <= b < a + size - 1 {
      assert Holds(h.free[k], b);
    }
    if b == a + size - 1 && InFree(h.free, b) {
      var i :| 0 <= i < |h.free| && Holds(h.free[i], b);
      assert i < k ==> Apart(h.free[i], h.free[k]);
      assert k < i ==> Apart(h.free[k], h.free[i]);
    }
  }

  // A request for no bytes gets the start of the lowest node, and no node changes.
  lemma AllocNothing(h: Heap, rgid: nat)
    requires HeapOk(h) && rgid < MAX_SYMTBL
    ensures var (g, a) := Alloc(h, rgid, 0);
            && g == h.(sym := h.sym[rgid := Region(a, a)])
            && (exists i :: 0 <= i < |h.free| && h.free[i].start == a)
            && (forall i :: 0 <= i < |h.free| ==> a <= h.free[i].start)
  {
    BestFitIsLowest(h.free, 0, |h.free|);
    var k := BestFit(h.free, 0, |h.free|);
    assert forall i :: 0 <= i < |h.free| ==> Eligible(h.free[i], 0);
    assert Eligible(h.free[0], 0);
    assert h.free[k := h.free[k]] == h.free;
  }

  // The overlap test refuses exactly the intervals that share a point with the area, the empty ones inside
  // it included.
  lemma OverlapsExactly(h: Heap, start: nat, end: nat)
    requires start <= end
    ensures Overlaps(h, start, end) <==> start < h.vmEnd && (start < end || start > 0)
  {
  }

  // A fresh process that allocates 255 bytes and then 1 byte gets the same byte twice.
  lemma HazardWitness()
    ensures var (h, a) := Alloc(InitHeap(), 0, 255);
            && HeapOk(h) && Hazard(h.free, 1)
            && Alloc(h, 1, 1).1 == a == 0
            && Holds(h.sym[0], 0) && Holds(Alloc(h, 1, 1).0.sym[1], 0)
  {
    var init := InitHeap();
    InitHeapOk();
    assert BestFit(init.free, 255, 1) == -1;
    var (h, a) := Alloc(init, 0, 255);
    assert h.free == [Region(255, 256), Region(0, 0)];
    assert !Hazard(init.free, 255);
    AllocKeepsHeap(init, 0, 255);
    assert Len(h.free[1]) == 0;
    assert BestFit(h.free, 1, 1) == 0;
    assert BestFit(h.free, 1, 2) == 1;
  }
}
