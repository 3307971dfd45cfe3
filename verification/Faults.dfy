/** Page-fault bookkeeping: what the page queue, the page tables and the two free lists keep when any
    process maps new pages or faults. Page contents are not followed. */
module Faults {
  import opened Pte
  import opened Paging

  datatype PageState = Absent | InRam(fpn: nat) | InSwap(slot: nat)

  function Decode(pte: bv32): PageState {
    if !Present(pte) then Absent else if Swapped(pte) then InSwap(Swp(pte)) else InRam(Fpn(pte))
  }

  lemma DecodeFacts(pte: bv32)
    ensures Present(pte) <==> !Decode(pte).Absent?
    ensures Decode(pte).InRam? ==> Decode(pte).fpn == Fpn(pte)
    ensures Decode(0).Absent?
  {
  }

  lemma DecodeWritten(pte: bv32, x: nat)
    ensures x < MAX_FPN ==> Decode(SetFpn(pte, x)) == InRam(x)
    ensures x < MAX_SWP ==> Decode(SetSwap(pte, 0, x)) == InSwap(x)
  {
    hide SetFpn, SetSwap, Fpn, Swp, Present, Swapped;
    if x < MAX_FPN {
      SetFpnReadsBack(pte, x);
    }
    if x < MAX_SWP {
      SetSwapReadsBack(pte, 0, x);
    }
  }

  // The system, with the pages each process mapped and lost so far, in order.
  datatype Book = Book(procs: map<nat, Mm>, ram: Device, swp: Device,
                       mapped: map<nat, seq<nat>>, victims: map<nat, seq<nat>>)

  datatype Event = Create(p: nat) | MapNew(p: nat, base: nat, n: nat) | Fault(p: nat, pgn: nat)

  ghost predicate NoRepeats(s: seq<nat>) {
    forall i, j :: 0 <= i < j < |s| ==> s[i] != s[j]
  }

  // Page g of process p holds the given frame or swap slot.
  ghost predicate At(procs: map<nat, Mm>, p: nat, g: nat, e: PageState) {
    !e.Absent? && p in procs && g < |procs[p].pgd| && Decode(procs[p].pgd[g]) == e
  }

  // No two pages of any processes share a frame or a swap slot.
  ghost predicate Distinct(procs: map<nat, Mm>) {
    forall p: nat, g: nat, q: nat, h: nat, e: PageState ::
      At(procs, p, g, e) && At(procs, q, h, e) ==> p == q && g == h
  }

  // A page's frame or slot is a real one and is not on its free list.
  ghost predicate Owned(procs: map<nat, Mm>, ram: Device, swp: Device) {
    && (forall p: nat, g: nat, f: nat :: At(procs, p, g, InRam(f)) ==> f < MAX_FPN && f !in ram.free)
    && (forall p: nat, g: nat, k: nat :: At(procs, p, g, InSwap(k)) ==> k !in swp.free)
  }

  ghost predicate FreeListOk(d: Device, bound: nat) {
    NoRepeats(d.free) && forall i :: 0 <= i < |d.free| ==> d.free[i] < bound
  }

  // The queue holds each resident page exactly once.
  ghost predicate QueueOk(mm: Mm) {
    && |mm.pgd| == MAX_PGN
    && NoRepeats(mm.fifo)
    && (forall g: nat :: g in mm.fifo <==> g < MAX_PGN && Decode(mm.pgd[g]).InRam?)
  }

  ghost predicate BookOk(b: Book) {
    && FreeListOk(b.ram, MAX_FPN) && FreeListOk(b.swp, MAX_SWP)
    && b.mapped.Keys == b.victims.Keys == b.procs.Keys
    && (forall p :: p in b.procs ==> QueueOk(b.procs[p]))
    && (forall p :: p in b.procs ==> b.mapped[p] == b.victims[p] + Reverse(b.procs[p].fifo))
    && Distinct(b.procs)
    && Owned(b.procs, b.ram, b.swp)
  }

  // New mappings go onto absent pages and find their frames; a fault finds a victim, a free swap
  // frame, and frames in range.
  ghost predicate Can(b: Book, ev: Event) {
    match ev
    case Create(p) => p !in b.procs
    case MapNew(p, base, n) =>
      && p in b.procs && n <= |b.ram.free| && base + n <= |b.procs[p].pgd|
      && forall g :: base <= g < base + n ==> !Present(b.procs[p].pgd[g])
    case Fault(p, pgn) =>
      p in b.procs && pgn < |b.procs[p].pgd| && !Present(b.procs[p].pgd[pgn])
      && CanFault(b.procs[p], b.ram.storage, b.swp, pgn)
  }

  ghost function Next(b: Book, ev: Event): Book
    requires BookOk(b) && Can(b, ev)
  {
    match ev
    case Create(p) => b.(procs := b.procs[p := InitMm()], mapped := b.mapped[p := []], victims := b.victims[p := []])
    case MapNew(p, base, n) =>
      ReverseLength(b.ram.free[..n]);
      var (pgd, fifo) := MapPages(b.procs[p].pgd, b.procs[p].fifo, base, Reverse(b.ram.free[..n]));
      b.(procs := b.procs[p := b.procs[p].(pgd := pgd, fifo := fifo)],
         ram := b.ram.(free := b.ram.free[n..]),
         mapped := b.mapped[p := b.mapped[p] + Iota(base, base + n)])
    case Fault(p, pgn) =>
      var (mm, swp, fpn) := GetPage(b.procs[p], b.ram.storage, b.swp, pgn);
      b.(procs := b.procs[p := mm], swp := swp,
         mapped := b.mapped[p := b.mapped[p] + [pgn]],
         victims := b.victims[p := b.victims[p] + [b.procs[p].fifo[|b.procs[p].fifo| - 1]]])
  }

  // ---------- Faults

  // What a fault does to the decoded table: the oldest mapped page goes to the swap slot, the
  // wanted page takes over its frame.
  lemma FaultDecoded(b: Book, p: nat, pgn: nat)
    requires BookOk(b) && Can(b, Fault(p, pgn))
    ensures var mm := b.procs[p];
            var vic := mm.fifo[|mm.fifo| - 1];
            var mm' := Next(b, Fault(p, pgn)).procs[p];
            && vic < MAX_PGN && vic != pgn && Decode(mm.pgd[vic]).InRam? && Decode(mm.pgd[pgn]).Absent?
            && |mm'.pgd| == |mm.pgd| && mm'.fifo == [pgn] + mm.fifo[..|mm.fifo| - 1]
            && Decode(mm'.pgd[vic]) == InSwap(b.swp.free[0])
            && Decode(mm'.pgd[pgn]) == Decode(mm.pgd[vic])
            && (forall g :: 0 <= g < MAX_PGN && g != vic && g != pgn ==> mm'.pgd[g] == mm.pgd[g])
  {
    hide Decode, SetFpn, SetSwap, Fpn, Swp, Present;
    var mm := b.procs[p];
    var vic := mm.fifo[|mm.fifo| - 1];
    assert vic in mm.fifo;
    DecodeFacts(mm.pgd[vic]);
    DecodeFacts(mm.pgd[pgn]);
    assert At(b.procs, p, vic, InRam(Fpn(mm.pgd[vic])));
    DecodeWritten(mm.pgd[vic], b.swp.free[0]);
    DecodeWritten(mm.pgd[pgn], Fpn(mm.pgd[vic]));
  }

  lemma DropLast(s: seq<nat>)
    requires |s| > 0 && NoRepeats(s)
    ensures NoRepeats(s[..|s| - 1])
    ensures forall x: nat :: x in s[..|s| - 1] <==> x in s && x != s[|s| - 1]
  {
    SplitLast(s);
  }

  // The queue without its last page, which leaves RAM, and with a page that enters it.
  lemma QueueMoves(mm: Mm, mm': Mm, pgn: nat, vic: nat)
    requires QueueOk(mm) && |mm.fifo| > 0 && vic == mm.fifo[|mm.fifo| - 1]
    requires pgn < MAX_PGN && vic < MAX_PGN && pgn != vic && |mm'.pgd| == MAX_PGN
    requires mm'.fifo == [pgn] + mm.fifo[..|mm.fifo| - 1]
    requires !Decode(mm.pgd[pgn]).InRam? && Decode(mm'.pgd[pgn]).InRam? && !Decode(mm'.pgd[vic]).InRam?
    requires forall g :: 0 <= g < MAX_PGN && g != vic && g != pgn ==> mm'.pgd[g] == mm.pgd[g]
    ensures QueueOk(mm')
  {
    hide Decode;
    DropLast(mm.fifo);
    var kept := mm.fifo[..|mm.fifo| - 1];
    assert pgn !in kept;
    forall g: nat
      ensures g in mm'.fifo <==> g < MAX_PGN && Decode(mm'.pgd[g]).InRam?
    {
      assert g in mm'.fifo <==> g == pgn || g in kept;
      assert g in kept <==> g in mm.fifo && g != vic;
      assert g in mm.fifo <==> g < MAX_PGN && Decode(mm.pgd[g]).InRam?;
    }
  }

  lemma FaultQueue(b: Book, p: nat, pgn: nat)
    requires BookOk(b) && Can(b, Fault(p, pgn))
    ensures QueueOk(Next(b, Fault(p, pgn)).procs[p])
  {
    FaultDecoded(b, p, pgn);
    var mm := b.procs[p];
    assert QueueOk(mm);
    hide Decode, GetPage, Next, CanFault, BookOk, QueueOk;
    QueueMoves(mm, Next(b, Fault(p, pgn)).procs[p], pgn, mm.fifo[|mm.fifo| - 1]);
  }

  // After a fault a page holds what it held, but for the victim and the page faulted in.
  lemma FaultAt(b: Book, p: nat, pgn: nat, q: nat, g: nat, e: PageState)
    requires BookOk(b) && Can(b, Fault(p, pgn))
    ensures var vic := b.procs[p].fifo[|b.procs[p].fifo| - 1];
            At(Next(b, Fault(p, pgn)).procs, q, g, e) <==>
              Moved(b.procs, p, vic, pgn, b.swp.free[0], q, g, e)
  {
    FaultDecoded(b, p, pgn);
    hide Decode, GetPage;
  }

  ghost predicate Moved(procs: map<nat, Mm>, p: nat, vic: nat, pgn: nat, slot: nat, q: nat, g: nat, e: PageState) {
    if q == p && g == vic then e == InSwap(slot)
    else if q == p && g == pgn then At(procs, p, vic, e)
    else At(procs, q, g, e)
  }

  lemma MovedStaysDistinct(procs: map<nat, Mm>, procs': map<nat, Mm>, ram: Device, swp: Device,
                           p: nat, vic: nat, pgn: nat)
    requires Distinct(procs) && Owned(procs, ram, swp)
    requires FreeListOk(swp, MAX_SWP) && |swp.free| > 0 && vic != pgn
    requires forall k: nat :: !At(procs, p, vic, InSwap(k))
    requires forall q: nat, g: nat, e: PageState ::
               At(procs', q, g, e) <==> Moved(procs, p, vic, pgn, swp.free[0], q, g, e)
    ensures Distinct(procs') && Owned(procs', ram, swp.(free := swp.free[1..]))
  {
    hide At;
    assert forall x: nat :: x in swp.free[1..] ==> x in swp.free;
    assert swp.free[0] !in swp.free[1..];
    forall q: nat, g: nat, q': nat, g': nat, e: PageState | At(procs', q, g, e) && At(procs', q', g', e)
      ensures q == q' && g == g'
    {
      assert Moved(procs, p, vic, pgn, swp.free[0], q, g, e) && Moved(procs, p, vic, pgn, swp.free[0], q', g', e);
    }
  }

  // The invariant survives a fault; RAM's free list and every other process are left alone.
  lemma FaultKeepsBook(b: Book, p: nat, pgn: nat)
    requires BookOk(b) && Can(b, Fault(p, pgn))
    ensures BookOk(Next(b, Fault(p, pgn)))
    ensures Next(b, Fault(p, pgn)).ram == b.ram
    ensures forall q :: q in b.procs && q != p ==> Next(b, Fault(p, pgn)).procs[q] == b.procs[q]
  {
    hide QueueOk;
    hide Reverse, SetFpn, SetSwap, Fpn, Swp;
    var c := Next(b, Fault(p, pgn));
    var vic := b.procs[p].fifo[|b.procs[p].fifo| - 1];
    FaultQueue(b, p, pgn);
    FaultDecoded(b, p, pgn);
    FaultLogs(b.procs[p].fifo, pgn, b.victims[p]);
    assert forall k: nat :: !At(b.procs, p, vic, InSwap(k));
    forall q: nat, g: nat, e: PageState
      ensures At(c.procs, q, g, e) <==> Moved(b.procs, p, vic, pgn, b.swp.free[0], q, g, e)
    {
      FaultAt(b, p, pgn, q, g, e);
    }
    hide At, QueueOk, Distinct, Owned, Moved, Decode, Reverse;
    MovedStaysDistinct(b.procs, c.procs, b.ram, b.swp, p, vic, pgn);
  }

  lemma SplitLast(s: seq<nat>)
    requires |s| > 0
    ensures s == s[..|s| - 1] + [s[|s| - 1]]
  {
  }

  lemma ReverseLastFirst(s: seq<nat>)
    requires |s| > 0
    ensures Reverse(s) == [s[|s| - 1]] + Reverse(s[..|s| - 1])
  {
    hide Reverse;
    SplitLast(s);
    ReverseSnoc(s[..|s| - 1], s[|s| - 1]);
  }

  lemma ReverseCons(x: nat, s: seq<nat>)
    ensures Reverse([x] + s) == Reverse(s) + [x]
  {
    assert ([x] + s)[1..] == s;
  }

  lemma Regroup(front: seq<nat>, x: nat, back: seq<nat>, y: nat, all: seq<nat>, next: seq<nat>)
    requires all == [x] + back && next == back + [y]
    ensures front + all + [y] == (front + [x]) + next
  {
    var left, right := front + all + [y], (front + [x]) + next;
    forall i | 0 <= i < |left|
      ensures left[i] == right[i]
    {
    }
  }

  // The log of a fault: the oldest page of the queue joins the victims, the new page the mappings.
  lemma FaultLogs(fifo: seq<nat>, pgn: nat, victims: seq<nat>)
    requires |fifo| > 0
    ensures victims + Reverse(fifo) + [pgn]
         == (victims + [fifo[|fifo| - 1]]) + Reverse([pgn] + fifo[..|fifo| - 1])
  {
    hide Reverse;
    var rest, last := fifo[..|fifo| - 1], fifo[|fifo| - 1];
    ReverseLastFirst(fifo);
    ReverseCons(pgn, rest);
    Regroup(victims, last, Reverse(rest), pgn, Reverse(fifo), Reverse([pgn] + rest));
  }

  // A fault leaves the process with the same set of frames in RAM.
  lemma FaultKeepsResidentFrames(b: Book, p: nat, pgn: nat, f: nat)
    requires BookOk(b) && Can(b, Fault(p, pgn))
    ensures (exists g: nat :: At(Next(b, Fault(p, pgn)).procs, p, g, InRam(f)))
       <==> (exists g: nat :: At(b.procs, p, g, InRam(f)))
  {
    var c := Next(b, Fault(p, pgn));
    var vic := b.procs[p].fifo[|b.procs[p].fifo| - 1];
    FaultDecoded(b, p, pgn);
    if g: nat :| At(c.procs, p, g, InRam(f)) {
      FaultAt(b, p, pgn, p, g, InRam(f));
      assert At(b.procs, p, if g == pgn then vic else g, InRam(f));
    }
    if g: nat :| At(b.procs, p, g, InRam(f)) {
      FaultAt(b, p, pgn, p, if g == vic then pgn else g, InRam(f));
      assert At(c.procs, p, if g == vic then pgn else g, InRam(f));
    }
  }

  // The bytes of a fault. The frame of the wanted page's old entry, read as a slot of RAM, goes over the
  // swap frame with the number of the victim's frame; the victim's frame goes to the slot popped, unless
  // that is the same frame of swap; no other byte of swap changes.
  lemma FaultBytes(b: Book, p: nat, pgn: nat, a: nat)
    requires BookOk(b) && Can(b, Fault(p, pgn)) && a < |b.swp.storage|
    ensures var vic := b.procs[p].fifo[|b.procs[p].fifo| - 1];
            vic < |b.procs[p].pgd|
    ensures var f := Fpn(b.procs[p].pgd[b.procs[p].fifo[|b.procs[p].fifo| - 1]]);
            var slot, from := b.swp.free[0], Swp(b.procs[p].pgd[pgn]);
            var c := Next(b, Fault(p, pgn));
            && |c.swp.storage| == |b.swp.storage|
            && (from + 1) * PAGE_SIZE <= |b.ram.storage| && (f + 1) * PAGE_SIZE <= |b.ram.storage|
            && c.swp.storage[a] ==
                 if f * PAGE_SIZE <= a < (f + 1) * PAGE_SIZE then b.ram.storage[from * PAGE_SIZE + (a - f * PAGE_SIZE)]
                 else if slot * PAGE_SIZE <= a < (slot + 1) * PAGE_SIZE then
                   b.ram.storage[f * PAGE_SIZE + (a - slot * PAGE_SIZE)]
                 else b.swp.storage[a]
  {
    hide Decode, SetFpn, SetSwap, Fpn, Swp, Present, CopyPage;
    var mm := b.procs[p];
    var f, slot, from := Fpn(mm.pgd[mm.fifo[|mm.fifo| - 1]]), b.swp.free[0], Swp(mm.pgd[pgn]);
    var out := CopyPage(b.ram.storage, f, b.swp.storage, slot);
    CopyPageBytes(b.ram.storage, f, b.swp.storage, slot, a);
    CopyPageBytes(b.ram.storage, from, out, f, a);
  }

  // The access that faulted goes to the frame the victim had.
  lemma FaultFrame(b: Book, p: nat, pgn: nat)
    requires BookOk(b) && Can(b, Fault(p, pgn))
    ensures var mm := b.procs[p];
            var vic := mm.fifo[|mm.fifo| - 1];
            && vic < |mm.pgd| && Decode(mm.pgd[vic]).InRam?
            && GetPage(mm, b.ram.storage, b.swp, pgn).2 == Decode(mm.pgd[vic]).fpn
  {
    FaultDecoded(b, p, pgn);
    hide SetFpn, SetSwap, Fpn, Swp, Present, CopyPage;
    DecodeFacts(Next(b, Fault(p, pgn)).procs[p].pgd[pgn]);
  }

  // What the kept PRESENT flag leads to: a later access to the victim does not fault. It goes to the
  // frame whose number is 32 times the swap slot, cut to 13 bits, and leaves the page swapped out.
  lemma VictimIsNotBroughtBack(b: Book, p: nat, pgn: nat)
    requires BookOk(b) && Can(b, Fault(p, pgn))
    ensures var c := Next(b, Fault(p, pgn));
            var vic := b.procs[p].fifo[|b.procs[p].fifo| - 1];
            && vic < |c.procs[p].pgd| && Present(c.procs[p].pgd[vic])
            && GetPage(c.procs[p], c.ram.storage, c.swp, vic) == (c.procs[p], c.swp, 32 * b.swp.free[0] % MAX_FPN)
  {
    hide Decode, SetFpn, SetSwap, Fpn, Swp;
    var mm := b.procs[p];
    var vic := mm.fifo[|mm.fifo| - 1];
    FaultDecoded(b, p, pgn);
    SetSwapReadsBack(mm.pgd[vic], 0, b.swp.free[0]);
    SwappedEntryFrame(mm.pgd[vic], b.swp.free[0]);
  }

  // ---------- New mappings

  lemma {:induction false} MapPagesEntries(pgd: seq<bv32>, fifo: seq<nat>, n: nat, frames: seq<nat>)
    requires n + |frames| <= |pgd|
    requires forall i :: 0 <= i < |frames| ==> frames[i] < MAX_FPN
    ensures var pgd' := MapPages(pgd, fifo, n, frames).0;
            forall g :: 0 <= g < |pgd| ==>
              if n <= g < n + |frames| then Decode(pgd'[g]) == InRam(frames[g - n]) else pgd'[g] == pgd[g]
    decreases |frames|
  {
    hide Decode, SetFpn;
    if frames != [] {
      DecodeWritten(pgd[n], frames[0]);
      MapPagesEntries(pgd[n := SetFpn(pgd[n], frames[0])], [n] + fifo, n + 1, frames[1..]);
    }
  }

  // What new mappings do: page base + i gets the i-th of the frames taken, last popped first.
  lemma MapDecoded(b: Book, p: nat, base: nat, n: nat)
    requires BookOk(b) && Can(b, MapNew(p, base, n))
    ensures var mm, mm' := b.procs[p], Next(b, MapNew(p, base, n)).procs[p];
            && |mm'.pgd| == |mm.pgd|
            && mm'.fifo == Reverse(Iota(base, base + n)) + mm.fifo
            && forall g :: 0 <= g < |mm.pgd| ==>
                 if base <= g < base + n then
                   Decode(mm.pgd[g]).Absent? && Decode(mm'.pgd[g]) == InRam(b.ram.free[n - 1 - (g - base)])
                 else mm'.pgd[g] == mm.pgd[g]
  {
    hide Decode, SetFpn;
    var mm := b.procs[p];
    var frames := Reverse(b.ram.free[..n]);
    ReverseLength(b.ram.free[..n]);
    forall i | 0 <= i < n
      ensures frames[i] == b.ram.free[n - 1 - i] && frames[i] < MAX_FPN
    {
      ReverseAt(b.ram.free[..n], i);
    }
    MapPagesEntries(mm.pgd, mm.fifo, base, frames);
    MapPagesQueue(mm.pgd, mm.fifo, base, frames);
    forall g | base <= g < base + n
      ensures Decode(mm.pgd[g]).Absent?
    {
      DecodeFacts(mm.pgd[g]);
    }
  }

  lemma {:induction false} ReverseHas(s: seq<nat>, x: nat)
    ensures x in Reverse(s) <==> x in s
  {
    if s != [] {
      ReverseHas(s[1..], x);
      assert s == [s[0]] + s[1..];
    }
  }

  lemma QueueGrows(fifo: seq<nat>, base: nat, n: nat)
    requires NoRepeats(fifo)
    requires forall g :: base <= g < base + n ==> g !in fifo
    ensures NoRepeats(Reverse(Iota(base, base + n)) + fifo)
    ensures forall g: nat :: g in Reverse(Iota(base, base + n)) + fifo <==> base <= g < base + n || g in fifo
  {
    hide Reverse;
    var front := Reverse(Iota(base, base + n));
    forall i | 0 <= i < n
      ensures |front| == n && front[i] == base + n - 1 - i
    {
      ReverseAt(Iota(base, base + n), i);
    }
    ReverseLength(Iota(base, base + n));
    forall g: nat
      ensures g in front <==> base <= g < base + n
    {
      ReverseHas(Iota(base, base + n), g);
      if base <= g < base + n {
        assert Iota(base, base + n)[g - base] == g;
      }
    }
    var all := front + fifo;
    forall i, j | 0 <= i < j < |all|
      ensures all[i] != all[j]
    {
      if i < n <= j {
        assert all[i] in front && all[j] in fifo;
      }
    }
  }

  lemma MapQueue(b: Book, p: nat, base: nat, n: nat)
    requires BookOk(b) && Can(b, MapNew(p, base, n))
    ensures QueueOk(Next(b, MapNew(p, base, n)).procs[p])
  {
    MapDecoded(b, p, base, n);
    var mm, mm' := b.procs[p], Next(b, MapNew(p, base, n)).procs[p];
    assert QueueOk(mm);
    hide Decode, Next, BookOk, Reverse;
    forall g | base <= g < base + n
      ensures g !in mm.fifo
    {
      assert Decode(mm.pgd[g]).Absent?;
    }
    QueueGrows(mm.fifo, base, n);
    forall g: nat
      ensures g in mm'.fifo <==> g < MAX_PGN && Decode(mm'.pgd[g]).InRam?
    {
      if g < MAX_PGN && !(base <= g < base + n) {
        assert mm'.pgd[g] == mm.pgd[g];
      }
    }
  }

  ghost predicate Added(procs: map<nat, Mm>, p: nat, base: nat, n: nat, free: seq<nat>, q: nat, g: nat, e: PageState)
    requires n <= |free|
  {
    if q == p && base <= g < base + n then e == InRam(free[n - 1 - (g - base)]) else At(procs, q, g, e)
  }

  lemma MapAt(b: Book, p: nat, base: nat, n: nat, q: nat, g: nat, e: PageState)
    requires BookOk(b) && Can(b, MapNew(p, base, n))
    ensures At(Next(b, MapNew(p, base, n)).procs, q, g, e) <==> Added(b.procs, p, base, n, b.ram.free, q, g, e)
  {
    MapDecoded(b, p, base, n);
    hide Decode, Reverse, MapPages;
    var c := Next(b, MapNew(p, base, n));
    assert c.procs == b.procs[p := c.procs[p]];
    if q == p && g < |b.procs[p].pgd| {
      assert !(base <= g < base + n) ==> c.procs[p].pgd[g] == b.procs[p].pgd[g];
    }
  }

  lemma AddedStaysDistinct(procs: map<nat, Mm>, procs': map<nat, Mm>, ram: Device, swp: Device,
                           p: nat, base: nat, n: nat)
    requires Distinct(procs) && Owned(procs, ram, swp)
    requires FreeListOk(ram, MAX_FPN) && n <= |ram.free|
    requires forall q: nat, g: nat, e: PageState :: At(procs', q, g, e) <==> Added(procs, p, base, n, ram.free, q, g, e)
    ensures Distinct(procs') && Owned(procs', ram.(free := ram.free[n..]), swp)
    ensures FreeListOk(ram.(free := ram.free[n..]), MAX_FPN)
  {
    hide At;
    assert forall x: nat :: x in ram.free[n..] ==> x in ram.free;
    forall i | 0 <= i < n
      ensures ram.free[i] !in ram.free[n..]
    {
    }
    forall q: nat, g: nat, q': nat, g': nat, e: PageState | At(procs', q, g, e) && At(procs', q', g', e)
      ensures q == q' && g == g'
    {
      assert Added(procs, p, base, n, ram.free, q, g, e) && Added(procs, p, base, n, ram.free, q', g', e);
    }
  }

  // The invariant survives new mappings; the frames taken are the first of the free list.
  lemma MapKeepsBook(b: Book, p: nat, base: nat, n: nat)
    requires BookOk(b) && Can(b, MapNew(p, base, n))
    ensures BookOk(Next(b, MapNew(p, base, n)))
    ensures Next(b, MapNew(p, base, n)).ram.free == b.ram.free[n..]
  {
    hide Reverse, SetFpn, MapPages;
    var c := Next(b, MapNew(p, base, n));
    MapQueue(b, p, base, n);
    MapDecoded(b, p, base, n);
    MapLogs(b.procs[p].fifo, base, n, b.victims[p]);
    forall q: nat, g: nat, e: PageState
      ensures At(c.procs, q, g, e) <==> Added(b.procs, p, base, n, b.ram.free, q, g, e)
    {
      MapAt(b, p, base, n, q, g, e);
    }
    hide At, QueueOk, Distinct, Owned, Added, Decode;
    AddedStaysDistinct(b.procs, c.procs, b.ram, b.swp, p, base, n);
  }

  lemma MapLogs(fifo: seq<nat>, base: nat, n: nat, victims: seq<nat>)
    ensures victims + Reverse(fifo) + Iota(base, base + n)
         == victims + Reverse(Reverse(Iota(base, base + n)) + fifo)
  {
    hide Reverse;
    ReverseJoin(Reverse(Iota(base, base + n)), fifo);
    ReverseTwice(Iota(base, base + n));
  }

  lemma {:induction false} ReverseJoin(s: seq<nat>, t: seq<nat>)
    ensures Reverse(s + t) == Reverse(t) + Reverse(s)
  {
    if s == [] {
      assert [] + t == t;
    } else {
      assert (s + t)[1..] == s[1..] + t;
      ReverseJoin(s[1..], t);
    }
  }

  lemma {:induction false} ReverseTwice(s: seq<nat>)
    ensures Reverse(Reverse(s)) == s
  {
    if s != [] {
      ReverseTwice(s[1..]);
      ReverseSnoc(Reverse(s[1..]), s[0]);
    }
  }

  // A process created on the side maps nothing yet.
  lemma CreateKeepsBook(b: Book, p: nat)
    requires BookOk(b) && Can(b, Create(p))
    ensures BookOk(Next(b, Create(p)))
  {
    hide FreeListOk;
    var c := Next(b, Create(p));
    DecodeFacts(0);
    hide Decode;
    assert QueueOk(c.procs[p]);
    forall q: nat, g: nat, e: PageState
      ensures At(c.procs, q, g, e) <==> At(b.procs, q, g, e)
    {
    }
  }

  // Devices fresh from formatting, and no process.
  function InitBook(ramSize: nat, swpSize: nat): Book {
    Book(map[], InitDevice(ramSize), InitDevice(swpSize), map[], map[])
  }

  lemma InitBookOk(ramSize: nat, swpSize: nat)
    requires ramSize / PAGE_SIZE <= MAX_FPN && swpSize / PAGE_SIZE <= MAX_SWP
    ensures BookOk(InitBook(ramSize, swpSize))
  {
  }
}
