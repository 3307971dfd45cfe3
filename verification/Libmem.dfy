/** A process and its memory operations: src/libmem.c, src/mm.c, src/mm-vm.c, src/sys_mem.c and the
    dispatch of src/cpu.c, updating the page table, the symbol table and the lists in place. */
module Libmem {
  import opened Pte
  import opened Regions
  import opened Paging
  import opened MemphyDevice

  const SYSMEM_MAP_OP: nat := 1
  const SYSMEM_INC_OP: nat := 2
  const SYSMEM_SWP_OP: nat := 3
  const SYSMEM_IO_READ: nat := 4
  const SYSMEM_IO_WRITE: nat := 5

  function Least(a: nat, b: nat): nat { if a <= b then a else b }

  // An instruction of the code segment; the arguments are unsigned.
  datatype Inst =
    | Calc
    | AllocI(size: nat, reg: nat)
    | FreeI(reg: nat)
    | ReadI(source: nat, offset: nat)
    | WriteI(data: nat, destination: nat, offset: nat)

  // pcb_t with its mm_struct and the one vm_area_struct that init_mm creates.
  class Pcb {
    const mram: Memphy
    const activeMswp: Memphy
    const pgd: array<bv32>
    const symrgtbl: array<Region>
    const code: seq<Inst>
    var pc: nat
    var vmEnd: nat
    var sbrk: nat
    var vmFreergList: seq<Region>
    var fifoPgn: seq<nat>

    ghost predicate Valid()
      reads this, mram, activeMswp
    {
      && mram.Valid() && activeMswp.Valid() && mram.rdmflg && activeMswp.rdmflg
      && mram != activeMswp && mram.storage != activeMswp.storage
      && pgd as object != mram.storage && pgd as object != activeMswp.storage
      && pgd.Length == MAX_PGN && symrgtbl.Length == MAX_SYMTBL
    }

    ghost function HeapState(): Heap
      reads this, symrgtbl
    {
      Heap(vmFreergList, symrgtbl[..], vmEnd, sbrk)
    }

    ghost function State(): Mm
      reads this, symrgtbl, pgd
    {
      Mm(HeapState(), pgd[..], fifoPgn)
    }

    // init_mm; fresh tables count as zero.
    constructor (mram: Memphy, activeMswp: Memphy, code: seq<Inst>)
      requires mram.Valid() && activeMswp.Valid() && mram.rdmflg && activeMswp.rdmflg
      requires mram != activeMswp && mram.storage != activeMswp.storage
      ensures Valid() && fresh(pgd) && fresh(symrgtbl)
      ensures this.mram == mram && this.activeMswp == activeMswp && this.code == code && pc == 0
      ensures State() == InitMm()
    {
      this.mram := mram;
      this.activeMswp := activeMswp;
      this.code := code;
      pc := 0;
      pgd := new bv32[MAX_PGN](i => 0);
      symrgtbl := new Region[MAX_SYMTBL](i => Region(0, 0));
      vmEnd := 0;
      sbrk := 0;
      vmFreergList := [Region(0, 0)];
      fifoPgn := [];
    }

    // ---------- The region allocator

    method GetFreeVmrgArea(size: nat) returns (ret: int, newrg: Region)
      modifies this`vmFreergList
      ensures var k := BestFit(old(vmFreergList), size, |old(vmFreergList)|);
              if k < 0 then ret == -1 && vmFreergList == old(vmFreergList)
              else
                var a := old(vmFreergList)[k].start;
                ret == 0 && newrg == Region(a, a + size) && vmFreergList == Cut(old(vmFreergList), k, size)
    {
      newrg := Region(0, 0);
      if vmFreergList == [] {
        return -1, newrg;
      }
      var bestFit := -1;
      var i := 0;
      while i < |vmFreergList|
        invariant 0 <= i <= |vmFreergList|
        invariant bestFit == BestFit(vmFreergList, size, i)
      {
        var rgit := vmFreergList[i];
        if rgit.end - rgit.start + 1 >= size {
          if bestFit == -1 || rgit.start < vmFreergList[bestFit].start {
            bestFit := i;
          }
        }
        i := i + 1;
      }
      if bestFit == -1 {
        return -1, newrg;
      }
      var a := vmFreergList[bestFit].start;
      newrg := Region(a, a + size);
      vmFreergList := vmFreergList[bestFit := Region(a + size, vmFreergList[bestFit].end)];
      ret := 0;
    }

    method EnlistVmFreergList(rgElmt: Region) returns (ret: int)
      modifies this`vmFreergList
      ensures vmFreergList == if Live(rgElmt) then [rgElmt] + old(vmFreergList) else old(vmFreergList)
      ensures ret == if Live(rgElmt) then 0 else -1
    {
      if rgElmt.start >= rgElmt.end {
        return -1;
      }
      vmFreergList := [rgElmt] + vmFreergList;
      return 0;
    }

    // __free: one pass over the list, unlinking each node that touches the freed region.
    method FreeRegion(rgid: int) returns (ret: int)
      requires Valid()
      modifies this`vmFreergList, symrgtbl
      ensures (HeapState(), ret) == Free(old(HeapState()), rgid)
      ensures ret == if 0 <= rgid < 30 && Live(old(symrgtbl[..])[rgid]) then 0 else -1
    {
      if rgid < 0 || rgid >= MAX_SYMTBL {
        return -1;
      }
      var rg := symrgtbl[rgid];
      if rg.start >= rg.end {
        return -1;
      }
      var newrg := rg;
      var cur := 0;
      ghost var was := vmFreergList;
      assert was[0..] == was && was[..0] + Coalesce(rg, was).1 == Coalesce(rg, was).1;
      while cur < |vmFreergList|
        invariant 0 <= cur <= |vmFreergList|
        invariant symrgtbl[..] == old(symrgtbl[..])
        invariant var (m, rest) := Coalesce(newrg, vmFreergList[cur..]);
                  Coalesce(rg, was) == (m, vmFreergList[..cur] + rest)
        decreases |vmFreergList| - cur
      {
        var node := vmFreergList[cur];
        ghost var tail := vmFreergList[cur..];
        assert tail[0] == node && tail[1..] == vmFreergList[cur + 1..];
        if newrg.end == node.start {
          newrg := Region(newrg.start, node.end);
          vmFreergList := vmFreergList[..cur] + vmFreergList[cur + 1..];
          assert vmFreergList[cur..] == tail[1..];
        } else if newrg.start == node.end {
          newrg := Region(node.start, newrg.end);
          vmFreergList := vmFreergList[..cur] + vmFreergList[cur + 1..];
          assert vmFreergList[cur..] == tail[1..];
        } else {
          ghost var rest := Coalesce(newrg, tail[1..]).1;
          assert vmFreergList[..cur] + ([node] + rest) == vmFreergList[..cur + 1] + rest;
          cur := cur + 1;
        }
      }
      assert vmFreergList[cur..] == [] && vmFreergList[..cur] + [] == vmFreergList;
      assert Coalesce(rg, was) == (newrg, vmFreergList);
      vmFreergList := [newrg] + vmFreergList;
      symrgtbl[rgid] := Region(0, 0);
      assert symrgtbl[..] == old(symrgtbl[..])[rgid := Region(0, 0)];
      ret := 0;
    }

    // ---------- Growth

    // validate_overlap_vm_area; its list of areas holds just this one.
    method ValidateOverlapVmArea(vmastart: nat, vmaend: nat) returns (ret: int)
      ensures ret == if Overlaps(HeapState(), vmastart, vmaend) then -1 else 0
    {
      if !(vmastart >= vmEnd || vmaend <= 0) {
        return -1;
      }
      return 0;
    }

    // alloc_pages_range: pop frames and push each in front of the list being built.
    method AllocPagesRange(reqPgnum: nat) returns (ret: int, frames: seq<nat>)
      requires reqPgnum <= |mram.freeFpList|
      modifies mram`freeFpList
      ensures ret == 0 && frames == Reverse(old(mram.freeFpList)[..reqPgnum])
      ensures mram.freeFpList == old(mram.freeFpList)[reqPgnum..]
    {
      frames := [];
      var pgit := 0;
      ghost var was := mram.freeFpList;
      while pgit < reqPgnum
        invariant 0 <= pgit <= reqPgnum
        invariant mram.freeFpList == was[pgit..]
        invariant frames == Reverse(was[..pgit])
      {
        var r, fpn := mram.GetFreefp();
        frames := [fpn] + frames;
        assert was[..pgit + 1] == was[..pgit] + [fpn];
        ReverseSnoc(was[..pgit], fpn);
        pgit := pgit + 1;
      }
      ret := 0;
    }

    // vmap_page_range: it stops with -1 when the frames run out.
    method VmapPageRange(addr: nat, pgnum: nat, frames: seq<nat>) returns (ret: int)
      requires Pgn(addr) + Least(pgnum, |frames|) <= pgd.Length
      modifies this`fifoPgn, pgd
      ensures ret == if pgnum <= |frames| then 0 else -1
      ensures (pgd[..], fifoPgn) ==
              MapPages(old(pgd[..]), old(fifoPgn), Pgn(addr), frames[..Least(pgnum, |frames|)])
    {
      var pgn := Pgn(addr);
      var pgit := 0;
      ghost var mapped := frames[..Least(pgnum, |frames|)];
      ret := 0;
      while pgit < pgnum
        invariant 0 <= pgit <= |mapped| && ret == 0
        invariant MapPages(old(pgd[..]), old(fifoPgn), pgn, mapped)
               == MapPages(pgd[..], fifoPgn, pgn + pgit, mapped[pgit..])
        decreases pgnum - pgit
      {
        if pgit == |frames| {
          ret := -1;
          break;
        }
        ghost var before := pgd[..];
        pgd[pgn + pgit] := SetFpn(pgd[pgn + pgit], frames[pgit]);
        assert pgd[..] == before[pgn + pgit := SetFpn(before[pgn + pgit], frames[pgit])];
        fifoPgn := [pgn + pgit] + fifoPgn;
        assert mapped[pgit..][0] == frames[pgit] && mapped[pgit..][1..] == mapped[pgit + 1..];
        pgit := pgit + 1;
      }
    }

    // inc_vma_limit with vm_map_ram.
    method IncVmaLimit(incSz: nat) returns (ret: int)
      requires Valid() && CanGrow(State(), mram.Dev(), incSz)
      modifies this`vmEnd, this`sbrk, this`vmFreergList, this`fifoPgn, pgd, mram`freeFpList
      ensures (State(), mram.Dev()) == GrowMem(old(State()), old(mram.Dev()), incSz)
      ensures ret == if Overlaps(old(HeapState()), old(sbrk), old(sbrk) + PageAlign(incSz)) then -1 else 0
    {
      var incAmt := PageAlign(incSz);
      var incnumpage := incAmt / PAGE_SIZE;
      var area := Region(sbrk, sbrk + incAmt);
      var oldEnd := vmEnd;
      var v := ValidateOverlapVmArea(area.start, area.end);
      if v < 0 {
        return -1;
      }
      vmEnd := area.end;
      sbrk := area.end;
      ghost var free := mram.freeFpList;
      if incnumpage != 0 {
        var r, frames := AllocPagesRange(incnumpage);
        ReverseLength(free[..incnumpage]);
        assert pgd[..] == old(pgd[..]) && frames[..incnumpage] == frames;
        var m := VmapPageRange(oldEnd, incnumpage, frames);
        assert mram.Dev() == GrowMem(old(State()), old(mram.Dev()), incSz).1;
      }
      return 0;
    }

    // __sys_memmap: the dispatch between the library and the memory devices. It returns 0 whatever
    // the operation did; a3 comes back changed only by a read.
    method SysMemmap(memop: nat, a2: nat, a3: nat) returns (ret: int, a3': nat)
      requires Valid()
      requires memop == SYSMEM_INC_OP ==> CanGrow(State(), mram.Dev(), a3)
      requires memop == SYSMEM_SWP_OP ==> InFrame(a2, mram.storage[..]) && InFrame(a3, activeMswp.storage[..])
      requires memop == SYSMEM_IO_READ || memop == SYSMEM_IO_WRITE ==> a2 < mram.maxsz
      modifies this`vmEnd, this`sbrk, this`vmFreergList, this`fifoPgn, pgd
      modifies mram`freeFpList, mram.storage, activeMswp.storage
      ensures Valid() && ret == 0
      ensures (State(), mram.freeFpList) ==
              (if memop == SYSMEM_INC_OP
               then (GrowMem(old(State()), old(mram.Dev()), a3).0, GrowMem(old(State()), old(mram.Dev()), a3).1.free)
               else (old(State()), old(mram.freeFpList)))
      ensures mram.storage[..] ==
              (if memop == SYSMEM_IO_WRITE then old(mram.storage[..])[a2 := FromRegister(a3)]
               else old(mram.storage[..]))
      ensures activeMswp.storage[..] ==
              (if memop == SYSMEM_SWP_OP then CopyPage(old(mram.storage[..]), a2, old(activeMswp.storage[..]), a3)
               else old(activeMswp.storage[..]))
      ensures a3' == if memop == SYSMEM_IO_READ then ToRegister(old(mram.storage[a2])) else a3
    {
      a3' := a3;
      ret := 0;
      if memop == SYSMEM_INC_OP {
        var r := IncVmaLimit(a3);
      } else if memop == SYSMEM_SWP_OP {
        var r := SwapCpPage(mram, a2, activeMswp, a3);
      } else if memop == SYSMEM_IO_READ {
        var r, value := mram.Read(a2);
        a3' := ToRegister(value);
      } else if memop == SYSMEM_IO_WRITE {
        var r := mram.Write(a2, FromRegister(a3));
      }
    }

    // The start of __alloc at the break: fill in the slot.
    method MarkSlot(rgid: nat, size: nat)
      requires Valid() && rgid < MAX_SYMTBL
      modifies symrgtbl
      ensures State() == Marked(old(State()), rgid, size)
    {
      symrgtbl[rgid] := Region(sbrk, sbrk + size);
      assert symrgtbl[..] == old(symrgtbl[..])[rgid := Region(sbrk, sbrk + size)];
    }

    // The middle of __alloc: ask for growth by a system call when the area is short.
    method GrowIfShort(incSz: nat) returns (ret: int)
      requires Valid()
      requires vmEnd - sbrk + 1 < incSz ==> CanGrow(State(), mram.Dev(), incSz)
      modifies this`vmEnd, this`sbrk, this`vmFreergList, this`fifoPgn
      modifies pgd, mram`freeFpList, mram.storage, activeMswp.storage
      ensures Valid() && ret == 0 && symrgtbl[..] == old(symrgtbl[..])
      ensures (State(), mram.Dev()) ==
              (if old(vmEnd - sbrk) + 1 < incSz then GrowMem(old(State()), old(mram.Dev()), incSz)
               else (old(State()), old(mram.Dev())))
      ensures activeMswp.storage[..] == old(activeMswp.storage[..])
    {
      ret := 0;
      hide GrowMem, CanGrow, CopyPage, FromRegister, ToRegister, InFrame;
      if vmEnd - sbrk + 1 < incSz {
        GrowKeepsStorage(State(), mram.Dev(), incSz);
        var a3;
        ret, a3 := SysMemmap(SYSMEM_INC_OP, 0, incSz);
      }
    }

    // The end of __alloc: enlist what lies between `top` and the break.
    method EnlistRest(top: nat)
      modifies this`vmFreergList
      ensures State() == RestEnlisted(old(State()), top)
    {
      if top < sbrk {
        var leftRg := Region(top, sbrk);
        var e := EnlistVmFreergList(leftRg);
      }
    }

    // The rest of __alloc, when no node is eligible: place the region at the break, grow, and enlist
    // what the new pages leave over.
    method AllocAtBreak(rgid: nat, size: nat) returns (ret: int, addr: nat)
      requires Valid() && rgid < MAX_SYMTBL && RoomToGrow(State(), mram.Dev(), size)
      requires BestFit(vmFreergList, size, |vmFreergList|) == -1
      modifies this`vmEnd, this`sbrk, this`vmFreergList, this`fifoPgn
      modifies pgd, symrgtbl, mram`freeFpList, mram.storage, activeMswp.storage
      ensures Valid() && ret == 0
      ensures (State(), mram.Dev(), addr) == AllocMem(old(State()), old(mram.Dev()), rgid, size)
      ensures activeMswp.storage[..] == old(activeMswp.storage[..])
    {
      hide GrowMem, AllocMem, PageAlign, BestFit, CanGrow, RoomToGrow, NeedsGrowth, RestEnlisted, Marked;
      ghost var mm, ram := State(), mram.Dev();
      AllocMemGrows(mm, ram, rgid, size);
      addr := sbrk;
      MarkSlot(rgid, size);
      assert mram.Dev() == ram && NeedsGrowth(mm.heap, size) == (vmEnd - sbrk + 1 < PageAlign(size));
      ret := GrowIfShort(PageAlign(size));
      if ret != 0 {
        return;
      }
      ghost var grown, left := State(), mram.Dev();
      EnlistRest(addr + size);
      assert State() == RestEnlisted(grown, mm.heap.sbrk + size) && mram.Dev() == left;
    }

    // __alloc
    method AllocRegion(rgid: nat, size: nat) returns (ret: int, addr: nat)
      requires Valid() && rgid < MAX_SYMTBL && RoomToGrow(State(), mram.Dev(), size)
      modifies this`vmEnd, this`sbrk, this`vmFreergList, this`fifoPgn
      modifies pgd, symrgtbl, mram`freeFpList, mram.storage, activeMswp.storage
      ensures Valid() && ret == 0
      ensures (State(), mram.Dev(), addr) == AllocMem(old(State()), old(mram.Dev()), rgid, size)
      ensures activeMswp.storage[..] == old(activeMswp.storage[..])
    {
      hide GrowMem, AllocMem, Alloc, PageAlign, BestFit, CanGrow, RoomToGrow;
      ghost var mm, ram := State(), mram.Dev();
      var r, rgnode := GetFreeVmrgArea(size);
      if r == 0 {
        AllocMemFits(mm, ram, rgid, size);
        symrgtbl[rgid] := rgnode;
        assert symrgtbl[..] == mm.heap.sym[rgid := rgnode];
        return 0, rgnode.start;
      }
      assert State() == mm;
      ret, addr := AllocAtBreak(rgid, size);
    }

    // ---------- Pages

    // find_victim_page: unlink the last page of the queue, the one mapped longest ago.
    method FindVictimPage() returns (ret: int, pgn: nat)
      modifies this`fifoPgn
      ensures old(fifoPgn) == [] ==> ret == -1 && fifoPgn == []
      ensures old(fifoPgn) != [] ==> ret == 0 && fifoPgn + [pgn] == old(fifoPgn)
    {
      if fifoPgn == [] {
        return -1, 0;
      }
      var pg := 0;
      while pg + 1 < |fifoPgn|
        invariant 0 <= pg < |fifoPgn|
      {
        pg := pg + 1;
      }
      pgn := fifoPgn[pg];
      fifoPgn := fifoPgn[..pg];
      ret := 0;
    }

    // The system call that copies a frame of RAM over a frame of the swap device.
    method CallSwap(srcFpn: nat, dstFpn: nat)
      requires Valid() && InFrame(srcFpn, mram.storage[..]) && InFrame(dstFpn, activeMswp.storage[..])
      modifies this`vmEnd, this`sbrk, this`vmFreergList, this`fifoPgn, pgd, mram`freeFpList, mram.storage
      modifies activeMswp.storage
      ensures Valid() && State() == old(State()) && mram.Dev() == old(mram.Dev())
      ensures activeMswp.Dev() ==
              Device(CopyPage(old(mram.storage[..]), srcFpn, old(activeMswp.storage[..]), dstFpn),
                     old(activeMswp.freeFpList))
    {
      hide CopyPage, FromRegister, ToRegister, GrowMem, CanGrow;
      var s, a3 := SysMemmap(SYSMEM_SWP_OP, srcFpn, dstFpn);
    }

    // The body of pg_getpage for an absent page: the oldest page goes out, the wanted one takes its frame.
    method BringIn(pgn: nat)
      requires Valid() && pgn < pgd.Length && !Present(pgd[pgn])
      requires CanFault(State(), mram.storage[..], activeMswp.Dev(), pgn)
      modifies this`vmEnd, this`sbrk, this`vmFreergList, this`fifoPgn, pgd, mram`freeFpList, mram.storage
      modifies activeMswp`freeFpList, activeMswp.storage
      ensures Valid() && mram.Dev() == old(mram.Dev())
      ensures (State(), activeMswp.Dev(), Fpn(pgd[pgn])) ==
              GetPage(old(State()), old(mram.storage[..]), old(activeMswp.Dev()), pgn)
    {
      hide CopyPage, SetSwap, SetFpn, Fpn, Swp, Present;
      ghost var mm, ram, swp := State(), mram.Dev(), activeMswp.Dev();
      var pte := pgd[pgn];
      var v, vicpgn := FindVictimPage();
      var f, swpfpn := activeMswp.GetFreefp();
      var vicfpn := Fpn(pgd[vicpgn]);
      CallSwap(vicfpn, swpfpn);
      ghost var out := CopyPage(ram.storage, vicfpn, swp.storage, swpfpn);
      assert State() == mm.(fifo := fifoPgn) && mram.Dev() == ram && activeMswp.Dev() == Device(out, swp.free[1..]);
      pgd[vicpgn] := SetSwap(pgd[vicpgn], 0, swpfpn);
      ghost var pgd1 := mm.pgd[vicpgn := SetSwap(mm.pgd[vicpgn], 0, swpfpn)];
      assert State() == Mm(mm.heap, pgd1, fifoPgn);
      var tgtfpn := vicfpn;
      var tgtSwpoff := Swp(pte);
      CallSwap(tgtSwpoff, tgtfpn);
      assert State() == Mm(mm.heap, pgd1, fifoPgn) && mram.Dev() == ram;
      pgd[pgn] := SetFpn(pgd[pgn], tgtfpn);
      fifoPgn := [pgn] + fifoPgn;
      assert State() == Mm(mm.heap, pgd1[pgn := SetFpn(pgd1[pgn], vicfpn)], fifoPgn);
    }

    // pg_getpage
    method PgGetpage(pgn: nat) returns (ret: int, fpn: nat)
      requires Valid() && pgn < pgd.Length
      requires Present(pgd[pgn]) || CanFault(State(), mram.storage[..], activeMswp.Dev(), pgn)
      modifies this`vmEnd, this`sbrk, this`vmFreergList, this`fifoPgn, pgd, mram`freeFpList, mram.storage
      modifies activeMswp`freeFpList, activeMswp.storage
      ensures Valid() && ret == 0
      ensures (State(), activeMswp.Dev(), fpn) ==
              GetPage(old(State()), old(mram.storage[..]), old(activeMswp.Dev()), pgn)
      ensures mram.Dev() == old(mram.Dev())
    {
      hide CopyPage, SetSwap, SetFpn, Fpn, Swp, Present, CanFault;
      if !Present(pgd[pgn]) {
        BringIn(pgn);
      }
      fpn := Fpn(pgd[pgn]);
      ret := 0;
    }

    ghost predicate CanAccess(addr: nat)
      reads this, symrgtbl, pgd, mram, mram.storage, activeMswp, activeMswp.storage
    {
      && Pgn(addr) < pgd.Length
      && (Present(pgd[Pgn(addr)]) || CanFault(State(), mram.storage[..], activeMswp.Dev(), Pgn(addr)))
      && GetPage(State(), mram.storage[..], activeMswp.Dev(), Pgn(addr)).2 * PAGE_SIZE + Offst(addr) < mram.maxsz
    }

    // pg_getval
    method PgGetval(addr: nat) returns (ret: int, data: Byte)
      requires Valid() && CanAccess(addr)
      modifies this`vmEnd, this`sbrk, this`vmFreergList, this`fifoPgn, pgd, mram`freeFpList, mram.storage
      modifies activeMswp`freeFpList, activeMswp.storage
      ensures Valid() && ret == 0
      ensures var (mm, swp, fpn) := GetPage(old(State()), old(mram.storage[..]), old(activeMswp.Dev()), Pgn(addr));
              State() == mm && activeMswp.Dev() == swp && data == old(mram.storage[..])[fpn * PAGE_SIZE + Offst(addr)]
      ensures mram.Dev() == old(mram.Dev())
    {
      var pgn := Pgn(addr);
      var r, fpn := PgGetpage(pgn);
      data := 0;
      if r != 0 {
        return -1, data;
      }
      var phyaddr := fpn * PAGE_SIZE + Offst(addr);
      var s, a3 := SysMemmap(SYSMEM_IO_READ, phyaddr, 0);
      RegisterKeepsByte(mram.storage[phyaddr]);
      return 0, FromRegister(a3);
    }

    // pg_setval
    method PgSetval(addr: nat, value: Byte) returns (ret: int)
      requires Valid() && CanAccess(addr)
      modifies this`vmEnd, this`sbrk, this`vmFreergList, this`fifoPgn, pgd, mram`freeFpList, mram.storage
      modifies activeMswp`freeFpList, activeMswp.storage
      ensures Valid() && ret == 0
      ensures var (mm, swp, fpn) := GetPage(old(State()), old(mram.storage[..]), old(activeMswp.Dev()), Pgn(addr));
              && State() == mm && activeMswp.Dev() == swp
              && mram.storage[..] == old(mram.storage[..])[fpn * PAGE_SIZE + Offst(addr) := value]
      ensures mram.freeFpList == old(mram.freeFpList)
    {
      var pgn := Pgn(addr);
      var r, fpn := PgGetpage(pgn);
      if r != 0 {
        return -1;
      }
      var phyaddr := fpn * PAGE_SIZE + Offst(addr);
      RegisterKeepsByte(value);
      var s, a3 := SysMemmap(SYSMEM_IO_WRITE, phyaddr, ToRegister(value));
      return 0;
    }

    // __read: only the slot number is checked; nothing compares the offset with the region.
    method ReadRegion(rgid: int, offset: nat) returns (ret: int, data: Byte)
      requires Valid() && rgid != MAX_SYMTBL
      requires 0 <= rgid < MAX_SYMTBL ==> CanAccess(symrgtbl[rgid].start + offset)
      modifies this`vmEnd, this`sbrk, this`vmFreergList, this`fifoPgn, pgd, mram`freeFpList, mram.storage
      modifies activeMswp`freeFpList, activeMswp.storage
      ensures Valid() && mram.Dev() == old(mram.Dev())
      ensures !(0 <= rgid < MAX_SYMTBL) ==>
                ret == -1 && State() == old(State()) && activeMswp.Dev() == old(activeMswp.Dev())
      ensures 0 <= rgid < MAX_SYMTBL ==>
                var addr := old(symrgtbl[rgid].start) + offset;
                var (mm, swp, fpn) := GetPage(old(State()), old(mram.storage[..]), old(activeMswp.Dev()), Pgn(addr));
                && ret == 0 && State() == mm && activeMswp.Dev() == swp
                && data == old(mram.storage[..])[fpn * PAGE_SIZE + Offst(addr)]
    {
      if rgid < 0 || rgid > MAX_SYMTBL {
        return -1, 0;
      }
      var r, d := PgGetval(symrgtbl[rgid].start + offset);
      return 0, d;
    }

    // __write
    method WriteRegion(rgid: int, offset: nat, value: Byte) returns (ret: int)
      requires Valid() && rgid != MAX_SYMTBL
      requires 0 <= rgid < MAX_SYMTBL ==> CanAccess(symrgtbl[rgid].start + offset)
      modifies this`vmEnd, this`sbrk, this`vmFreergList, this`fifoPgn, pgd, mram`freeFpList, mram.storage
      modifies activeMswp`freeFpList, activeMswp.storage
      ensures Valid() && mram.freeFpList == old(mram.freeFpList)
      ensures !(0 <= rgid < MAX_SYMTBL) ==>
                ret == -1 && State() == old(State()) && activeMswp.Dev() == old(activeMswp.Dev())
                && mram.Dev() == old(mram.Dev())
      ensures 0 <= rgid < MAX_SYMTBL ==>
                var addr := old(symrgtbl[rgid].start) + offset;
                var (mm, swp, fpn) := GetPage(old(State()), old(mram.storage[..]), old(activeMswp.Dev()), Pgn(addr));
                && ret == 0 && State() == mm && activeMswp.Dev() == swp
                && mram.storage[..] == old(mram.storage[..])[fpn * PAGE_SIZE + Offst(addr) := value]
    {
      if rgid < 0 || rgid > MAX_SYMTBL {
        return -1;
      }
      var r := PgSetval(symrgtbl[rgid].start + offset, value);
      return 0;
    }
  }
}
