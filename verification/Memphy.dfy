/** The storage device of src/mm-memphy.c in its random-access mode, and the frame copy of src/mm.c. */
module MemphyDevice {
  import opened Pte
  import opened Paging

  class Memphy {
    var storage: array<Byte>
    var maxsz: nat
    var rdmflg: bool
    var cursor: nat
    var freeFpList: seq<nat>

    ghost predicate Valid()
      reads this
    {
      storage.Length == maxsz
    }

    ghost function Dev(): Device
      reads this, storage
    {
      Device(storage[..], freeFpList)
    }

    // init_memphy
    constructor (maxSize: nat, randomflg: bool)
      ensures Valid() && fresh(storage) && rdmflg == randomflg
      ensures Dev() == InitDevice(maxSize)
    {
      storage := new Byte[maxSize](i => 0);
      maxsz := maxSize;
      rdmflg := randomflg;
      cursor := 0;
      freeFpList := [];
      new;
      var ret := Format(PAGE_SIZE);
    }

    // MEMPHY_format: list the frames 0, 1, 2, ... in order.
    method Format(pagesz: nat) returns (ret: int)
      requires pagesz > 0
      modifies this`freeFpList
      ensures ret == if maxsz / pagesz == 0 then -1 else 0
      ensures freeFpList == if ret == 0 then Iota(0, maxsz / pagesz) else old(freeFpList)
    {
      var numfp := maxsz / pagesz;
      if numfp <= 0 {
        return -1;
      }
      freeFpList := [0];
      var iter := 1;
      while iter < numfp
        invariant 1 <= iter <= numfp
        invariant freeFpList == Iota(0, iter)
      {
        freeFpList := freeFpList + [iter];
        iter := iter + 1;
      }
      return 0;
    }

    // MEMPHY_get_freefp: pop the head of the free list.
    method GetFreefp() returns (ret: int, fpn: nat)
      modifies this`freeFpList
      ensures ret == if old(freeFpList) == [] then -1 else 0
      ensures ret == 0 ==> [fpn] + freeFpList == old(freeFpList)
      ensures ret != 0 ==> freeFpList == []
    {
      if freeFpList == [] {
        return -1, 0;
      }
      fpn := freeFpList[0];
      freeFpList := freeFpList[1..];
      ret := 0;
    }

    // MEMPHY_read; a device that is not in random mode always refuses.
    method Read(addr: nat) returns (ret: int, value: Byte)
      requires Valid() && (rdmflg ==> addr < maxsz)
      ensures rdmflg ==> ret == 0 && value == storage[addr]
      ensures !rdmflg ==> ret == -1
    {
      if rdmflg {
        return 0, storage[addr];
      }
      return -1, 0;
    }

    // MEMPHY_write
    method Write(addr: nat, data: Byte) returns (ret: int)
      requires Valid() && (rdmflg ==> addr < maxsz)
      modifies storage
      ensures rdmflg ==> ret == 0 && storage[..] == old(storage[..])[addr := data]
      ensures !rdmflg ==> ret == -1 && storage[..] == old(storage[..])
    {
      if rdmflg {
        storage[addr] := data;
        return 0;
      }
      return -1;
    }
  }

  // One more byte copied.
  lemma OneMoreByte(src: seq<Byte>, s: nat, was: seq<Byte>, d: nat, n: nat)
    requires s + n < |src| && d + n < |was|
    ensures (was[..d] + src[s..s + n] + was[d + n..])[d + n := src[s + n]]
         == was[..d] + src[s..s + n + 1] + was[d + n + 1..]
  {
  }

  // __swap_cp_page: byte by byte, from one device to another.
  method SwapCpPage(mpsrc: Memphy, srcfpn: nat, mpdst: Memphy, dstfpn: nat) returns (ret: int)
    requires mpsrc.Valid() && mpdst.Valid() && mpsrc.rdmflg && mpdst.rdmflg
    requires mpsrc.storage != mpdst.storage
    requires InFrame(srcfpn, mpsrc.storage[..]) && InFrame(dstfpn, mpdst.storage[..])
    modifies mpdst.storage
    ensures ret == 0
    ensures mpdst.storage[..] == CopyPage(mpsrc.storage[..], srcfpn, old(mpdst.storage[..]), dstfpn)
  {
    var cellidx := 0;
    var s, d := srcfpn * PAGE_SIZE, dstfpn * PAGE_SIZE;
    ghost var src, was := mpsrc.storage[..], mpdst.storage[..];
    while cellidx < PAGE_SIZE
      invariant 0 <= cellidx <= PAGE_SIZE
      invariant mpsrc.storage[..] == src
      invariant mpdst.storage[..] == was[..d] + src[s..s + cellidx] + was[d + cellidx..]
    {
      var ret1, data := mpsrc.Read(s + cellidx);
      OneMoreByte(src, s, was, d, cellidx);
      var ret2 := mpdst.Write(d + cellidx, data);
      cellidx := cellidx + 1;
    }
    ret := 0;
  }
}
