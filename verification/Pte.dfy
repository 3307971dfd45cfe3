/** The page-table entry and address macros of include/mm.h, and the two entry writers of src/mm.c. */
module Pte {
  import opened Word

  const PAGE_SIZE: nat := 256
  const ADDRESS_LIMIT: nat := 0x40_0000 // 1 << PAGING_CPU_BUS_WIDTH
  const MAX_PGN: nat := 0x4000
  const MAX_FPN: nat := 0x2000
  const MAX_SWP: nat := 0x20_0000

  const PRESENT_MASK: bv32 := 0x8000_0000
  const SWAPPED_MASK: bv32 := 0x4000_0000
  const FPN_MASK: bv32 := GenMask(12, 0)
  const SWPTYP_MASK: bv32 := GenMask(4, 0)
  const SWPOFF_MASK: bv32 := GenMask(25, 5)
  const PGN_MASK: bv32 := GenMask(21, 8)
  const OFFST_MASK: bv32 := GenMask(7, 0)

  function SetBit(v: bv32, mask: bv32): bv32 { v | mask }

  function ClrBit(v: bv32, mask: bv32): bv32 { v & !mask }

  function SetVal(v: bv32, value: bv32, mask: bv32, offst: bv32): bv32
    requires offst < 32
  {
    (v & !mask) | ((value << offst) & mask)
  }

  function GetVal(v: bv32, mask: bv32, offst: bv32): bv32
    requires offst < 32
  {
    (v & mask) >> offst
  }

  predicate Present(pte: bv32) { pte & PRESENT_MASK != 0 }

  predicate Swapped(pte: bv32) { pte & SWAPPED_MASK != 0 }

  // A page the RAM holds: present and not swapped out.
  predicate Resident(pte: bv32) { Present(pte) && !Swapped(pte) }

  function Fpn(pte: bv32): nat { ToNat(GetVal(pte, FPN_MASK, 0)) }

  function SwpTyp(pte: bv32): nat { ToNat(GetVal(pte, SWPTYP_MASK, 0)) }

  function Swp(pte: bv32): nat { ToNat(GetVal(pte, SWPOFF_MASK, 5)) }

  function Pgn(addr: nat): nat { ToNat(GetVal(ToWord(addr), PGN_MASK, 8)) }

  function Offst(addr: nat): nat { ToNat(GetVal(ToWord(addr), OFFST_MASK, 0)) }

  // pte_set_fpn
  function SetFpn(pte: bv32, fpn: nat): bv32 {
    SetVal(ClrBit(SetBit(pte, PRESENT_MASK), SWAPPED_MASK), ToWord(fpn), FPN_MASK, 0)
  }

  // pte_set_swap
  function SetSwap(pte: bv32, swptyp: nat, swpoff: nat): bv32 {
    SetVal(SetVal(SetBit(SetBit(pte, PRESENT_MASK), SWAPPED_MASK), ToWord(swptyp), SWPTYP_MASK, 0),
           ToWord(swpoff), SWPOFF_MASK, 5)
  }

  // PAGING_PAGE_ALIGNSZ
  function PageAlign(sz: nat): nat { DivRoundUp(sz, PAGE_SIZE) * PAGE_SIZE }

  // What fits the fields: 2^13 frames, 2^21 swap slots, 2^14 pages, addresses below 2^22.
  lemma FieldWidths()
    ensures MAX_FPN == ToNat(FPN_MASK) + 1 && MAX_SWP == ToNat(SWPOFF_MASK >> 5) + 1
    ensures MAX_PGN == ToNat(PGN_MASK >> 8) + 1 && PAGE_SIZE == ToNat(OFFST_MASK) + 1
    ensures ADDRESS_LIMIT == MAX_PGN * PAGE_SIZE
  {
    MaskConstants();
    MaskValues();
    Half(0x3FFF);
  }

  lemma MaskConstants()
    ensures FPN_MASK == 0x1FFF && SWPTYP_MASK == 0x1F && SWPOFF_MASK == 0x03FF_FFE0
    ensures PGN_MASK == 0x003F_FF00 && OFFST_MASK == 0xFF
  {
  }

  lemma FpnField(v: bv32, f: bv32)
    requires Under(f, 0x1FFF)
    ensures GetVal(SetVal(v, f, 0x1FFF, 0), 0x1FFF, 0) == f
  {
  }

  lemma SwpField(v: bv32, f: bv32)
    requires Under(f, 0x1F_FFFF)
    ensures GetVal(SetVal(v, f, 0x03FF_FFE0, 5), 0x03FF_FFE0, 5) == f
  {
  }

  // An entry set to a frame reads back as that frame, present and not swapped, whatever the
  // entry was; the bits outside the frame field and the two flags stay as they were.
  lemma SetFpnReadsBack(pte: bv32, fpn: nat)
    requires fpn < 0x2000
    ensures Fpn(SetFpn(pte, fpn)) == fpn && Resident(SetFpn(pte, fpn))
    ensures SetFpn(pte, fpn) & 0x3FFF_E000 == pte & 0x3FFF_E000
  {
    MaskConstants();
    MaskValues();
    Fits(fpn, 0x1FFF);
    FpnField(ClrBit(SetBit(pte, PRESENT_MASK), SWAPPED_MASK), ToWord(fpn));
    SetFpnBits(pte, ToWord(fpn));
  }

  lemma SetFpnBits(pte: bv32, f: bv32)
    ensures var e := SetVal(ClrBit(SetBit(pte, PRESENT_MASK), SWAPPED_MASK), f, FPN_MASK, 0);
            Resident(e) && e & 0x3FFF_E000 == pte & 0x3FFF_E000
  {
  }

  // A swapped-out entry reads back its swap slot and device; it keeps the PRESENT flag.
  lemma SetSwapReadsBack(pte: bv32, swptyp: nat, swpoff: nat)
    requires swptyp < 32 && swpoff < 0x20_0000
    ensures Swp(SetSwap(pte, swptyp, swpoff)) == swpoff
    ensures SwpTyp(SetSwap(pte, swptyp, swpoff)) == swptyp
    ensures Present(SetSwap(pte, swptyp, swpoff)) && Swapped(SetSwap(pte, swptyp, swpoff))
    ensures SetSwap(pte, swptyp, swpoff) & 0x3C00_0000 == pte & 0x3C00_0000
  {
    MaskConstants();
    MaskValues();
    Fits(swpoff, 0x1F_FFFF);
    Fits(swptyp, 0x1F);
    var flagged := SetBit(SetBit(pte, PRESENT_MASK), SWAPPED_MASK);
    SwpField(SetVal(flagged, ToWord(swptyp), 0x1F, 0), ToWord(swpoff));
    SwpTypField(flagged, ToWord(swptyp), ToWord(swpoff));
    SetSwapBits(pte, ToWord(swptyp), ToWord(swpoff));
  }

  lemma SwpTypField(v: bv32, t: bv32, f: bv32)
    requires Under(t, 0x1F)
    ensures GetVal(SetVal(SetVal(v, t, 0x1F, 0), f, 0x03FF_FFE0, 5), 0x1F, 0) == t
  {
  }

  lemma SetSwapBits(pte: bv32, t: bv32, f: bv32)
    ensures var flagged := SetBit(SetBit(pte, PRESENT_MASK), SWAPPED_MASK);
            var e := SetVal(SetVal(flagged, t, SWPTYP_MASK, 0), f, SWPOFF_MASK, 5);
            Present(e) && Swapped(e) && e & 0x3C00_0000 == pte & 0x3C00_0000
  {
  }

  lemma FrameBitsOfSwapped(v: bv32, w: bv32)
    ensures GetVal(SetVal(SetVal(v, 0, 0x1F, 0), w, 0x03FF_FFE0, 5), 0x1FFF, 0) == (w << 5) & 0x1FFF && Ones(0x1FFF)
  {
  }

  // The frame field of a swapped-out entry overlaps the slot field: it reads as 32 times the slot,
  // cut to the field's width, whatever frame the page had.
  lemma SwappedEntryFrame(pte: bv32, swpoff: nat)
    requires swpoff < 0x20_0000
    ensures Fpn(SetSwap(pte, 0, swpoff)) == 32 * swpoff % 0x2000
  {
    MaskConstants();
    MaskValues();
    Fits(swpoff, 0x1F_FFFF);
    FrameBitsOfSwapped(SetBit(SetBit(pte, PRESENT_MASK), SWAPPED_MASK), ToWord(swpoff));
    TimesThirtyTwo(ToWord(swpoff));
    MaskIsRemainder(ToWord(swpoff) << 5, 0x1FFF);
  }

  lemma PgnField(w: bv32)
    requires Under(w, 0x3F_FFFF)
    ensures GetVal(w, 0x003F_FF00, 8) == w >> 8
  {
  }

  // A virtual address splits into its page number and its offset.
  lemma AddressSplit(addr: nat)
    requires addr < ADDRESS_LIMIT
    ensures Pgn(addr) == addr / PAGE_SIZE && Offst(addr) == addr % PAGE_SIZE
    ensures addr == Pgn(addr) * PAGE_SIZE + Offst(addr)
  {
    MaskConstants();
    MaskValues();
    Fits(addr, 0x3F_FFFF);
    var w := ToWord(addr);
    PgnField(w);
    ShiftEight(w);
    OffstField(w);
    MaskIsRemainder(w, 0xFF);
  }

  lemma OffstField(w: bv32)
    ensures GetVal(w, 0xFF, 0) == w & 0xFF && Ones(0xFF)
  {
  }

  // PAGING_PAGE_ALIGNSZ rounds up to the next multiple of the page size.
  lemma PageAlignRoundsUp(sz: nat)
    ensures PageAlign(sz) % 256 == 0 && sz <= PageAlign(sz) < sz + 256
    ensures sz % 256 == 0 ==> PageAlign(sz) == sz
  {
  }

  // ---------- The fields as numbers

  lemma RightFive(w: bv32)
    ensures ToNat(Right(w, 5)) == ToNat(w) / 32
  {
    ShiftFour(w);
    Half(w >> 4);
    assert Down(w >> 4) == w >> 5;
  }

  lemma RightEight(w: bv32)
    ensures ToNat(Right(w, 8)) == ToNat(w) / 256
  {
    ShiftEight(w);
  }

  lemma LowField(w: bv32, m: bv32)
    ensures GetVal(w, m, 0) == Low(w, m)
  {
  }

  lemma SlotField(w: bv32)
    ensures GetVal(w, 0x03FF_FFE0, 5) == Low(Right(w, 5), 0x1F_FFFF)
  {
  }

  lemma PageField(w: bv32)
    ensures GetVal(w, 0x003F_FF00, 8) == Low(Right(w, 8), 0x3FFF)
  {
  }

  lemma FieldMasks()
    ensures Ones(0x1FFF) && Ones(0x1F) && Ones(0x1F_FFFF) && Ones(0xFF) && Ones(0x3FFF)
  {
  }

  // The fields of any entry: frame in the low 13 bits, device in the low 5, slot in the 21 above those.
  lemma EntryFields(pte: bv32)
    ensures Fpn(pte) == ToNat(pte) % 0x2000
    ensures SwpTyp(pte) == ToNat(pte) % 32
    ensures Swp(pte) == ToNat(pte) / 32 % 0x20_0000
  {
    MaskConstants();
    MaskValues();
    FieldMasks();
    LowField(pte, 0x1FFF);
    LowField(pte, 0x1F);
    SlotField(pte);
    hide GetVal, Low, Right, ToNat, Ones;
    LowIsRemainder(pte, 0x1FFF);
    LowIsRemainder(pte, 0x1F);
    RightFive(pte);
    LowIsRemainder(Right(pte, 5), 0x1F_FFFF);
  }

  // Page number and offset of any number used as an address: what is above the bus width is ignored.
  lemma AnyAddress(addr: nat)
    ensures Pgn(addr) == addr / 256 % 0x4000 && Offst(addr) == addr % 256
  {
    MaskConstants();
    MaskValues();
    FieldMasks();
    Half(0x3FFF);
    LowField(ToWord(addr), 0xFF);
    PageField(ToWord(addr));
    hide GetVal, Low, Right, ToNat, Ones;
    AnyWord(addr);
    RightEight(ToWord(addr));
    LowIsRemainder(Right(ToWord(addr), 8), 0x3FFF);
    LowIsRemainder(ToWord(addr), 0xFF);
    WidthIgnored(addr);
  }

  lemma WidthIgnored(addr: nat)
    ensures addr % 0x1_0000_0000 / 256 % 0x4000 == addr / 256 % 0x4000
    ensures addr % 0x1_0000_0000 % 256 == addr % 256
  {
    var q, r := addr / 0x1_0000_0000, addr % 0x1_0000_0000;
    var page, off := r / 256, r % 256;
    DivisionUnique(addr, 256, q * 0x100_0000 + page, off);
    DivisionUnique(q * 0x100_0000 + page, 0x4000, q * 0x400 + page / 0x4000, page % 0x4000);
  }

  lemma TwentyEight(w: bv32)
    ensures Right(Right(Right(Right(w, 8), 8), 8), 4) == Right(w, 28)
  {
  }

  lemma RightTwentyEight(w: bv32)
    ensures ToNat(Right(w, 28)) == ToNat(w) / 0x1000_0000
  {
    TwentyEight(w);
    RightEight(w);
    RightEight(Right(w, 8));
    RightEight(Right(Right(w, 8), 8));
    ShiftFour(Right(Right(Right(w, 8), 8), 8));
    hide ToNat;
  }

  lemma HighestBit(w: bv32)
    ensures Present(w) <==> Odd(Down(Down(Down(Right(w, 28)))))
  {
  }

  lemma NextBit(w: bv32)
    ensures Swapped(w) <==> Odd(Down(Down(Right(w, 28))))
  {
  }

  // The four highest binary digits of n, between them p, q and r the lower three.
  lemma TopDigits(n: nat, w: nat, a: nat, b: nat, c: nat, p: nat, q: nat, r: nat)
    requires w == n / 0x1000_0000 && w == 2 * a + p && a == 2 * b + q && b == 2 * c + r && p < 2 && q < 2 && r < 2
    ensures n / 0x4000_0000 == b && n / 0x8000_0000 == c
  {
    var rest := n % 0x1000_0000;
    DivisionUnique(n, 0x4000_0000, b, 0x1000_0000 * (2 * q + p) + rest);
    DivisionUnique(n, 0x8000_0000, c, 0x1000_0000 * (4 * r + 2 * q + p) + rest);
  }

  function Bits30(w: bv32): bv32 { Down(Down(Right(w, 28))) }

  function Bits31(w: bv32): bv32 { Down(Bits30(w)) }

  lemma HighDigits(w: bv32)
    ensures ToNat(Bits30(w)) == ToNat(w) / 0x4000_0000 && ToNat(Bits31(w)) == ToNat(w) / 0x8000_0000
  {
    hide Right, Down, Odd;
    RightTwentyEight(w);
    var a := Right(w, 28);
    var b := Down(a);
    Half(a);
    Half(b);
    Half(Bits30(w));
    hide ToNat;
    TopDigits(ToNat(w), ToNat(a), ToNat(b), ToNat(Bits30(w)), ToNat(Bits31(w)), Bit(a), Bit(b), Bit(Bits30(w)));
  }

  lemma LastDigit(w: bv32)
    ensures ToNat(w) % 2 == 1 <==> Odd(w)
  {
    Half(w);
    hide ToNat, Down, Odd;
  }

  // The two flags of any entry are its two highest bits.
  lemma EntryFlags(pte: bv32)
    ensures Present(pte) <==> ToNat(pte) / 0x8000_0000 % 2 == 1
    ensures Swapped(pte) <==> ToNat(pte) / 0x4000_0000 % 2 == 1
  {
    HighestBit(pte);
    NextBit(pte);
    hide Present, Swapped, Right, Down, Odd, ToNat;
    HighDigits(pte);
    LastDigit(Bits31(pte));
    LastDigit(Bits30(pte));
  }
}
