/** C's `uint32_t` words, their numeric values, and the mask macros of include/bitops.h.
    Words are bit-vectors. They are related to numbers by binary notation, so that the lemmas
    can cross from bit operations to division and remainder one bit at a time. */
module Word {

  function Down(w: bv32): bv32 { w >> 1 }
  function Up0(w: bv32): bv32 { w << 1 }
  function Up1(w: bv32): bv32 { (w << 1) | 1 }
  predicate Odd(w: bv32) { w & 1 == 1 }
  predicate Under(w: bv32, m: bv32) { w & m == w }

  function Bit(w: bv32): nat { if Odd(w) then 1 else 0 }

  // The value of a word.
  function ToNat(w: bv32): nat
    decreases w
  {
    if w == 0 then 0 else 2 * ToNat(Down(w)) + Bit(w)
  }

  // The word that represents a number; bits above 31 are lost, as in a C conversion.
  function ToWord(x: nat): bv32 {
    if x == 0 then 0
    else if x % 2 == 1 then Up1(ToWord(x / 2))
    else Up0(ToWord(x / 2))
  }

  // A mask made of consecutive low ones: each bit's lower neighbour is set too.
  predicate Ones(m: bv32) { Under(Down(m), m) }

  lemma Half(w: bv32)
    ensures ToNat(w) == 2 * ToNat(Down(w)) + Bit(w)
  {
  }

  lemma OnesDown(m: bv32)
    requires Ones(m) && m != 0
    ensures Ones(Down(m)) && Odd(m)
  {
  }

  lemma UpZero(h: bv32, m: bv32)
    requires Under(h, Down(m))
    ensures Down(Up0(h)) == h && !Odd(Up0(h)) && Under(Up0(h), m)
  {
  }

  lemma UpOne(h: bv32, m: bv32)
    requires Under(h, Down(m))
    ensures Down(Up1(h)) == h && Odd(Up1(h))
  {
  }

  lemma UpOneUnder(h: bv32, m: bv32)
    requires Odd(m) && Under(h, Down(m))
    ensures Under(Up1(h), m)
  {
  }

  lemma HalfFits(x: nat, m: bv32)
    requires Ones(m) && 0 < x <= ToNat(m)
    ensures Odd(m) && Ones(Down(m))
    ensures x / 2 <= ToNat(Down(m))
  {
    assert m != 0;
    OnesDown(m);
    Half(m);
  }

  // A number no larger than a block of ones fits under it, and is read back unchanged.
  lemma {:induction false} Fits(x: nat, m: bv32)
    requires Ones(m) && x <= ToNat(m)
    ensures Under(ToWord(x), m) && ToNat(ToWord(x)) == x
    decreases x
  {
    if x != 0 {
      HalfFits(x, m);
      Fits(x / 2, Down(m));
      UpZero(ToWord(x / 2), m);
      UpOne(ToWord(x / 2), m);
      UpOneUnder(ToWord(x / 2), m);
      Half(Up0(ToWord(x / 2)));
      Half(Up1(ToWord(x / 2)));
    }
  }

  lemma DownSmaller(m: bv32)
    requires m != 0
    ensures Down(m) < m
  {
  }

  lemma MaskBits(w: bv32, m: bv32)
    requires Ones(m) && m != 0
    ensures Down(w & m) == Down(w) & Down(m)
    ensures Odd(w & m) == Odd(w)
  {
  }

  lemma NoMask(w: bv32)
    ensures ToNat(w & 0) == 0
  {
  }

  lemma MaskStep(w: bv32, m: bv32)
    requires Ones(m) && m != 0
    requires ToNat(Down(w) & Down(m)) == ToNat(Down(w)) % (ToNat(Down(m)) + 1)
    ensures ToNat(w & m) == ToNat(w) % (ToNat(m) + 1)
  {
    OnesDown(m);
    MaskBits(w, m);
    Half(w);
    Half(m);
    Half(w & m);
    OneMoreBit(ToNat(w), ToNat(m), ToNat(w & m), ToNat(Down(w)), ToNat(Down(m)), ToNat(Down(w & m)), Bit(w));
  }

  // Masking with low ones is the remainder.
  lemma {:induction false} MaskIsRemainder(w: bv32, m: bv32)
    requires Ones(m)
    ensures ToNat(w & m) == ToNat(w) % (ToNat(m) + 1)
    decreases m
  {
    if m == 0 {
      NoMask(w);
    } else {
      OnesDown(m);
      DownSmaller(m);
      MaskIsRemainder(Down(w), Down(m));
      MaskStep(w, m);
    }
  }

  // The same on numbers, for one more binary digit.
  lemma OneMoreBit(w: nat, m: nat, masked: nat, w': nat, m': nat, masked': nat, bit: nat)
    requires w == 2 * w' + bit && m == 2 * m' + 1 && masked == 2 * masked' + bit && bit < 2
    requires masked' == w' % (m' + 1)
    ensures masked == w % (m + 1)
  {
    DoubleRemainder(w', m' + 1, bit);
  }

  lemma DoubleRemainder(a: nat, b: nat, r: nat)
    requires 0 < b && r < 2
    ensures (2 * a + r) % (2 * b) == 2 * (a % b) + r
  {
    DivisionUnique(2 * a + r, 2 * b, a / b, 2 * (a % b) + r);
  }

  lemma ThirtyOneOnes()
    ensures ToNat(0x7FFF_FFFF) == 0x7FFF_FFFF && Ones(0x7FFF_FFFF)
  {
    MaskValues();
    Half(0x7F_FFFF); Half(0xFF_FFFF); Half(0x1FF_FFFF); Half(0x3FF_FFFF); Half(0x7FF_FFFF);
    Half(0xFFF_FFFF); Half(0x1FFF_FFFF); Half(0x3FFF_FFFF); Half(0x7FFF_FFFF);
  }

  // Masking and shifting under a name, so that numbers and bits are reasoned about apart.
  function Low(w: bv32, m: bv32): bv32 { w & m }

  function Right(w: bv32, k: bv32): bv32
    requires k < 32
  {
    w >> k
  }

  lemma LowIsRemainder(w: bv32, m: bv32)
    requires Ones(m)
    ensures ToNat(Low(w, m)) == ToNat(w) % (ToNat(m) + 1)
  {
    MaskIsRemainder(w, m);
  }

  lemma UpLosesTopBit(h: bv32)
    ensures Down(Up0(h)) == Low(h, 0x7FFF_FFFF) && !Odd(Up0(h))
    ensures Down(Up1(h)) == Low(h, 0x7FFF_FFFF) && Odd(Up1(h))
  {
  }

  lemma UpValue(h: bv32)
    ensures ToNat(Up0(h)) == 2 * (ToNat(h) % 0x8000_0000)
    ensures ToNat(Up1(h)) == 2 * (ToNat(h) % 0x8000_0000) + 1
  {
    hide Up0, Up1, Low, Down, Odd;
    ThirtyOneOnes();
    UpLosesTopBit(h);
    LowIsRemainder(h, 0x7FFF_FFFF);
    Half(Up0(h));
    Half(Up1(h));
    hide ToNat, Ones;
  }

  // A word made from any number has its value modulo 2^32.
  lemma {:induction false} AnyWord(x: nat)
    ensures ToNat(ToWord(x)) == x % 0x1_0000_0000
    decreases x
  {
    if x > 0 {
      AnyWord(x / 2);
      UpValue(ToWord(x / 2));
      hide ToNat, Up0, Up1;
      OneDigitMore(x, ToNat(ToWord(x / 2)));
    }
  }

  lemma OneDigitMore(x: nat, h: nat)
    requires h == x / 2 % 0x1_0000_0000
    ensures 2 * (h % 0x8000_0000) + x % 2 == x % 0x1_0000_0000
  {
    var y := x / 2;
    HalfWidth(y, y / 0x1_0000_0000, h);
    DoubleRemainder(y, 0x8000_0000, x % 2);
  }

  lemma HalfWidth(y: nat, q: nat, h: nat)
    requires y == q * 0x1_0000_0000 + h
    ensures h % 0x8000_0000 == y % 0x8000_0000
  {
    DivisionUnique(y, 0x8000_0000, 2 * q + h / 0x8000_0000, h % 0x8000_0000);
  }

  lemma DivisionUnique(n: nat, d: nat, q: nat, r: nat)
    requires r < d && n == q * d + r
    ensures n / d == q && n % d == r
  {
    var k := n / d - q;
    assert k * d == r - n % d;
    assert 0 - d < k * d < d;
    assert k == 0 by {
      assert k >= 1 ==> k * d >= d;
      assert k <= -1 ==> k * d <= 0 - d;
    }
  }

  lemma FourDowns(w: bv32)
    ensures Down(Down(Down(Down(w)))) == w >> 4
  {
  }

  lemma ShiftFour(w: bv32)
    ensures ToNat(w >> 4) == ToNat(w) / 16
  {
    FourDowns(w);
    Half(w);
    Half(Down(w));
    Half(Down(Down(w)));
    Half(Down(Down(Down(w))));
  }

  // Shifting out the eight offset bits is division by the page size.
  lemma ShiftEight(w: bv32)
    ensures ToNat(w >> 8) == ToNat(w) / 256
  {
    assert (w >> 4) >> 4 == w >> 8;
    ShiftFour(w);
    ShiftFour(w >> 4);
  }

  lemma MaskValues()
    ensures ToNat(0x1F) == 0x1F
    ensures ToNat(0xFF) == 0xFF
    ensures ToNat(0x1FFF) == 0x1FFF
    ensures ToNat(0x1F_FFFF) == 0x1F_FFFF
    ensures ToNat(0x3F_FFFF) == 0x3F_FFFF
  {
    Half(0x1); Half(0x3); Half(0x7); Half(0xF);
    Half(0x1F); Half(0x3F); Half(0x7F); Half(0xFF);
    Half(0x1FF); Half(0x3FF); Half(0x7FF); Half(0xFFF);
    Half(0x1FFF); Half(0x3FFF); Half(0x7FFF); Half(0xFFFF);
    Half(0x1_FFFF); Half(0x3_FFFF); Half(0x7_FFFF); Half(0xF_FFFF);
    Half(0x1F_FFFF); Half(0x3F_FFFF);
  }

  // One shift to the left doubles, as long as the top bit is clear.
  lemma Double(w: bv32, m: bv32)
    requires Under(w, Down(m))
    ensures ToNat(Up0(w)) == 2 * ToNat(w) && Under(Up0(w), m)
  {
    UpZero(w, m);
    Half(Up0(w));
  }

  lemma FiveUps(w: bv32)
    ensures Up0(Up0(Up0(Up0(Up0(w))))) == w << 5
  {
  }

  lemma FiveDowns()
    ensures Down(0x03FF_FFFF) == 0x01FF_FFFF && Down(0x01FF_FFFF) == 0x00FF_FFFF
    ensures Down(0x00FF_FFFF) == 0x007F_FFFF && Down(0x007F_FFFF) == 0x003F_FFFF && Down(0x003F_FFFF) == 0x001F_FFFF
  {
  }

  lemma TimesThirtyTwo(w: bv32)
    requires Under(w, 0x1F_FFFF)
    ensures ToNat(w << 5) == 32 * ToNat(w)
  {
    FiveDowns();
    FiveUps(w);
    Double(w, 0x003F_FFFF);
    Double(Up0(w), 0x007F_FFFF);
    Double(Up0(Up0(w)), 0x00FF_FFFF);
    Double(Up0(Up0(Up0(w))), 0x01FF_FFFF);
    Double(Up0(Up0(Up0(Up0(w)))), 0x03FF_FFFF);
  }

  // include/bitops.h

  function GenMask(h: bv32, l: bv32): bv32
    requires l <= h < 32
  {
    (0xFFFF_FFFF << l) & (0xFFFF_FFFF >> (31 - h))
  }

  // GENMASK(h, l) has exactly the bits l..h.
  lemma GenMaskBits(h: bv32, l: bv32, k: bv32)
    requires l <= h < 32 && k < 32
    ensures (GenMask(h, l) >> k) & 1 == if l <= k <= h then 1 else 0
  {
  }

  // DIV_ROUND_UP
  function DivRoundUp(n: nat, d: nat): nat
    requires d > 0
  {
    (n + d - 1) / d
  }

  lemma DivRoundUpIsCeiling(n: nat, d: nat)
    requires d > 0
    ensures n <= DivRoundUp(n, d) * d < n + d
  {
    var k := n + d - 1;
    assert k == (k / d) * d + k % d;
  }

  function NBits2(n: bv32): bv32 { if n & 2 != 0 then 1 else 0 }
  function NBits4(n: bv32): bv32 { if n & 0xC != 0 then 2 + NBits2(n >> 2) else NBits2(n) }
  function NBits8(n: bv32): bv32 { if n & 0xF0 != 0 then 4 + NBits4(n >> 4) else NBits4(n) }
  function NBits16(n: bv32): bv32 { if n & 0xFF00 != 0 then 8 + NBits8(n >> 8) else NBits8(n) }
  function NBits32(n: bv32): bv32 { if n & 0xFFFF_0000 != 0 then 16 + NBits16(n >> 16) else NBits16(n) }
  function NBits(n: bv32): bv32 { if n == 0 then 0 else NBits32(n) }

  // NBITS is the floor of the base-2 logarithm: shifting by it leaves just the leading one. Of zero it is 0.
  lemma NBitsIsLog(n: bv32)
    ensures NBits(n) < 32 && (n != 0 ==> n >> NBits(n) == 1) && (n == 0 ==> NBits(n) == 0)
  {
  }
}
