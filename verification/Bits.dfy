/** Bitwise operators of fixed-width unsigned words. A word of `width` bits is a natural
    below `Pow2(width)`; `Bit` reads one binary digit and every operator works digit by digit. */
module Bits {

  function Pow2(n: nat): (p: nat)
    ensures p >= 1
  {
    if n == 0 then 1 else 2 * Pow2(n - 1)
  }

  predicate Bit(a: nat, i: nat) {
    if i == 0 then a % 2 == 1 else Bit(a / 2, i - 1)
  }

  predicate AllBits(a: nat, width: nat) {
    forall i | 0 <= i < width :: Bit(a, i)
  }

  function Digit(b: bool): nat {
    if b then 1 else 0
  }

  /** `a | b` */
  function Or(a: nat, b: nat): nat {
    if a == 0 && b == 0 then 0
    else Digit(a % 2 == 1 || b % 2 == 1) + 2 * Or(a / 2, b / 2)
  }

  /** `a & b` */
  function And(a: nat, b: nat): nat {
    if a == 0 then 0
    else Digit(a % 2 == 1 && b % 2 == 1) + 2 * And(a / 2, b / 2)
  }

  /** `!a` on `width` bits */
  function Not(a: nat, width: nat): nat {
    if width == 0 then 0
    else Digit(a % 2 == 0) + 2 * Not(a / 2, width - 1)
  }

  /** The largest word of the width, `MAX`. */
  function Ones(width: nat): nat {
    Pow2(width) - 1
  }

  /** `a.trailing_zeros()`: the position of the lowest set bit, `width` for zero. */
  function TrailingZeros(a: nat, width: nat): (z: nat)
    ensures z <= width
    ensures forall j | 0 <= j < z :: !Bit(a, j)
    ensures z < width ==> Bit(a, z)
  {
    if width == 0 || a % 2 == 1 then 0
    else
      var z := 1 + TrailingZeros(a / 2, width - 1);
      assert forall j | 0 < j < z :: Bit(a, j) == Bit(a / 2, j - 1);
      z
  }

  lemma {:induction false} ZeroBit(i: nat)
    ensures !Bit(0, i)
  {
    if i > 0 {
      ZeroBit(i - 1);
    }
  }

  lemma {:induction false} OrBit(a: nat, b: nat, i: nat)
    ensures Bit(Or(a, b), i) <==> Bit(a, i) || Bit(b, i)
  {
    if a == 0 && b == 0 {
      ZeroBit(i);
    } else if i > 0 {
      OrHalf(a, b);
      OrBit(a / 2, b / 2, i - 1);
    }
  }

  lemma {:induction false} OrHalf(a: nat, b: nat)
    requires a != 0 || b != 0
    ensures Or(a, b) / 2 == Or(a / 2, b / 2)
  {
  }

  lemma {:induction false} AndBit(a: nat, b: nat, i: nat)
    ensures Bit(And(a, b), i) <==> Bit(a, i) && Bit(b, i)
  {
    ZeroBit(i);
    if i > 0 && a != 0 {
      assert And(a, b) / 2 == And(a / 2, b / 2);
      AndBit(a / 2, b / 2, i - 1);
    }
  }

  lemma {:induction false} NotBit(a: nat, width: nat, i: nat)
    requires i < width
    ensures Bit(Not(a, width), i) <==> !Bit(a, i)
  {
    if i > 0 {
      assert Not(a, width) / 2 == Not(a / 2, width - 1);
      NotBit(a / 2, width - 1, i - 1);
    }
  }

  /** `1 << i` has exactly the one bit i. */
  lemma {:induction false} ShiftBit(i: nat, j: nat)
    ensures Bit(Pow2(i), j) <==> i == j
  {
    if i == 0 {
      if j > 0 {
        ZeroBit(j - 1);
      }
    } else if j > 0 {
      assert Pow2(i) / 2 == Pow2(i - 1);
      ShiftBit(i - 1, j - 1);
    }
  }

  /** The operators stay inside the width. */
  lemma {:induction false} Fits(a: nat, b: nat, width: nat)
    requires a < Pow2(width)
    ensures b < Pow2(width) ==> Or(a, b) < Pow2(width)
    ensures And(a, b) < Pow2(width)
  {
    if width > 0 {
      Fits(a / 2, b / 2, width - 1);
    }
  }

  lemma {:induction false} ShiftFits(i: nat, width: nat)
    requires i < width
    ensures Pow2(i) < Pow2(width)
  {
    if i + 1 < width {
      ShiftFits(i, width - 1);
    }
  }

  lemma {:induction false} OnesBit(width: nat, i: nat)
    requires i < width
    ensures Bit(Ones(width), i)
  {
    if i > 0 {
      assert Ones(width) / 2 == Ones(width - 1);
      OnesBit(width - 1, i - 1);
    }
  }

  lemma {:induction false} AllBitsOnes(a: nat, width: nat)
    requires a < Pow2(width)
    requires AllBits(a, width)
    ensures a == Ones(width)
  {
    if width > 0 {
      assert Bit(a, 0);
      forall i | 0 <= i < width - 1 ensures Bit(a / 2, i) {
        assert Bit(a, i + 1);
      }
      AllBitsOnes(a / 2, width - 1);
    }
  }

  /** A word equals `MAX` exactly when each of its bits is set. */
  lemma {:induction false} Full(a: nat, width: nat)
    requires a < Pow2(width)
    ensures a == Ones(width) <==> AllBits(a, width)
  {
    if a == Ones(width) {
      forall i | 0 <= i < width ensures Bit(a, i) {
        OnesBit(width, i);
      }
    } else if AllBits(a, width) {
      AllBitsOnes(a, width);
    }
  }

  // ---------- Changing one bit of a word ----------

  /** `u` is `w` with bit i changed to b, as far as the first n bits go. */
  ghost predicate BitSetTo(u: nat, w: nat, i: nat, b: bool, n: nat) {
    forall j | 0 <= j < n :: Bit(u, j) <==> if j == i then b else Bit(w, j)
  }

  /** `w |= 1 << i` */
  lemma {:induction false} SetOne(w: nat, width: nat, i: nat)
    requires w < Pow2(width) && i < width
    ensures Or(w, Pow2(i)) < Pow2(width)
    ensures BitSetTo(Or(w, Pow2(i)), w, i, true, width)
  {
    ShiftFits(i, width);
    Fits(w, Pow2(i), width);
    forall j | 0 <= j < width ensures Bit(Or(w, Pow2(i)), j) <==> i == j || Bit(w, j) {
      OrBit(w, Pow2(i), j);
      ShiftBit(i, j);
    }
  }

  /** `w &= !(1 << i)` */
  lemma {:induction false} ClearOne(w: nat, width: nat, i: nat)
    requires w < Pow2(width) && i < width
    ensures And(w, Not(Pow2(i), width)) < Pow2(width)
    ensures BitSetTo(And(w, Not(Pow2(i), width)), w, i, false, width)
  {
    Fits(w, Not(Pow2(i), width), width);
    forall j | 0 <= j < width ensures Bit(And(w, Not(Pow2(i), width)), j) <==> i != j && Bit(w, j) {
      AndBit(w, Not(Pow2(i), width), j);
      NotBit(Pow2(i), width, j);
      ShiftBit(i, j);
    }
  }

  /** `(!w).trailing_zeros()` is the position of the lowest clear bit of w. */
  lemma {:induction false} LeastClear(w: nat, width: nat, z: nat)
    requires z == TrailingZeros(Not(w, width), width)
    ensures z < width ==> !Bit(w, z)
    ensures AllBits(w, z)
  {
    forall j | 0 <= j < width ensures Bit(Not(w, width), j) <==> !Bit(w, j) {
      NotBit(w, width, j);
    }
  }

  // ---------- The two widths of the mask ----------

  const MAX64: nat := 0xFFFF_FFFF_FFFF_FFFF

  type Word64 = w: nat | w <= 0xFFFF_FFFF_FFFF_FFFF
  type Word16 = w: nat | w <= 0xFFFF

  lemma {:induction false} Pow2Sum(m: nat, n: nat)
    ensures Pow2(m + n) == Pow2(m) * Pow2(n)
  {
    if m > 0 {
      Pow2Sum(m - 1, n);
    }
  }

  lemma {:induction false} Widths()
    ensures Pow2(64) == 0x1_0000_0000_0000_0000
    ensures Pow2(16) == 0x1_0000
  {
    var one: nat, four: nat, sixteen: nat := 1, 4, 16;
    assert Pow2(one) == 2;
    Pow2Double(one, 2);
    Pow2Double(2 * one, 4);
    Pow2Double(four, 16);
    Pow2Double(2 * four, 256);
    Pow2Double(sixteen, 0x1_0000);
    Pow2Double(2 * sixteen, 0x1_0000_0000);
  }

  lemma {:induction false} Pow2Double(n: nat, p: nat)
    requires Pow2(n) == p
    ensures Pow2(2 * n) == p * p
  {
    Pow2Sum(n, n);
  }

  function SetBit64(w: Word64, i: nat): (u: Word64)
    requires i < 64
    ensures BitSetTo(u, w, i, true, 64)
    ensures u == MAX64 <==> AllBits(u, 64)
  {
    Widths();
    SetOne(w, 64, i);
    Full(Or(w, Pow2(i)), 64);
    Or(w, Pow2(i))
  }

  function SetBit16(w: Word16, i: nat): (u: Word16)
    requires i < 16
    ensures BitSetTo(u, w, i, true, 16)
  {
    Widths();
    SetOne(w, 16, i);
    Or(w, Pow2(i))
  }

  function ClearBit64(w: Word64, i: nat): (u: Word64)
    requires i < 64
    ensures BitSetTo(u, w, i, false, 64)
  {
    Widths();
    ClearOne(w, 64, i);
    And(w, Not(Pow2(i), 64))
  }

  function ClearBit16(w: Word16, i: nat): (u: Word16)
    requires i < 16
    ensures BitSetTo(u, w, i, false, 16)
  {
    Widths();
    ClearOne(w, 16, i);
    And(w, Not(Pow2(i), 16))
  }

  /** `(!w).trailing_zeros()` on 64 bits */
  function LowestClear64(w: Word64): (z: nat)
    ensures z <= 64 && AllBits(w, z)
    ensures z < 64 ==> !Bit(w, z)
  {
    LeastClear(w, 64, TrailingZeros(Not(w, 64), 64));
    TrailingZeros(Not(w, 64), 64)
  }

  /** `(!w).trailing_zeros()` on 16 bits */
  function LowestClear16(w: Word16): (z: nat)
    ensures z <= 16 && AllBits(w, z)
    ensures z < 16 ==> !Bit(w, z)
  {
    LeastClear(w, 16, TrailingZeros(Not(w, 16), 16));
    TrailingZeros(Not(w, 16), 16)
  }
}
