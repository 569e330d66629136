/** Bit tests and population counts on the 16-bit row bitmaps (`matrix_row_t`) and the 8-bit
    port registers. `PopCount` stands in for `bitpop16`, whose definition is not part of this
    model. */
module Bits {

  /** Bit `c` of `x` is set, with the index given as a bit-vector. */
  predicate BitV(x: bv16, c: bv16)
    requires c < 16
  {
    x & (1 << c) != 0
  }

  /** The row bitmap with only bit `c` set: `(matrix_row_t)1 << c`. */
  function Mask(c: nat): bv16
    requires c < 16
  {
    1 << (c as bv16)
  }

  /** Bit `c` of a row bitmap is set. */
  predicate Bit(x: bv16, c: nat)
    requires c < 16
  {
    BitV(x, c as bv16)
  }

  /** The register value with only bit `b` set: `_BV(b)`. */
  function Mask8(b: nat): bv8
    requires b < 8
  {
    1 << (b as bv8)
  }

  /** Bit `b` of a port register is set. */
  predicate Bit8(x: bv8, b: nat)
    requires b < 8
  {
    x & Mask8(b) != 0
  }

  /** Number of set bits among bits k..15 of `x`. */
  function BitsFrom(x: bv16, k: nat): (n: nat)
    requires k <= 16
    ensures n <= 16 - k
    decreases 16 - k
  {
    if k == 16 then 0 else (if Bit(x, k) then 1 else 0) + BitsFrom(x, k + 1)
  }

  /** No bit among k..15 is counted exactly when none of them is set. */
  lemma {:induction false} BitsFromZero(x: bv16, k: nat)
    requires k <= 16
    ensures BitsFrom(x, k) == 0 <==> forall j :: k <= j < 16 ==> !Bit(x, j)
    decreases 16 - k
  {
    if k < 16 {
      BitsFromZero(x, k + 1);
    }
  }

  /** Number of set bits of a row bitmap, i.e. the number of pressed keys in that row. */
  function PopCount(x: bv16): (n: nat)
  {
    BitsFrom(x, 0)
  }

  /** A row bitmap is zero exactly when none of its 16 bits is set. */
  lemma ZeroIffNoBit(x: bv16)
    ensures x == 0 <==> forall c :: 0 <= c < 16 ==> !Bit(x, c)
  {
    if forall c :: 0 <= c < 16 ==> !Bit(x, c) {
      assert !Bit(x, 0) && !Bit(x, 1) && !Bit(x, 2) && !Bit(x, 3);
      assert !Bit(x, 4) && !Bit(x, 5) && !Bit(x, 6) && !Bit(x, 7);
      assert !Bit(x, 8) && !Bit(x, 9) && !Bit(x, 10) && !Bit(x, 11);
      assert !Bit(x, 12) && !Bit(x, 13) && !Bit(x, 14) && !Bit(x, 15);
    }
  }

  /** A bit of `x ^ y` is set exactly when the bits of `x` and `y` differ (bit-vector index). */
  lemma XorBitV(x: bv16, y: bv16, c: bv16)
    requires c < 16
    ensures BitV(x ^ y, c) <==> BitV(x, c) != BitV(y, c)
  {
  }

  /** Two row bitmaps with the same 16 bits are equal. */
  lemma BitsEqual(x: bv16, y: bv16)
    requires forall c :: 0 <= c < 16 ==> Bit(x, c) == Bit(y, c)
    ensures x == y
  {
    var z := x ^ y;
    forall c | 0 <= c < 16
      ensures !Bit(z, c)
    {
      assert Bit(x, c) == Bit(y, c);
      XorBitV(x, y, c as bv16);
    }
    ZeroIffNoBit(z);
  }

  /** A row bitmap is 0xFFFF exactly when all of its 16 bits are set. */
  lemma AllIffEveryBit(x: bv16)
    ensures x == 0xFFFF <==> forall c :: 0 <= c < 16 ==> Bit(x, c)
  {
    if forall c :: 0 <= c < 16 ==> Bit(x, c) {
      forall c | 0 <= c < 16
        ensures Bit(x, c) == Bit(0xFFFF, c)
      {
        assert BitV(0xFFFF, c as bv16);
      }
      BitsEqual(x, 0xFFFF);
    }
  }

  /** The count of a row is at most 16, and it is zero exactly when the row is zero. */
  lemma PopCountRange(x: bv16)
    ensures PopCount(x) <= 16
    ensures PopCount(x) == 0 <==> x == 0
  {
    ZeroIffNoBit(x);
    BitsFromZero(x, 0);
  }

  /** Every set bit is counted: a row with bit c set holds at least one pressed key. */
  lemma PopCountPositive(x: bv16, c: nat)
    requires c < 16 && Bit(x, c)
    ensures PopCount(x) >= 1
  {
    BitsFromZero(x, 0);
  }

  /** Setting bit c changes no bit but bit c (stated on bit-vector indices). */
  lemma SetBitOnly(x: bv16, c: bv16, k: bv16)
    requires c < 16 && k < 16
    ensures BitV(x | (1 << c), k) <==> (BitV(x, k) || k == c)
  {
  }

  /** Distinct bit positions stay distinct as bit-vectors. */
  lemma IndexInjective(c: nat, k: nat)
    requires c < 16 && k < 16
    ensures c as bv16 == k as bv16 <==> c == k
  {
  }

  /** Bit k of `x | Mask(c)` is bit k of `x`, or k is c. */
  lemma BitOfSet(x: bv16, c: nat, k: nat)
    requires c < 16 && k < 16
    ensures Bit(x | Mask(c), k) <==> (Bit(x, k) || k == c)
  {
    SetBitOnly(x, c as bv16, k as bv16);
    IndexInjective(c, k);
  }

  /** Setting one more bit raises the count of bits k..15 by one exactly when that bit is among them. */
  lemma {:induction false} BitsFromSetBit(x: bv16, c: nat, k: nat)
    requires c < 16 && k <= 16 && !Bit(x, c)
    ensures BitsFrom(x | Mask(c), k) == BitsFrom(x, k) + (if k <= c then 1 else 0)
    decreases 16 - k
  {
    if k < 16 {
      BitsFromSetBit(x, c, k + 1);
      BitOfSet(x, c, k);
    }
  }

  /** Pressing a key that was not pressed raises the row's count by one. */
  lemma PopCountSetBit(x: bv16, c: nat)
    requires c < 16 && !Bit(x, c)
    ensures PopCount(x | Mask(c)) == PopCount(x) + 1
  {
    BitsFromSetBit(x, c, 0);
  }

  /** Every bit of 0xFFFF from k on is counted. */
  lemma {:induction false} BitsFromAll(k: nat)
    requires k <= 16
    ensures BitsFrom(0xFFFF, k) == 16 - k
    decreases 16 - k
  {
    if k < 16 {
      BitsFromAll(k + 1);
      assert Bit(0xFFFF, k);
    }
  }

  /** A fully pressed row counts 16 keys. */
  lemma PopCountAll()
    ensures PopCount(0xFFFF) == 16
  {
    BitsFromAll(0);
  }
}
