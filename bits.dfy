/** Fixed-width integer types of the driver and the Arduino bit macros it uses
    (bitRead, bitSet, bitClear, bitWrite), stated on bytes. */
module Bits {

  /** C's int8_t: the type of the first-wave offset. */
  type int8 = x: int | -0x80 <= x < 0x80

  /** C's int32_t: the type of a raw result register reading. */
  type int32 = x: int | -0x8000_0000 <= x < 0x8000_0000

  /** The byte with only bit n set, as the macros compute it by `1 << n`. */
  function BitMask(n: nat): (m: bv8)
    requires n < 8
  {
    if n == 0 then 0x01 else if n == 1 then 0x02 else if n == 2 then 0x04
    else if n == 3 then 0x08 else if n == 4 then 0x10 else if n == 5 then 0x20
    else if n == 6 then 0x40 else 0x80
  }

  /** bitRead(b, n): bit n of a byte is one. */
  predicate Bit(b: bv8, n: nat)
    requires n < 8
  {
    b & BitMask(n) != 0
  }

  /** bitSet(b, n): bit n becomes one, every other bit keeps its value. */
  function BitSet(b: bv8, n: nat): (r: bv8)
    requires n < 8
  {
    b | BitMask(n)
  }

  /** bitClear(b, n): bit n becomes zero, every other bit keeps its value. */
  function BitClear(b: bv8, n: nat): (r: bv8)
    requires n < 8
  {
    b & !BitMask(n)
  }

  /** bitWrite(b, n, v): bit n becomes v, every other bit keeps its value. */
  function BitWrite(b: bv8, n: nat, v: bool): (r: bv8)
    requires n < 8
  {
    if v then BitSet(b, n) else BitClear(b, n)
  }

  /** C's `~` applied to a uint8_t, which is first promoted to a 32-bit int:
      the bitwise complement of the promoted word read as signed, which is
      the negation of the byte minus one. */
  function IntNot(t: bv8): (r: int)
    ensures (!(t as bv32)) as int - 0x1_0000_0000 == r
    ensures r + t as int == -1
  {
    var w := t as bv32;
    assert !w == 0xFFFF_FFFF - w;
    -(t as int) - 1
  }

  /** Two bytes agreeing on every bit are equal. */
  lemma BitsDetermineByte(a: bv8, b: bv8)
    requires forall k :: 0 <= k < 8 ==> Bit(a, k) == Bit(b, k)
    ensures a == b
  {
    assert Bit(a, 0) == Bit(b, 0) && Bit(a, 1) == Bit(b, 1);
    assert Bit(a, 2) == Bit(b, 2) && Bit(a, 3) == Bit(b, 3);
    assert Bit(a, 4) == Bit(b, 4) && Bit(a, 5) == Bit(b, 5);
    assert Bit(a, 6) == Bit(b, 6) && Bit(a, 7) == Bit(b, 7);
  }

  /** Bit k after bitClear(b, n): zero at n, the old bit elsewhere. */
  lemma BitClearBit(b: bv8, n: nat, k: nat)
    requires n < 8 && k < 8
    ensures Bit(BitClear(b, n), k) == (Bit(b, k) && k != n)
  {
    if k != n {
      assert BitMask(n) & BitMask(k) == 0;
    }
  }

  /** The loop `for (i = from; i < to; i++) bitWrite(piece, i, 0);` of the ALU
      operator setters: bits from..to-1 become zero, the others are kept. */
  method ClearBits(piece: bv8, from: nat, to: nat) returns (r: bv8)
    requires from <= to <= 8
    ensures forall k :: 0 <= k < 8 ==> Bit(r, k) == (Bit(piece, k) && !(from <= k < to))
  {
    r := piece;
    for i := from to to
      invariant forall k :: 0 <= k < 8 ==> Bit(r, k) == (Bit(piece, k) && !(from <= k < i))
    {
      ghost var before := r;
      r := BitWrite(r, i, false);
      forall k | 0 <= k < 8
        ensures Bit(r, k) == (Bit(before, k) && k != i)
      {
        BitClearBit(before, i, k);
      }
    }
  }

  /** Clearing bits 0-3 leaves the high nibble. */
  lemma ClearedLowNibble(piece: bv8, r: bv8)
    requires forall k :: 0 <= k < 8 ==> Bit(r, k) == (Bit(piece, k) && !(0 <= k < 4))
    ensures r == piece & 0xF0
  {
    forall k | 0 <= k < 8 ensures Bit(r, k) == Bit(piece & 0xF0, k) {
      assert Bit(piece & 0xF0, k) == (Bit(piece, k) && k >= 4);
    }
    BitsDetermineByte(r, piece & 0xF0);
  }

  /** Clearing bits 4-7 leaves the low nibble. */
  lemma ClearedHighNibble(piece: bv8, r: bv8)
    requires forall k :: 0 <= k < 8 ==> Bit(r, k) == (Bit(piece, k) && !(4 <= k < 8))
    ensures r == piece & 0x0F
  {
    forall k | 0 <= k < 8 ensures Bit(r, k) == Bit(piece & 0x0F, k) {
      assert Bit(piece & 0x0F, k) == (Bit(piece, k) && k < 4);
    }
    BitsDetermineByte(r, piece & 0x0F);
  }
}
