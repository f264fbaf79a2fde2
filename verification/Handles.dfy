/** Sensor handles: the packing of a sub-HAL index into the first byte of a 32-bit handle. */
module Handles {

  const BYTE_UNIT: int := 0x100_0000
  const INT32_SPAN: int := 0x1_0000_0000
  const SIZE_T_SPAN: int := 0x1_0000_0000_0000_0000

  type Handle = x: int | -0x8000_0000 <= x < 0x8000_0000

  // The two's-complement picture of a handle: its first byte and its low 24 bits.
  function TopByte(h: Handle): nat {
    (h % INT32_SPAN) / BYTE_UNIT
  }

  function LowBits(h: Handle): nat {
    h % BYTE_UNIT
  }

  function Assemble(top: nat, low: nat): Handle
    requires top < 256 && low < BYTE_UNIT
  {
    var u := top * BYTE_UNIT + low;
    if u < INT32_SPAN / 2 then u else u - INT32_SPAN
  }

  lemma {:induction false} AssembleParts(top: nat, low: nat)
    requires top < 256 && low < BYTE_UNIT
    ensures TopByte(Assemble(top, low)) == top
    ensures LowBits(Assemble(top, low)) == low
    ensures Assemble(top, low) / BYTE_UNIT == if top < 128 then top else top - 256
  {
  }

  lemma {:induction false} HandleParts(h: Handle)
    ensures Assemble(TopByte(h), LowBits(h)) == h
  {
    var u := if h < 0 then h + INT32_SPAN else h;
    assert h % INT32_SPAN == u;
    assert u == BYTE_UNIT * (u / BYTE_UNIT) + u % BYTE_UNIT;
  }

  /** Bitwise or of two bytes, bit by bit. */
  function OrBits(a: nat, b: nat, bits: nat): nat {
    if bits == 0 then 0
    else (if a % 2 == 1 || b % 2 == 1 then 1 else 0) + 2 * OrBits(a / 2, b / 2, bits - 1)
  }

  lemma {:induction false} OrBytesBounded(a: nat, b: nat)
    ensures OrBits(a, b, 8) < 256
  {
    OrBitsBounded(a, b, 8);
    assert Pow2(8) == 256;
  }

  function Pow2(n: nat): nat {
    if n == 0 then 1 else 2 * Pow2(n - 1)
  }

  lemma {:induction false} OrBitsBounded(a: nat, b: nat, bits: nat)
    ensures OrBits(a, b, bits) < Pow2(bits)
  {
    if bits > 0 {
      OrBitsBounded(a / 2, b / 2, bits - 1);
    }
  }

  lemma {:induction false} OrWithZero(b: nat, bits: nat)
    requires b < Pow2(bits)
    ensures OrBits(0, b, bits) == b
  {
    if bits > 0 {
      OrWithZero(b / 2, bits - 1);
    }
  }

  function SetSubHalIndex(h: Handle, index: nat): Handle {
    OrBytesBounded(TopByte(h), index % 256);
    Assemble(OrBits(TopByte(h), index % 256, 8), LowBits(h))
  }

  // An arithmetic shift right by 24 followed by a conversion to a 64-bit size_t.
  function ExtractSubHalIndex(h: Handle): nat {
    var shifted := h / BYTE_UNIT;
    if shifted < 0 then shifted + SIZE_T_SPAN else shifted
  }

  function ClearSubHalIndex(h: Handle): Handle {
    Assemble(0, LowBits(h))
  }

  predicate SubHalIndexIsClear(h: Handle) {
    TopByte(h) == 0
  }

  // Bit k of a number.
  predicate Bit(n: nat, k: nat) {
    if k == 0 then n % 2 == 1 else Bit(n / 2, k - 1)
  }

  lemma {:induction false} OrBitsHalf(a: nat, b: nat, bits: nat)
    requires bits > 0
    ensures OrBits(a, b, bits) / 2 == OrBits(a / 2, b / 2, bits - 1)
    ensures OrBits(a, b, bits) % 2 == if a % 2 == 1 || b % 2 == 1 then 1 else 0
  {
  }

  lemma {:induction false} OrBitsBit(a: nat, b: nat, bits: nat, k: nat)
    requires k < bits
    ensures Bit(OrBits(a, b, bits), k) <==> Bit(a, k) || Bit(b, k)
  {
    OrBitsHalf(a, b, bits);
    if k != 0 {
      OrBitsBit(a / 2, b / 2, bits - 1, k - 1);
      assert Bit(OrBits(a, b, bits), k) <==> Bit(OrBits(a / 2, b / 2, bits - 1), k - 1);
    }
  }

  /** Packing keeps the low bits, and sets in the first byte every bit of the index to those already set there. */
  lemma {:induction false} PackedBits(h: Handle, index: nat, k: nat)
    requires k < 8
    ensures LowBits(SetSubHalIndex(h, index)) == LowBits(h)
    ensures Bit(TopByte(SetSubHalIndex(h, index)), k) <==> Bit(TopByte(h), k) || Bit(index % 256, k)
  {
    var top := OrBits(TopByte(h), index % 256, 8);
    OrBytesBounded(TopByte(h), index % 256);
    AssembleParts(top, LowBits(h));
    OrBitsBit(TopByte(h), index % 256, 8, k);
  }

  /** A handle's first byte is clear iff it is a number below 2^24. */
  lemma {:induction false} ClearIffSmall(h: Handle)
    ensures SubHalIndexIsClear(h) <==> 0 <= h < 0x100_0000
  {
  }

  lemma {:induction false} PackClear(h: Handle, index: nat)
    requires SubHalIndexIsClear(h)
    ensures SetSubHalIndex(h, index) == Assemble(index % 256, LowBits(h))
    ensures ClearSubHalIndex(h) == h
  {
    assert Pow2(8) == 256;
    OrWithZero(index % 256, 8);
    HandleParts(h);
  }

  lemma {:induction false} PackedTopByteReadBack(h: Handle, index: nat)
    requires SubHalIndexIsClear(h)
    ensures ExtractSubHalIndex(SetSubHalIndex(h, index)) ==
            if index % 256 < 128 then index % 256 else SIZE_T_SPAN - 256 + index % 256
    ensures ClearSubHalIndex(SetSubHalIndex(h, index)) == h
  {
    PackClear(h, index);
    AssembleParts(index % 256, LowBits(h));
  }

  /** Clearing always undoes packing.  Extraction undoes it exactly for the indices whose byte is not read
      back as a negative number (or is read back as the same huge size_t). */
  lemma {:induction false} PackingRoundTrip(h: Handle, index: nat)
    requires SubHalIndexIsClear(h) && index < SIZE_T_SPAN
    ensures ExtractSubHalIndex(SetSubHalIndex(h, index)) == index <==> index < 128 || SIZE_T_SPAN - 128 <= index
    ensures ClearSubHalIndex(SetSubHalIndex(h, index)) == h
  {
    PackedTopByteReadBack(h, index);
  }

  lemma {:induction false} PackedParts(h: Handle, index: nat)
    requires SubHalIndexIsClear(h)
    ensures TopByte(SetSubHalIndex(h, index)) == index % 256
    ensures LowBits(SetSubHalIndex(h, index)) == LowBits(h)
  {
    PackClear(h, index);
    AssembleParts(index % 256, LowBits(h));
  }

  lemma {:induction false} ClearHandleIsItsLowBits(h: Handle)
    requires SubHalIndexIsClear(h)
    ensures h == LowBits(h)
  {
    HandleParts(h);
  }

  lemma {:induction false} Unpacked(h: Handle, index: nat)
    requires SubHalIndexIsClear(h) && index < 256
    ensures TopByte(SetSubHalIndex(h, index)) == index && LowBits(SetSubHalIndex(h, index)) == h
  {
    PackedParts(h, index);
    ClearHandleIsItsLowBits(h);
  }

  /** Packed handles collide only for the same sensor, as long as the index fits in a byte. */
  lemma {:induction false} PackingInjective(h: Handle, i: nat, h': Handle, i': nat)
    requires SubHalIndexIsClear(h) && SubHalIndexIsClear(h')
    requires i < 256 && i' < 256
    requires SetSubHalIndex(h, i) == SetSubHalIndex(h', i')
    ensures h == h' && i == i'
  {
    Unpacked(h, i);
    Unpacked(h', i');
  }
}
