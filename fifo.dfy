/** The 8-bit shift-in register `fifo_8bit` that every role of the bit-banged
    I2C engine uses to assemble and disassemble bytes, most significant bit
    first (UM10204 section 3.1.5). */
module Fifo8 {

  /** Bit `i` (0 = least significant) of `d`. */
  function Bit(d: bv8, i: nat): bool
    requires i < 8
  {
    d & Mask(i) != 0
  }

  /** The byte with only bit `i` set, `0x01 << i`. */
  function Mask(i: nat): bv8
    requires i < 8
  {
    match i
    case 0 => 0x01 case 1 => 0x02 case 2 => 0x04 case 3 => 0x08
    case 4 => 0x10 case 5 => 0x20 case 6 => 0x40 case _ => 0x80
  }

  /** The high bit, the one `shift_in` pushes out. */
  function Msb(d: bv8): bool
  {
    d & 0x80 != 0
  }

  /** The register after `shift_in(bit)`. */
  function Shifted(d: bv8, bit: bool): bv8
  {
    ((d << 1) & !1) | (if bit then 1 else 0)
  }

  /** `shift_in` moves every bit up one place, drops the high bit (the one it
      returns) and puts `bit` in the low place. */
  lemma ShiftedBits(d: bv8, bit: bool)
    ensures Msb(d) == Bit(d, 7)
    ensures Bit(Shifted(d, bit), 0) == bit
    ensures forall i :: 0 <= i < 7 ==> Bit(Shifted(d, bit), i + 1) == Bit(d, i)
  {
  }

  /** The eight bits of `d`, most significant first. */
  function Bits(d: bv8): (r: seq<bool>)
    ensures |r| == 8
    ensures forall k :: 0 <= k < 8 ==> r[k] == Bit(d, 7 - k)
  {
    seq(8, k requires 0 <= k < 8 => Bit(d, 7 - k))
  }

  /** Two bytes with the same eight bits are the same byte. */
  lemma BitsInjective(x: bv8, y: bv8)
    requires forall i :: 0 <= i < 8 ==> Bit(x, i) == Bit(y, i)
    ensures x == y
  {
    assert Bit(x, 0) == Bit(y, 0) && Bit(x, 1) == Bit(y, 1) && Bit(x, 2) == Bit(y, 2) && Bit(x, 3) == Bit(y, 3);
    assert Bit(x, 4) == Bit(y, 4) && Bit(x, 5) == Bit(y, 5) && Bit(x, 6) == Bit(y, 6) && Bit(x, 7) == Bit(y, 7);
  }

  /** The register after shifting in every bit of `bits`, in order. */
  function ShiftAll(d: bv8, bits: seq<bool>): bv8
    decreases |bits|
  {
    if bits == [] then d else ShiftAll(Shifted(d, bits[0]), bits[1..])
  }

  /** The bits `shift_in` returns while `bits` are shifted in, in order. */
  function ShiftedOut(d: bv8, bits: seq<bool>): (r: seq<bool>)
    ensures |r| == |bits|
    decreases |bits|
  {
    if bits == [] then [] else [Msb(d)] + ShiftedOut(Shifted(d, bits[0]), bits[1..])
  }

  /** The byte whose bits, most significant first, are `bits`. */
  function FromBits(bits: seq<bool>): bv8
    requires |bits| == 8
  {
    ShiftAll(0, bits)
  }

  /** After up to eight shifts, the low places hold the bits shifted in (the
      latest lowest) and the high places the old low bits. */
  lemma {:induction false} ShiftAllBit(d: bv8, bits: seq<bool>, i: nat)
    requires |bits| <= 8 && i < 8
    ensures Bit(ShiftAll(d, bits), i) == if i < |bits| then bits[|bits| - 1 - i] else Bit(d, i - |bits|)
    decreases |bits|
  {
    if bits != [] {
      ShiftedBits(d, bits[0]);
      ShiftAllBit(Shifted(d, bits[0]), bits[1..], i);
    }
  }

  /** Shifting in one more bit. */
  lemma {:induction false} ShiftAllSnoc(d: bv8, bits: seq<bool>, bit: bool)
    ensures ShiftAll(d, bits + [bit]) == Shifted(ShiftAll(d, bits), bit)
    decreases |bits|
  {
    if bits != [] {
      assert (bits + [bit])[1..] == bits[1..] + [bit];
      ShiftAllSnoc(Shifted(d, bits[0]), bits[1..], bit);
    } else {
      assert [bit][1..] == [];
    }
  }

  /** After eight `shift_in` calls the register holds the eight bits, the first
      one shifted in as the most significant bit, whatever it held before. */
  lemma ShiftEightHoldsBits(d: bv8, bits: seq<bool>)
    requires |bits| == 8
    ensures Bits(ShiftAll(d, bits)) == bits
    ensures ShiftAll(d, bits) == FromBits(bits)
  {
    forall i | 0 <= i < 8
      ensures Bit(ShiftAll(d, bits), i) == bits[7 - i] == Bit(ShiftAll(0, bits), i)
    {
      ShiftAllBit(d, bits, i);
      ShiftAllBit(0, bits, i);
    }
    BitsInjective(ShiftAll(d, bits), ShiftAll(0, bits));
  }

  /** While up to eight bits are shifted in, `shift_in` returns the old
      contents from the most significant bit down. */
  lemma {:induction false} ShiftedOutBit(d: bv8, bits: seq<bool>, k: nat)
    requires |bits| <= 8 && k < |bits|
    ensures ShiftedOut(d, bits)[k] == Bit(d, 7 - k)
    decreases |bits|
  {
    ShiftedBits(d, bits[0]);
    if k > 0 {
      ShiftedOutBit(Shifted(d, bits[0]), bits[1..], k - 1);
    }
  }

  /** The eight bits returned by eight `shift_in` calls are the register's old
      contents, most significant first. */
  lemma ShiftEightReturnsOld(d: bv8, bits: seq<bool>)
    requires |bits| == 8
    ensures ShiftedOut(d, bits) == Bits(d)
  {
    forall k | 0 <= k < 8 ensures ShiftedOut(d, bits)[k] == Bits(d)[k] {
      ShiftedOutBit(d, bits, k);
    }
  }

  /** Reading a byte's bits and packing them again gives the byte back. */
  lemma BitsRoundTrip(d: bv8)
    ensures FromBits(Bits(d)) == d
  {
    forall i | 0 <= i < 8
      ensures Bit(FromBits(Bits(d)), i) == Bit(d, i)
    {
      ShiftAllBit(0, Bits(d), i);
    }
    BitsInjective(FromBits(Bits(d)), d);
  }

  /** `fifo_8bit`: one byte of state, changed in place by `shift_in` and
      `reset_fifo`. */
  class Fifo {
    var data: bv8

    /** The member initialiser `data = 0`. */
    constructor ()
      ensures data == 0
    {
      data := 0;
    }

    /** `shift_in`: returns the old high bit and shifts `bit` in at the low end. */
    method ShiftIn(bit: bool) returns (out: bool)
      modifies this
      ensures out == Msb(old(data))
      ensures data == Shifted(old(data), bit)
    {
      out := data & 0x80 != 0;
      data := data << 1;
      data := (data & !1) | (if bit then 1 else 0);
    }

    /** `reset_fifo`. */
    method Reset()
      modifies this
      ensures data == 0
    {
      data := 0;
    }
  }
}
