/** The bit-banged master `i2c_software` of the `i2c_software/master` example:
    START and STOP conditions, single bits, bytes MSB first, the acknowledge
    bit, and the retrying `write_bytes` / `read_bytes`. Every private helper
    is a method that appends its GPIO writes to the trace; the pure functions
    below give those writes, and the lemmas say what they mean on the bus. */
module CppMaster {
  import opened Fifo8
  import opened Bus

  /** `set_bit(location, value, byte)`. A shift by 31 or more overflows the
      C++ `int` the mask is computed in; a location from 8 to 30 only touches
      bits that the store back into the byte truncates away. */
  function SetBit(location: nat, value: bool, b: bv8): bv8
    requires location < 31
  {
    if location < 8 then ClearSet(location, value, b) else b
  }

  /** `set_bit` sets bit `location` of the byte to `value` and leaves every
      other bit as it was; a location past the byte changes nothing. */
  lemma SetBitSpec(location: nat, value: bool, b: bv8)
    requires location < 31
    ensures location < 8 ==> Bit(SetBit(location, value, b), location) == value
    ensures forall i :: 0 <= i < 8 && i != location ==> Bit(SetBit(location, value, b), i) == Bit(b, i)
  {
    if location < 8 {
      forall i | 0 <= i < 8 ensures Bit(ClearSet(location, value, b), i) == if i == location then value else Bit(b, i) {
        ClearSetBit(location, value, b, i);
      }
    }
  }

  /** `byte & ~(0x01 << location) | (value << location)` within one byte. */
  function ClearSet(location: nat, value: bool, b: bv8): bv8
    requires location < 8
  {
    (b & !Mask(location)) | (if value then Mask(location) else 0)
  }

  lemma ClearSetBit(location: nat, value: bool, b: bv8, i: nat)
    requires location < 8 && i < 8
    ensures Bit(ClearSet(location, value, b), i) == if i == location then value else Bit(b, i)
  {
    MaskBits(location, i);
    SetMaskBit(b, Mask(location), Mask(i), value);
  }

  /** One mask bit against another: the same mask, or disjoint ones. */
  lemma MaskBits(j: nat, i: nat)
    requires j < 8 && i < 8
    ensures Mask(i) != 0
    ensures i != j ==> Mask(j) & Mask(i) == 0
  {
  }

  /** Clearing the bits of `m` and or-ing in `m` or nothing, seen through `x`. */
  lemma SetMaskBit(b: bv8, m: bv8, x: bv8, value: bool)
    requires x != 0 && (m == x || m & x == 0)
    ensures (((b & !m) | (if value then m else 0)) & x != 0) == (if m == x then value else b & x != 0)
  {
  }

  /** `delay_us = MAX(1000000.0f / frequency_hz, 1)`, in whole microseconds.
      A zero frequency divides by zero. */
  function DelayFor(frequencyHz: int): (r: nat)
    requires frequencyHz != 0
    ensures r >= 1
    ensures 0 < frequencyHz <= 1000000 ==> r * frequencyHz <= 1000000 < (r + 1) * frequencyHz
    ensures frequencyHz > 1000000 || frequencyHz < 0 ==> r == 1
  {
    if frequencyHz > 0 && 1000000 / frequencyHz >= 1 then 1000000 / frequencyHz else 1
  }

  /** The line state after the constructor: both pins outputs, latches low. */
  const Powered := Lines(false, false, true)

  function StartOps(): seq<LineOp>
  {
    [Sda(true), Scl(true), Delay, Sda(false), Delay, Scl(false), Delay]
  }

  function StopOps(): seq<LineOp>
  {
    [Sda(false), Scl(false), Delay, Scl(true), Delay, Sda(true)]
  }

  function WriteBitOps(bit: bool): seq<LineOp>
  {
    [Sda(bit), Delay, Scl(true), Delay, Scl(false), Delay]
  }

  function ReadBitOps(level: bool): seq<LineOp>
  {
    [Delay, Scl(true), Sample(level), Delay, Scl(false), Delay]
  }

  function ReadAckOps(level: bool): seq<LineOp>
  {
    [Sda(false), SdaOutput(false), Delay, Scl(true), Delay, Sample(level), SdaOutput(true), Scl(false), Delay]
  }

  /** `write_bit` for each of `bits` in turn. */
  function WriteBitsOps(bits: seq<bool>): seq<LineOp>
  {
    if bits == [] then [] else WriteBitsOps(bits[..|bits| - 1]) + WriteBitOps(bits[|bits| - 1])
  }

  /** One more bit written is one more `write_bit`. */
  lemma WriteBitsSnoc(bits: seq<bool>, i: nat)
    requires i < |bits|
    ensures WriteBitsOps(bits[..i + 1]) == WriteBitsOps(bits[..i]) + WriteBitOps(bits[i])
  {
    assert bits[..i + 1][..i] == bits[..i];
  }

  /** Address bits 6 down to 0, as `start_communication_with` picks them. */
  function AddressBits(address: bv8): (r: seq<bool>)
    ensures |r| == 7
  {
    [Bit(address, 6), Bit(address, 5), Bit(address, 4), Bit(address, 3), Bit(address, 2), Bit(address, 1), Bit(address, 0)]
  }

  /** `read_acknowledge`: true when the data line reads low. */
  function ReadAckRun(input: seq<bool>): Out<bool>
  {
    Out(ReadAckOps(Level(input)), Rest(input), !Level(input))
  }

  /** `start_communication_with(address, read)`. */
  function StartCommRun(input: seq<bool>, address: bv8, read: bool): Out<bool>
  {
    var ack := ReadAckRun(input);
    Out(StartOps() + WriteBitsOps(AddressBits(address) + [read]) + ack.ops, ack.rest, ack.value)
  }

  /** `write_byte(byte)`. */
  function WriteByteRun(input: seq<bool>, b: bv8): Out<bool>
  {
    var ack := ReadAckRun(input);
    Out(WriteBitsOps(Bits(b)) + ack.ops, ack.rest, ack.value)
  }

  /** The writes of successive `read_bit` calls that read `levels`. */
  function ReadBitsOps(levels: seq<bool>): seq<LineOp>
  {
    if levels == [] then [] else ReadBitsOps(levels[..|levels| - 1]) + ReadBitOps(levels[|levels| - 1])
  }

  /** The byte `read_byte` has assembled after `n` rounds of
      `set_bit(7 - i, bit, output)`, the bits read being `levels`. */
  function Packed(levels: seq<bool>, n: nat): bv8
    requires n <= |levels| && n <= 8
  {
    if n == 0 then 0 else SetBit(7 - (n - 1), levels[n - 1], Packed(levels, n - 1))
  }

  lemma PackedNext(levels: seq<bool>, i: nat)
    requires i < |levels| && i < 8
    ensures Packed(levels, i + 1) == SetBit(7 - i, levels[i], Packed(levels, i))
  {
  }

  lemma ReadBitsSnoc(levels: seq<bool>, level: bool)
    ensures ReadBitsOps(levels + [level]) == ReadBitsOps(levels) + ReadBitOps(level)
  {
    assert (levels + [level])[..|levels|] == levels;
  }
  /** One more bit read: the level read is sample `i`, and its writes extend
      those of the first `i` bits. */
  lemma ReadStep(input: seq<bool>, start: seq<LineOp>, i: nat)
    requires i < 8
    ensures var levels := Samples(input, 8);
            Level(Drop(input, i)) == levels[i] && Rest(Drop(input, i)) == Drop(input, i + 1)
            && start + ReadBitsOps(levels[..i]) + ReadBitOps(levels[i]) == start + ReadBitsOps(levels[..i + 1])
  {
    var levels := Samples(input, 8);
    SamplesAt(input, 8, i);
    DropAdd(input, i, 1);
    assert levels[..i + 1] == levels[..i] + [levels[i]];
    ReadBitsSnoc(levels[..i], levels[i]);
    AppendAssoc(start, ReadBitsOps(levels[..i]), ReadBitOps(levels[i]));
  }


  /** `read_byte()`: release SDA, clock in eight bits, retake SDA, send ACK. */
  function ReadByteRun(input: seq<bool>): Out<bv8>
  {
    var levels := Samples(input, 8);
    Out([Sda(false), SdaOutput(false), Delay] + ReadBitsOps(levels) + [SdaOutput(true)] + WriteBitOps(false),
        Drop(input, 8), Packed(levels, 8))
  }

  /** `o` preceded by writes `ops`. */
  function Prepend<T>(ops: seq<LineOp>, o: Out<T>): Out<T>
  {
    Out(ops + o.ops, o.rest, o.value)
  }

  /** Up to `tries` calls of `start_communication_with`, stopping at the first
      acknowledge. */
  function StartRetry(input: seq<bool>, address: bv8, read: bool, tries: nat): Out<bool>
    decreases tries, input
  {
    if tries == 0 then Out([], input, false)
    else
      var a := StartCommRun(input, address, read);
      if a.value then a else Prepend(a.ops, StartRetry(a.rest, address, read, tries - 1))
  }

  /** Up to `tries` calls of `write_byte(b)`, stopping at the first acknowledge. */
  function WriteByteRetry(input: seq<bool>, b: bv8, tries: nat): Out<bool>
    decreases tries, input
  {
    if tries == 0 then Out([], input, false)
    else
      var a := WriteByteRun(input, b);
      if a.value then a else Prepend(a.ops, WriteByteRetry(a.rest, b, tries - 1))
  }

  lemma StartRetryStep(input: seq<bool>, address: bv8, read: bool, tries: nat)
    requires tries >= 1
    ensures var a := StartCommRun(input, address, read);
            StartRetry(input, address, read, tries)
              == if a.value then a else Prepend(a.ops, StartRetry(a.rest, address, read, tries - 1))
  {
  }

  lemma WriteByteRetryStep(input: seq<bool>, b: bv8, tries: nat)
    requires tries >= 1
    ensures var a := WriteByteRun(input, b);
            WriteByteRetry(input, b, tries)
              == if a.value then a else Prepend(a.ops, WriteByteRetry(a.rest, b, tries - 1))
  {
  }

  lemma PrependPrepend<T>(x: seq<LineOp>, y: seq<LineOp>, o: Out<T>)
    ensures Prepend(x, Prepend(y, o)) == Prepend(x + y, o)
  {
    assert x + (y + o.ops) == (x + y) + o.ops;
  }

  /** How many times `write_bytes` and `read_bytes` try the address phase,
      and `write_bytes` each byte. */
  const Tries: nat := 3

  /** The data loop of `write_bytes`: each byte tried up to three times. */
  function WriteAllRun(input: seq<bool>, data: seq<bv8>): Out<()>
  {
    if data == [] then Out([], input, ())
    else
      var p := WriteAllRun(input, data[..|data| - 1]);
      var w := WriteByteRetry(p.rest, data[|data| - 1], Tries);
      Out(p.ops + w.ops, w.rest, ())
  }

  /** The data loop of `read_bytes`: `n` calls of `read_byte`. */
  function ReadAllRun(input: seq<bool>, n: nat): (r: Out<seq<bv8>>)
    ensures |r.value| == n
  {
    if n == 0 then Out([], input, [])
    else
      var p := ReadAllRun(input, n - 1);
      var b := ReadByteRun(p.rest);
      Out(p.ops + b.ops, b.rest, p.value + [b.value])
  }

  /** `write_bytes(address, data, n_bytes)`. */
  function WriteBytesRun(input: seq<bool>, address: bv8, data: seq<bv8>): Out<()>
  {
    var s := StartRetry(input, address, false, Tries);
    Prepend(s.ops, WriteAllRun(s.rest, data))
  }

  /** `read_bytes(address, data, n_bytes)`. */
  function ReadBytesRun(input: seq<bool>, address: bv8, n: nat): Out<seq<bv8>>
  {
    var s := StartRetry(input, address, true, Tries);
    Prepend(s.ops, ReadAllRun(s.rest, n))
  }

  // ---------------------------------------------------------------------
  // What the writes mean on the bus

  /** The events `start_condition` adds before its START: a STOP when it
      raises SDA while SCL is already high, a clock pulse when it raises SCL. */
  function StartPrefix(l: Lines): seq<Event>
  {
    (if l.scl && !l.sda then [Stop] else []) + (if !l.scl then [Clock(true)] else [])
  }

  /** `start_condition` pulls SDA low while SCL is high (the START) and ends
      with both lines low. */
  lemma StartShape(l: Lines)
    requires l.sdaOut
    ensures Events(l, StartOps()) == StartPrefix(l) + [Start]
    ensures Run(l, StartOps()) == Powered
  {
  }

  /** `stop_condition` raises SCL with SDA low, then SDA while SCL is high
      (the STOP), and leaves both lines high. */
  lemma StopShape(l: Lines)
    requires l.sdaOut
    ensures Events(l, StopOps()) == (if l.scl && l.sda then [Start] else []) + [Clock(false), Stop]
    ensures Run(l, StopOps()) == Lines(true, true, true)
  {
  }

  /** `write_bit` with SCL low: one clock pulse with SDA at the bit, SCL low after. */
  lemma WriteBitShape(l: Lines, bit: bool)
    requires l.sdaOut && !l.scl
    ensures Events(l, WriteBitOps(bit)) == [Clock(bit)]
    ensures Run(l, WriteBitOps(bit)) == Lines(bit, false, true)
  {
  }

  /** `read_bit` with SCL low: one clock pulse, nothing else, SCL low after. */
  lemma ReadBitShape(l: Lines, level: bool)
    requires !l.scl
    ensures Events(l, ReadBitOps(level)) == [if l.sdaOut then Clock(l.sda) else ReleasedClock]
    ensures Run(l, ReadBitOps(level)) == l
  {
  }

  /** `read_acknowledge` with SCL low: one clock pulse on a released SDA, SDA
      driven low again and SCL low after; it reports an acknowledge exactly
      when the data line reads low. */
  lemma ReadAckShape(l: Lines, input: seq<bool>)
    requires !l.scl
    ensures Events(l, ReadAckRun(input).ops) == [ReleasedClock]
    ensures Run(l, ReadAckRun(input).ops) == Powered
    ensures ReadAckRun(input).value <==> !Level(input)
    ensures ReadAckRun(input).rest == Rest(input)
  {
  }

  /** `read_acknowledge` turns the data pin back into an output, latch low,
      before it lowers SCL: a device that left SDA high (a NACK) sees SDA
      pulled low while SCL is high. */
  lemma ReadAckRetakesSdaWhileClockHigh(l: Lines, level: bool)
    ensures var raised := [Sda(false), SdaOutput(false), Delay, Scl(true)];
            ReadAckOps(level) == raised + [Delay, Sample(level), SdaOutput(true), Scl(false), Delay]
            && Run(l, raised) == Lines(false, true, false)
  {
  }

  /** After a NACK the released line was read high, so the direction change
      that retakes SDA under a high clock pulls the line down: a START on the
      wire, which `Events` does not list. It happens exactly when the
      acknowledge is refused; after an ACK the slave already held the line
      low. */
  lemma ReadAckNackStartsOnWire(l: Lines, input: seq<bool>)
    ensures var o := ReadAckRun(input);
            |o.ops| == 9 && o.ops[5] == Sample(Level(input))
            && (WireStart(Run(l, o.ops[..6]), o.ops[6], Level(input)) <==> !o.value)
            && EventOf(Run(l, o.ops[..6]), o.ops[6]) == []
  {
    var o := ReadAckRun(input);
    var raised := [Sda(false), SdaOutput(false), Delay, Scl(true)];
    ReadAckRetakesSdaWhileClockHigh(l, Level(input));
    assert o.ops[..6] == raised + [Delay, Sample(Level(input))];
    RunAppend(l, raised, [Delay, Sample(Level(input))]);
    var m := Run(l, raised);
    assert Run(m, [Delay, Sample(Level(input))]) == Run(m, [Sample(Level(input))]) == m;
    assert o.ops[6] == SdaOutput(true);
  }

  /** Bits written one after the other with SCL low leave SCL low and SDA
      driven at the last bit's level. */
  lemma {:induction false} WriteBitsRun(l: Lines, bits: seq<bool>)
    requires l.sdaOut && !l.scl
    ensures Run(l, WriteBitsOps(bits)) == if bits == [] then l else Lines(bits[|bits| - 1], false, true)
    decreases |bits|
  {
    if bits != [] {
      var front, last := bits[..|bits| - 1], bits[|bits| - 1];
      WriteBitsRun(l, front);
      RunAppend(l, WriteBitsOps(front), WriteBitOps(last));
      WriteBitShape(Run(l, WriteBitsOps(front)), last);
    }
  }

  /** Bits written one after the other with SCL low appear on the bus as one
      clock pulse each, in order. */
  lemma {:induction false} WriteBitsEvents(l: Lines, bits: seq<bool>)
    requires l.sdaOut && !l.scl
    ensures Events(l, WriteBitsOps(bits)) == Clocks(bits)
    ensures Run(l, WriteBitsOps(bits)) == if bits == [] then l else Lines(bits[|bits| - 1], false, true)
    decreases |bits|
  {
    WriteBitsRun(l, bits);
    if bits != [] {
      var front, last := bits[..|bits| - 1], bits[|bits| - 1];
      var m := Run(l, WriteBitsOps(front));
      assert Events(l, WriteBitsOps(front)) == Clocks(front) && m.sdaOut && !m.scl by {
        WriteBitsEvents(l, front);
      }
      assert Events(l, WriteBitsOps(bits)) == Clocks(front) + Events(m, WriteBitOps(last)) by {
        RunAppend(l, WriteBitsOps(front), WriteBitOps(last));
      }
      WriteBitShape(m, last);
      ClocksSnoc(bits);
    }
  }

  /** `start_communication_with(address, read)`: a START, address bits 6..0
      MSB first, the R/W bit, then one acknowledge clock on a released SDA. */
  lemma StartCommEvents(l: Lines, input: seq<bool>, address: bv8, read: bool)
    requires l.sdaOut
    ensures Events(l, StartCommRun(input, address, read).ops)
      == StartPrefix(l) + [Start] + Clocks(AddressBits(address) + [read]) + [ReleasedClock]
    ensures Run(l, StartCommRun(input, address, read).ops) == Powered
    ensures StartCommRun(input, address, read).value <==> !Level(input)
  {
    var bits := AddressBits(address) + [read];
    StartShape(l);
    RunAppend(l, StartOps(), WriteBitsOps(bits));
    WriteBitsEvents(Powered, bits);
    var m := Run(Powered, WriteBitsOps(bits));
    RunAppend(l, StartOps() + WriteBitsOps(bits), ReadAckRun(input).ops);
    ReadAckShape(m, input);
  }

  /** Address bit 7 is never sent: addresses that agree on bits 6..0 give the
      same writes. */
  lemma AddressBit7Ignored(input: seq<bool>, a: bv8, b: bv8, read: bool)
    requires a & 0x7F == b & 0x7F
    ensures StartCommRun(input, a, read) == StartCommRun(input, b, read)
  {
    assert AddressBits(a) == AddressBits(b);
  }

  /** `write_byte(b)` with SCL low: the byte's bits 7..0 as clock pulses, then
      one acknowledge clock; true exactly when SDA read low. */
  lemma WriteByteEvents(l: Lines, input: seq<bool>, b: bv8)
    requires l.sdaOut && !l.scl
    ensures Events(l, WriteByteRun(input, b).ops) == Clocks(Bits(b)) + [ReleasedClock]
    ensures Run(l, WriteByteRun(input, b).ops) == Powered
    ensures WriteByteRun(input, b).value <==> !Level(input)
  {
    WriteBitsEvents(l, Bits(b));
    RunAppend(l, WriteBitsOps(Bits(b)), ReadAckRun(input).ops);
    ReadAckShape(Run(l, WriteBitsOps(Bits(b))), input);
  }

  /** With SCL low, successive `read_bit` calls give one clock pulse each
      and leave the lines as they were. */
  lemma {:induction false} ReadBitsEvents(l: Lines, levels: seq<bool>)
    requires !l.scl
    ensures Events(l, ReadBitsOps(levels)) == Repeat([if l.sdaOut then Clock(l.sda) else ReleasedClock], |levels|)
    ensures Run(l, ReadBitsOps(levels)) == l
    decreases |levels|
  {
    if levels != [] {
      var front := levels[..|levels| - 1];
      ReadBitsEvents(l, front);
      RunAppend(l, ReadBitsOps(front), ReadBitOps(levels[|levels| - 1]));
      ReadBitShape(l, levels[|levels| - 1]);
      RepeatLast([if l.sdaOut then Clock(l.sda) else ReleasedClock], |levels|);
    }
  }

  /** `e` repeated `k` times. */
  function Repeat(e: seq<Event>, k: nat): seq<Event>
  {
    if k == 0 then [] else e + Repeat(e, k - 1)
  }

  lemma {:induction false} RepeatLast(e: seq<Event>, k: nat)
    requires k > 0
    ensures Repeat(e, k) == Repeat(e, k - 1) + e
  {
    if k > 1 {
      RepeatLast(e, k - 1);
    }
  }

  /** After `n` rounds the byte holds the first `n` levels in places 7
      downwards and zeros below. */
  lemma {:induction false} PackedBits(levels: seq<bool>, n: nat, i: nat)
    requires n <= |levels| && n <= 8 && i < 8
    ensures Bit(Packed(levels, n), i) == if 7 - i < n then levels[7 - i] else false
  {
    if n > 0 {
      PackedBits(levels, n - 1, i);
      SetBitSpec(7 - (n - 1), levels[n - 1], Packed(levels, n - 1));
    }
  }

  /** `read_byte` returns the eight levels read, the first as bit 7: the same
      byte the shift register assembles from them. */
  lemma PackedIsFromBits(levels: seq<bool>)
    requires |levels| == 8
    ensures Bits(Packed(levels, 8)) == levels
    ensures Packed(levels, 8) == FromBits(levels)
  {
    forall i | 0 <= i < 8 ensures Bit(Packed(levels, 8), i) == levels[7 - i] {
      PackedBits(levels, 8, i);
    }
    ShiftEightHoldsBits(0, levels);
    BitsInjective(Packed(levels, 8), FromBits(levels));
  }

  /** `read_byte()` with SCL low: eight clock pulses on a released SDA, then
      an ACK (SDA low) clock. */
  lemma ReadByteEvents(l: Lines, input: seq<bool>)
    requires l.sdaOut && !l.scl
    ensures Events(l, ReadByteRun(input).ops) == Repeat([ReleasedClock], 8) + [Clock(false)]
    ensures Run(l, ReadByteRun(input).ops) == Powered
  {
    var pre: seq<LineOp> := [Sda(false), SdaOutput(false), Delay];
    var levels := Samples(input, 8);
    var m := Lines(false, false, false);
    assert Run(l, pre) == m && Events(l, pre) == [];
    ReadBitsEvents(m, levels);
    var a := pre + ReadBitsOps(levels);
    RunAppend(l, pre, ReadBitsOps(levels));
    assert Run(l, a) == m && Events(l, a) == Repeat([ReleasedClock], 8);
    var b := a + [SdaOutput(true)];
    RunAppend(l, a, [SdaOutput(true)]);
    assert Run(l, b) == Powered && Events(l, b) == Events(l, a);
    WriteBitShape(Powered, false);
    RunAppend(l, b, WriteBitOps(false));
    assert ReadByteRun(input).ops == b + WriteBitOps(false);
  }

  /** `read_byte` returns the next eight levels read, the first as bit 7. */
  lemma ReadByteValue(input: seq<bool>)
    ensures ReadByteRun(input).value == FromBits(Samples(input, 8))
    ensures Bits(ReadByteRun(input).value) == Samples(input, 8)
  {
    PackedIsFromBits(Samples(input, 8));
  }



  /** Attempts a retry loop of `tries` makes, one acknowledge level each,
      stopping at the first low level. */
  function Attempts(input: seq<bool>, tries: nat): (r: nat)
    ensures tries >= 1 ==> 1 <= r <= tries
  {
    if tries == 0 then 0 else if !Level(input) then 1 else 1 + Attempts(Rest(input), tries - 1)
  }

  /** Every attempt of a retry loop but the last reads a NACK (SDA high), and
      a loop that stops early stops at an ACK. */
  lemma {:induction false} AttemptsBounds(input: seq<bool>, tries: nat)
    requires tries >= 1
    ensures forall j :: 0 <= j < Attempts(input, tries) - 1 ==> Level(Drop(input, j))
    ensures Attempts(input, tries) < tries ==> !Level(Drop(input, Attempts(input, tries) - 1))
  {
    if tries > 1 && Level(input) {
      AttemptsBounds(Rest(input), tries - 1);
      forall j | 0 < j < Attempts(input, tries) - 1 ensures Level(Drop(input, j)) {
        assert Drop(input, j) == Drop(Rest(input), j - 1);
      }
    }
  }

  /** The START retry loop succeeds exactly when its last attempt read an
      ACK, and it consumes one acknowledge level per attempt. */
  lemma {:induction false} StartRetryResult(input: seq<bool>, address: bv8, read: bool, tries: nat)
    requires tries >= 1
    ensures StartRetry(input, address, read, tries).value <==> !Level(Drop(input, Attempts(input, tries) - 1))
    ensures StartRetry(input, address, read, tries).rest == Drop(input, Attempts(input, tries))
  {
    if Level(input) && tries > 1 {
      StartRetryResult(Rest(input), address, read, tries - 1);
    }
  }

  /** One address phase holds exactly one START, and a STOP only when
      `start_condition` finds SCL high and SDA low. */
  lemma StartCommCounts(l: Lines, input: seq<bool>, address: bv8, read: bool)
    requires l.sdaOut
    ensures CountStarts(Events(l, StartCommRun(input, address, read).ops)) == 1
    ensures CountStops(Events(l, StartCommRun(input, address, read).ops)) == CountStops(StartPrefix(l))
    ensures Run(l, StartCommRun(input, address, read).ops) == Powered
  {
    var bits := AddressBits(address) + [read];
    StartCommEvents(l, input, address, read);
    CountAppend(StartPrefix(l) + [Start] + Clocks(bits), [ReleasedClock]);
    CountAppend(StartPrefix(l) + [Start], Clocks(bits));
    CountAppend(StartPrefix(l), [Start]);
    CountClocks(bits);
  }

  /** The START retry loop: as many START conditions as attempts, each
      attempt a complete address phase, and no STOP besides the one
      `start_condition` makes when it finds SCL high and SDA low. */
  lemma {:induction false} StartRetryEvents(l: Lines, input: seq<bool>, address: bv8, read: bool, tries: nat)
    requires l.sdaOut && tries >= 1
    ensures CountStarts(Events(l, StartRetry(input, address, read, tries).ops)) == Attempts(input, tries)
    ensures CountStops(Events(l, StartRetry(input, address, read, tries).ops)) == CountStops(StartPrefix(l))
    ensures Run(l, StartRetry(input, address, read, tries).ops) == Powered
    decreases tries
  {
    var a := StartCommRun(input, address, read);
    var all := StartRetry(input, address, read, tries);
    if a.value || tries == 1 {
      assert all.ops == a.ops by {
        if !a.value {
          assert StartRetry(a.rest, address, read, 0).ops == [];
        }
        assert a.ops + [] == a.ops;
      }
      assert Attempts(input, tries) == 1;
      StartCommCounts(l, input, address, read);
    } else {
      var more := StartRetry(a.rest, address, read, tries - 1);
      assert all.ops == a.ops + more.ops && a.rest == Rest(input);
      assert Attempts(input, tries) == 1 + Attempts(a.rest, tries - 1);
      StartCommCounts(l, input, address, read);
      assert CountStarts(Events(Powered, more.ops)) == Attempts(a.rest, tries - 1)
          && CountStops(Events(Powered, more.ops)) == 0
          && Run(Powered, more.ops) == Powered by {
        StartRetryEvents(Powered, a.rest, address, read, tries - 1);
        assert CountStops(StartPrefix(Powered)) == 0;
      }
      RunAppend(l, a.ops, more.ops);
      CountAppend(Events(l, a.ops), Events(Powered, more.ops));
    }
  }

  /** The events of one `write_byte(b)`. */
  function ByteEvents(b: bv8): seq<Event>
  {
    Clocks(Bits(b)) + [ReleasedClock]
  }

  /** The `write_byte` retry loop sends the same byte once per attempt. */
  lemma {:induction false} WriteByteRetryEvents(l: Lines, input: seq<bool>, b: bv8, tries: nat)
    requires l.sdaOut && !l.scl && tries >= 1
    ensures Events(l, WriteByteRetry(input, b, tries).ops) == Repeat(ByteEvents(b), Attempts(input, tries))
    ensures Run(l, WriteByteRetry(input, b, tries).ops) == Powered
    decreases tries
  {
    var a := WriteByteRun(input, b);
    WriteByteEvents(l, input, b);
    if a.value || tries == 1 {
      assert WriteByteRetry(input, b, tries).ops == a.ops + [] == a.ops;
      assert Repeat(ByteEvents(b), 1) == ByteEvents(b) + [];
    } else {
      WriteByteRetryEvents(Powered, a.rest, b, tries - 1);
      RunAppend(l, a.ops, WriteByteRetry(a.rest, b, tries - 1).ops);
    }
  }

  /** The `write_byte` retry loop succeeds exactly when its last attempt read
      an ACK, and it consumes one acknowledge level per attempt. */
  lemma {:induction false} WriteByteRetryResult(input: seq<bool>, b: bv8, tries: nat)
    requires tries >= 1
    ensures WriteByteRetry(input, b, tries).value <==> !Level(Drop(input, Attempts(input, tries) - 1))
    ensures WriteByteRetry(input, b, tries).rest == Drop(input, Attempts(input, tries))
  {
    if Level(input) && tries > 1 {
      WriteByteRetryResult(Rest(input), b, tries - 1);
    }
  }

  /** The bus events of the bytes of `data` sent `ks[i]` times each, in order. */
  function WriteEvents(data: seq<bv8>, ks: seq<nat>): seq<Event>
    requires |ks| == |data|
  {
    if data == [] then []
    else WriteEvents(data[..|data| - 1], ks[..|ks| - 1]) + Repeat(ByteEvents(data[|data| - 1]), ks[|ks| - 1])
  }

  /** The data loop of `write_bytes` sends every byte, in order, one to three
      times each, and never a START or STOP. */
  lemma {:induction false} WriteAllEvents(input: seq<bool>, data: seq<bv8>) returns (ks: seq<nat>)
    ensures |ks| == |data|
    ensures forall i :: 0 <= i < |ks| ==> 1 <= ks[i] <= Tries
    ensures Events(Powered, WriteAllRun(input, data).ops) == WriteEvents(data, ks)
    ensures Run(Powered, WriteAllRun(input, data).ops) == Powered
  {
    if data == [] {
      ks := [];
    } else {
      var front := data[..|data| - 1];
      var p := WriteAllRun(input, front);
      var ks' := WriteAllEvents(input, front);
      WriteByteRetryEvents(Powered, p.rest, data[|data| - 1], Tries);
      AttemptsBounds(p.rest, Tries);
      RunAppend(Powered, p.ops, WriteByteRetry(p.rest, data[|data| - 1], Tries).ops);
      ks := ks' + [Attempts(p.rest, Tries)];
      assert ks[..|ks| - 1] == ks';
    }
  }

  lemma {:induction false} RepeatCounts(e: seq<Event>, k: nat)
    requires CountStarts(e) == 0 && CountStops(e) == 0
    ensures CountStarts(Repeat(e, k)) == 0 && CountStops(Repeat(e, k)) == 0
  {
    if k > 0 {
      RepeatCounts(e, k - 1);
      CountAppend(e, Repeat(e, k - 1));
    }
  }

  lemma {:induction false} WriteEventsCounts(data: seq<bv8>, ks: seq<nat>)
    requires |ks| == |data|
    ensures CountStarts(WriteEvents(data, ks)) == 0 && CountStops(WriteEvents(data, ks)) == 0
  {
    if data != [] {
      WriteEventsCounts(data[..|data| - 1], ks[..|ks| - 1]);
      CountClocks(Bits(data[|data| - 1]));
      CountAppend(Clocks(Bits(data[|data| - 1])), [ReleasedClock]);
      RepeatCounts(ByteEvents(data[|data| - 1]), ks[|ks| - 1]);
      CountAppend(WriteEvents(data[..|data| - 1], ks[..|ks| - 1]), Repeat(ByteEvents(data[|data| - 1]), ks[|ks| - 1]));
    }
  }

  /** `write_bytes` from the idle master: one to three START conditions (one
      per address attempt, stopping at the first acknowledge), then every
      byte in order one to three times, and no STOP at all. */
  lemma WriteBytesEvents(input: seq<bool>, address: bv8, data: seq<bv8>) returns (ks: seq<nat>)
    ensures 1 <= CountStarts(Events(Powered, WriteBytesRun(input, address, data).ops)) <= Tries
    ensures CountStarts(Events(Powered, WriteBytesRun(input, address, data).ops)) == Attempts(input, Tries)
    ensures CountStops(Events(Powered, WriteBytesRun(input, address, data).ops)) == 0
    ensures |ks| == |data| && forall i :: 0 <= i < |ks| ==> 1 <= ks[i] <= Tries
    ensures var s := StartRetry(input, address, false, Tries);
            Events(Powered, WriteBytesRun(input, address, data).ops) == Events(Powered, s.ops) + WriteEvents(data, ks)
    ensures Run(Powered, WriteBytesRun(input, address, data).ops) == Powered
  {
    var s := StartRetry(input, address, false, Tries);
    StartRetryEvents(Powered, input, address, false, Tries);
    AttemptsBounds(input, Tries);
    ks := WriteAllEvents(s.rest, data);
    WriteEventsCounts(data, ks);
    RunAppend(Powered, s.ops, WriteAllRun(s.rest, data).ops);
    CountAppend(Events(Powered, s.ops), WriteEvents(data, ks));
  }

  /** The data loop of `read_bytes`: `n` bytes, each eight released clocks and
      an ACK, each byte the next eight levels read, MSB first. */
  lemma {:induction false} ReadAllEvents(input: seq<bool>, n: nat)
    ensures Events(Powered, ReadAllRun(input, n).ops) == Repeat(Repeat([ReleasedClock], 8) + [Clock(false)], n)
    ensures Run(Powered, ReadAllRun(input, n).ops) == Powered
  {
    if n > 0 {
      var p := ReadAllRun(input, n - 1);
      ReadAllEvents(input, n - 1);
      ReadByteEvents(Powered, p.rest);
      RunAppend(Powered, p.ops, ReadByteRun(p.rest).ops);
      RepeatLast(Repeat([ReleasedClock], 8) + [Clock(false)], n);
    }
  }

  /** Byte `i` of `read_bytes` is the byte `read_byte` reads from the script
      after `8 * i` levels. */
  lemma {:induction false} ReadAllValues(input: seq<bool>, n: nat)
    ensures forall i :: 0 <= i < n ==> ReadAllRun(input, n).value[i] == ReadByteRun(Drop(input, 8 * i)).value
    ensures ReadAllRun(input, n).rest == Drop(input, 8 * n)
  {
    if n > 0 {
      var p := ReadAllRun(input, n - 1);
      var b := ReadByteRun(p.rest);
      var all := ReadAllRun(input, n);
      assert all.value == p.value + [b.value] && all.rest == b.rest;
      ReadAllValues(input, n - 1);
      assert b.rest == Drop(input, 8 * n) by {
        DropAdd(input, 8 * (n - 1), 8);
        assert 8 * (n - 1) + 8 == 8 * n;
      }
      forall i | 0 <= i < n ensures all.value[i] == ReadByteRun(Drop(input, 8 * i)).value {
        if i < n - 1 {
          assert all.value[i] == p.value[i];
        }
      }
    }
  }

  /** `read_bytes` from the idle master: one to three START conditions, no
      STOP, then the `n` bytes. */
  lemma ReadBytesEvents(input: seq<bool>, address: bv8, n: nat)
    ensures 1 <= CountStarts(Events(Powered, ReadBytesRun(input, address, n).ops)) <= Tries
    ensures CountStops(Events(Powered, ReadBytesRun(input, address, n).ops)) == 0
    ensures var s := StartRetry(input, address, true, Tries);
            Events(Powered, ReadBytesRun(input, address, n).ops)
              == Events(Powered, s.ops) + Repeat(Repeat([ReleasedClock], 8) + [Clock(false)], n)
    ensures Run(Powered, ReadBytesRun(input, address, n).ops) == Powered
  {
    var s := StartRetry(input, address, true, Tries);
    StartRetryEvents(Powered, input, address, true, Tries);
    AttemptsBounds(input, Tries);
    ReadAllEvents(s.rest, n);
    RunAppend(Powered, s.ops, ReadAllRun(s.rest, n).ops);
    var e := Repeat([ReleasedClock], 8) + [Clock(false)];
    RepeatCounts([ReleasedClock], 8);
    CountAppend(Repeat([ReleasedClock], 8), [Clock(false)]);
    RepeatCounts(e, n);
    CountAppend(Events(Powered, s.ops), Repeat(e, n));
  }

  // ---------------------------------------------------------------------
  // The class

  class SoftwareMaster {
    const sda: int
    const scl: int
    const delayUs: nat
    const io: Gpio

    /** The constructor's `sda = sda; scl = scl;` assign the parameters to
        themselves, so the member pins keep their initialisers 4 and 5.
        `levels` is the script of SDA levels the bus will present. */
    constructor (sdaPin: int, sclPin: int, frequencyHz: int, levels: seq<bool>)
      requires frequencyHz != 0
      ensures sda == 4 && scl == 5
      ensures delayUs == DelayFor(frequencyHz) && delayUs >= 1
      ensures fresh(io) && io.trace == [] && io.input == levels
    {
      sda := 4;
      scl := 5;
      delayUs := DelayFor(frequencyHz);
      io := new Gpio(levels);
    }

    method StartCondition()
      modifies io
      ensures io.trace == old(io.trace) + StartOps() && io.input == old(io.input)
    {
      io.PutSda(true);
      io.PutScl(true);
      io.Sleep();
      io.PutSda(false);
      io.Sleep();
      io.PutScl(false);
      io.Sleep();
    }

    method StopCondition()
      modifies io
      ensures io.trace == old(io.trace) + StopOps() && io.input == old(io.input)
    {
      io.PutSda(false);
      io.PutScl(false);
      io.Sleep();
      io.PutScl(true);
      io.Sleep();
      io.PutSda(true);
    }

    method WriteBit(bit: bool)
      modifies io
      ensures io.trace == old(io.trace) + WriteBitOps(bit) && io.input == old(io.input)
    {
      io.PutSda(bit);
      io.Sleep();
      io.PutScl(true);
      io.Sleep();
      io.PutScl(false);
      io.Sleep();
    }

    method ReadBit() returns (bit: bool)
      modifies io
      ensures bit == Level(old(io.input)) && io.input == Rest(old(io.input))
      ensures io.trace == old(io.trace) + ReadBitOps(bit)
    {
      io.Sleep();
      io.PutScl(true);
      bit := io.GetSda();
      io.Sleep();
      io.PutScl(false);
      io.Sleep();
    }

    method ReadAcknowledge() returns (acknowledged: bool)
      modifies io
      ensures var o := ReadAckRun(old(io.input));
              io.trace == old(io.trace) + o.ops && io.input == o.rest && acknowledged == o.value
    {
      io.PutSda(false);
      io.SetSdaOutput(false);
      io.Sleep();
      io.PutScl(true);
      io.Sleep();
      var level := io.GetSda();
      acknowledged := !level;
      io.SetSdaOutput(true);
      io.PutScl(false);
      io.Sleep();
    }

    method StartCommunicationWith(address: bv8, read: bool) returns (acknowledged: bool)
      modifies io
      ensures var o := StartCommRun(old(io.input), address, read);
              io.trace == old(io.trace) + o.ops && io.input == o.rest && acknowledged == o.value
    {
      StartCondition();
      ghost var started := io.trace;
      var bits := AddressBits(address) + [read];
      var i := 0;
      while i < 7
        invariant 0 <= i <= 7
        invariant io.trace == started + WriteBitsOps(bits[..i])
        invariant io.input == old(io.input)
      {
        // MSB first: bit 6 - i of the address
        WriteBit(bits[i]);
        WriteBitsSnoc(bits, i);
        AppendAssoc(started, WriteBitsOps(bits[..i]), WriteBitOps(bits[i]));
        i := i + 1;
      }
      WriteBit(read);
      WriteBitsSnoc(bits, 7);
      AppendAssoc(started, WriteBitsOps(bits[..7]), WriteBitOps(bits[7]));
      assert bits[..8] == bits;
      acknowledged := ReadAcknowledge();
      AppendAssoc(old(io.trace), StartOps(), WriteBitsOps(bits));
      AppendAssoc(old(io.trace), StartOps() + WriteBitsOps(bits), ReadAckRun(old(io.input)).ops);
    }

    method ReadByte() returns (output: bv8)
      modifies io
      ensures var o := ReadByteRun(old(io.input));
              io.trace == old(io.trace) + o.ops && io.input == o.rest && output == o.value
    {
      io.PutSda(false);
      io.SetSdaOutput(false);
      io.Sleep();
      ghost var pre: seq<LineOp> := [Sda(false), SdaOutput(false), Delay];
      ghost var start := io.trace;
      assert start == old(io.trace) + pre;
      output := 0;
      ghost var levels := Samples(old(io.input), 8);
      var i := 0;
      while i < 8
        invariant 0 <= i <= 8
        invariant io.input == Drop(old(io.input), i)
        invariant io.trace == start + ReadBitsOps(levels[..i])
        invariant output == Packed(levels, i)
      {
        ReadStep(old(io.input), start, i);
        var bit := ReadBit();
        PackedNext(levels, i);
        output := SetBit(7 - i, bit, output);
        i := i + 1;
      }
      io.SetSdaOutput(true);
      WriteBit(false);
      assert io.trace == old(io.trace) + ReadByteRun(old(io.input)).ops by {
        assert levels[..8] == levels;
        AppendAssoc(old(io.trace), pre, ReadBitsOps(levels));
        AppendAssoc(old(io.trace), pre + ReadBitsOps(levels), [SdaOutput(true)]);
        AppendAssoc(old(io.trace), pre + ReadBitsOps(levels) + [SdaOutput(true)], WriteBitOps(false));
      }
    }

    method WriteByte(b: bv8) returns (acknowledged: bool)
      modifies io
      ensures var o := WriteByteRun(old(io.input), b);
              io.trace == old(io.trace) + o.ops && io.input == o.rest && acknowledged == o.value
    {
      var bits := Bits(b);
      var i := 0;
      while i < 8
        invariant 0 <= i <= 8
        invariant io.trace == old(io.trace) + WriteBitsOps(bits[..i])
        invariant io.input == old(io.input)
      {
        // MSB first: bit 7 - i of the byte
        WriteBit(bits[i]);
        WriteBitsSnoc(bits, i);
        AppendAssoc(old(io.trace), WriteBitsOps(bits[..i]), WriteBitOps(bits[i]));
        i := i + 1;
      }
      assert bits[..8] == bits;
      acknowledged := ReadAcknowledge();
      AppendAssoc(old(io.trace), WriteBitsOps(bits), ReadAckRun(old(io.input)).ops);
    }

    /** The three-try START loop shared by `write_bytes` and `read_bytes`. */
    method StartWithRetries(address: bv8, read: bool)
      modifies io
      ensures var o := StartRetry(old(io.input), address, read, Tries);
              io.trace == old(io.trace) + o.ops && io.input == o.rest
    {
      ghost var full := StartRetry(io.input, address, read, Tries);
      ghost var done: seq<LineOp> := [];
      var i := 0;
      while i < Tries
        invariant 0 <= i <= Tries
        invariant io.trace == old(io.trace) + done
        invariant full == Prepend(done, StartRetry(io.input, address, read, Tries - i))
      {
        ghost var before := io.input;
        ghost var a := StartCommRun(before, address, read);
        var ok := StartCommunicationWith(address, read);
        assert io.trace == old(io.trace) + (done + a.ops) by {
          AppendAssoc(old(io.trace), done, a.ops);
        }
        if ok {
          assert full == Prepend(done, a) by {
            StartRetryStep(before, address, read, Tries - i);
          }
          break;
        }
        assert full == Prepend(done + a.ops, StartRetry(io.input, address, read, Tries - i - 1)) by {
          StartRetryStep(before, address, read, Tries - i);
          PrependPrepend(done, a.ops, StartRetry(io.input, address, read, Tries - i - 1));
        }
        done := done + a.ops;
        i := i + 1;
      }
      assert done + [] == done;
    }

    /** The inner loop of `write_bytes`: up to three `write_byte(b)`, stopping
        at the first acknowledge. */
    method WriteByteWithRetries(b: bv8)
      modifies io
      ensures var o := WriteByteRetry(old(io.input), b, Tries);
              io.trace == old(io.trace) + o.ops && io.input == o.rest
    {
      ghost var full := WriteByteRetry(io.input, b, Tries);
      ghost var done: seq<LineOp> := [];
      var j := 0;
      while j < Tries
        invariant 0 <= j <= Tries
        invariant io.trace == old(io.trace) + done
        invariant full == Prepend(done, WriteByteRetry(io.input, b, Tries - j))
      {
        ghost var before := io.input;
        ghost var a := WriteByteRun(before, b);
        var ok := WriteByte(b);
        assert io.trace == old(io.trace) + (done + a.ops) by {
          AppendAssoc(old(io.trace), done, a.ops);
        }
        if ok {
          assert full == Prepend(done, a) by {
            WriteByteRetryStep(before, b, Tries - j);
          }
          break;
        }
        assert full == Prepend(done + a.ops, WriteByteRetry(io.input, b, Tries - j - 1)) by {
          WriteByteRetryStep(before, b, Tries - j);
          PrependPrepend(done, a.ops, WriteByteRetry(io.input, b, Tries - j - 1));
        }
        done := done + a.ops;
        j := j + 1;
      }
      assert done + [] == done;
    }

    method WriteBytes(address: bv8, data: array<bv8>, nBytes: nat)
      requires nBytes <= data.Length
      modifies io
      ensures var o := WriteBytesRun(old(io.input), address, data[..nBytes]);
              io.trace == old(io.trace) + o.ops && io.input == o.rest
    {
      StartWithRetries(address, false);
      ghost var afterStart := io.trace;
      ghost var inputAfterStart := io.input;
      var i := 0;
      while i < nBytes
        invariant 0 <= i <= nBytes
        invariant var w := WriteAllRun(inputAfterStart, data[..i]);
                  io.trace == afterStart + w.ops && io.input == w.rest
      {
        ghost var w := WriteAllRun(inputAfterStart, data[..i]);
        WriteByteWithRetries(data[i]);
        AppendAssoc(afterStart, w.ops, WriteByteRetry(w.rest, data[i], Tries).ops);
        assert data[..i + 1][..i] == data[..i] && data[..i + 1][i] == data[i];
        i := i + 1;
      }
      AppendAssoc(old(io.trace), StartRetry(old(io.input), address, false, Tries).ops, WriteAllRun(inputAfterStart, data[..nBytes]).ops);
    }

    method ReadBytes(address: bv8, data: array<bv8>, nBytes: nat)
      requires nBytes <= data.Length
      modifies io, data
      ensures var o := ReadBytesRun(old(io.input), address, nBytes);
              io.trace == old(io.trace) + o.ops && io.input == o.rest
              && data[..nBytes] == o.value
      ensures data[nBytes..] == old(data[nBytes..])
    {
      StartWithRetries(address, true);
      ghost var afterStart := io.trace;
      ghost var inputAfterStart := io.input;
      ReadInto(data, nBytes);
      AppendAssoc(old(io.trace), StartRetry(old(io.input), address, true, Tries).ops, ReadAllRun(inputAfterStart, nBytes).ops);
    }

    /** The loop of `read_bytes`: `nBytes` calls of `read_byte`, each byte
        stored in the next cell. */
    method ReadInto(data: array<bv8>, nBytes: nat)
      requires nBytes <= data.Length
      modifies io, data
      ensures var r := ReadAllRun(old(io.input), nBytes);
              io.trace == old(io.trace) + r.ops && io.input == r.rest && data[..nBytes] == r.value
      ensures data[nBytes..] == old(data[nBytes..])
    {
      var i := 0;
      while i < nBytes
        invariant 0 <= i <= nBytes
        invariant var r := ReadAllRun(old(io.input), i);
                  io.trace == old(io.trace) + r.ops && io.input == r.rest && data[..i] == r.value
        invariant data[nBytes..] == old(data[nBytes..])
      {
        ghost var r := ReadAllRun(old(io.input), i);
        var b := ReadByte();
        AppendAssoc(old(io.trace), r.ops, ReadByteRun(r.rest).ops);
        data[i] := b;
        assert data[..i + 1] == data[..i] + [b];
        i := i + 1;
      }
    }
  }
}
