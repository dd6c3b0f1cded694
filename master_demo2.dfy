/** The master of the `i2c_arcade_demo_2` example: the same bit-banged
    `i2c_software` class as the `i2c_software/master` example, with three
    changes. `write_bytes` ends with a STOP; `read_bytes` tells `read_byte`
    which byte is the last, and after that byte it clocks SDA low and then
    makes a STOP instead of the plain acknowledge; and every bit written or
    read is also shifted into a `fifo_8bit` member that mirrors the bus on
    LEDs. The line-level helpers are the same code, so their writes are the
    functions of `CppMaster`. */
module Demo2Master {
  import opened Fifo8
  import opened Bus
  import opened CppMaster

  /** What `read_byte(stop_at_end)` does after the eight data bits: a plain
      `write_bit(0)`, or SDA low, SCL high, SDA high. */
  function AckOrStopOps(stopAtEnd: bool): seq<LineOp>
  {
    if stopAtEnd then [Sda(false), Delay, Scl(true), Delay, Sda(true), Delay] else WriteBitOps(false)
  }

  /** The writes `read_byte` makes before the acknowledge: release SDA, eight
      `read_bit` calls, retake SDA. */
  function ReadDataOps(levels: seq<bool>): seq<LineOp>
  {
    [Sda(false), SdaOutput(false), Delay] + ReadBitsOps(levels) + [SdaOutput(true)]
  }

  /** `read_byte(stop_at_end)`. */
  function ReadByteStopRun(input: seq<bool>, stopAtEnd: bool): Out<bv8>
  {
    var levels := Samples(input, 8);
    Out(ReadDataOps(levels) + AckOrStopOps(stopAtEnd), Drop(input, 8), Packed(levels, 8))
  }

  /** The first `k` of the `n` `read_byte` calls of `read_bytes`: only the
      call for byte `n - 1` stops. */
  function ReadAllStopRun(input: seq<bool>, n: nat, k: nat): (r: Out<seq<bv8>>)
    requires k <= n
    ensures |r.value| == k
  {
    if k == 0 then Out([], input, [])
    else
      var p := ReadAllStopRun(input, n, k - 1);
      var b := ReadByteStopRun(p.rest, k - 1 == n - 1);
      Out(p.ops + b.ops, b.rest, p.value + [b.value])
  }

  /** `write_bytes`: the loops of the first master, then `stop_condition`. */
  function WriteBytesStopRun(input: seq<bool>, address: bv8, data: seq<bv8>): Out<()>
  {
    var w := WriteBytesRun(input, address, data);
    Out(w.ops + StopOps(), w.rest, ())
  }

  /** `read_bytes`. */
  function ReadBytesStopRun(input: seq<bool>, address: bv8, n: nat): Out<seq<bv8>>
  {
    var s := StartRetry(input, address, true, Tries);
    Prepend(s.ops, ReadAllStopRun(s.rest, n, n))
  }

  /** The mirror fifo after an address phase: the seven address bits and the
      R/W bit. */
  function AddressByte(address: bv8, read: bool): bv8
  {
    ((address & 0x7F) << 1) | (if read then 1 else 0)
  }

  /** `main`'s guard: a byte read back as 0 or 255 starts again from 42. */
  function NextNumber(number: bv8): (r: bv8)
    ensures r != 0 && r != 255
    ensures r == number || r == 42
    ensures number != 0 && number != 255 ==> r == number
  {
    if number == 0 || number == 255 then 42 else number
  }

  // ---------------------------------------------------------------------
  // What the variant changes

  /** A `read_byte` that does not stop is exactly the first master's
      `read_byte`. */
  lemma ReadByteNoStop(input: seq<bool>)
    ensures ReadByteStopRun(input, false) == ReadByteRun(input)
  {
    assert ReadByteRun(input).ops == ReadDataOps(Samples(input, 8)) + WriteBitOps(false);
  }

  /** Either way `read_byte` returns the next eight levels read, the first as
      bit 7, and uses up eight levels of the script. */
  lemma ReadByteStopValue(input: seq<bool>, stopAtEnd: bool)
    ensures ReadByteStopRun(input, stopAtEnd).value == FromBits(Samples(input, 8))
    ensures ReadByteStopRun(input, stopAtEnd).rest == Drop(input, 8)
  {
    ReadByteValue(input);
  }

  /** The data phase of `read_byte` with SCL low: eight released clocks, and
      the master drives both lines low afterwards. */
  lemma ReadDataEvents(l: Lines, levels: seq<bool>)
    requires l.sdaOut && !l.scl && |levels| == 8
    ensures Events(l, ReadDataOps(levels)) == Repeat([ReleasedClock], 8)
    ensures Run(l, ReadDataOps(levels)) == Powered
  {
    var pre: seq<LineOp> := [Sda(false), SdaOutput(false), Delay];
    var m := Lines(false, false, false);
    assert Run(l, pre) == m && Events(l, pre) == [];
    ReadBitsEvents(m, levels);
    RunAppend(l, pre, ReadBitsOps(levels));
    RunAppend(l, pre + ReadBitsOps(levels), [SdaOutput(true)]);
  }

  /** The last byte of `read_bytes`: eight released clocks, one clock with
      SDA low (an ACK, not the NACK of UM10204 section 3.1.6), then a STOP;
      both lines are high after it. */
  lemma ReadByteStopEvents(l: Lines, input: seq<bool>)
    requires l.sdaOut && !l.scl
    ensures Events(l, ReadByteStopRun(input, true).ops) == Repeat([ReleasedClock], 8) + [Clock(false), Stop]
    ensures Run(l, ReadByteStopRun(input, true).ops) == Lines(true, true, true)
  {
    var levels := Samples(input, 8);
    ReadDataEvents(l, levels);
    RunAppend(l, ReadDataOps(levels), AckOrStopOps(true));
  }

  /** Every other byte of `read_bytes`: eight released clocks and an ACK clock. */
  lemma ReadByteAckEvents(l: Lines, input: seq<bool>)
    requires l.sdaOut && !l.scl
    ensures Events(l, ReadByteStopRun(input, false).ops) == Repeat([ReleasedClock], 8) + [Clock(false)]
    ensures Run(l, ReadByteStopRun(input, false).ops) == Powered
  {
    ReadByteNoStop(input);
    ReadByteEvents(l, input);
  }

  /** The events of one byte read with an acknowledge, and of the last byte. */
  function AckedByteEvents(): seq<Event>
  {
    Repeat([ReleasedClock], 8) + [Clock(false)]
  }

  function LastByteEvents(): seq<Event>
  {
    Repeat([ReleasedClock], 8) + [Clock(false), Stop]
  }

  /** The bytes before the last are read as in the first master. */
  lemma {:induction false} ReadAllStopPrefix(input: seq<bool>, n: nat, k: nat)
    requires k < n
    ensures Events(Powered, ReadAllStopRun(input, n, k).ops) == Repeat(AckedByteEvents(), k)
    ensures Run(Powered, ReadAllStopRun(input, n, k).ops) == Powered
  {
    if k > 0 {
      var p := ReadAllStopRun(input, n, k - 1);
      ReadAllStopPrefix(input, n, k - 1);
      ReadByteAckEvents(Powered, p.rest);
      RunAppend(Powered, p.ops, ReadByteStopRun(p.rest, false).ops);
      RepeatLast(AckedByteEvents(), k);
    }
  }

  /** The data loop of `read_bytes` for `n` > 0 bytes: `n - 1` acknowledged
      bytes, then the last byte and its STOP. */
  lemma ReadAllStopEvents(input: seq<bool>, n: nat)
    requires n > 0
    ensures Events(Powered, ReadAllStopRun(input, n, n).ops) == Repeat(AckedByteEvents(), n - 1) + LastByteEvents()
    ensures Run(Powered, ReadAllStopRun(input, n, n).ops) == Lines(true, true, true)
  {
    var p := ReadAllStopRun(input, n, n - 1);
    ReadAllStopPrefix(input, n, n - 1);
    ReadByteStopEvents(Powered, p.rest);
    RunAppend(Powered, p.ops, ReadByteStopRun(p.rest, true).ops);
  }

  /** The byte made of the levels read after `8 * i` samples, the first as
      bit 7. */
  function ByteAt(input: seq<bool>, i: nat): bv8
  {
    FromBits(Samples(Drop(input, 8 * i), 8))
  }

  /** Byte `i` of `read_bytes` is the `i`-th group of eight levels, whether
      or not it is the last. */
  lemma {:induction false} ReadAllStopValues(input: seq<bool>, n: nat, k: nat)
    requires k <= n
    ensures forall i :: 0 <= i < k ==> ReadAllStopRun(input, n, k).value[i] == ByteAt(input, i)
    ensures ReadAllStopRun(input, n, k).rest == Drop(input, 8 * k)
  {
    ReadAllStopRest(input, n, k);
    if k > 0 {
      var p := ReadAllStopRun(input, n, k - 1);
      var b := ReadByteStopRun(p.rest, k - 1 == n - 1);
      ReadAllStopValues(input, n, k - 1);
      ReadByteStopValue(p.rest, k - 1 == n - 1);
      assert ReadAllStopRun(input, n, k).value == p.value + [b.value];
      ByteAtSnoc(input, p.value, b.value);
    }
  }

  /** The loop of `read_bytes` uses up eight levels per byte. */
  lemma {:induction false} ReadAllStopRest(input: seq<bool>, n: nat, k: nat)
    requires k <= n
    ensures ReadAllStopRun(input, n, k).rest == Drop(input, 8 * k)
  {
    if k > 0 {
      var p := ReadAllStopRun(input, n, k - 1);
      ReadAllStopRest(input, n, k - 1);
      assert ReadAllStopRun(input, n, k).rest == Drop(p.rest, 8);
      DropAdd(input, 8 * (k - 1), 8);
      assert 8 * (k - 1) + 8 == 8 * k;
    }
  }

  /** The bytes of the first groups, followed by the next group's byte. */
  lemma ByteAtSnoc(input: seq<bool>, front: seq<bv8>, b: bv8)
    requires forall i :: 0 <= i < |front| ==> front[i] == ByteAt(input, i)
    requires b == ByteAt(input, |front|)
    ensures forall i :: 0 <= i < |front| + 1 ==> (front + [b])[i] == ByteAt(input, i)
  {
  }

  lemma CountStopsLast()
    ensures CountStarts(LastByteEvents()) == 0 && CountStops(LastByteEvents()) == 1
    ensures CountStarts(AckedByteEvents()) == 0 && CountStops(AckedByteEvents()) == 0
  {
    RepeatCounts([ReleasedClock], 8);
    CountAppend(Repeat([ReleasedClock], 8), [Clock(false), Stop]);
    CountAppend(Repeat([ReleasedClock], 8), [Clock(false)]);
  }

  /** The events of the data loop of `read_bytes`: nothing for `n` = 0. */
  function ReadTail(n: nat): seq<Event>
  {
    if n == 0 then [] else Repeat(AckedByteEvents(), n - 1) + LastByteEvents()
  }

  /** The data loop of `read_bytes` holds no START and one STOP unless empty. */
  lemma ReadTailCounts(n: nat)
    ensures CountStarts(ReadTail(n)) == 0 && CountStops(ReadTail(n)) == (if n == 0 then 0 else 1)
  {
    CountStopsLast();
    if n > 0 {
      RepeatCounts(AckedByteEvents(), n - 1);
      CountAppend(Repeat(AckedByteEvents(), n - 1), LastByteEvents());
    }
  }

  /** `read_bytes` from the idle master: the address phase, then the data loop. */
  lemma ReadBytesStopShape(input: seq<bool>, address: bv8, n: nat)
    ensures var s := StartRetry(input, address, true, Tries);
            Events(Powered, ReadBytesStopRun(input, address, n).ops) == Events(Powered, s.ops) + ReadTail(n)
  {
    var s := StartRetry(input, address, true, Tries);
    StartRetryEvents(Powered, input, address, true, Tries);
    RunAppend(Powered, s.ops, ReadAllStopRun(s.rest, n, n).ops);
    if n == 0 {
      assert ReadAllStopRun(s.rest, n, n).ops == [];
    } else {
      ReadAllStopEvents(s.rest, n);
    }
  }

  /** `read_bytes` from the idle master: one to three START conditions, the
      `n` bytes, and exactly one STOP when it reads anything (none for
      `n` = 0, which leaves the bus held). */
  lemma ReadBytesStopEvents(input: seq<bool>, address: bv8, n: nat)
    ensures var e := Events(Powered, ReadBytesStopRun(input, address, n).ops);
            1 <= CountStarts(e) <= Tries && CountStops(e) == (if n == 0 then 0 else 1)
    ensures var s := StartRetry(input, address, true, Tries);
            n > 0 ==> Events(Powered, ReadBytesStopRun(input, address, n).ops)
                      == Events(Powered, s.ops) + Repeat(AckedByteEvents(), n - 1) + LastByteEvents()
  {
    var s := StartRetry(input, address, true, Tries);
    StartRetryEvents(Powered, input, address, true, Tries);
    AttemptsBounds(input, Tries);
    ReadBytesStopShape(input, address, n);
    ReadTailCounts(n);
    CountAppend(Events(Powered, s.ops), ReadTail(n));
    if n > 0 {
      AppendAssoc(Events(Powered, s.ops), Repeat(AckedByteEvents(), n - 1), LastByteEvents());
    }
  }

  /** `write_bytes` from the idle master: one to three START conditions, the
      bytes as in the first master, and exactly one STOP, the last event,
      after which both lines are high. */
  lemma WriteBytesStopEvents(input: seq<bool>, address: bv8, data: seq<bv8>) returns (ks: seq<nat>)
    ensures var e := Events(Powered, WriteBytesStopRun(input, address, data).ops);
            1 <= CountStarts(e) <= Tries && CountStops(e) == 1
    ensures |ks| == |data| && forall i :: 0 <= i < |ks| ==> 1 <= ks[i] <= Tries
    ensures var s := StartRetry(input, address, false, Tries);
            Events(Powered, WriteBytesStopRun(input, address, data).ops)
              == Events(Powered, s.ops) + WriteEvents(data, ks) + [Clock(false), Stop]
    ensures Run(Powered, WriteBytesStopRun(input, address, data).ops) == Lines(true, true, true)
  {
    ks := WriteBytesEvents(input, address, data);
    WriteBytesStopShape(input, address, data);
    StopCounts(Events(Powered, WriteBytesRun(input, address, data).ops));
  }

  /** `write_bytes` is the first master's loop followed by a STOP from the
      held bus. */
  lemma WriteBytesStopShape(input: seq<bool>, address: bv8, data: seq<bv8>)
    ensures Events(Powered, WriteBytesStopRun(input, address, data).ops)
              == Events(Powered, WriteBytesRun(input, address, data).ops) + [Clock(false), Stop]
    ensures Run(Powered, WriteBytesStopRun(input, address, data).ops) == Lines(true, true, true)
  {
    var w := WriteBytesRun(input, address, data);
    assert WriteBytesStopRun(input, address, data).ops == w.ops + StopOps();
    WriteBytesHeld(input, address, data);
    StopShape(Powered);
    RunAppend(Powered, w.ops, StopOps());
  }

  /** The first master's `write_bytes` leaves the master driving both lines low. */
  lemma WriteBytesHeld(input: seq<bool>, address: bv8, data: seq<bv8>)
    ensures Run(Powered, WriteBytesRun(input, address, data).ops) == Powered
  {
    var _ := WriteBytesEvents(input, address, data);
  }

  /** A STOP clocked after events without one adds exactly one STOP and no START. */
  lemma StopCounts(e: seq<Event>)
    ensures CountStarts(e + [Clock(false), Stop]) == CountStarts(e)
    ensures CountStops(e + [Clock(false), Stop]) == CountStops(e) + 1
  {
    CountAppend(e, [Clock(false), Stop]);
    assert [Clock(false), Stop][1..] == [Stop];
  }

  // ---------------------------------------------------------------------
  // The mirror fifo

  /** The address byte is the address shifted up one place with the R/W
      bit below it, that is, the address shifted into a register. */
  lemma AddressByteShifted(address: bv8, read: bool)
    ensures AddressByte(address, read) == Shifted(address, read)
  {
  }

  lemma AddressByteBits(address: bv8, read: bool)
    ensures Bits(AddressByte(address, read)) == AddressBits(address) + [read]
  {
    forall k | 0 <= k < 8 ensures Bits(AddressByte(address, read))[k] == (AddressBits(address) + [read])[k] {
      AddressByteBit(address, read, k);
    }
  }

  lemma AddressByteBit(address: bv8, read: bool, k: nat)
    requires k < 8
    ensures Bit(AddressByte(address, read), 7 - k) == (AddressBits(address) + [read])[k]
  {
    AddressByteShifted(address, read);
    ShiftedBits(address, read);
    if k < 7 {
      assert Bit(Shifted(address, read), (6 - k) + 1) == Bit(address, 6 - k);
    }
  }

  /** After an address phase the mirror holds the address byte as it went on
      the bus: the seven address bits, then the R/W bit. */
  lemma AddressMirror(d: bv8, address: bv8, read: bool)
    ensures ShiftAll(d, AddressBits(address) + [read]) == AddressByte(address, read)
  {
    ShiftEightHoldsBits(d, AddressBits(address) + [read]);
    AddressByteBits(address, read);
    BitsRoundTrip(AddressByte(address, read));
  }

  /** After a byte is written the mirror holds that byte. */
  lemma ByteMirror(d: bv8, b: bv8)
    ensures ShiftAll(d, Bits(b)) == b
  {
    ShiftEightHoldsBits(d, Bits(b));
    BitsRoundTrip(b);
  }

  /** One more bit written and mirrored. */
  lemma WriteStep(started: seq<LineOp>, before: bv8, bits: seq<bool>, i: nat)
    requires i < |bits|
    ensures started + WriteBitsOps(bits[..i]) + WriteBitOps(bits[i]) == started + WriteBitsOps(bits[..i + 1])
    ensures Shifted(ShiftAll(before, bits[..i]), bits[i]) == ShiftAll(before, bits[..i + 1])
  {
    WriteBitsSnoc(bits, i);
    AppendAssoc(started, WriteBitsOps(bits[..i]), WriteBitOps(bits[i]));
    ShiftAllSnoc(before, bits[..i], bits[i]);
    assert bits[..i + 1] == bits[..i] + [bits[i]];
  }

  /** One more bit read and mirrored: the level read is sample `i`. */
  lemma ReadMirrorStep(input: seq<bool>, start: seq<LineOp>, before: bv8, i: nat)
    requires i < 8
    ensures var levels := Samples(input, 8);
            Level(Drop(input, i)) == levels[i] && Rest(Drop(input, i)) == Drop(input, i + 1)
            && start + ReadBitsOps(levels[..i]) + ReadBitOps(levels[i]) == start + ReadBitsOps(levels[..i + 1])
            && Shifted(ShiftAll(before, levels[..i]), levels[i]) == ShiftAll(before, levels[..i + 1])
  {
    var levels := Samples(input, 8);
    ReadStep(input, start, i);
    assert levels[..i + 1] == levels[..i] + [levels[i]];
    ShiftAllSnoc(before, levels[..i], levels[i]);
  }

  /** The writes of `read_byte` in the order it makes them. */
  /** The stopping acknowledge, one write at a time. */
  lemma StopAckTrace(t: seq<LineOp>)
    ensures t + [Sda(false)] + [Delay] + [Scl(true)] + [Delay] + [Sda(true)] + [Delay] == t + AckOrStopOps(true)
  {
    var u := t + [Sda(false)] + [Delay] + [Scl(true)] + [Delay] + [Sda(true)] + [Delay];
    assert |u| == |t| + 6;
    forall i | 0 <= i < |u| ensures u[i] == (t + AckOrStopOps(true))[i] {
    }
  }

  lemma ReadByteTrace(t: seq<LineOp>, levels: seq<bool>, stopAtEnd: bool)
    ensures t + [Sda(false), SdaOutput(false), Delay] + ReadBitsOps(levels) + [SdaOutput(true)] + AckOrStopOps(stopAtEnd)
            == t + (ReadDataOps(levels) + AckOrStopOps(stopAtEnd))
  {
    var pre: seq<LineOp> := [Sda(false), SdaOutput(false), Delay];
    AppendAssoc(t, pre, ReadBitsOps(levels));
    AppendAssoc(t, pre + ReadBitsOps(levels), [SdaOutput(true)]);
    AppendAssoc(t, ReadDataOps(levels), AckOrStopOps(stopAtEnd));
  }

  /** One more byte of the `write_bytes` loop: the loop so far, then the
      retried write of the next byte. */
  lemma WriteAllStep(input: seq<bool>, data: seq<bv8>, t: seq<LineOp>)
    requires |data| > 0
    ensures var i := |data| - 1;
            var w := WriteAllRun(input, data[..i]);
            var r := WriteByteRetry(w.rest, data[i], Tries);
            t + w.ops + r.ops == t + WriteAllRun(input, data).ops && r.rest == WriteAllRun(input, data).rest
  {
    var i := |data| - 1;
    var w := WriteAllRun(input, data[..i]);
    AppendAssoc(t, w.ops, WriteByteRetry(w.rest, data[i], Tries).ops);
  }

  /** One more byte of the `write_bytes` loop. */
  lemma WriteAllNext(input: seq<bool>, data: seq<bv8>, w: Out<()>, o: Out<bool>)
    requires |data| > 0
    requires w == WriteAllRun(input, data[..|data| - 1])
    requires o == WriteByteRetry(w.rest, data[|data| - 1], Tries)
    ensures WriteAllRun(input, data) == Out(w.ops + o.ops, o.rest, ())
  {
  }

  /** One more byte of the `read_bytes` loop. */
  lemma ReadAllStopNext(input: seq<bool>, n: nat, i: nat, r: Out<seq<bv8>>, o: Out<bv8>)
    requires i < n
    requires r == ReadAllStopRun(input, n, i)
    requires o == ReadByteStopRun(r.rest, i == n - 1)
    ensures ReadAllStopRun(input, n, i + 1) == Out(r.ops + o.ops, o.rest, r.value + [o.value])
  {
  }

  /** The writes of `write_bytes`: the address phase and the loop, then STOP. */
  lemma WriteBytesTrace(t: seq<LineOp>, input: seq<bool>, address: bv8, data: seq<bv8>)
    ensures var s := StartRetry(input, address, false, Tries);
            t + s.ops + WriteAllRun(s.rest, data).ops + StopOps() == t + WriteBytesStopRun(input, address, data).ops
  {
    var s := StartRetry(input, address, false, Tries);
    AppendAssoc(t, s.ops, WriteAllRun(s.rest, data).ops);
    AppendAssoc(t, s.ops + WriteAllRun(s.rest, data).ops, StopOps());
  }

  // ---------------------------------------------------------------------
  // The class

  class ArcadeMaster {
    const sda: int
    const scl: int
    const delayUs: nat
    /** The `fifo_8bit` member's byte. */
    var fifo: bv8
    const io: Gpio

    /** As in the first master, the constructor assigns its parameters to
        themselves, so the pins keep their initialisers 4 and 5. */
    constructor (sdaPin: int, sclPin: int, frequencyHz: int, levels: seq<bool>)
      requires frequencyHz != 0
      ensures sda == 4 && scl == 5 && fifo == 0
      ensures delayUs == DelayFor(frequencyHz)
      ensures fresh(io) && io.trace == [] && io.input == levels
    {
      sda := 4;
      scl := 5;
      delayUs := DelayFor(frequencyHz);
      fifo := 0;
      io := new Gpio(levels);
    }

    /** `i2c_fifo.shift_in(bit)`. */
    method ShiftIn(bit: bool) returns (out: bool)
      modifies this
      ensures out == Msb(old(fifo)) && fifo == Shifted(old(fifo), bit)
    {
      out := fifo & 0x80 != 0;
      fifo := fifo << 1;
      fifo := (fifo & !1) | (if bit then 1 else 0);
    }

    method StartCondition()
      modifies io
      ensures io.trace == old(io.trace) + StartOps() && io.input == old(io.input)
    {
      io.PutSda(true);
      io.PutScl(true);
      io.Sleep();
      io.PutSda(false);
      io.Sleep();
      io.PutScl(false);
      io.Sleep();
    }

    method StopCondition()
      modifies io
      ensures io.trace == old(io.trace) + StopOps() && io.input == old(io.input)
    {
      io.PutSda(false);
      io.PutScl(false);
      io.Sleep();
      io.PutScl(true);
      io.Sleep();
      io.PutSda(true);
    }

    method WriteBit(bit: bool)
      modifies io
      ensures io.trace == old(io.trace) + WriteBitOps(bit) && io.input == old(io.input)
    {
      io.PutSda(bit);
      io.Sleep();
      io.PutScl(true);
      io.Sleep();
      io.PutScl(false);
      io.Sleep();
    }

    method ReadBit() returns (bit: bool)
      modifies io
      ensures bit == Level(old(io.input)) && io.input == Rest(old(io.input))
      ensures io.trace == old(io.trace) + ReadBitOps(bit)
    {
      io.Sleep();
      io.PutScl(true);
      bit := io.GetSda();
      io.Sleep();
      io.PutScl(false);
      io.Sleep();
    }

    method ReadAcknowledge() returns (acknowledged: bool)
      modifies io
      ensures var o := ReadAckRun(old(io.input));
              io.trace == old(io.trace) + o.ops && io.input == o.rest && acknowledged == o.value
    {
      io.PutSda(false);
      io.SetSdaOutput(false);
      io.Sleep();
      io.PutScl(true);
      io.Sleep();
      var level := io.GetSda();
      acknowledged := !level;
      io.SetSdaOutput(true);
      io.PutScl(false);
      io.Sleep();
    }

    /** `start_communication_with`: as in the first master, with every bit
        written also shifted into the fifo. */
    method StartCommunicationWith(address: bv8, read: bool) returns (acknowledged: bool)
      modifies this, io
      ensures var o := StartCommRun(old(io.input), address, read);
              io.trace == old(io.trace) + o.ops && io.input == o.rest && acknowledged == o.value
      ensures fifo == AddressByte(address, read)
    {
      StartCondition();
      ghost var started := io.trace;
      ghost var before := fifo;
      var bits := AddressBits(address) + [read];
      SendAddress(address);
      assert bits[..7] == AddressBits(address);
      WriteBit(read);
      var _ := ShiftIn(read);
      WriteStep(started, before, bits, 7);
      assert bits[..8] == bits;
      AddressMirror(before, address, read);
      acknowledged := ReadAcknowledge();
      AppendAssoc(old(io.trace), StartOps(), WriteBitsOps(bits));
      AppendAssoc(old(io.trace), StartOps() + WriteBitsOps(bits), ReadAckRun(old(io.input)).ops);
    }

    /** The loop of `start_communication_with` over address bits 6 down to
        0: each bit written and mirrored into the fifo. */
    method SendAddress(address: bv8)
      modifies this, io
      ensures io.trace == old(io.trace) + WriteBitsOps(AddressBits(address)) && io.input == old(io.input)
      ensures fifo == ShiftAll(old(fifo), AddressBits(address))
    {
      var bits := AddressBits(address);
      var i := 0;
      while i < 7
        invariant 0 <= i <= 7
        invariant io.trace == old(io.trace) + WriteBitsOps(bits[..i])
        invariant io.input == old(io.input)
        invariant fifo == ShiftAll(old(fifo), bits[..i])
      {
        // MSB first: bit 6 - i of the address
        WriteBit(bits[i]);
        var _ := ShiftIn(bits[i]);
        WriteStep(old(io.trace), old(fifo), bits, i);
        i := i + 1;
      }
      assert bits[..7] == bits;
    }

    /** `read_byte(stop_at_end)`: the byte it returns is also what the fifo
        holds afterwards. */
    method ReadByte(stopAtEnd: bool) returns (output: bv8)
      modifies this, io
      ensures var o := ReadByteStopRun(old(io.input), stopAtEnd);
              io.trace == old(io.trace) + o.ops && io.input == o.rest && output == o.value
      ensures fifo == output
    {
      io.PutSda(false);
      io.SetSdaOutput(false);
      io.Sleep();
      ghost var pre: seq<LineOp> := [Sda(false), SdaOutput(false), Delay];
      ghost var start := io.trace;
      ghost var before := fifo;
      assert start == old(io.trace) + pre;
      output := 0;
      ghost var levels := Samples(old(io.input), 8);
      var i := 0;
      while i < 8
        invariant 0 <= i <= 8
        invariant io.input == Drop(old(io.input), i)
        invariant io.trace == start + ReadBitsOps(levels[..i])
        invariant output == Packed(levels, i)
        invariant fifo == ShiftAll(before, levels[..i])
      {
        ReadMirrorStep(old(io.input), start, before, i);
        var bit := ReadBit();
        PackedNext(levels, i);
        output := SetBit(7 - i, bit, output);
        var _ := ShiftIn(bit);
        i := i + 1;
      }
      assert levels[..8] == levels;
      assert fifo == output by {
        ShiftEightHoldsBits(before, levels);
        PackedIsFromBits(levels);
      }
      io.SetSdaOutput(true);
      ghost var data := io.trace;
      if !stopAtEnd {
        WriteBit(false);
      } else {
        io.PutSda(false);
        io.Sleep();
        io.PutScl(true);
        io.Sleep();
        io.PutSda(true);
        io.Sleep();
        StopAckTrace(data);
      }
      ReadByteTrace(old(io.trace), levels, stopAtEnd);
    }

    /** `write_byte(b)`: afterwards the fifo holds `b`. */
    method WriteByte(b: bv8) returns (acknowledged: bool)
      modifies this, io
      ensures var o := WriteByteRun(old(io.input), b);
              io.trace == old(io.trace) + o.ops && io.input == o.rest && acknowledged == o.value
      ensures fifo == b
    {
      var bits := Bits(b);
      ghost var before := fifo;
      var i := 0;
      while i < 8
        invariant 0 <= i <= 8
        invariant io.trace == old(io.trace) + WriteBitsOps(bits[..i])
        invariant io.input == old(io.input)
        invariant fifo == ShiftAll(before, bits[..i])
      {
        // MSB first: bit 7 - i of the byte
        WriteBit(bits[i]);
        var _ := ShiftIn(bits[i]);
        WriteStep(old(io.trace), before, bits, i);
        i := i + 1;
      }
      assert bits[..8] == bits;
      ByteMirror(before, b);
      acknowledged := ReadAcknowledge();
      AppendAssoc(old(io.trace), WriteBitsOps(bits), ReadAckRun(old(io.input)).ops);
    }

    /** The three-try START loop. */
    method StartWithRetries(address: bv8, read: bool)
      modifies this, io
      ensures var o := StartRetry(old(io.input), address, read, Tries);
              io.trace == old(io.trace) + o.ops && io.input == o.rest
    {
      ghost var full := StartRetry(io.input, address, read, Tries);
      ghost var done: seq<LineOp> := [];
      var i := 0;
      while i < Tries
        invariant 0 <= i <= Tries
        invariant io.trace == old(io.trace) + done
        invariant full == Prepend(done, StartRetry(io.input, address, read, Tries - i))
      {
        ghost var before := io.input;
        ghost var a := StartCommRun(before, address, read);
        var ok := StartCommunicationWith(address, read);
        assert io.trace == old(io.trace) + (done + a.ops) by {
          AppendAssoc(old(io.trace), done, a.ops);
        }
        if ok {
          assert full == Prepend(done, a) by {
            StartRetryStep(before, address, read, Tries - i);
          }
          break;
        }
        assert full == Prepend(done + a.ops, StartRetry(io.input, address, read, Tries - i - 1)) by {
          StartRetryStep(before, address, read, Tries - i);
          PrependPrepend(done, a.ops, StartRetry(io.input, address, read, Tries - i - 1));
        }
        done := done + a.ops;
        i := i + 1;
      }
      assert done + [] == done;
    }

    /** Up to three `write_byte(b)`, stopping at the first acknowledge. */
    method WriteByteWithRetries(b: bv8)
      modifies this, io
      ensures var o := WriteByteRetry(old(io.input), b, Tries);
              io.trace == old(io.trace) + o.ops && io.input == o.rest
    {
      ghost var full := WriteByteRetry(io.input, b, Tries);
      ghost var done: seq<LineOp> := [];
      var j := 0;
      while j < Tries
        invariant 0 <= j <= Tries
        invariant io.trace == old(io.trace) + done
        invariant full == Prepend(done, WriteByteRetry(io.input, b, Tries - j))
      {
        ghost var before := io.input;
        ghost var a := WriteByteRun(before, b);
        var ok := WriteByte(b);
        assert io.trace == old(io.trace) + (done + a.ops) by {
          AppendAssoc(old(io.trace), done, a.ops);
        }
        if ok {
          assert full == Prepend(done, a) by {
            WriteByteRetryStep(before, b, Tries - j);
          }
          break;
        }
        assert full == Prepend(done + a.ops, WriteByteRetry(io.input, b, Tries - j - 1)) by {
          WriteByteRetryStep(before, b, Tries - j);
          PrependPrepend(done, a.ops, WriteByteRetry(io.input, b, Tries - j - 1));
        }
        done := done + a.ops;
        j := j + 1;
      }
      assert done + [] == done;
    }

    /** `write_bytes`. */
    method WriteBytes(address: bv8, data: array<bv8>, nBytes: nat)
      requires nBytes <= data.Length
      modifies this, io
      ensures var o := WriteBytesStopRun(old(io.input), address, data[..nBytes]);
              io.trace == old(io.trace) + o.ops && io.input == o.rest
    {
      StartWithRetries(address, false);
      WriteData(data, nBytes);
      StopCondition();
      WriteBytesTrace(old(io.trace), old(io.input), address, data[..nBytes]);
    }

    /** The loop of `write_bytes`: every byte with up to three tries. */
    method WriteData(data: array<bv8>, nBytes: nat)
      requires nBytes <= data.Length
      modifies this, io
      ensures var w := WriteAllRun(old(io.input), data[..nBytes]);
              io.trace == old(io.trace) + w.ops && io.input == w.rest
    {
      ghost var done: Out<()> := Out([], io.input, ());
      var i := 0;
      while i < nBytes
        invariant 0 <= i <= nBytes
        invariant done == WriteAllRun(old(io.input), data[..i])
        invariant io.trace == old(io.trace) + done.ops && io.input == done.rest
      {
        ghost var o := WriteByteRetry(io.input, data[i], Tries);
        assert data[..i + 1][..i] == data[..i];
        WriteAllNext(old(io.input), data[..i + 1], done, o);
        WriteByteWithRetries(data[i]);
        AppendAssoc(old(io.trace), done.ops, o.ops);
        done := Out(done.ops + o.ops, o.rest, ());
        i := i + 1;
      }
    }

    /** `read_bytes`: byte `i` of `data` is the `i`th byte read, and the
        cells from `nBytes` on are left alone. */
    method ReadBytes(address: bv8, data: array<bv8>, nBytes: nat)
      requires nBytes <= data.Length
      modifies this, io, data
      ensures var o := ReadBytesStopRun(old(io.input), address, nBytes);
              io.trace == old(io.trace) + o.ops && io.input == o.rest && data[..nBytes] == o.value
      ensures forall k :: nBytes <= k < data.Length ==> data[k] == old(data[k])
    {
      StartWithRetries(address, true);
      ghost var afterStart := io.trace;
      ghost var inputAfterStart := io.input;
      ghost var done: Out<seq<bv8>> := Out([], io.input, []);
      var i := 0;
      while i < nBytes
        invariant 0 <= i <= nBytes
        invariant done == ReadAllStopRun(inputAfterStart, nBytes, i)
        invariant io.trace == afterStart + done.ops && io.input == done.rest && data[..i] == done.value
        invariant forall k :: nBytes <= k < data.Length ==> data[k] == old(data[k])
      {
        var stopAtEnd := i == nBytes - 1;
        ghost var o := ReadByteStopRun(io.input, stopAtEnd);
        var b := ReadByte(stopAtEnd);
        ReadAllStopNext(inputAfterStart, nBytes, i, done, o);
        AppendAssoc(afterStart, done.ops, o.ops);
        data[i] := b;
        assert data[..i + 1] == data[..i] + [b];
        done := Out(done.ops + o.ops, o.rest, done.value + [o.value]);
        i := i + 1;
      }
      AppendAssoc(old(io.trace), StartRetry(old(io.input), address, true, Tries).ops, done.ops);
    }

    /** One pass of `main`'s loop: write `number` to 0x42, read it back into
        the same variable, and replace 0 or 255 by 42. */
    method LoopOnce(number: bv8) returns (next: bv8)
      modifies this, io
      ensures var w := WriteBytesStopRun(old(io.input), 0x42, [number]);
              var r := ReadBytesStopRun(w.rest, 0x42, 1);
              io.trace == old(io.trace) + w.ops + r.ops && io.input == r.rest
              && next == NextNumber(r.value[0])
    {
      var cell := new bv8[1];
      cell[0] := number;
      WriteBytes(0x42, cell, 1);
      assert cell[..1] == [number];
      ReadBytes(0x42, cell, 1);
      next := cell[0];
      if next == 0 || next == 255 {
        next := 42;
      }
    }
  }
}
