/** The MicroPython bit-banging master `I2CBitBang`. Both pins are open-drain
    outputs with pull-ups: `value(1)` releases a line, `value(0)` pulls it
    low, and the data pin is never switched to input, so in the bus model its
    latch is always enabled and a clock pulse with the latch high is a pulse
    with SDA left to the pull-up. Python integers are unbounded; the shifts
    and masks of the source are written out on `int`. */
module PyMaster {
  import opened Bus

  /** The address range `scan` probes: 0x08 up to, not including, 0x78. */
  const FirstAddress: int := 0x08
  const EndAddress: int := 0x78

  /** Both lines released and high. */
  const Idle := Lines(true, true, true)
  /** SDA released, SCL held low: where every byte leaves the bus. */
  const Held := Lines(true, false, true)

  // ---------------------------------------------------------------------
  // The GPIO writes of each primitive

  /** `__init__`: release SCL, then SDA, then wait. */
  function InitOps(): seq<LineOp>
  {
    [Scl(true), Sda(true), Delay]
  }

  /** `_start_condition`. */
  function StartOps(): seq<LineOp>
  {
    [Sda(true), Scl(true), Delay, Sda(false), Delay, Scl(false), Delay]
  }

  /** `_stop_condition`. */
  function StopOps(): seq<LineOp>
  {
    [Sda(false), Scl(false), Delay, Scl(true), Delay, Sda(true), Delay]
  }

  /** `_write_bit(bit)`: SCL is pulled low before SDA changes. */
  function WriteBitOps(bit: bool): seq<LineOp>
  {
    [Scl(false), Sda(bit), Delay, Scl(true), Delay, Scl(false), Delay]
  }

  /** `_read_bit()` reading `level`. */
  function ReadBitOps(level: bool): seq<LineOp>
  {
    [Scl(false), Sda(true), Delay, Scl(true), Delay, Sample(level), Scl(false), Delay]
  }

  function WriteBitsOps(bits: seq<bool>): seq<LineOp>
  {
    if bits == [] then [] else WriteBitsOps(bits[..|bits| - 1]) + WriteBitOps(bits[|bits| - 1])
  }

  function ReadBitsOps(levels: seq<bool>): seq<LineOp>
  {
    if levels == [] then [] else ReadBitsOps(levels[..|levels| - 1]) + ReadBitOps(levels[|levels| - 1])
  }

  // ---------------------------------------------------------------------
  // Python integer arithmetic

  function Pow2(n: nat): (r: nat)
    ensures r >= 1
  {
    if n == 0 then 1 else 2 * Pow2(n - 1)
  }

  /** `b >> i` on a Python integer: floor halving `i` times, negative values
      included. */
  function Shr(b: int, i: nat): int
    decreases i, b
  {
    if i == 0 then b else Shr(b / 2, i - 1)
  }

  /** `(b >> i) & 0x01 == 1`. */
  function BitOf(b: int, i: nat): bool
  {
    Shr(b, i) % 2 == 1
  }

  /** The low `n` bits of `b`, most significant first. */
  function BitsOf(b: int, n: nat): (r: seq<bool>)
    ensures |r| == n
  {
    seq(n, k requires 0 <= k < n => BitOf(b, n - 1 - k))
  }

  /** The eight bits `_write_byte(b)` sends, bit 7 first. */
  function ByteBits(b: int): (r: seq<bool>)
    ensures |r| == 8 && forall k :: 0 <= k < 8 ==> r[k] == BitOf(b, 7 - k)
  {
    BitsOf(b, 8)
  }

  /** `byte = (byte << 1) | bit` over `bits`, starting from 0. */
  function Accumulate(bits: seq<bool>): (r: int)
    ensures 0 <= r < Pow2(|bits|)
  {
    if bits == [] then 0
    else 2 * Accumulate(bits[..|bits| - 1]) + (if bits[|bits| - 1] then 1 else 0)
  }

  /** `b & (2**n - 1)`, bit by bit. */
  function LowBits(b: int, n: nat): int
    decreases n, b
  {
    if n == 0 then 0 else 2 * LowBits(b / 2, n - 1) + b % 2
  }

  // ---------------------------------------------------------------------
  // The byte layer as functions of the sample script

  /** `_write_byte(b)`: the eight bits, then the acknowledge bit read back;
      true when the device pulled SDA low. */
  function WriteByteRun(input: seq<bool>, b: int): Out<bool>
  {
    Out(WriteBitsOps(ByteBits(b)) + ReadBitOps(Level(input)), Rest(input), !Level(input))
  }

  /** `_read_byte(ack)`: eight bits read, then bit 0 written for ACK and 1
      for NACK. */
  function ReadByteRun(input: seq<bool>, ack: bool): Out<int>
  {
    var levels := Samples(input, 8);
    Out(ReadBitsOps(levels) + WriteBitOps(!ack), Drop(input, 8), Accumulate(levels))
  }

  // ---------------------------------------------------------------------
  // The transactions as functions of the sample script

  /** The `data` argument of `write`: one integer or a sequence of them. */
  datatype WriteData = Single(byte: int) | Several(bytes: seq<int>)

  /** `write` turns a single integer into a one-element list. */
  function AsList(data: WriteData): seq<int>
  {
    match data
    case Single(b) => [b]
    case Several(bs) => bs
  }

  /** The result of `read`: None, an integer, a list, or the IndexError that
      `result[0]` raises on an empty list. */
  datatype ReadResult = NoDevice | One(byte: int) | Many(bytes: seq<int>) | IndexError

  /** The data loop of `write`: each byte in turn; at the first NACK a STOP
      and false. */
  function DataRun(input: seq<bool>, data: seq<int>): Out<bool>
    decreases |data|
  {
    if data == [] then Out([], input, true)
    else
      var w := WriteByteRun(input, data[0]);
      if !w.value then Out(w.ops + StopOps(), w.rest, false)
      else
        var d := DataRun(w.rest, data[1..]);
        Out(w.ops + d.ops, d.rest, d.value)
  }

  /** The address byte of a write: `(addr << 1) & 0xFE`. */
  function WriteAddress(addr: int): int
  {
    (addr * 2) % 256
  }

  /** The address byte of a read: `(addr << 1) | 0x01`. */
  function ReadAddress(addr: int): int
  {
    addr * 2 + 1
  }

  /** `write(addr, data, stop)`. */
  function WriteRun(input: seq<bool>, addr: int, data: WriteData, stop: bool): Out<bool>
  {
    var a := WriteByteRun(input, WriteAddress(addr));
    if !a.value then Out(StartOps() + a.ops + StopOps(), a.rest, false)
    else
      var d := DataRun(a.rest, AsList(data));
      Out(StartOps() + a.ops + d.ops + (if d.value && stop then StopOps() else []), d.rest, d.value)
  }

  /** The first `k` passes of `read`'s loop over `n` bytes: every byte but
      the last is acknowledged. */
  function ReadAllRun(input: seq<bool>, n: nat, k: nat): (r: Out<seq<int>>)
    requires k <= n
    ensures |r.value| == k
  {
    if k == 0 then Out([], input, [])
    else
      var p := ReadAllRun(input, n, k - 1);
      var b := ReadByteRun(p.rest, k - 1 < n - 1);
      Out(p.ops + b.ops, b.rest, p.value + [b.value])
  }

  /** One more byte of the data loop of `read`. */
  lemma ReadAllNext(input: seq<bool>, n: nat, i: nat, r: Out<seq<int>>, o: Out<int>)
    requires i < n
    requires r == ReadAllRun(input, n, i)
    requires o == ReadByteRun(r.rest, i < n - 1)
    ensures ReadAllRun(input, n, i + 1) == Out(r.ops + o.ops, o.rest, r.value + [o.value])
  {
  }

  /** `range(count)` is empty for a count of zero or less. */
  function Passes(count: int): nat
  {
    if count > 0 then count else 0
  }

  /** `read(addr, count)`. */
  function ReadRun(input: seq<bool>, addr: int, count: int): Out<ReadResult>
  {
    var a := WriteByteRun(input, ReadAddress(addr));
    if !a.value then Out(StartOps() + a.ops + StopOps(), a.rest, NoDevice)
    else
      var r := ReadAllRun(a.rest, Passes(count), Passes(count));
      var result := if count > 1 then Many(r.value) else if r.value == [] then IndexError else One(r.value[0]);
      Out(StartOps() + a.ops + r.ops + StopOps(), r.rest, result)
  }

  /** `write_then_read(addr, write_data, read_count)`. */
  function WriteThenReadRun(input: seq<bool>, addr: int, data: WriteData, count: int): Out<ReadResult>
  {
    var w := WriteRun(input, addr, data, false);
    if !w.value then Out(w.ops, w.rest, NoDevice)
    else
      var r := ReadRun(w.rest, addr, count);
      Out(w.ops + r.ops, r.rest, r.value)
  }

  /** One probe of `scan`: START, the write address byte, STOP. */
  function ProbeRun(input: seq<bool>, addr: int): Out<bool>
  {
    var a := WriteByteRun(input, WriteAddress(addr));
    Out(StartOps() + a.ops + StopOps(), a.rest, a.value)
  }

  /** The probes of `scan` from `lo` up to, not including, `hi`, in order. */
  function ScanRun(input: seq<bool>, lo: int, hi: int): Out<seq<int>>
    decreases hi - lo, input
  {
    if hi <= lo then Out([], input, [])
    else
      var s := ScanRun(input, lo, hi - 1);
      var p := ProbeRun(s.rest, hi - 1);
      Out(s.ops + p.ops, p.rest, s.value + (if p.value then [hi - 1] else []))
  }

  // ---------------------------------------------------------------------
  // Bytes as Python integers

  /** Sending a byte: only the low eight bits of the integer go on the bus. */
  lemma ByteBitsLow(b: int)
    ensures ByteBits(b) == ByteBits(b % 256)
  {
    forall i | 0 <= i < 8 ensures BitOf(b, i) == BitOf(b % 256, i) {
      LowByteBit(b, i);
    }
  }

  lemma LowByteBit(b: int, i: nat)
    requires i < 8
    ensures BitOf(b, i) == BitOf(b % 256, i)
  {
    var q := b / 256;
    var y := Pow2(8 - i) * q;
    assert b == b % 256 + Pow2(i) * y by {
      Pow2Add(i, 8 - i);
      assert Pow2(8) == 256;
      MulAssoc(Pow2(i), Pow2(8 - i), q);
    }
    ShrAdd(b % 256, y, i);
    assert y == 2 * (Pow2(7 - i) * q) by {
      assert Pow2(8 - i) == 2 * Pow2(7 - i);
      MulAssoc(2, Pow2(7 - i), q);
    }
    EvenParity(Shr(b % 256, i), Pow2(7 - i) * q);
  }

  lemma MulAssoc(a: int, b: int, c: int)
    ensures a * b * c == a * (b * c)
  {
  }

  lemma HalfAdd(x: int, z: int)
    ensures (x + 2 * z) / 2 == x / 2 + z
  {
  }

  lemma EvenParity(x: int, z: int)
    ensures (x + 2 * z) % 2 == x % 2
  {
  }

  lemma {:induction false} Pow2Add(a: nat, b: nat)
    ensures Pow2(a + b) == Pow2(a) * Pow2(b)
    decreases a
  {
    if a > 0 {
      Pow2Add(a - 1, b);
      assert Pow2(a + b) == 2 * Pow2(a - 1 + b);
    }
  }

  /** Shifting right by `i` drops a multiple of `2**i` to the quotient. */
  lemma {:induction false} ShrAdd(x: int, y: int, i: nat)
    ensures Shr(x + Pow2(i) * y, i) == Shr(x, i) + y
    decreases i
  {
    if i > 0 {
      var m := Pow2(i - 1) * y;
      assert Pow2(i) * y == 2 * m by {
        MulAssoc(2, Pow2(i - 1), y);
      }
      HalfAdd(x, m);
      ShrAdd(x / 2, y, i - 1);
    }
  }

  /** Reading the bits of an integer back gives its low `n` bits. */
  lemma {:induction false} AccumulateBitsOf(b: int, n: nat)
    ensures Accumulate(BitsOf(b, n)) == LowBits(b, n)
    decreases n
  {
    if n > 0 {
      var bits := BitsOf(b, n);
      forall k | 0 <= k < n - 1 ensures bits[k] == BitsOf(b / 2, n - 1)[k] {
        HalvedBit(b, n - 2 - k);
      }
      assert bits[..n - 1] == BitsOf(b / 2, n - 1);
      assert bits[n - 1] == BitOf(b, 0) == (b % 2 == 1);
      AccumulateBitsOf(b / 2, n - 1);
    }
  }

  /** Bit `i + 1` of `b` is bit `i` of `b / 2`. */
  lemma HalvedBit(b: int, i: nat)
    ensures BitOf(b, i + 1) == BitOf(b / 2, i)
  {
    assert Shr(b, i + 1) == Shr(b / 2, i);
  }

  /** A value that fits in `n` bits is its own low `n` bits. */
  lemma {:induction false} LowBitsFit(b: int, n: nat)
    requires 0 <= b < Pow2(n)
    ensures LowBits(b, n) == b
    decreases n
  {
    if n > 0 {
      LowBitsFit(b / 2, n - 1);
    }
  }

  /** Accumulating bits and sending the result gives the same bits back. */
  lemma {:induction false} BitsOfAccumulate(bits: seq<bool>)
    ensures BitsOf(Accumulate(bits), |bits|) == bits
  {
    var n := |bits|;
    if n > 0 {
      var front := bits[..n - 1];
      var a := Accumulate(bits);
      var f := Accumulate(front);
      BitsOfAccumulate(front);
      assert a == 2 * f + (if bits[n - 1] then 1 else 0);
      assert a / 2 == f;
      forall k | 0 <= k < n ensures BitsOf(a, n)[k] == bits[k] {
        if k < n - 1 {
          HalvedBit(a, n - 2 - k);
          assert BitsOf(a, n)[k] == BitOf(f, n - 2 - k) == BitsOf(f, n - 1)[k];
        } else {
          assert BitsOf(a, n)[k] == BitOf(a, 0) == (a % 2 == 1);
        }
      }
    }
  }

  /** `_write_byte` and `_read_byte` agree on a byte: reading back the eight
      bits sent for `b` in 0..255 gives `b`, and the bits of a byte read are
      the eight levels sampled, the first as bit 7. */
  lemma ByteRoundTrip(b: int, levels: seq<bool>)
    requires 0 <= b < 256 && |levels| == 8
    ensures Accumulate(ByteBits(b)) == b
    ensures ByteBits(Accumulate(levels)) == levels && 0 <= Accumulate(levels) < 256
  {
    AccumulateBitsOf(b, 8);
    LowBitsFit(b, 8);
    BitsOfAccumulate(levels);
  }

  /** Bits of `2 * a + c` above bit 0 are the bits of `a`. */
  lemma ShiftedBit(a: int, c: int, i: nat)
    requires c == 0 || c == 1
    ensures BitOf(a * 2 + c, i + 1) == BitOf(a, i)
  {
    assert (a * 2 + c) / 2 == a;
  }

  /** The read and write address bytes carry the same seven address bits,
      `addr`'s bits 6 down to 0, and differ only in the R/W bit. */
  lemma AddressBytes(addr: int)
    ensures ByteBits(WriteAddress(addr))[..7] == BitsOf(addr, 7) == ByteBits(ReadAddress(addr))[..7]
    ensures !ByteBits(WriteAddress(addr))[7] && ByteBits(ReadAddress(addr))[7]
  {
    forall k | 0 <= k < 7
      ensures ByteBits(WriteAddress(addr))[k] == BitsOf(addr, 7)[k] == ByteBits(ReadAddress(addr))[k]
    {
      AddressBit(addr, k);
    }
    assert ByteBits(WriteAddress(addr))[7] == BitOf(WriteAddress(addr), 0);
    assert ByteBits(ReadAddress(addr))[7] == BitOf(ReadAddress(addr), 0);
  }

  lemma AddressBit(addr: int, k: nat)
    requires k < 7
    ensures ByteBits(WriteAddress(addr))[k] == BitOf(addr, 6 - k) == ByteBits(ReadAddress(addr))[k]
  {
    LowByteBit(addr * 2, 7 - k);
    ShiftedBit(addr, 0, 6 - k);
    ShiftedBit(addr, 1, 6 - k);
  }

  // ---------------------------------------------------------------------
  // Bus events of the primitives

  /** A write that starts at SCL high and SDA high, or at SCL low. */
  function StartEvents(l: Lines): seq<Event>
  {
    (if l.scl then [] else [Clock(true)]) + [Start]
  }

  function StopEvents(): seq<Event>
  {
    [Clock(false), Stop]
  }

  /** The clock pulses of one `_write_byte(b)`: eight data bits, then the
      released acknowledge clock. */
  function ByteEvents(b: int): seq<Event>
  {
    Clocks(ByteBits(b)) + [Clock(true)]
  }

  /** `_read_byte(ack)`: eight released clocks, then the acknowledge bit. */
  function ReadByteEvents(ack: bool): seq<Event>
  {
    Clocks(seq(8, k => true)) + [Clock(!ack)]
  }

  /** The clock pulses of `_write_byte` for each byte of `data` in turn. */
  function DataEvents(data: seq<int>): seq<Event>
    decreases |data|
  {
    if data == [] then [] else ByteEvents(data[0]) + DataEvents(data[1..])
  }

  /** The first `k` bytes of a read of `n`: all acknowledged but byte `n - 1`. */
  function ReadEvents(n: nat, k: nat): seq<Event>
    requires k <= n
  {
    if k == 0 then [] else ReadEvents(n, k - 1) + ReadByteEvents(k - 1 < n - 1)
  }

  /** `_start_condition` from a released SDA: a START, preceded by a clock
      pulse when SCL was low (the repeated START). */
  lemma StartShape(l: Lines)
    requires l.sdaOut && l.sda
    ensures Events(l, StartOps()) == StartEvents(l)
    ensures Run(l, StartOps()) == Lines(false, false, true)
  {
  }

  /** `_stop_condition` with SCL low: one clock with SDA low, then the STOP;
      both lines end released. */
  lemma StopShape(l: Lines)
    requires l.sdaOut && !l.scl
    ensures Events(l, StopOps()) == StopEvents()
    ensures Run(l, StopOps()) == Idle
  {
  }

  /** `__init__` leaves both lines released whatever they were before. */
  lemma InitShape(l: Lines)
    requires l.sdaOut
    ensures Run(l, InitOps()) == Idle
  {
  }

  /** `_write_bit(bit)` from any state: exactly one clock pulse, carrying
      `bit`; no START or STOP, because SCL is low whenever SDA changes. */
  lemma WriteBitShape(l: Lines, bit: bool)
    requires l.sdaOut
    ensures Events(l, WriteBitOps(bit)) == [Clock(bit)]
    ensures Run(l, WriteBitOps(bit)) == Lines(bit, false, true)
  {
  }

  /** `_read_bit()` from any state: one clock pulse with SDA released. */
  lemma ReadBitShape(l: Lines, level: bool)
    requires l.sdaOut
    ensures Events(l, ReadBitOps(level)) == [Clock(true)]
    ensures Run(l, ReadBitOps(level)) == Held
  {
  }

  lemma {:induction false} WriteBitsShape(l: Lines, bits: seq<bool>)
    requires l.sdaOut
    ensures Events(l, WriteBitsOps(bits)) == Clocks(bits)
    ensures Run(l, WriteBitsOps(bits)) == if bits == [] then l else Lines(bits[|bits| - 1], false, true)
    decreases |bits|
  {
    if bits != [] {
      var front := bits[..|bits| - 1];
      WriteBitsShape(l, front);
      RunAppend(l, WriteBitsOps(front), WriteBitOps(bits[|bits| - 1]));
      WriteBitShape(Run(l, WriteBitsOps(front)), bits[|bits| - 1]);
      ClocksSnoc(bits);
    }
  }

  lemma {:induction false} ReadBitsShape(l: Lines, levels: seq<bool>)
    requires l.sdaOut
    ensures Events(l, ReadBitsOps(levels)) == Clocks(seq(|levels|, k => true))
    ensures Run(l, ReadBitsOps(levels)) == if levels == [] then l else Held
    decreases |levels|
  {
    if levels != [] {
      var front := levels[..|levels| - 1];
      ReadBitsShape(l, front);
      RunAppend(l, ReadBitsOps(front), ReadBitOps(levels[|levels| - 1]));
      ReadBitShape(Run(l, ReadBitsOps(front)), levels[|levels| - 1]);
      ClocksSnoc(seq(|levels|, k => true));
      assert seq(|levels|, k => true)[..|levels| - 1] == seq(|front|, k => true);
    }
  }

  /** `_write_byte(b)` from any state: the eight bits of `b`, bit 7 first,
      then the released acknowledge clock; it returns true exactly when the
      device pulled SDA low, and leaves SCL low with SDA released. */
  lemma WriteByteShape(l: Lines, input: seq<bool>, b: int)
    requires l.sdaOut
    ensures Events(l, WriteByteRun(input, b).ops) == ByteEvents(b)
    ensures Run(l, WriteByteRun(input, b).ops) == Held
    ensures WriteByteRun(input, b).value <==> !Level(input)
  {
    WriteBitsShape(l, ByteBits(b));
    RunAppend(l, WriteBitsOps(ByteBits(b)), ReadBitOps(Level(input)));
    ReadBitShape(Run(l, WriteBitsOps(ByteBits(b))), Level(input));
  }

  /** `_read_byte(ack)` from any state: eight released clocks, then a clock
      with SDA low for ACK and released for NACK. */
  lemma ReadByteShape(l: Lines, input: seq<bool>, ack: bool)
    requires l.sdaOut
    ensures Events(l, ReadByteRun(input, ack).ops) == ReadByteEvents(ack)
    ensures Run(l, ReadByteRun(input, ack).ops) == Lines(!ack, false, true)
  {
    var levels := Samples(input, 8);
    ReadBitsShape(l, levels);
    RunAppend(l, ReadBitsOps(levels), WriteBitOps(!ack));
    WriteBitShape(Run(l, ReadBitsOps(levels)), !ack);
  }

  /** The byte `_read_byte` returns is the eight levels it sampled, first
      level as bit 7. */
  lemma ReadByteValue(input: seq<bool>, ack: bool)
    ensures var v := ReadByteRun(input, ack).value;
            0 <= v < 256 && ByteBits(v) == Samples(input, 8)
  {
    ByteRoundTrip(0, Samples(input, 8));
  }


  // ---------------------------------------------------------------------
  // The transactions

  /** How many data bytes `write` acknowledges in a row before the first
      NACK, out of `n`. */
  function LeadingAcks(input: seq<bool>, n: nat): (r: nat)
    ensures r <= n
  {
    if n == 0 || Level(input) then 0 else 1 + LeadingAcks(Rest(input), n - 1)
  }

  /** How many data bytes `write` sends: all when every one is acknowledged,
      else up to and including the first one refused. */
  function Sent(input: seq<bool>, n: nat): (r: nat)
    ensures r <= n
  {
    var j := LeadingAcks(input, n);
    if j == n then j else j + 1
  }

  /** The first `n` acknowledge levels the script supplies are all low. */
  predicate AllAcked(input: seq<bool>, n: nat)
  {
    forall i :: 0 <= i < n ==> !Level(Drop(input, i))
  }

  /** The leading acknowledges run over all `n` bytes exactly when each of
      the first `n` acknowledge levels is low. */
  lemma LeadingAcksAll(input: seq<bool>, n: nat)
    ensures LeadingAcks(input, n) == n <==> AllAcked(input, n)
  {
    if LeadingAcks(input, n) == n {
      LeadingAcksLow(input, n);
    } else {
      var i := FirstRefused(input, n);
      assert Level(Drop(input, i));
    }
  }

  lemma {:induction false} LeadingAcksLow(input: seq<bool>, n: nat)
    requires LeadingAcks(input, n) == n
    ensures AllAcked(input, n)
    decreases n
  {
    if n > 0 {
      LeadingAcksLow(Rest(input), n - 1);
      forall i | 0 <= i < n ensures !Level(Drop(input, i)) {
        if i > 0 {
          assert !Level(Drop(Rest(input), i - 1));
        }
      }
    }
  }

  /** The acknowledge level that ended the run of acknowledges. */
  lemma {:induction false} FirstRefused(input: seq<bool>, n: nat) returns (i: nat)
    requires LeadingAcks(input, n) < n
    ensures i < n && Level(Drop(input, i))
    decreases n
  {
    if Level(input) {
      i := 0;
    } else {
      var j := FirstRefused(Rest(input), n - 1);
      i := j + 1;
      assert Drop(input, i) == Drop(Rest(input), j);
    }
  }

  /** The data loop of `write`, entered with SCL low and SDA released: the
      bytes up to the first NACK, each acknowledged one and the refused one,
      then a STOP if there was a NACK. It succeeds exactly when all are
      acknowledged, and each byte consumes one acknowledge level. */
  predicate DataShaped(input: seq<bool>, data: seq<int>)
  {
    var d := DataRun(input, data);
    (d.value <==> LeadingAcks(input, |data|) == |data|)
    && Events(Held, d.ops) == DataEvents(data[..Sent(input, |data|)]) + (if d.value then [] else StopEvents())
    && Run(Held, d.ops) == (if d.value then Held else Idle)
    && d.rest == Drop(input, Sent(input, |data|))
  }

  lemma DataRunShape(input: seq<bool>, data: seq<int>)
    ensures DataShaped(input, data)
  {
    DataRunEnd(input, data);
    DataRunHeld(input, data);
    DataRunEvents(input, data);
  }

  /** The loop succeeds exactly when every byte is acknowledged, and stops
      reading acknowledge levels after the bytes it sent. */
  lemma {:induction false} DataRunEnd(input: seq<bool>, data: seq<int>)
    ensures var d := DataRun(input, data);
            (d.value <==> LeadingAcks(input, |data|) == |data|) && d.rest == Drop(input, Sent(input, |data|))
    decreases |data|
  {
    if data == [] {
      assert Drop(input, 0) == input;
    } else if Level(input) {
      assert Sent(input, |data|) == 1;
      assert Drop(input, 1) == Drop(Rest(input), 0);
    } else {
      DataRunEnd(Rest(input), data[1..]);
      var n := Sent(Rest(input), |data| - 1);
      assert LeadingAcks(input, |data|) == 1 + LeadingAcks(Rest(input), |data| - 1);
      assert Sent(input, |data|) == n + 1;
      assert Drop(input, n + 1) == Drop(Rest(input), n);
    }
  }

  /** The loop leaves the lines held after a success and idle after the
      STOP of a refusal. */
  lemma {:induction false} DataRunHeld(input: seq<bool>, data: seq<int>)
    ensures var d := DataRun(input, data);
            Run(Held, d.ops) == (if d.value then Held else Idle)
    decreases |data|
  {
    if data != [] {
      var w := WriteByteRun(input, data[0]);
      WriteByteShape(Held, input, data[0]);
      if Level(input) {
        RunAppend(Held, w.ops, StopOps());
        StopShape(Held);
      } else {
        DataRunHeld(Rest(input), data[1..]);
        RunAppend(Held, w.ops, DataRun(Rest(input), data[1..]).ops);
      }
    }
  }

  /** The events of the loop: the bytes sent, then a STOP after a refusal. */
  lemma {:induction false} DataRunEvents(input: seq<bool>, data: seq<int>)
    ensures var d := DataRun(input, data);
            Events(Held, d.ops) == DataEvents(data[..Sent(input, |data|)]) + (if d.value then [] else StopEvents())
    decreases |data|
  {
    if data == [] {
      assert data[..0] == [];
    } else if Level(input) {
      DataRefused(input, data);
    } else {
      var d := DataRun(Rest(input), data[1..]);
      var m := |data[1..]|;
      var n := Sent(Rest(input), m);
      var tail := if d.value then [] else StopEvents();
      DataRunEvents(Rest(input), data[1..]);
      DataRunAccepted(input, data);
      SentAccepted(input, m);
      assert m + 1 == |data|;
      DataAccepted(input, data, n, tail);
    }
  }

  /** Events of two runs from held lines, the first ending held. */
  lemma HeldEventsAppend(a: seq<LineOp>, b: seq<LineOp>, ea: seq<Event>, eb: seq<Event>)
    requires Run(Held, a) == Held && Events(Held, a) == ea && Events(Held, b) == eb
    ensures Events(Held, a + b) == ea + eb
  {
    RunAppend(Held, a, b);
  }

  /** A refused first byte: the byte, then the STOP. */
  lemma DataRefused(input: seq<bool>, data: seq<int>)
    requires data != [] && Level(input)
    ensures var d := DataRun(input, data);
            Events(Held, d.ops) == DataEvents(data[..Sent(input, |data|)]) + (if d.value then [] else StopEvents())
  {
    var w := WriteByteRun(input, data[0]);
    assert DataRun(input, data) == Out(w.ops + StopOps(), w.rest, false);
    WriteByteShape(Held, input, data[0]);
    RunAppend(Held, w.ops, StopOps());
    StopShape(Held);
    assert data[..1][1..] == [];
    assert DataEvents(data[..1]) == ByteEvents(data[0]) + DataEvents([]);
    assert Sent(input, |data|) == 1;
  }

  /** The events of the first `n + 1` data bytes: the first byte, then the
      next `n`. */
  lemma DataEventsFirst(data: seq<int>, n: nat)
    requires n < |data|
    ensures DataEvents(data[..n + 1]) == ByteEvents(data[0]) + DataEvents(data[1..][..n])
  {
    var sent := data[..n + 1];
    assert sent[1..] == data[1..][..n];
  }

  /** An acknowledged first byte: its events come before those of the rest
      of the loop. */
  lemma DataAccepted(input: seq<bool>, data: seq<int>, k: nat, e: seq<Event>)
    requires data != [] && !Level(input) && k < |data|
    requires Events(Held, DataRun(Rest(input), data[1..]).ops) == DataEvents(data[1..][..k]) + e
    ensures Events(Held, DataRun(input, data).ops) == DataEvents(data[..k + 1]) + e
  {
    var w := WriteByteRun(input, data[0]);
    var d := DataRun(Rest(input), data[1..]);
    DataRunAccepted(input, data);
    WriteByteShape(Held, input, data[0]);
    HeldEventsAppend(w.ops, d.ops, ByteEvents(data[0]), DataEvents(data[1..][..k]) + e);
    DataEventsFirst(data, k);
    AppendAssoc(ByteEvents(data[0]), DataEvents(data[1..][..k]), e);
  }

  /** After an acknowledged byte the loop goes on with the rest. */
  lemma DataRunAccepted(input: seq<bool>, data: seq<int>)
    requires data != [] && !Level(input)
    ensures var w := WriteByteRun(input, data[0]);
            var d := DataRun(Rest(input), data[1..]);
            DataRun(input, data) == Out(w.ops + d.ops, d.rest, d.value)
  {
    assert WriteByteRun(input, data[0]).rest == Rest(input);
  }

  /** An acknowledged first byte adds one to the bytes sent. */
  lemma SentAccepted(input: seq<bool>, m: nat)
    requires !Level(input)
    ensures Sent(input, m + 1) == Sent(Rest(input), m) + 1
  {
    assert LeadingAcks(input, m + 1) == 1 + LeadingAcks(Rest(input), m);
  }

  /** Data bytes hold no START and no STOP. */
  lemma {:induction false} DataEventsCounts(data: seq<int>)
    ensures CountStarts(DataEvents(data)) == 0 && CountStops(DataEvents(data)) == 0
    decreases |data|
  {
    if data != [] {
      CountClocks(ByteBits(data[0]));
      CountAppend(Clocks(ByteBits(data[0])), [Clock(true)]);
      DataEventsCounts(data[1..]);
      CountAppend(ByteEvents(data[0]), DataEvents(data[1..]));
    }
  }

  /** The bus events of `write(addr, data, stop)` with SDA released: a START,
      the write address byte, then either a STOP at once (address refused)
      or the data bytes up to the first NACK followed by a STOP, which is
      left out only when everything was acknowledged and `stop` is false. */
  lemma WriteShape(l: Lines, input: seq<bool>, addr: int, data: WriteData, stop: bool)
    requires l.sdaOut && l.sda
    ensures var w := WriteRun(input, addr, data, stop);
            var bytes := AsList(data);
            var sent := DataEvents(bytes[..Sent(Rest(input), |bytes|)]);
            Events(l, w.ops)
              == StartEvents(l) + ByteEvents(WriteAddress(addr))
                 + (if Level(input) then StopEvents()
                    else sent + (if w.value && !stop then [] else StopEvents()))
    ensures var w := WriteRun(input, addr, data, stop);
            Run(l, w.ops) == if w.value && !stop then Held else Idle
  {
    var a := WriteByteRun(input, WriteAddress(addr));
    StartShape(l);
    RunAppend(l, StartOps(), a.ops);
    WriteByteShape(Lines(false, false, true), input, WriteAddress(addr));
    if !a.value {
      RunAppend(l, StartOps() + a.ops, StopOps());
      StopShape(Held);
    } else {
      DataRunShape(a.rest, AsList(data));
      WriteAccepted(l, input, addr, data, stop);
    }
  }

  /** `write` after an acknowledged address: the data loop, then the
      optional STOP. */
  lemma WriteAccepted(l: Lines, input: seq<bool>, addr: int, data: WriteData, stop: bool)
    requires l.sdaOut && l.sda && !Level(input)
    requires Events(l, StartOps() + WriteByteRun(input, WriteAddress(addr)).ops) == StartEvents(l) + ByteEvents(WriteAddress(addr))
    requires Run(l, StartOps() + WriteByteRun(input, WriteAddress(addr)).ops) == Held
    requires DataShaped(Rest(input), AsList(data))
    ensures var w := WriteRun(input, addr, data, stop);
            var bytes := AsList(data);
            var sent := DataEvents(bytes[..Sent(Rest(input), |bytes|)]);
            Events(l, w.ops)
              == StartEvents(l) + ByteEvents(WriteAddress(addr)) + (sent + (if w.value && !stop then [] else StopEvents()))
    ensures var w := WriteRun(input, addr, data, stop);
            Run(l, w.ops) == if w.value && !stop then Held else Idle
  {
    var head := StartOps() + WriteByteRun(input, WriteAddress(addr)).ops;
    var d := DataRun(Rest(input), AsList(data));
    var sent := DataEvents(AsList(data)[..Sent(Rest(input), |AsList(data)|)]);
    WriteRunAccepted(input, addr, data, stop);
    DataTail(l, head, d.ops, StartEvents(l) + ByteEvents(WriteAddress(addr)), sent, d.value, stop);
  }

  /** A successful address phase, the data loop, and the STOP `stop` asks for. */
  lemma DataTail(l: Lines, head: seq<LineOp>, data: seq<LineOp>, eh: seq<Event>, sent: seq<Event>, ok: bool, stop: bool)
    requires Events(l, head) == eh && Run(l, head) == Held
    requires Events(Held, data) == sent + (if ok then [] else StopEvents())
    requires Run(Held, data) == if ok then Held else Idle
    ensures var ops := head + data + (if ok && stop then StopOps() else []);
            Events(l, ops) == eh + (sent + (if ok && !stop then [] else StopEvents()))
            && Run(l, ops) == if ok && !stop then Held else Idle
  {
    var tail: seq<LineOp> := if ok && stop then StopOps() else [];
    if ok && stop {
      StopShape(Held);
    }
    Compose(l, head, data, tail, eh, Held, sent + (if ok then [] else StopEvents()), if ok then Held else Idle,
            if ok && stop then StopEvents() else [], if ok && !stop then Held else Idle);
    AppendAssoc(sent, if ok then [] else StopEvents(), if ok && stop then StopEvents() else []);
  }

  lemma WriteRunAccepted(input: seq<bool>, addr: int, data: WriteData, stop: bool)
    requires !Level(input)
    ensures var d := DataRun(Rest(input), AsList(data));
            WriteRun(input, addr, data, stop)
              == Out(StartOps() + WriteByteRun(input, WriteAddress(addr)).ops + d.ops
                     + (if d.value && stop then StopOps() else []), d.rest, d.value)
  {
  }

  /** Three traces run one after the other, each with known events. */
  lemma Compose(l: Lines, a: seq<LineOp>, b: seq<LineOp>, c: seq<LineOp>,
                ea: seq<Event>, la: Lines, eb: seq<Event>, lb: Lines, ec: seq<Event>, lc: Lines)
    requires Events(l, a) == ea && Run(l, a) == la
    requires Events(la, b) == eb && Run(la, b) == lb
    requires Events(lb, c) == ec && Run(lb, c) == lc
    ensures Events(l, a + b + c) == ea + (eb + ec) && Run(l, a + b + c) == lc
  {
    RunAppend(l, a, b);
    RunAppend(l, a + b, c);
    AppendAssoc(ea, eb, ec);
  }

  /** `write` reports success exactly when the address and every data byte
      were acknowledged, one acknowledge level each. */
  lemma WriteSucceeds(input: seq<bool>, addr: int, data: WriteData, stop: bool)
    ensures var w := WriteRun(input, addr, data, stop);
            w.value <==> AllAcked(input, |AsList(data)| + 1)
  {
    var bytes := AsList(data);
    var n := |bytes|;
    assert Drop(input, 0) == input;
    if !Level(input) {
      DataRunShape(Rest(input), bytes);
      LeadingAcksAll(Rest(input), n);
      assert WriteRun(input, addr, data, stop).value == DataRun(Rest(input), bytes).value;
      if AllAcked(input, n + 1) {
        forall i | 0 <= i < n ensures !Level(Drop(Rest(input), i)) {
          assert !Level(Drop(input, i + 1));
        }
      }
      if AllAcked(Rest(input), n) {
        forall i | 0 <= i < n + 1 ensures !Level(Drop(input, i)) {
          if i > 0 {
            assert !Level(Drop(Rest(input), i - 1));
          }
        }
      }
    }
  }

  /** `write` succeeds exactly when the address and every data byte are
      acknowledged, and from released lines it makes exactly one START and
      one STOP, except that a successful write with `stop` false leaves the
      bus held with no STOP. */
  lemma WriteResult(l: Lines, input: seq<bool>, addr: int, data: WriteData, stop: bool)
    requires l.sdaOut && l.sda
    ensures WriteRun(input, addr, data, stop).value <==> AllAcked(input, |AsList(data)| + 1)
    ensures var e := Events(l, WriteRun(input, addr, data, stop).ops);
            CountStarts(e) == 1
            && CountStops(e) == if WriteRun(input, addr, data, stop).value && !stop then 0 else 1
  {
    var w := WriteRun(input, addr, data, stop);
    var bytes := AsList(data);
    WriteShape(l, input, addr, data, stop);
    WriteSucceeds(input, addr, data, stop);
    var sent := DataEvents(bytes[..Sent(Rest(input), |bytes|)]);
    DataEventsCounts(bytes[..Sent(Rest(input), |bytes|)]);
    WriteCounts(l, WriteAddress(addr), sent, Level(input), w.value && !stop);
  }

  /** Counting the events of a write, whatever bytes it sends. */
  lemma StopEventsCounts()
    ensures CountStarts(StopEvents()) == 0 && CountStops(StopEvents()) == 1
  {
    assert StopEvents()[1..] == [Stop];
    assert [Stop][1..] == [];
  }

  lemma StartEventsCounts(l: Lines)
    ensures CountStarts(StartEvents(l)) == 1 && CountStops(StartEvents(l)) == 0
  {
    assert [Start][1..] == [];
    CountAppend(if l.scl then [] else [Clock(true)], [Start]);
  }

  lemma ByteEventsCounts(b: int)
    ensures CountStarts(ByteEvents(b)) == 0 && CountStops(ByteEvents(b)) == 0
  {
    CountClocks(ByteBits(b));
    CountAppend(Clocks(ByteBits(b)), [Clock(true)]);
    assert [Clock(true)][1..] == [];
  }

  lemma WriteCounts(l: Lines, address: int, sent: seq<Event>, refused: bool, held: bool)
    requires CountStarts(sent) == 0 && CountStops(sent) == 0
    ensures var e := StartEvents(l) + ByteEvents(address)
                     + (if refused then StopEvents() else sent + (if held then [] else StopEvents()));
            CountStarts(e) == 1 && CountStops(e) == if !refused && held then 0 else 1
  {
    var s := StartEvents(l);
    var tail := if refused then StopEvents() else sent + (if held then [] else StopEvents());
    StartEventsCounts(l);
    StopEventsCounts();
    ByteEventsCounts(address);
    assert CountStarts([]) == 0 && CountStops([]) == 0;
    if !refused {
      CountAppend(sent, if held then [] else StopEvents());
    }
    CountAppend(s, ByteEvents(address));
    CountAppend(s + ByteEvents(address), tail);
  }

  /** Two traces run one after the other, each with known events. */
  lemma Join(l: Lines, a: seq<LineOp>, b: seq<LineOp>, ea: seq<Event>, la: Lines, eb: seq<Event>, lb: Lines)
    requires Events(l, a) == ea && Run(l, a) == la
    requires Events(la, b) == eb && Run(la, b) == lb
    ensures Events(l, a + b) == ea + eb && Run(l, a + b) == lb
  {
    RunAppend(l, a, b);
  }

  /** The data loop of `read` from the held bus: byte `i` of `n` is followed
      by ACK (SDA low) unless it is the last, which gets NACK. */
  lemma {:induction false} ReadAllShape(input: seq<bool>, n: nat, k: nat)
    requires k <= n
    ensures Events(Held, ReadAllRun(input, n, k).ops) == ReadEvents(n, k)
    ensures Run(Held, ReadAllRun(input, n, k).ops) == if k == 0 then Held else Lines(k == n, false, true)
    decreases k
  {
    if k > 0 {
      var p := ReadAllRun(input, n, k - 1);
      ReadAllShape(input, n, k - 1);
      ReadByteShape(Run(Held, p.ops), p.rest, k - 1 < n - 1);
      Join(Held, p.ops, ReadByteRun(p.rest, k - 1 < n - 1).ops, ReadEvents(n, k - 1), Run(Held, p.ops),
           ReadByteEvents(k - 1 < n - 1), Lines(k == n, false, true));
    }
  }

  /** The byte made of the `i`-th group of eight levels, the first as bit 7. */
  function ByteAt(input: seq<bool>, i: nat): int
  {
    Accumulate(Samples(Drop(input, 8 * i), 8))
  }

  /** Byte `i` of the loop is the `i`-th group of eight levels, in 0..255. */
  lemma {:induction false} ReadAllValues(input: seq<bool>, n: nat, k: nat)
    requires k <= n
    ensures var r := ReadAllRun(input, n, k);
            (forall i :: 0 <= i < k ==> r.value[i] == ByteAt(input, i) && 0 <= r.value[i] < 256)
            && r.rest == Drop(input, 8 * k)
    decreases k
  {
    ReadAllRest(input, n, k);
    if k > 0 {
      var p := ReadAllRun(input, n, k - 1);
      ReadAllValues(input, n, k - 1);
      var b := ReadByteRun(p.rest, k - 1 < n - 1);
      assert b.value == ByteAt(input, k - 1) && 0 <= b.value < 256;
      assert ReadAllRun(input, n, k).value == p.value + [b.value];
      ByteAtSnoc(input, p.value, b.value);
    }
  }

  /** The first `k` passes consume `8 * k` levels. */
  lemma {:induction false} ReadAllRest(input: seq<bool>, n: nat, k: nat)
    requires k <= n
    ensures ReadAllRun(input, n, k).rest == Drop(input, 8 * k)
    decreases k
  {
    if k > 0 {
      var p := ReadAllRun(input, n, k - 1);
      ReadAllRest(input, n, k - 1);
      assert ReadAllRun(input, n, k).rest == Drop(p.rest, 8);
      DropAdd(input, 8 * (k - 1), 8);
    }
  }

  /** One more byte read, in 0..255 and equal to its group of levels. */
  lemma ByteAtSnoc(input: seq<bool>, front: seq<int>, b: int)
    requires forall i :: 0 <= i < |front| ==> front[i] == ByteAt(input, i) && 0 <= front[i] < 256
    requires b == ByteAt(input, |front|) && 0 <= b < 256
    ensures forall i :: 0 <= i < |front| + 1 ==> (front + [b])[i] == ByteAt(input, i) && 0 <= (front + [b])[i] < 256
  {
  }

  lemma {:induction false} ReadEventsCounts(n: nat, k: nat)
    requires k <= n
    ensures CountStarts(ReadEvents(n, k)) == 0 && CountStops(ReadEvents(n, k)) == 0
    decreases k
  {
    if k > 0 {
      var ack := k - 1 < n - 1;
      ReadEventsCounts(n, k - 1);
      CountClocks(seq(8, j => true));
      CountAppend(Clocks(seq(8, j => true)), [Clock(!ack)]);
      assert [Clock(!ack)][1..] == [];
      CountAppend(ReadEvents(n, k - 1), ReadByteEvents(ack));
    }
  }

  /** The bus events of `read(addr, count)` with SDA released: a START, the
      read address byte, the data bytes when the address was acknowledged
      (none for a count of zero or less), and always one STOP, after which
      both lines are released. */
  lemma ReadShape(l: Lines, input: seq<bool>, addr: int, count: int)
    requires l.sdaOut && l.sda
    ensures var r := ReadRun(input, addr, count);
            Events(l, r.ops)
              == StartEvents(l) + ByteEvents(ReadAddress(addr))
                 + ((if Level(input) then [] else ReadEvents(Passes(count), Passes(count))) + StopEvents())
    ensures Run(l, ReadRun(input, addr, count).ops) == Idle
  {
    if Level(input) {
      ReadShapeRefused(l, input, addr, count);
    } else {
      ReadShapeAccepted(l, input, addr, count);
    }
  }

  /** A refused read address: START, the address byte, STOP. */
  lemma ReadShapeRefused(l: Lines, input: seq<bool>, addr: int, count: int)
    requires l.sdaOut && l.sda && Level(input)
    ensures Events(l, ReadRun(input, addr, count).ops) == StartEvents(l) + ByteEvents(ReadAddress(addr)) + StopEvents()
    ensures Run(l, ReadRun(input, addr, count).ops) == Idle
  {
    var a := WriteByteRun(input, ReadAddress(addr));
    StartShape(l);
    WriteByteShape(Lines(false, false, true), input, ReadAddress(addr));
    Join(l, StartOps(), a.ops, StartEvents(l), Lines(false, false, true), ByteEvents(ReadAddress(addr)), Held);
    StopShape(Held);
    Join(l, StartOps() + a.ops, StopOps(), StartEvents(l) + ByteEvents(ReadAddress(addr)), Held, StopEvents(), Idle);
  }

  /** An acknowledged read address: START, the address byte, the data loop,
      STOP. */
  lemma ReadShapeAccepted(l: Lines, input: seq<bool>, addr: int, count: int)
    requires l.sdaOut && l.sda && !Level(input)
    ensures Events(l, ReadRun(input, addr, count).ops)
              == StartEvents(l) + ByteEvents(ReadAddress(addr)) + (ReadEvents(Passes(count), Passes(count)) + StopEvents())
    ensures Run(l, ReadRun(input, addr, count).ops) == Idle
  {
    var a := WriteByteRun(input, ReadAddress(addr));
    var n := Passes(count);
    StartShape(l);
    WriteByteShape(Lines(false, false, true), input, ReadAddress(addr));
    Join(l, StartOps(), a.ops, StartEvents(l), Lines(false, false, true), ByteEvents(ReadAddress(addr)), Held);
    var r := ReadAllRun(a.rest, n, n);
    ReadAllShape(a.rest, n, n);
    StopShape(Run(Held, r.ops));
    Compose(l, StartOps() + a.ops, r.ops, StopOps(), StartEvents(l) + ByteEvents(ReadAddress(addr)), Held,
            ReadEvents(n, n), Run(Held, r.ops), StopEvents(), Idle);
    assert ReadRun(input, addr, count).ops == StartOps() + a.ops + r.ops + StopOps();
  }

  /** `read` returns None exactly when the address is refused; otherwise a
      list of `count` bytes for a count above one, the single byte for a
      count of one, and the IndexError of `result[0]` for a count of zero or
      less. Byte `i` is the `i`-th group of eight levels after the address
      acknowledge. */
  lemma ReadResultSpec(input: seq<bool>, addr: int, count: int)
    ensures var r := ReadRun(input, addr, count).value;
            (r == NoDevice <==> Level(input))
            && (!Level(input) && count > 1 ==>
                  r.Many? && |r.bytes| == count
                  && forall i :: 0 <= i < count ==> r.bytes[i] == ByteAt(Rest(input), i) && 0 <= r.bytes[i] < 256)
            && (!Level(input) && count == 1 ==> r == One(ByteAt(Rest(input), 0)))
            && (!Level(input) && count < 1 ==> r == IndexError)
  {
    var n := Passes(count);
    ReadAllValues(Rest(input), n, n);
  }

  /** From released lines, `read` holds exactly one START and one STOP. */
  lemma ReadCounts(l: Lines, input: seq<bool>, addr: int, count: int)
    requires l.sdaOut && l.sda
    ensures var e := Events(l, ReadRun(input, addr, count).ops);
            CountStarts(e) == 1 && CountStops(e) == 1
  {
    var n := Passes(count);
    ReadShape(l, input, addr, count);
    var middle := if Level(input) then [] else ReadEvents(n, n);
    assert CountStarts(middle) == 0 && CountStops(middle) == 0 by {
      if !Level(input) {
        ReadEventsCounts(n, n);
      }
    }
    StartEventsCounts(l);
    StopEventsCounts();
    ByteEventsCounts(ReadAddress(addr));
    CountAppend(middle, StopEvents());
    CountAppend(StartEvents(l), ByteEvents(ReadAddress(addr)));
    CountAppend(StartEvents(l) + ByteEvents(ReadAddress(addr)), middle + StopEvents());
  }

  /** `write_then_read`: a refused write ends the call with None and no read;
      otherwise the write, left without a STOP, is followed by the read,
      whose START is a repeated START (SCL rises with SDA released, then SDA
      falls). From released lines the whole call holds one STOP, and two
      STARTs exactly when the write succeeded. */
  lemma WriteThenReadSpec(l: Lines, input: seq<bool>, addr: int, data: WriteData, count: int)
    requires l.sdaOut && l.sda
    ensures var w := WriteRun(input, addr, data, false);
            var t := WriteThenReadRun(input, addr, data, count);
            (!w.value ==> t.value == NoDevice && t.ops == w.ops)
            && (w.value ==> t.value == ReadRun(w.rest, addr, count).value
                            && Events(l, t.ops) == Events(l, w.ops) + Events(Held, ReadRun(w.rest, addr, count).ops)
                            && [Clock(true), Start] <= Events(Held, ReadRun(w.rest, addr, count).ops))
    ensures var e := Events(l, WriteThenReadRun(input, addr, data, count).ops);
            CountStarts(e) == (if WriteRun(input, addr, data, false).value then 2 else 1) && CountStops(e) == 1
  {
    var w := WriteRun(input, addr, data, false);
    WriteShape(l, input, addr, data, false);
    WriteResult(l, input, addr, data, false);
    if w.value {
      var r := ReadRun(w.rest, addr, count);
      RunAppend(l, w.ops, r.ops);
      ReadShape(Held, w.rest, addr, count);
      ReadResultSpec(w.rest, addr, count);
      ReadCounts(Held, w.rest, addr, count);
      CountAppend(Events(l, w.ops), Events(Held, r.ops));
      var e := Events(Held, r.ops);
      assert e[0] == Clock(true) && e[1] == Start;
    }
  }

  /** One probe of `scan` from released lines: START, the write address
      byte, STOP; it reports the address when the acknowledge level is low. */
  lemma ProbeShape(input: seq<bool>, addr: int)
    ensures var p := ProbeRun(input, addr);
            Events(Idle, p.ops) == [Start] + ByteEvents(WriteAddress(addr)) + StopEvents()
            && Run(Idle, p.ops) == Idle
            && (p.value <==> !Level(input)) && p.rest == Rest(input)
  {
    var a := WriteByteRun(input, WriteAddress(addr));
    StartShape(Idle);
    WriteByteShape(Lines(false, false, true), input, WriteAddress(addr));
    StopShape(Held);
    Compose(Idle, StartOps(), a.ops, StopOps(), [Start], Lines(false, false, true), ByteEvents(WriteAddress(addr)), Held,
            StopEvents(), Idle);
    AppendAssoc([Start], ByteEvents(WriteAddress(addr)), StopEvents());
  }

  /** Each probe reads one level: the scan up to `hi` leaves the script
      after `hi - lo` samples. */
  lemma {:induction false} ScanRest(input: seq<bool>, lo: int, hi: int)
    requires lo <= hi
    ensures ScanRun(input, lo, hi).rest == Drop(input, hi - lo)
    decreases hi - lo
  {
    if lo < hi {
      var s := ScanRun(input, lo, hi - 1);
      ScanRest(input, lo, hi - 1);
      ProbeShape(s.rest, hi - 1);
      DropAdd(input, hi - 1 - lo, 1);
    }
  }

  /** Exactly the addresses in `[lo, hi)` whose probe sees SDA pulled low. */
  ghost predicate Responders(s: seq<int>, input: seq<bool>, lo: int, hi: int)
  {
    forall a :: a in s <==> lo <= a < hi && !Level(Drop(input, a - lo))
  }

  /** Addresses in strictly increasing order. */
  predicate Ascending(s: seq<int>)
  {
    forall i, j :: 0 <= i < j < |s| ==> s[i] < s[j]
  }

  /** One more probe, at `hi - 1`, extends the responders by that address
      exactly when its acknowledge level is low. */
  lemma RespondersStep(input: seq<bool>, lo: int, hi: int, s: seq<int>, acked: bool)
    requires lo < hi && Responders(s, input, lo, hi - 1)
    requires acked <==> !Level(Drop(input, hi - 1 - lo))
    ensures Responders(s + (if acked then [hi - 1] else []), input, lo, hi)
  {
    var all := s + (if acked then [hi - 1] else []);
    forall a ensures a in all <==> lo <= a < hi && !Level(Drop(input, a - lo)) {
      assert a in all <==> a in s || (acked && a == hi - 1);
    }
  }

  /** Appending an address above every earlier one keeps the order. */
  lemma AscendingStep(s: seq<int>, x: int, acked: bool)
    requires Ascending(s) && forall a :: a in s ==> a < x
    ensures Ascending(s + (if acked then [x] else []))
  {
    var all := s + (if acked then [x] else []);
    forall i, j | 0 <= i < j < |all| ensures all[i] < all[j] {
      assert all[i] == s[i] && s[i] in s;
    }
  }

  /** `scan` over `lo` up to `hi` reports exactly the addresses whose probe
      was acknowledged, the probe of address `a` reading the level after
      `a - lo` earlier probes, in increasing order. */
  lemma {:induction false} ScanFound(input: seq<bool>, lo: int, hi: int)
    ensures var s := ScanRun(input, lo, hi).value;
            Responders(s, input, lo, hi) && Ascending(s)
    decreases hi - lo
  {
    if lo < hi {
      var r := ScanRun(input, lo, hi - 1);
      ScanFound(input, lo, hi - 1);
      ScanRest(input, lo, hi - 1);
      var p := ProbeRun(r.rest, hi - 1);
      ProbeShape(r.rest, hi - 1);
      RespondersStep(input, lo, hi, r.value, p.value);
      AscendingStep(r.value, hi - 1, p.value);
    }
  }

  /** From released lines `scan` makes one START and one STOP per address
      probed and leaves both lines released. */
  lemma {:induction false} ScanEvents(input: seq<bool>, lo: int, hi: int)
    ensures var e := Events(Idle, ScanRun(input, lo, hi).ops);
            CountStarts(e) == (if lo < hi then hi - lo else 0) && CountStops(e) == (if lo < hi then hi - lo else 0)
    ensures Run(Idle, ScanRun(input, lo, hi).ops) == Idle
    decreases hi - lo
  {
    if lo < hi {
      var s := ScanRun(input, lo, hi - 1);
      var p := ProbeRun(s.rest, hi - 1);
      ScanEvents(input, lo, hi - 1);
      ProbeShape(s.rest, hi - 1);
      RunAppend(Idle, s.ops, p.ops);
      ByteEventsCounts(WriteAddress(hi - 1));
      StopEventsCounts();
      assert [Start][1..] == [];
      CountAppend([Start], ByteEvents(WriteAddress(hi - 1)));
      CountAppend([Start] + ByteEvents(WriteAddress(hi - 1)), StopEvents());
      CountAppend(Events(Idle, s.ops), Events(Idle, p.ops));
    }
  }


  // ---------------------------------------------------------------------
  // Loop steps

  lemma WriteBitStep(t: seq<LineOp>, bits: seq<bool>, k: nat)
    requires k < |bits|
    ensures t + WriteBitsOps(bits[..k]) + WriteBitOps(bits[k]) == t + WriteBitsOps(bits[..k + 1])
  {
    assert bits[..k + 1][..k] == bits[..k];
    AppendAssoc(t, WriteBitsOps(bits[..k]), WriteBitOps(bits[k]));
  }

  lemma ReadBitStep(input: seq<bool>, t: seq<LineOp>, k: nat)
    requires k < 8
    ensures var levels := Samples(input, 8);
            Level(Drop(input, k)) == levels[k] && Rest(Drop(input, k)) == Drop(input, k + 1)
            && t + ReadBitsOps(levels[..k]) + ReadBitOps(levels[k]) == t + ReadBitsOps(levels[..k + 1])
            && Accumulate(levels[..k + 1]) == 2 * Accumulate(levels[..k]) + (if levels[k] then 1 else 0)
  {
    var levels := Samples(input, 8);
    SamplesAt(input, 8, k);
    DropAdd(input, k, 1);
    assert levels[..k + 1][..k] == levels[..k];
    AppendAssoc(t, ReadBitsOps(levels[..k]), ReadBitOps(levels[k]));
  }

  /** One probe of the `scan` loop. */
  /** One probe on the bus trace: START, the address byte, STOP. */
  lemma ProbeTrace(base: seq<LineOp>, done: seq<LineOp>, input: seq<bool>, addr: int)
    ensures base + done + StartOps() + WriteByteRun(input, WriteAddress(addr)).ops + StopOps()
            == base + (done + ProbeRun(input, addr).ops)
  {
    var a := WriteByteRun(input, WriteAddress(addr));
    AppendAssoc(base + done, StartOps(), a.ops);
    AppendAssoc(base + done, StartOps() + a.ops, StopOps());
    AppendAssoc(base, done, ProbeRun(input, addr).ops);
  }

  /** `write` when the address is refused: START, the address byte, STOP. */
  lemma WriteRefusedTrace(base: seq<LineOp>, input: seq<bool>, addr: int, data: WriteData, stop: bool)
    requires Level(input)
    ensures var o := WriteRun(input, addr, data, stop);
            base + StartOps() + WriteByteRun(input, WriteAddress(addr)).ops + StopOps() == base + o.ops
            && o.rest == Rest(input) && !o.value
  {
  }

  /** `write` after an acknowledged address, once the data loop has made
      the writes `dataOps`. */
  lemma WriteTrace(base: seq<LineOp>, input: seq<bool>, addr: int, data: WriteData, stop: bool, dataOps: seq<LineOp>)
    requires !Level(input) && DataRun(Rest(input), AsList(data)).ops == dataOps
    ensures var o := WriteRun(input, addr, data, stop);
            var d := DataRun(Rest(input), AsList(data));
            base + StartOps() + WriteByteRun(input, WriteAddress(addr)).ops + dataOps
              + (if d.value && stop then StopOps() else []) == base + o.ops
            && o.rest == d.rest && o.value == d.value
  {
    var a := WriteByteRun(input, WriteAddress(addr));
    var d := DataRun(Rest(input), AsList(data));
    var tail := if d.value && stop then StopOps() else [];
    AppendAssoc(base, StartOps(), a.ops);
    AppendAssoc(base, StartOps() + a.ops, dataOps);
    AppendAssoc(base, StartOps() + a.ops + dataOps, tail);
  }

  /** One byte of the data loop of `write`. */
  lemma DataStep(input: seq<bool>, bytes: seq<int>, i: nat, done: seq<LineOp>, full: Out<bool>)
    requires i < |bytes|
    requires var d := DataRun(input, bytes[i..]); full == Out(done + d.ops, d.rest, d.value)
    ensures var w := WriteByteRun(input, bytes[i]);
            var d := DataRun(w.rest, bytes[i + 1..]);
            (!w.value ==> full == Out(done + w.ops + StopOps(), w.rest, false))
            && (w.value ==> full == Out((done + w.ops) + d.ops, d.rest, d.value))
  {
    var w := WriteByteRun(input, bytes[i]);
    assert bytes[i..][0] == bytes[i] && bytes[i..][1..] == bytes[i + 1..];
    AppendAssoc(done, w.ops, StopOps());
    AppendAssoc(done, w.ops, DataRun(w.rest, bytes[i + 1..]).ops);
  }

  /** `read` when the address is refused: START, the address byte, STOP. */
  lemma ReadRefusedTrace(base: seq<LineOp>, input: seq<bool>, addr: int, count: int)
    requires Level(input)
    ensures var o := ReadRun(input, addr, count);
            base + StartOps() + WriteByteRun(input, ReadAddress(addr)).ops + StopOps() == base + o.ops
            && o.rest == Rest(input) && o.value == NoDevice
  {
    var a := WriteByteRun(input, ReadAddress(addr));
    AppendAssoc(base, StartOps(), a.ops);
    AppendAssoc(base, StartOps() + a.ops, StopOps());
  }

  /** `read` after an acknowledged address: the loop, then the STOP. */
  lemma ReadRunAccepted(input: seq<bool>, addr: int, count: int, base: seq<LineOp>, r: Out<seq<int>>, result: ReadResult)
    requires !Level(input)
    requires r == ReadAllRun(Rest(input), Passes(count), Passes(count))
    requires result == if count > 1 then Many(r.value) else if |r.value| == 0 then IndexError else One(r.value[0])
    ensures var o := ReadRun(input, addr, count);
            base + StartOps() + WriteByteRun(input, ReadAddress(addr)).ops + r.ops + StopOps() == base + o.ops
            && o.rest == r.rest && o.value == result
  {
    var a := WriteByteRun(input, ReadAddress(addr));
    AppendAssoc(base, StartOps(), a.ops);
    AppendAssoc(base, StartOps() + a.ops, r.ops);
    AppendAssoc(base, StartOps() + a.ops + r.ops, StopOps());
  }

  // ---------------------------------------------------------------------
  // The class

  /** `I2CBitBang`: the two pins and the GPIO they drive. The clock
      frequency only sets the length of each delay and is not modelled. */
  class BitBangMaster {
    const sclPin: int
    const sdaPin: int
    const io: Gpio

    /** `__init__`: both lines released, then a short wait. */
    constructor (sclPin: int, sdaPin: int, levels: seq<bool>)
      ensures this.sclPin == sclPin && this.sdaPin == sdaPin
      ensures fresh(io) && io.trace == InitOps() && io.input == levels
    {
      this.sclPin := sclPin;
      this.sdaPin := sdaPin;
      var g := new Gpio(levels);
      g.PutScl(true);
      g.PutSda(true);
      g.Sleep();
      io := g;
    }

    method StartCondition()
      modifies io
      ensures io.trace == old(io.trace) + StartOps() && io.input == old(io.input)
    {
      io.PutSda(true);
      io.PutScl(true);
      io.Sleep();
      io.PutSda(false);
      io.Sleep();
      io.PutScl(false);
      io.Sleep();
    }

    method StopCondition()
      modifies io
      ensures io.trace == old(io.trace) + StopOps() && io.input == old(io.input)
    {
      io.PutSda(false);
      io.PutScl(false);
      io.Sleep();
      io.PutScl(true);
      io.Sleep();
      io.PutSda(true);
      io.Sleep();
    }

    method WriteBit(bit: bool)
      modifies io
      ensures io.trace == old(io.trace) + WriteBitOps(bit) && io.input == old(io.input)
    {
      io.PutScl(false);
      io.PutSda(bit);
      io.Sleep();
      io.PutScl(true);
      io.Sleep();
      io.PutScl(false);
      io.Sleep();
    }

    method ReadBit() returns (bit: bool)
      modifies io
      ensures bit == Level(old(io.input)) && io.input == Rest(old(io.input))
      ensures io.trace == old(io.trace) + ReadBitOps(bit)
    {
      io.PutScl(false);
      io.PutSda(true);
      io.Sleep();
      io.PutScl(true);
      io.Sleep();
      bit := io.GetSda();
      io.PutScl(false);
      io.Sleep();
    }

    /** `_write_byte(b)`: bits 7 down to 0 of `b`, then the acknowledge. */
    method WriteByte(b: int) returns (acknowledged: bool)
      modifies io
      ensures var o := WriteByteRun(old(io.input), b);
              io.trace == old(io.trace) + o.ops && io.input == o.rest && acknowledged == o.value
    {
      var i := 7;
      while i >= 0
        invariant -1 <= i <= 7
        invariant io.trace == old(io.trace) + WriteBitsOps(ByteBits(b)[..7 - i])
        invariant io.input == old(io.input)
      {
        WriteBit(BitOf(b, i));
        WriteBitStep(old(io.trace), ByteBits(b), 7 - i);
        i := i - 1;
      }
      assert ByteBits(b)[..8] == ByteBits(b);
      var ack := ReadBit();
      acknowledged := !ack;
    }

    /** `_read_byte(ack)`: eight bits into `(byte << 1) | bit`, then ACK or
        NACK. */
    method ReadByte(ack: bool) returns (byte: int)
      modifies io
      ensures var o := ReadByteRun(old(io.input), ack);
              io.trace == old(io.trace) + o.ops && io.input == o.rest && byte == o.value
    {
      byte := 0;
      ghost var levels := Samples(io.input, 8);
      var i := 0;
      while i < 8
        invariant 0 <= i <= 8
        invariant io.input == Drop(old(io.input), i)
        invariant io.trace == old(io.trace) + ReadBitsOps(levels[..i])
        invariant byte == Accumulate(levels[..i])
      {
        ReadBitStep(old(io.input), old(io.trace), i);
        var bit := ReadBit();
        byte := byte * 2 + (if bit then 1 else 0);
        i := i + 1;
      }
      assert levels[..8] == levels;
      WriteBit(!ack);
    }

    /** `write(addr, data, stop)`. */
    method Write(addr: int, data: WriteData, stop: bool) returns (ok: bool)
      modifies io
      ensures var o := WriteRun(old(io.input), addr, data, stop);
              io.trace == old(io.trace) + o.ops && io.input == o.rest && ok == o.value
    {
      var bytes := AsList(data);
      ghost var input := io.input;
      StartCondition();
      var acked := WriteByte(WriteAddress(addr));
      if !acked {
        StopCondition();
        WriteRefusedTrace(old(io.trace), input, addr, data, stop);
        return false;
      }
      ghost var afterAddress := io.input;
      acked := WriteDataBytes(bytes);
      WriteTrace(old(io.trace), input, addr, data, stop, DataRun(afterAddress, bytes).ops);
      if !acked {
        return false;
      }
      if stop {
        StopCondition();
      }
      ok := true;
    }

    /** The data loop of `write`: each byte in turn, and on the first one
        refused a STOP and the end of the loop. */
    method WriteDataBytes(bytes: seq<int>) returns (acked: bool)
      modifies io
      ensures var d := DataRun(old(io.input), bytes);
              io.trace == old(io.trace) + d.ops && io.input == d.rest && acked == d.value
    {
      ghost var full := DataRun(io.input, bytes);
      ghost var done: seq<LineOp> := [];
      var i := 0;
      while i < |bytes|
        invariant 0 <= i <= |bytes|
        invariant io.trace == old(io.trace) + done
        invariant var d := DataRun(io.input, bytes[i..]);
                  full == Out(done + d.ops, d.rest, d.value)
      {
        ghost var before := io.input;
        ghost var w := WriteByteRun(before, bytes[i]);
        acked := WriteByte(bytes[i]);
        DataStep(before, bytes, i, done, full);
        AppendAssoc(old(io.trace), done, w.ops);
        if !acked {
          StopCondition();
          AppendAssoc(old(io.trace), done + w.ops, StopOps());
          return;
        }
        done := done + w.ops;
        i := i + 1;
      }
      assert done + [] == done;
      acked := true;
    }

    /** `read(addr, count)`. */
    method Read(addr: int, count: int) returns (result: ReadResult)
      modifies io
      ensures var o := ReadRun(old(io.input), addr, count);
              io.trace == old(io.trace) + o.ops && io.input == o.rest && result == o.value
    {
      StartCondition();
      var acked := WriteByte(ReadAddress(addr));
      if !acked {
        StopCondition();
        ReadRefusedTrace(old(io.trace), old(io.input), addr, count);
        return NoDevice;
      }
      ghost var start := io.input;
      assert start == Rest(old(io.input)) && !Level(old(io.input));
      var bytes := ReadData(count);
      ghost var r := ReadAllRun(start, Passes(count), Passes(count));
      StopCondition();
      if count > 1 {
        result := Many(bytes);
      } else if |bytes| == 0 {
        result := IndexError;
      } else {
        result := One(bytes[0]);
      }
      ReadRunAccepted(old(io.input), addr, count, old(io.trace), r, result);
    }

    /** The loop of `read`: `count` calls of `_read_byte`, each but the
        last acknowledged; none for a count of zero or less. */
    method ReadData(count: int) returns (bytes: seq<int>)
      modifies io
      ensures var r := ReadAllRun(old(io.input), Passes(count), Passes(count));
              io.trace == old(io.trace) + r.ops && io.input == r.rest && bytes == r.value
    {
      bytes := [];
      ghost var done: Out<seq<int>> := Out([], io.input, []);
      var i := 0;
      while i < count
        invariant 0 <= i <= Passes(count)
        invariant done == ReadAllRun(old(io.input), Passes(count), i)
        invariant io.trace == old(io.trace) + done.ops && io.input == done.rest && bytes == done.value
      {
        var ack := i < count - 1;
        ghost var o := ReadByteRun(io.input, ack);
        var b := ReadByte(ack);
        ReadAllNext(old(io.input), Passes(count), i, done, o);
        AppendAssoc(old(io.trace), done.ops, o.ops);
        bytes := bytes + [b];
        done := Out(done.ops + o.ops, o.rest, done.value + [o.value]);
        i := i + 1;
      }
      assert i == Passes(count);
    }

    /** `write_then_read(addr, write_data, read_count)`. */
    method WriteThenRead(addr: int, data: WriteData, count: int) returns (result: ReadResult)
      modifies io
      ensures var o := WriteThenReadRun(old(io.input), addr, data, count);
              io.trace == old(io.trace) + o.ops && io.input == o.rest && result == o.value
    {
      ghost var w := WriteRun(io.input, addr, data, false);
      var ok := Write(addr, data, false);
      if !ok {
        return NoDevice;
      }
      result := Read(addr, count);
      AppendAssoc(old(io.trace), w.ops, ReadRun(w.rest, addr, count).ops);
    }

    /** `scan()`: probe 0x08 up to 0x77 in turn. */
    method Scan() returns (found: seq<int>)
      modifies io
      ensures var o := ScanRun(old(io.input), FirstAddress, EndAddress);
              io.trace == old(io.trace) + o.ops && io.input == o.rest && found == o.value
    {
      found := [];
      ghost var done: seq<LineOp> := [];
      var addr := FirstAddress;
      while addr < EndAddress
        invariant FirstAddress <= addr <= EndAddress
        invariant io.trace == old(io.trace) + done
        invariant ScanRun(old(io.input), FirstAddress, addr) == Out(done, io.input, found)
      {
        ghost var p := ProbeRun(io.input, addr);
        assert found + [] == found;
        ProbeTrace(old(io.trace), done, io.input, addr);
        StartCondition();
        var acked := WriteByte(WriteAddress(addr));
        if acked {
          found := found + [addr];
        }
        StopCondition();
        done := done + p.ops;
        addr := addr + 1;
      }
    }
  }
}
