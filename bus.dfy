/** The two bus lines as a bit-banging master sees them: the GPIO writes it
    performs, recorded as a trace, and the SDA levels it samples, taken from a
    script of levels the other devices on the bus present. A pure simulation
    of the trace gives the bus conditions of UM10204 section 3.1.4 (START and
    STOP) and the clocked data bits of section 3.1.5. */
module Bus {

  /** Interrupt event masks of the pico-sdk GPIO layer. */
  const EDGE_FALL: bv32 := 0x4
  const EDGE_RISE: bv32 := 0x8

  /** One GPIO action of a master. */
  datatype LineOp =
    | Sda(level: bool)          // gpio_put / Pin.value on the data line
    | Scl(level: bool)          // gpio_put / Pin.value on the clock line
    | SdaOutput(enabled: bool)  // gpio_set_dir on the data line (true = output)
    | Delay                     // one timing delay
    | Sample(level: bool)       // a read of the data line and the level read

  /** The master's output latches and the direction of the data pin. */
  datatype Lines = Lines(sda: bool, scl: bool, sdaOut: bool)

  /** What the master's own writes mean on the bus. */
  datatype Event =
    | Start                // SDA driven high to low while SCL is high
    | Stop                 // SDA driven low to high while SCL is high
    | Clock(level: bool)   // SCL rises while the master drives SDA at `level`
    | ReleasedClock        // SCL rises while the master has released SDA

  function Apply(l: Lines, op: LineOp): Lines
  {
    match op
    case Sda(v) => l.(sda := v)
    case Scl(v) => l.(scl := v)
    case SdaOutput(e) => l.(sdaOut := e)
    case Delay => l
    case Sample(_) => l
  }

  /** The bus event, if any, that one write causes. */
  function EventOf(l: Lines, op: LineOp): seq<Event>
  {
    match op
    case Sda(v) =>
      if l.sdaOut && l.scl && l.sda && !v then [Start]
      else if l.sdaOut && l.scl && !l.sda && v then [Stop]
      else []
    case Scl(v) =>
      if !l.scl && v then (if l.sdaOut then [Clock(l.sda)] else [ReleasedClock]) else []
    case _ => []
  }

  /** A direction change that turns the master's SDA output back on with the
      latch low while SCL is high, after the line had been released and was
      last read high: the line falls under a high clock, which is a START on
      the wire. `EventOf` reports only what the master's latches do, so it
      does not see this one (the predicate is about the wire, not the
      latches). */
  predicate WireStart(l: Lines, op: LineOp, lineHigh: bool)
  {
    op == SdaOutput(true) && !l.sdaOut && l.scl && !l.sda && lineHigh
  }

  /** The latches after a whole trace. */
  function Run(l: Lines, ops: seq<LineOp>): Lines
    decreases |ops|
  {
    if ops == [] then l else Run(Apply(l, ops[0]), ops[1..])
  }

  /** The bus events of a whole trace, in order. */
  function Events(l: Lines, ops: seq<LineOp>): seq<Event>
    decreases |ops|
  {
    if ops == [] then [] else EventOf(l, ops[0]) + Events(Apply(l, ops[0]), ops[1..])
  }

  /** Running two traces one after the other is running their concatenation. */
  lemma {:induction false} RunAppend(l: Lines, a: seq<LineOp>, b: seq<LineOp>)
    ensures Run(l, a + b) == Run(Run(l, a), b)
    ensures Events(l, a + b) == Events(l, a) + Events(Run(l, a), b)
    decreases |a|
  {
    if a != [] {
      assert (a + b)[0] == a[0];
      assert (a + b)[1..] == a[1..] + b;
      RunAppend(Apply(l, a[0]), a[1..], b);
    } else {
      assert a + b == b;
    }
  }

  /** The clock events of bits driven one after the other. */
  function Clocks(bits: seq<bool>): (r: seq<Event>)
    ensures |r| == |bits|
    ensures forall k :: 0 <= k < |bits| ==> r[k] == Clock(bits[k])
  {
    seq(|bits|, k requires 0 <= k < |bits| => Clock(bits[k]))
  }

  /** One more bit driven is one more clock pulse. */
  lemma ClocksSnoc(bits: seq<bool>)
    requires bits != []
    ensures Clocks(bits) == Clocks(bits[..|bits| - 1]) + [Clock(bits[|bits| - 1])]
  {
  }

  lemma AppendAssoc<T>(a: seq<T>, b: seq<T>, c: seq<T>)
    ensures (a + b) + c == a + (b + c)
  {
  }

  /** Number of START conditions among `evs`. */
  function CountStarts(evs: seq<Event>): nat
  {
    if evs == [] then 0 else (if evs[0] == Start then 1 else 0) + CountStarts(evs[1..])
  }

  /** Number of STOP conditions among `evs`. */
  function CountStops(evs: seq<Event>): nat
  {
    if evs == [] then 0 else (if evs[0] == Stop then 1 else 0) + CountStops(evs[1..])
  }

  lemma {:induction false} CountAppend(a: seq<Event>, b: seq<Event>)
    ensures CountStarts(a + b) == CountStarts(a) + CountStarts(b)
    ensures CountStops(a + b) == CountStops(a) + CountStops(b)
  {
    if a != [] {
      assert (a + b)[1..] == a[1..] + b;
      CountAppend(a[1..], b);
    } else {
      assert a + b == b;
    }
  }

  /** Data clock pulses hold no START and no STOP. */
  lemma {:induction false} CountClocks(bits: seq<bool>)
    ensures CountStarts(Clocks(bits)) == 0 && CountStops(Clocks(bits)) == 0
    decreases |bits|
  {
    if bits != [] {
      assert Clocks(bits)[1..] == Clocks(bits[1..]);
      CountClocks(bits[1..]);
    }
  }

  /** The level the next sample reads: the scripted level, or high (the bus
      pull-up) once the script is used up. */
  function Level(input: seq<bool>): bool
  {
    if input == [] then true else input[0]
  }

  /** The script after one sample. */
  function Rest(input: seq<bool>): seq<bool>
  {
    if input == [] then [] else input[1..]
  }

  /** The first `n` levels the script supplies. */
  function Samples(input: seq<bool>, n: nat): (r: seq<bool>)
    ensures |r| == n
  {
    if n == 0 then [] else [Level(input)] + Samples(Rest(input), n - 1)
  }

  /** The script after `n` samples. */
  function Drop(input: seq<bool>, n: nat): seq<bool>
  {
    if n == 0 then input else Drop(Rest(input), n - 1)
  }

  /** Sample `k` of the first `n` is the level after `k` samples. */
  lemma {:induction false} SamplesAt(input: seq<bool>, n: nat, k: nat)
    requires k < n
    ensures Samples(input, n)[k] == Level(Drop(input, k))
  {
    if k > 0 {
      SamplesAt(Rest(input), n - 1, k - 1);
    }
  }

  lemma {:induction false} DropAdd(input: seq<bool>, a: nat, b: nat)
    ensures Drop(Drop(input, a), b) == Drop(input, a + b)
  {
    if a > 0 {
      DropAdd(Rest(input), a - 1, b);
    }
  }

  /** A fragment of master behaviour as a pure function of the sample script:
      the writes it performs, the script left over and the value it returns. */
  datatype Out<T> = Out(ops: seq<LineOp>, rest: seq<bool>, value: T)

  /** The GPIO of a master: every write is appended to `trace`; every read of
      the data line takes the next level from `input`. */
  class Gpio {
    var trace: seq<LineOp>
    var input: seq<bool>

    constructor (levels: seq<bool>)
      ensures trace == [] && input == levels
    {
      trace := [];
      input := levels;
    }

    method PutSda(v: bool)
      modifies this
      ensures trace == old(trace) + [Sda(v)] && input == old(input)
    {
      trace := trace + [Sda(v)];
    }

    method PutScl(v: bool)
      modifies this
      ensures trace == old(trace) + [Scl(v)] && input == old(input)
    {
      trace := trace + [Scl(v)];
    }

    method SetSdaOutput(enabled: bool)
      modifies this
      ensures trace == old(trace) + [SdaOutput(enabled)] && input == old(input)
    {
      trace := trace + [SdaOutput(enabled)];
    }

    method Sleep()
      modifies this
      ensures trace == old(trace) + [Delay] && input == old(input)
    {
      trace := trace + [Delay];
    }

    method GetSda() returns (v: bool)
      modifies this
      ensures v == Level(old(input)) && input == Rest(old(input))
      ensures trace == old(trace) + [Sample(v)]
    {
      v := Level(input);
      input := Rest(input);
      trace := trace + [Sample(v)];
    }
  }
}
