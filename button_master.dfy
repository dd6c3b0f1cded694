// The button-fed shift register of button_master_module: the SCL push
// button's rising edge samples the SDA button into an eight-bit fifo whose
// contents the LEDs show.

module ButtonMaster {
  import opened Fifo8
  import Bus

  const SDA_PIN: nat := 4
  const SCL_PIN: nat := 5

  /** One interrupt as the handler sees it: the pin, the event mask and the
      level `gpio_get(SDA_PIN)` returns while the handler runs. */
  datatype Irq = Irq(gpio: nat, event: bv32, sda: bool)

  /** Only a rising edge on the SCL pin samples SDA. */
  predicate Samples(e: Irq)
  {
    e.gpio == SCL_PIN && e.event == Bus.EDGE_RISE
  }

  /** `scl_button_handler` on the static `i2c_fifo` (the LED update is left
      out): a rising SCL edge shifts the SDA level in, every other interrupt
      leaves the fifo alone. */
  method SclButtonHandler(fifo: Fifo, e: Irq)
    modifies fifo
    ensures Samples(e) ==> fifo.data == Shifted(old(fifo.data), e.sda)
    ensures !Samples(e) ==> fifo.data == old(fifo.data)
    ensures fifo.data == Replay(old(fifo.data), [e])
  {
    if e.gpio == SCL_PIN && e.event == Bus.EDGE_RISE {
      var bit := e.sda;
      var _ := fifo.ShiftIn(bit);
    }
  }

  /** The fifo after the handler has run for every interrupt of `irqs`, in
      order, starting from `d`. */
  function Replay(d: bv8, irqs: seq<Irq>): bv8
    decreases |irqs|
  {
    if irqs == [] then d
    else Replay(if Samples(irqs[0]) then Shifted(d, irqs[0].sda) else d, irqs[1..])
  }

  /** The SDA levels the qualifying interrupts of `irqs` sample, in order. */
  function Sampled(irqs: seq<Irq>): (r: seq<bool>)
    ensures |r| <= |irqs|
    decreases |irqs|
  {
    if irqs == [] then []
    else (if Samples(irqs[0]) then [irqs[0].sda] else []) + Sampled(irqs[1..])
  }

  /** Running the handler over a sequence of interrupts is shifting in exactly
      the samples of the qualifying ones: the others are ignored. */
  lemma {:induction false} ReplayShiftsSamples(d: bv8, irqs: seq<Irq>)
    ensures Replay(d, irqs) == ShiftAll(d, Sampled(irqs))
    decreases |irqs|
  {
    if irqs != [] {
      var e := irqs[0];
      var next := if Samples(e) then Shifted(d, e.sda) else d;
      ReplayShiftsSamples(next, irqs[1..]);
      if Samples(e) {
        assert ([e.sda] + Sampled(irqs[1..]))[1..] == Sampled(irqs[1..]);
      } else {
        assert Sampled(irqs) == Sampled(irqs[1..]);
      }
    }
  }

  /** Shifting in two runs of bits one after the other is shifting in their
      concatenation. */
  lemma {:induction false} ShiftAllAppend(d: bv8, a: seq<bool>, b: seq<bool>)
    ensures ShiftAll(d, a + b) == ShiftAll(ShiftAll(d, a), b)
    decreases |a|
  {
    if a != [] {
      assert (a + b)[1..] == a[1..] + b;
      ShiftAllAppend(Shifted(d, a[0]), a[1..], b);
    } else {
      assert a + b == b;
    }
  }

  /** Once at least eight rising SCL edges have been seen, the fifo holds the
      last eight SDA samples, the earliest of them as the most significant bit,
      whatever it held before. */
  lemma LastEightSamples(d: bv8, irqs: seq<Irq>)
    requires |Sampled(irqs)| >= 8
    ensures var s := Sampled(irqs);
            Replay(d, irqs) == FromBits(s[|s| - 8..])
            && Bits(Replay(d, irqs)) == s[|s| - 8..]
  {
    var s := Sampled(irqs);
    var older := s[..|s| - 8];
    var last := s[|s| - 8..];
    ReplayShiftsSamples(d, irqs);
    assert older + last == s;
    ShiftAllAppend(d, older, last);
    ShiftEightHoldsBits(ShiftAll(d, older), last);
  }

  /** Interrupts that sample nothing leave the fifo as it was. */
  lemma QuietIrqsKeepFifo(d: bv8, irqs: seq<Irq>)
    requires forall i :: 0 <= i < |irqs| ==> !Samples(irqs[i])
    ensures Replay(d, irqs) == d
  {
    ReplayShiftsSamples(d, irqs);
    NoSamples(irqs);
  }

  lemma {:induction false} NoSamples(irqs: seq<Irq>)
    requires forall i :: 0 <= i < |irqs| ==> !Samples(irqs[i])
    ensures Sampled(irqs) == []
    decreases |irqs|
  {
    if irqs != [] {
      assert forall i :: 0 <= i < |irqs[1..]| ==> irqs[1..][i] == irqs[i + 1];
      NoSamples(irqs[1..]);
    }
  }
}
