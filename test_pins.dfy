// arcade_button_module_test_pins: the board bring-up program that steps the
// two state machines of the arcade button module through their cycles
// (`shift_state`) and walks one lit LED along the data LEDs.

module TestPins {
  import opened Fifo8

  // `i2c_state_t`: one-hot codes, one status LED each.
  const I2C_STATE_NULL: int := 0x1
  const I2C_STATE_START: int := 0x2
  const I2C_STATE_MOSI: int := 0x4
  const I2C_STATE_MISO: int := 0x8

  // `ack_state_t`.
  const ACK_STATE_NULL: int := 0x1
  const ACK_STATE_MOSI: int := 0x2
  const ACK_STATE_MISO: int := 0x4

  /** The order in which `shift_state` visits the named I2C states. */
  const I2C_CYCLE: seq<int> := [I2C_STATE_NULL, I2C_STATE_START, I2C_STATE_MOSI, I2C_STATE_MISO]

  /** The order in which `shift_state` visits the named acknowledge states. */
  const ACK_CYCLE: seq<int> := [ACK_STATE_NULL, ACK_STATE_MOSI, ACK_STATE_MISO]

  /** The first `switch` of `shift_state`: the next I2C state is always a
      named one, the successor on the cycle for a named state and NULL for
      anything else (such as the zero the static variable starts with). */
  function NextI2c(s: int): (r: int)
    ensures r in I2C_CYCLE
    ensures s !in I2C_CYCLE ==> r == I2C_STATE_NULL
  {
    if s == I2C_STATE_NULL then I2C_STATE_START
    else if s == I2C_STATE_START then I2C_STATE_MOSI
    else if s == I2C_STATE_MOSI then I2C_STATE_MISO
    else if s == I2C_STATE_MISO then I2C_STATE_NULL
    else I2C_STATE_NULL
  }

  /** The second `switch` of `shift_state`, the same for the acknowledge
      state. */
  function NextAck(s: int): (r: int)
    ensures r in ACK_CYCLE
    ensures s !in ACK_CYCLE ==> r == ACK_STATE_NULL
  {
    if s == ACK_STATE_NULL then ACK_STATE_MOSI
    else if s == ACK_STATE_MOSI then ACK_STATE_MISO
    else if s == ACK_STATE_MISO then ACK_STATE_NULL
    else ACK_STATE_NULL
  }

  /** The two file-scope state variables that `shift_state` reassigns. */
  class StateMachines {
    var i2cState: int
    var ackState: int

    /** Static storage: both enums start as zero, which names no state. */
    constructor ()
      ensures i2cState == 0 && ackState == 0
    {
      i2cState := 0;
      ackState := 0;
    }

    /** `shift_state`: each variable moves to its own successor; neither
        switch reads the other variable. */
    method ShiftState()
      modifies this
      ensures i2cState == NextI2c(old(i2cState))
      ensures ackState == NextAck(old(ackState))
    {
      if i2cState == I2C_STATE_NULL {
        i2cState := I2C_STATE_START;
      } else if i2cState == I2C_STATE_START {
        i2cState := I2C_STATE_MOSI;
      } else if i2cState == I2C_STATE_MOSI {
        i2cState := I2C_STATE_MISO;
      } else if i2cState == I2C_STATE_MISO {
        i2cState := I2C_STATE_NULL;
      } else {
        i2cState := I2C_STATE_NULL;
      }

      if ackState == ACK_STATE_NULL {
        ackState := ACK_STATE_MOSI;
      } else if ackState == ACK_STATE_MOSI {
        ackState := ACK_STATE_MISO;
      } else if ackState == ACK_STATE_MISO {
        ackState := ACK_STATE_NULL;
      } else {
        ackState := ACK_STATE_NULL;
      }
    }
  }

  /** The I2C state after `n` calls of `shift_state`. */
  function I2cAfter(s: int, n: nat): int
    decreases n
  {
    if n == 0 then s else I2cAfter(NextI2c(s), n - 1)
  }

  /** The acknowledge state after `n` calls of `shift_state`. */
  function AckAfter(s: int, n: nat): int
    decreases n
  {
    if n == 0 then s else AckAfter(NextAck(s), n - 1)
  }

  /** `n` calls move a named I2C state `n` places along its cycle of four. */
  lemma {:induction false} I2cAfterIndex(k: nat, n: nat)
    requires k < 4
    ensures I2cAfter(I2C_CYCLE[k], n) == I2C_CYCLE[(k + n) % 4]
    decreases n
  {
    if n > 0 {
      assert NextI2c(I2C_CYCLE[k]) == I2C_CYCLE[(k + 1) % 4];
      I2cAfterIndex((k + 1) % 4, n - 1);
      assert ((k + 1) % 4 + (n - 1)) % 4 == (k + n) % 4;
    }
  }

  /** `n` calls move a named acknowledge state `n` places along its cycle of
      three. */
  lemma {:induction false} AckAfterIndex(k: nat, n: nat)
    requires k < 3
    ensures AckAfter(ACK_CYCLE[k], n) == ACK_CYCLE[(k + n) % 3]
    decreases n
  {
    if n > 0 {
      assert NextAck(ACK_CYCLE[k]) == ACK_CYCLE[(k + 1) % 3];
      AckAfterIndex((k + 1) % 3, n - 1);
      assert ((k + 1) % 3 + (n - 1)) % 3 == (k + n) % 3;
    }
  }

  /** A named I2C state comes back exactly after a multiple of four calls. */
  lemma I2cPeriod(s: int, n: nat)
    requires s in I2C_CYCLE
    ensures I2cAfter(s, n) == s <==> n % 4 == 0
  {
    var k :| 0 <= k < 4 && I2C_CYCLE[k] == s;
    I2cAfterIndex(k, n);
  }

  /** A named acknowledge state comes back exactly after a multiple of three
      calls. */
  lemma AckPeriod(s: int, n: nat)
    requires s in ACK_CYCLE
    ensures AckAfter(s, n) == s <==> n % 3 == 0
  {
    var k :| 0 <= k < 3 && ACK_CYCLE[k] == s;
    AckAfterIndex(k, n);
  }

  /** Both status displays show their starting states again exactly after a
      multiple of twelve calls. */
  lemma BothPeriod(i: int, a: int, n: nat)
    requires i in I2C_CYCLE && a in ACK_CYCLE
    ensures (I2cAfter(i, n) == i && AckAfter(a, n) == a) <==> n % 12 == 0
  {
    I2cPeriod(i, n);
    AckPeriod(a, n);
    CommonPeriod(n);
  }

  lemma {:induction false} CommonPeriod(n: nat)
    ensures (n % 4 == 0 && n % 3 == 0) <==> n % 12 == 0
    decreases n
  {
    if n >= 12 {
      CommonPeriod(n - 12);
    }
  }

  /** From a value that names no state (the zero of static storage), the
      first call lands on NULL and from there the cycle runs as usual. */
  lemma FromUnnamed(s: int, n: nat)
    requires s !in I2C_CYCLE && s !in ACK_CYCLE
    ensures I2cAfter(s, n + 1) == I2C_CYCLE[n % 4]
    ensures AckAfter(s, n + 1) == ACK_CYCLE[n % 3]
  {
    I2cAfterIndex(0, n);
    AckAfterIndex(0, n);
  }

  // ---------------------------------------------------------------------
  // The walking LED of `main`

  /** One turn of the loop on the `uint8_t` `led_toggle`: shift left, and a
      bit shifted out of the byte starts again at the bottom. */
  function Rotated(v: bv8): bv8
  {
    var shifted := v << 1;
    if shifted == 0 then 1 else shifted
  }

  /** The lit LED moves one place up, from the top back to the bottom. */
  lemma RotatedMask(k: nat)
    requires k < 8
    ensures Rotated(Mask(k)) == Mask((k + 1) % 8)
  {
    match k
    case 0 => case 1 => case 2 => case 3 => case 4 => case 5 => case 6 =>
    case _ => assert Mask(7) << 1 == 0;
  }

  /** `Mask(k)` lights exactly the LED of bit `k`. */
  lemma MaskOneHot(k: nat, i: nat)
    requires k < 8 && i < 8
    ensures Bit(Mask(k), i) <==> i == k
  {
  }

  lemma NextPlace(k: nat, i: nat)
    ensures ((k + i) % 8 + 1) % 8 == (k + i + 1) % 8
  {
  }

  /** The file-scope `led_toggle`. */
  class Walker {
    var ledToggle: bv8

    /** `static uint8_t led_toggle = 1`. */
    constructor ()
      ensures ledToggle == Mask(0)
    {
      ledToggle := 1;
    }

    /** `steps` turns of the endless loop of `main` (the LED output and the
        delay left out): the lit LED has moved `steps` places around the
        eight. */
    method Walk(steps: nat, ghost k: nat)
      requires k < 8 && ledToggle == Mask(k)
      modifies this
      ensures ledToggle == Mask((k + steps) % 8)
    {
      var i := 0;
      while i < steps
        invariant 0 <= i <= steps
        invariant ledToggle == Mask((k + i) % 8)
      {
        ghost var before := ledToggle;
        ledToggle := ledToggle << 1;
        ledToggle := if ledToggle == 0 then 1 else ledToggle;
        assert ledToggle == Rotated(before);
        RotatedMask((k + i) % 8);
        NextPlace(k, i);
        i := i + 1;
      }
    }
  }

  /** `main` from reset: after `steps` turns exactly one LED is lit, the one
      of bit `steps % 8`, so the first LED is lit again every eighth turn. */
  method MainLoop(steps: nat) returns (led: bv8)
    ensures led == Mask(steps % 8)
    ensures forall i :: 0 <= i < 8 ==> (Bit(led, i) <==> i == steps % 8)
  {
    var walker := new Walker();
    walker.Walk(steps, 0);
    led := walker.ledToggle;
    forall i | 0 <= i < 8
      ensures Bit(led, i) <==> i == steps % 8
    {
      MaskOneHot(steps % 8, i);
    }
  }
}
