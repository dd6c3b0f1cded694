/** The arcade button module `arcade_button_module`: a bus watcher that
    follows the SDA and SCL edges of a transaction with the slave address
    0x42, shows the fifo and its own idea of the protocol state on LEDs, and
    has a switch that says whether it is to read the address byte as a
    slave (compare it with the two address conditions) or as a master
    (take the R/W bit as it comes). Its state lives in globals that the
    interrupt handlers change; here they are the fields of one object, and
    each handler call is one atomic step. */
module ArcadeModule {
  import opened Fifo8
  import Bus
  import SoftSlave

  const Address: bv8 := 0x42
  /** The address byte of a write to the module (master out, slave in). */
  const MosiCondition: bv8 := SoftSlave.ReceiveCondition(Address)
  /** The address byte of a read from the module (master in, slave out). */
  const MisoCondition: bv8 := SoftSlave.TransmitCondition(Address)

  const SdaPin: int := 5
  const SclPin: int := 4
  const SwitchPin: int := 17

  /** `i2c_state_t`. The enumerators are the one-hot values 1, 2, 4 and 8;
      the global starts zero-initialised, which is none of them: `Unset`. */
  datatype State = Unset | Null | Start | Mosi | Miso

  /** `ack_state_t`, one-hot values 1, 2 and 4, zero-initialised as `AckUnset`. */
  datatype AckState = AckUnset | AckNull | AckMosi | AckMiso

  function StateCode(s: State): bv8
  {
    match s
    case Unset => 0 case Null => 0x1 case Start => 0x2 case Mosi => 0x4 case Miso => 0x8
  }

  function AckCode(a: AckState): bv8
  {
    match a
    case AckUnset => 0 case AckNull => 0x1 case AckMosi => 0x2 case AckMiso => 0x4
  }

  /** The two address conditions are 0x84 and 0x85: they differ only in
      bit 0 and both hold the address above it. */
  lemma ConditionsSpec()
    ensures MosiCondition == 0x84 && MisoCondition == 0x85
    ensures MisoCondition == MosiCondition | 1 && MosiCondition != MisoCondition
    ensures !Bit(MosiCondition, 0) && Bit(MisoCondition, 0)
    ensures MosiCondition >> 1 == Address && MisoCondition >> 1 == Address
  {
    SoftSlave.ConditionsSpec(Address);
  }

  /** The globals the handlers change. */
  datatype Module = Module(sdaValue: bool, sclValue: bool, slaveMode: bool,
                           state: State, ack: AckState, fifo: bv8, counter: nat)

  /** `bit_counter` is a `uint32_t`. */
  predicate ValidModule(m: Module)
  {
    m.counter < SoftSlave.UintLimit
  }

  /** What the eighth bit after a START decides: in slave mode the byte must
      be one of the two address conditions (else the module goes idle), in
      master mode bit 0 of the byte is the R/W bit. */
  function Decide(slaveMode: bool, f: bv8): (State, AckState)
  {
    if slaveMode then
      if f == MosiCondition then (Mosi, AckMiso)
      else if f == MisoCondition then (Miso, AckMiso)
      else (Null, AckNull)
    else ((if f & 1 != 0 then Miso else Mosi), AckMiso)
  }

  /** `scl_handler`. */
  function SclStep(m: Module, event: bv32): Module
    requires ValidModule(m)
  {
    if event == Bus.EDGE_RISE then SclRise(m.(sclValue := true))
    else if event == Bus.EDGE_FALL then m.(sclValue := false)
    else m
  }

  /** The rising-edge branch with `scl_value` already set. */
  function SclRise(m: Module): Module
    requires ValidModule(m)
  {
    match m.state
    case Start =>
      var f := Shifted(m.fifo, m.sdaValue);
      var c := SoftSlave.Inc(m.counter);
      if c == 8 then
        var d := Decide(m.slaveMode, f);
        m.(state := d.0, ack := d.1, fifo := 0, counter := c)
      else m.(fifo := f, counter := c)
    case Mosi =>
      var c := SoftSlave.Inc(m.counter);
      m.(fifo := Shifted(m.fifo, m.sdaValue), counter := c,
         ack := if c % 9 == 8 then AckMiso else if c % 9 == 0 then AckNull else m.ack)
    case Miso =>
      var c := SoftSlave.Inc(m.counter);
      m.(fifo := Shifted(m.fifo, m.sdaValue), counter := c,
         ack := if c % 9 == 8 then AckMosi else if c % 9 == 0 then AckNull else m.ack)
    case _ => m
  }

  /** `sda_handler`: with SCL high a rise is a STOP (idle) and a fall a
      START; both clear the acknowledge state, the fifo and the counter. */
  function SdaStep(m: Module, event: bv32): Module
  {
    if event == Bus.EDGE_RISE then
      if m.sclValue then m.(sdaValue := true, state := Null, ack := AckNull, fifo := 0, counter := 0)
      else m.(sdaValue := true)
    else if event == Bus.EDGE_FALL then
      if m.sclValue then m.(sdaValue := false, state := Start, ack := AckNull, fifo := 0, counter := 0)
      else m.(sdaValue := false)
    else m
  }

  /** `slave_mode_handler`: the switch level becomes the mode, and the fifo
      and the counter start again. */
  function SwitchStep(m: Module, event: bv32): Module
  {
    if event == Bus.EDGE_FALL then m.(slaveMode := false, fifo := 0, counter := 0)
    else if event == Bus.EDGE_RISE then m.(slaveMode := true, fifo := 0, counter := 0)
    else m
  }

  /** `trigger_handler`. */
  function TriggerStep(m: Module, gpio: int, event: bv32): Module
    requires ValidModule(m)
  {
    if gpio == SclPin then SclStep(m, event)
    else if gpio == SdaPin then SdaStep(m, event)
    else if gpio == SwitchPin then SwitchStep(m, event)
    else m
  }

  // ---------------------------------------------------------------------
  // One handler call at a time

  /** SDA edges with SCL high restart everything; with SCL low only the
      recorded level changes; the mode is never touched. */
  lemma SdaStepSpec(m: Module, event: bv32)
    ensures var t := SdaStep(m, event);
            t.slaveMode == m.slaveMode && t.sclValue == m.sclValue
            && (m.sclValue && event == Bus.EDGE_FALL ==>
                  t == m.(sdaValue := false, state := Start, ack := AckNull, fifo := 0, counter := 0))
            && (m.sclValue && event == Bus.EDGE_RISE ==>
                  t == m.(sdaValue := true, state := Null, ack := AckNull, fifo := 0, counter := 0))
            && (!m.sclValue ==> t == m.(sdaValue := t.sdaValue))
            && (event == Bus.EDGE_FALL ==> !t.sdaValue) && (event == Bus.EDGE_RISE ==> t.sdaValue)
  {
  }

  /** A falling SCL edge only clears the recorded level; a rising edge while
      idle (or before any START) only sets it. */
  lemma SclIdleSpec(m: Module, event: bv32)
    requires ValidModule(m)
    ensures event == Bus.EDGE_FALL ==> SclStep(m, event) == m.(sclValue := false)
    ensures event == Bus.EDGE_RISE && (m.state == Null || m.state == Unset) ==>
              SclStep(m, event) == m.(sclValue := true)
  {
  }

  /** The eighth rising edge after a START decides the transfer direction
      and resets the fifo but not the counter. */
  lemma AddressDecisionSpec(m: Module)
    requires ValidModule(m) && m.state == Start && m.counter == 7
    ensures var t := SclStep(m, Bus.EDGE_RISE);
            var f := Shifted(m.fifo, m.sdaValue);
            t.fifo == 0 && t.counter == 8 && t.slaveMode == m.slaveMode
            && (m.slaveMode ==>
                  (t.state == Mosi <==> f == MosiCondition) && (t.state == Miso <==> f == MisoCondition)
                  && (t.state == Null <==> f != MosiCondition && f != MisoCondition)
                  && (t.ack == AckMiso <==> t.state != Null) && (t.state == Null ==> t.ack == AckNull))
            && (!m.slaveMode ==> t.state == (if m.sdaValue then Miso else Mosi) && t.ack == AckMiso)
  {
    ShiftedBits(m.fifo, m.sdaValue);
  }

  /** Before the eighth bit, START only shifts and counts. */
  lemma StartShiftSpec(m: Module)
    requires ValidModule(m) && m.state == Start && m.counter < 7
    ensures SclStep(m, Bus.EDGE_RISE)
            == m.(sclValue := true, fifo := Shifted(m.fifo, m.sdaValue), counter := m.counter + 1)
  {
  }

  /** Inside a transfer every rising edge shifts and counts; the acknowledge
      state turns to the side that must acknowledge after the eighth bit of a
      group and back to NULL after the ninth, and holds otherwise. */
  lemma TransferSpec(m: Module)
    requires ValidModule(m) && (m.state == Mosi || m.state == Miso) && m.counter + 1 < SoftSlave.UintLimit
    ensures var t := SclStep(m, Bus.EDGE_RISE);
            var c := m.counter + 1;
            t.state == m.state && t.fifo == Shifted(m.fifo, m.sdaValue) && t.counter == c
            && t.ack == (if c % 9 == 8 then (if m.state == Mosi then AckMiso else AckMosi)
                         else if c % 9 == 0 then AckNull else m.ack)
  {
  }

  /** The mode switch sets the mode to the edge direction, restarts the
      fifo and the counter, and leaves both protocol states alone. */
  lemma SwitchSpec(m: Module, event: bv32)
    ensures var t := SwitchStep(m, event);
            t.state == m.state && t.ack == m.ack && t.sdaValue == m.sdaValue && t.sclValue == m.sclValue
            && (event == Bus.EDGE_FALL ==> !t.slaveMode && t.fifo == 0 && t.counter == 0)
            && (event == Bus.EDGE_RISE ==> t.slaveMode && t.fifo == 0 && t.counter == 0)
            && (event != Bus.EDGE_FALL && event != Bus.EDGE_RISE ==> t == m)
  {
  }

  /** While in START the counter is below eight. */
  predicate StartBelowEight(m: Module)
  {
    m.state == Start ==> m.counter < 8
  }

  /** Every handler call keeps the counter below eight while in START: the
      eighth bit always leaves START. */
  lemma StartBelowEightKept(m: Module, gpio: int, event: bv32)
    requires ValidModule(m) && StartBelowEight(m)
    ensures ValidModule(TriggerStep(m, gpio, event)) && StartBelowEight(TriggerStep(m, gpio, event))
  {
    if gpio == SclPin && event == Bus.EDGE_RISE && m.state == Start {
      assert SoftSlave.Inc(m.counter) == m.counter + 1;
    }
  }

  // ---------------------------------------------------------------------
  // Whole clock periods

  /** One clock period as the module sees it: SDA settles at `bit` while SCL
      is low (an SDA edge only when the level changes), then SCL rises and
      falls. */
  function ClockBit(m: Module, bit: bool): Module
    requires ValidModule(m)
  {
    var a := if m.sdaValue == bit then m else SdaStep(m, if bit then Bus.EDGE_RISE else Bus.EDGE_FALL);
    SclStep(SclStep(a, Bus.EDGE_RISE), Bus.EDGE_FALL)
  }

  function ClockBits(m: Module, bits: seq<bool>): (r: Module)
    requires ValidModule(m)
    ensures ValidModule(r)
    decreases |bits|
  {
    if bits == [] then m else ClockBits(ClockBit(m, bits[0]), bits[1..])
  }

  lemma {:induction false} ClockBitsSnoc(m: Module, bits: seq<bool>, bit: bool)
    requires ValidModule(m)
    ensures ClockBits(m, bits + [bit]) == ClockBit(ClockBits(m, bits), bit)
    decreases |bits|
  {
    if bits == [] {
      assert [bit][1..] == [];
    } else {
      assert (bits + [bit])[1..] == bits[1..] + [bit];
      ClockBitsSnoc(ClockBit(m, bits[0]), bits[1..], bit);
    }
  }

  /** One clock period in START before the eighth bit. */
  lemma StartBit(m: Module, bit: bool)
    requires ValidModule(m) && !m.sclValue && m.state == Start && m.counter < 7
    ensures ClockBit(m, bit) == m.(sdaValue := bit, fifo := Shifted(m.fifo, bit), counter := m.counter + 1)
  {
  }

  /** The first `k` < 8 bits after a START are shifted and counted and
      nothing else happens. */
  lemma {:induction false} StartPrefix(m: Module, bits: seq<bool>)
    requires ValidModule(m) && !m.sclValue && m.state == Start && m.counter == 0 && |bits| < 8
    ensures var t := ClockBits(m, bits);
            t.state == Start && t.counter == |bits| && t.fifo == ShiftAll(m.fifo, bits)
            && !t.sclValue && t.slaveMode == m.slaveMode && t.ack == m.ack
            && (bits != [] ==> t.sdaValue == bits[|bits| - 1])
    decreases |bits|
  {
    if bits != [] {
      var front := bits[..|bits| - 1];
      var last := bits[|bits| - 1];
      assert front + [last] == bits;
      StartPrefix(m, front);
      ClockBitsSnoc(m, front, last);
      StartBit(ClockBits(m, front), last);
      ShiftAllSnoc(m.fifo, front, last);
    }
  }

  /** A START followed by the eight address bits: the byte they make, most
      significant bit first, decides the direction as `Decide` says; the fifo
      is empty and the counter stands at 8, so the acknowledge clock that
      follows makes it 9 and closes the first group of nine. */
  lemma AddressPhase(m: Module, bits: seq<bool>)
    requires ValidModule(m) && !m.sclValue && m.state == Start && m.counter == 0 && |bits| == 8
    ensures var t := ClockBits(m, bits);
            var d := Decide(m.slaveMode, FromBits(bits));
            t.state == d.0 && t.ack == d.1 && t.fifo == 0 && t.counter == 8
            && t.slaveMode == m.slaveMode && !t.sclValue
  {
    var front := bits[..7];
    assert front + [bits[7]] == bits;
    StartPrefix(m, front);
    ClockBitsSnoc(m, front, bits[7]);
    ShiftAllSnoc(m.fifo, front, bits[7]);
    ShiftEightHoldsBits(m.fifo, bits);
  }

  /** In slave mode the module follows a transfer exactly when the address
      byte is one of its two conditions; in master mode it always does, in
      the direction of the R/W bit, the last of the eight. */
  lemma AddressPhaseDirection(m: Module, bits: seq<bool>)
    requires ValidModule(m) && !m.sclValue && m.state == Start && m.counter == 0 && |bits| == 8
    ensures var t := ClockBits(m, bits);
            (m.slaveMode ==> (t.state == Mosi <==> bits == Bits(MosiCondition))
                             && (t.state == Miso <==> bits == Bits(MisoCondition)))
            && (!m.slaveMode ==> t.state == (if bits[7] then Miso else Mosi))
  {
    AddressPhase(m, bits);
    var b := FromBits(bits);
    ShiftEightHoldsBits(0, bits);
    assert Bits(b) == bits by {
      ShiftEightHoldsBits(m.fifo, bits);
    }
    BitsRoundTrip(MosiCondition);
    BitsRoundTrip(MisoCondition);
    assert (b & 1 != 0) == Bit(b, 0);
  }

  /** One clock period inside a transfer. */
  lemma TransferBit(m: Module, bit: bool)
    requires ValidModule(m) && !m.sclValue && (m.state == Mosi || m.state == Miso)
    requires m.counter + 1 < SoftSlave.UintLimit
    ensures var c := m.counter + 1;
            ClockBit(m, bit)
            == m.(sdaValue := bit, fifo := Shifted(m.fifo, bit), counter := c,
                  ack := if c % 9 == 8 then (if m.state == Mosi then AckMiso else AckMosi)
                         else if c % 9 == 0 then AckNull else m.ack)
  {
  }

  /** The acknowledge state a transfer sets for the acknowledging side. */
  function AckSide(s: State): AckState
  {
    if s == Mosi then AckMiso else AckMosi
  }

  /** The first `k` bits of a group of nine that starts on an acknowledge
      clock: the acknowledge state is NULL from the first bit on, and every
      bit is shifted and counted. */
  lemma GroupPrefix(m: Module, bits: seq<bool>)
    requires ValidModule(m) && !m.sclValue && (m.state == Mosi || m.state == Miso)
    requires m.counter % 9 == 8 && m.counter + 9 < SoftSlave.UintLimit && 1 <= |bits| <= 8
    ensures var t := ClockBits(m, bits);
            t.state == m.state && t.counter == m.counter + |bits| && t.ack == AckNull
            && t.fifo == ShiftAll(m.fifo, bits) && !t.sclValue && t.slaveMode == m.slaveMode
  {
    var first := ClockBit(m, bits[0]);
    TransferBit(m, bits[0]);
    assert (m.counter + 1) % 9 == 0 by {
      GroupMod(m.counter, 1);
    }
    RunBits(first, bits[1..]);
  }

  /** Bits clocked strictly inside a group (the counter never reaches the
      acknowledge position or the start of the next group) are shifted and
      counted and leave the acknowledge state alone. */
  lemma {:induction false} RunBits(m: Module, bits: seq<bool>)
    requires ValidModule(m) && !m.sclValue && (m.state == Mosi || m.state == Miso)
    requires m.counter % 9 + |bits| <= 7 && m.counter + |bits| < SoftSlave.UintLimit
    ensures var t := ClockBits(m, bits);
            t.state == m.state && t.counter == m.counter + |bits| && t.ack == m.ack
            && t.fifo == ShiftAll(m.fifo, bits) && !t.sclValue && t.slaveMode == m.slaveMode
    decreases |bits|
  {
    if bits != [] {
      var next := ClockBit(m, bits[0]);
      TransferBit(m, bits[0]);
      assert (m.counter + 1) % 9 == m.counter % 9 + 1 by {
        ModNext(m.counter);
      }
      RunBits(next, bits[1..]);
    }
  }

  lemma ModNext(c: nat)
    requires c % 9 < 8
    ensures (c + 1) % 9 == c % 9 + 1
  {
  }

  lemma GroupMod(c: nat, k: nat)
    requires c % 9 == 8 && 1 <= k <= 9
    ensures (c + k) % 9 == k - 1
  {
  }

  /** After the address phase (counter 8) or a whole group, the next nine
      clock periods are the acknowledge bit and one data byte: afterwards the
      fifo holds that byte, most significant bit first, and the acknowledge
      state names the side that acknowledges it (the module itself after a
      master write, the master after a read). */
  lemma DataGroup(m: Module, bits: seq<bool>)
    requires ValidModule(m) && !m.sclValue && (m.state == Mosi || m.state == Miso)
    requires m.counter % 9 == 8 && m.counter + 9 < SoftSlave.UintLimit && |bits| == 9
    ensures var t := ClockBits(m, bits);
            t.state == m.state && t.counter == m.counter + 9 && t.fifo == FromBits(bits[1..])
            && t.ack == AckSide(m.state) && t.counter % 9 == 8
  {
    var front := bits[..8];
    GroupPrefix(m, front);
    assert (m.counter + 8) % 9 == 7 by {
      GroupMod(m.counter, 8);
    }
    LastBit(m, front, bits[8]);
    assert ClockBits(m, front + [bits[8]]) == ClockBits(m, bits) by {
      assert front + [bits[8]] == bits;
    }
    assert (m.counter + 9) % 9 == 8 by {
      GroupMod(m.counter, 9);
    }
    NineKeepLastEight(m.fifo, bits);
  }

  /** The ninth bit of a group: the acknowledge state names the side that
      acknowledges the byte just shifted in. */
  lemma LastBit(m: Module, front: seq<bool>, bit: bool)
    requires ValidModule(m)
    requires var p := ClockBits(m, front);
             !p.sclValue && (p.state == Mosi || p.state == Miso)
             && p.counter % 9 == 7 && p.counter + 1 < SoftSlave.UintLimit
    ensures var p := ClockBits(m, front);
            var t := ClockBits(m, front + [bit]);
            t.state == p.state && t.counter == p.counter + 1 && t.ack == AckSide(p.state)
            && t.fifo == Shifted(p.fifo, bit) && !t.sclValue
  {
    var p := ClockBits(m, front);
    assert ClockBits(m, front + [bit]) == ClockBit(p, bit) by {
      ClockBitsSnoc(m, front, bit);
    }
    AckBit(p, bit);
  }

  lemma AckBit(p: Module, bit: bool)
    requires ValidModule(p) && !p.sclValue && (p.state == Mosi || p.state == Miso)
    requires p.counter % 9 == 7 && p.counter + 1 < SoftSlave.UintLimit
    ensures var t := ClockBit(p, bit);
            t.state == p.state && t.counter == p.counter + 1 && t.ack == AckSide(p.state)
            && t.fifo == Shifted(p.fifo, bit) && !t.sclValue
  {
    TransferBit(p, bit);
  }

  /** Nine bits shifted through the fifo leave the last eight. */
  lemma NineKeepLastEight(d: bv8, bits: seq<bool>)
    requires |bits| == 9
    ensures Shifted(ShiftAll(d, bits[..8]), bits[8]) == FromBits(bits[1..])
  {
    ShiftAllSnoc(d, bits[..8], bits[8]);
    assert bits[..8] + [bits[8]] == bits;
    assert ShiftAll(d, bits) == ShiftAll(Shifted(d, bits[0]), bits[1..]);
    ShiftEightHoldsBits(Shifted(d, bits[0]), bits[1..]);
  }

  // ---------------------------------------------------------------------
  // The status LEDs

  /** The seven status LEDs `set_state` drives. */
  datatype Leds = Leds(i2cNull: bool, i2cStart: bool, i2cRx: bool, i2cTx: bool,
                       ackNull: bool, ackRx: bool, ackTx: bool)

  /** `set_state`: each LED shows one enumerator's bit of the state codes;
      the RX LEDs show MISO and the TX LEDs MOSI. */
  function StateLeds(s: State, a: AckState): Leds
  {
    Leds(StateCode(s) & 0x1 != 0, StateCode(s) & 0x2 != 0, StateCode(s) & 0x8 != 0, StateCode(s) & 0x4 != 0,
         AckCode(a) & 0x1 != 0, AckCode(a) & 0x4 != 0, AckCode(a) & 0x2 != 0)
  }

  /** Exactly one state LED and one acknowledge LED is lit, the one naming
      the state, except before the first START or STOP, when all are dark. */
  lemma StateLedsOneHot(s: State, a: AckState)
    ensures var l := StateLeds(s, a);
            (l.i2cNull <==> s == Null) && (l.i2cStart <==> s == Start)
            && (l.i2cRx <==> s == Miso) && (l.i2cTx <==> s == Mosi)
            && (l.ackNull <==> a == AckNull) && (l.ackRx <==> a == AckMiso) && (l.ackTx <==> a == AckMosi)
  {
  }

  // ---------------------------------------------------------------------
  // The globals and the handlers

  /** The module's globals: the recorded line levels, the mode, both
      protocol states, the fifo byte and the bit counter. */
  class ArcadeButton {
    var sdaValue: bool
    var sclValue: bool
    var slaveMode: bool
    var state: State
    var ack: AckState
    var fifo: bv8
    var counter: nat

    function Snapshot(): Module
      reads this
    {
      Module(sdaValue, sclValue, slaveMode, state, ack, fifo, counter)
    }

    predicate Valid()
      reads this
    {
      counter < SoftSlave.UintLimit
    }

    /** Static initialisation and `main`: the states and the fifo are zero,
        and the levels and the mode are read from the pins. */
    constructor (sdaNow: bool, sclNow: bool, switchNow: bool)
      ensures Valid()
      ensures Snapshot() == Module(sdaNow, sclNow, switchNow, Unset, AckUnset, 0, 0)
    {
      state := Unset;
      ack := AckUnset;
      fifo := 0;
      counter := 0;
      sdaValue := sdaNow;
      sclValue := sclNow;
      slaveMode := switchNow;
    }

    /** `shift_in` on the fifo and `bit_counter++`. */
    method ShiftAndCount()
      requires Valid()
      modifies this
      ensures Valid()
      ensures Snapshot() == old(Snapshot()).(fifo := Shifted(old(fifo), old(sdaValue)),
                                            counter := SoftSlave.Inc(old(counter)))
    {
      fifo := fifo << 1;
      fifo := (fifo & !1) | (if sdaValue then 1 else 0);
      counter := if counter + 1 == SoftSlave.UintLimit then 0 else counter + 1;
    }

    /** `scl_handler`. */
    method SclHandler(event: bv32)
      requires Valid()
      modifies this
      ensures Valid() && Snapshot() == SclStep(old(Snapshot()), event)
    {
      if event == Bus.EDGE_RISE {
        sclValue := true;
        if state == Start {
          ShiftAndCount();
          if counter == 8 {
            if slaveMode {
              if fifo == MosiCondition {
                state := Mosi;
                ack := AckMiso;
              } else if fifo == MisoCondition {
                state := Miso;
                ack := AckMiso;
              } else {
                state := Null;
                ack := AckNull;
              }
            } else {
              state := if fifo & 1 != 0 then Miso else Mosi;
              ack := AckMiso;
            }
            fifo := 0;
          }
        } else if state == Mosi {
          ShiftAndCount();
          if counter % 9 == 8 {
            ack := AckMiso;
          } else if counter % 9 == 0 {
            ack := AckNull;
          }
        } else if state == Miso {
          ShiftAndCount();
          if counter % 9 == 8 {
            ack := AckMosi;
          } else if counter % 9 == 0 {
            ack := AckNull;
          }
        }
      } else if event == Bus.EDGE_FALL {
        sclValue := false;
      }
    }

    /** `sda_handler`. */
    method SdaHandler(event: bv32)
      requires Valid()
      modifies this
      ensures Valid() && Snapshot() == SdaStep(old(Snapshot()), event)
    {
      if event == Bus.EDGE_RISE {
        sdaValue := true;
        if sclValue {
          state := Null;
          ack := AckNull;
          fifo := 0;
          counter := 0;
        }
      } else if event == Bus.EDGE_FALL {
        sdaValue := false;
        if sclValue {
          state := Start;
          ack := AckNull;
          fifo := 0;
          counter := 0;
        }
      }
    }

    /** `slave_mode_handler`. */
    method SlaveModeHandler(event: bv32)
      requires Valid()
      modifies this
      ensures Valid() && Snapshot() == SwitchStep(old(Snapshot()), event)
    {
      if event == Bus.EDGE_FALL {
        slaveMode := false;
        fifo := 0;
        counter := 0;
      } else if event == Bus.EDGE_RISE {
        slaveMode := true;
        fifo := 0;
        counter := 0;
      }
    }

    /** `trigger_handler`: SCL pin first, then SDA pin, then the switch;
        an event on any other pin changes nothing. */
    method TriggerHandler(gpio: int, event: bv32)
      requires Valid()
      modifies this
      ensures Valid() && Snapshot() == TriggerStep(old(Snapshot()), gpio, event)
    {
      if gpio == SclPin {
        SclHandler(event);
      } else if gpio == SdaPin {
        SdaHandler(event);
      } else if gpio == SwitchPin {
        SlaveModeHandler(event);
      }
    }

    /** `set_state`. */
    function StatusLeds(): (r: Leds)
      reads this
      ensures r.i2cStart <==> state == Start
    {
      StateLeds(state, ack)
    }
  }
}
