/** The interrupt-driven bit-banged I2C slave `i2c_software_slave`: one class
    instance per slave, a state machine advanced by the SDA and SCL edge
    interrupts, and a fixed table of at most 16 instances that the GPIO
    interrupt is dispatched through. Each handler call is one atomic step;
    the line levels it reads with `gpio_get` are its parameters. The event
    handler it calls back is recorded as a call, and the byte that handler
    leaves in the fifo (it is passed by reference) is a parameter too. */
module SoftSlave {
  import opened Fifo8
  import Bus

  /** `i2c_software_slave_event`. */
  datatype SlaveEvent = StartEvent | ReceiveEvent | RequestEvent | StopEvent | NullEvent

  /** `i2c_state_t`. */
  datatype I2cState = Start | Transmit | Receive | Null

  /** `i2c_acknowledge_state_t`. */
  datatype AckState = AckTransmit | AckReceive | AckNull

  /** The enumerator values of the three enums. */
  function EventCode(e: SlaveEvent): (r: nat)
    ensures 1 <= r <= 5
  {
    match e
    case StartEvent => 1 case ReceiveEvent => 2 case RequestEvent => 3
    case StopEvent => 4 case NullEvent => 5
  }

  function StateCode(s: I2cState): (r: nat)
    ensures 1 <= r <= 4
  {
    match s
    case Start => 1 case Transmit => 2 case Receive => 3 case Null => 4
  }

  function AckCode(a: AckState): (r: nat)
    ensures 1 <= r <= 3
  {
    match a
    case AckTransmit => 1 case AckReceive => 2 case AckNull => 3
  }

  /** Distinct enumerators have distinct values. */
  lemma CodesDistinct(e1: SlaveEvent, e2: SlaveEvent, s1: I2cState, s2: I2cState, a1: AckState, a2: AckState)
    ensures EventCode(e1) == EventCode(e2) <==> e1 == e2
    ensures StateCode(s1) == StateCode(s2) <==> s1 == s2
    ensures AckCode(a1) == AckCode(a2) <==> a1 == a2
  {
  }

  /** `MAX_NUMBER_OF_SLAVES`. */
  const MaxSlaves: nat := 16

  /** `uint` arithmetic: the bit counter wraps at 2^32. */
  const UintLimit: nat := 0x1_0000_0000

  function Inc(c: nat): (r: nat)
    requires c < UintLimit
    ensures r < UintLimit
    ensures r == (c + 1) % UintLimit
  {
    if c + 1 == UintLimit then 0 else c + 1
  }

  /** The address byte of a read from this slave: address, R/W bit 1. */
  function TransmitCondition(address: bv8): (r: bv8)
  {
    (address << 1) | 1
  }

  /** The address byte of a write to this slave: address, R/W bit 0. */
  function ReceiveCondition(address: bv8): (r: bv8)
  {
    (address << 1) & !1
  }

  /** The two conditions differ exactly in bit 0, and both carry the low seven
      address bits above it. */
  lemma ConditionsSpec(address: bv8)
    ensures Bit(TransmitCondition(address), 0) && !Bit(ReceiveCondition(address), 0)
    ensures TransmitCondition(address) != ReceiveCondition(address)
    ensures TransmitCondition(address) == ReceiveCondition(address) | 1
    ensures TransmitCondition(address) >> 1 == address & 0x7F
    ensures ReceiveCondition(address) >> 1 == address & 0x7F
  {
  }

  /** A call of the event handler: the event, the byte number and the fifo
      byte it was handed. */
  datatype Call = Call(event: SlaveEvent, byteNumber: nat, data: bv8)

  /** What the slave does to its SDA pin. */
  datatype PinOp = SdaInput | SdaOutput | PutSda(level: bool)

  /** The state the handlers update. */
  datatype Engine = Engine(state: I2cState, ack: AckState, counter: nat, fifo: bv8)

  /** The outcome of one handler call. */
  datatype Step = Step(engine: Engine, calls: seq<Call>, pins: seq<PinOp>)

  predicate ValidEngine(e: Engine)
  {
    e.counter < UintLimit
  }

  /** `reset_values` after the state is set. */
  function Reset(state: I2cState): Engine
  {
    Engine(state, AckNull, 0, 0)
  }

  /** `sda_trigger_handler`: a falling SDA edge while SCL is high is a START,
      a rising one a STOP; anything else changes nothing. */
  function SdaStep(e: Engine, event: bv32, clockHigh: bool, reply: bv8): Step
  {
    if event == Bus.EDGE_FALL && clockHigh then
      Step(Reset(Start).(fifo := reply), [Call(StartEvent, 0, 0)], [])
    else if event == Bus.EDGE_RISE && clockHigh then
      Step(Reset(Null).(fifo := reply), [Call(StopEvent, 0, 0)], [])
    else
      Step(e, [], [])
  }

  /** `scl_trigger_handler`. The test of the falling edge is the assignment
      `event = GPIO_IRQ_EDGE_FALL`, which is always true: every event that is
      not exactly a rising edge takes the falling-edge branch. */
  function SclStep(e: Engine, tx: bv8, rx: bv8, event: bv32, dataHigh: bool, reply: bv8): Step
    requires ValidEngine(e)
  {
    if event == Bus.EDGE_RISE then SclRise(e, tx, rx, dataHigh, reply)
    else SclFall(e, reply)
  }

  /** The rising-edge branch: SDA is read while SCL is high. */
  function SclRise(e: Engine, tx: bv8, rx: bv8, dataHigh: bool, reply: bv8): Step
    requires ValidEngine(e)
  {
    match e.state
    case Start =>
      var f := Shifted(e.fifo, dataHigh);
      if f == tx then Step(Engine(Transmit, AckTransmit, 0, 0), [], [])
      else if f == rx then Step(Engine(Receive, AckTransmit, 0, 0), [], [])
      else Step(e.(fifo := f), [], [])
    case Transmit =>
      if e.ack == AckReceive then
        var counter := if dataHigh && e.counter >= 8 then e.counter - 8 else e.counter;
        Step(e.(ack := AckNull, counter := counter), [], [SdaInput, SdaOutput])
      else Step(e, [], [])
    case Receive =>
      if e.ack == AckNull then
        var f := Shifted(e.fifo, dataHigh);
        var c := Inc(e.counter);
        if c % 8 == 0 then
          Step(Engine(Receive, AckTransmit, c, reply), [Call(ReceiveEvent, c / 8, f)], [SdaInput])
        else Step(Engine(Receive, AckNull, c, f), [], [SdaInput])
      else Step(e, [], [])
    case Null => Step(e, [], [])
  }

  /** The falling-edge branch: SDA is changed while SCL is low. */
  function SclFall(e: Engine, reply: bv8): Step
    requires ValidEngine(e)
  {
    match e.state
    case Transmit =>
      if e.ack == AckTransmit then Step(e.(ack := AckNull), [], [SdaOutput, PutSda(false)])
      else if e.ack == AckNull then SendBit(e, reply)
      else Step(e, [], [])
    case Receive =>
      if e.ack == AckTransmit then Step(e.(ack := AckNull), [], [SdaOutput, PutSda(false)])
      else Step(e, [], [])
    case _ => Step(e, [], [])
  }

  /** One data bit of a transmitted byte: at a byte boundary the handler is
      asked for the byte, then the fifo's high bit is driven and shifted out. */
  function SendBit(e: Engine, reply: bv8): Step
    requires ValidEngine(e)
  {
    var calls := if e.counter % 8 == 0 then [Call(RequestEvent, e.counter / 8, e.fifo)] else [];
    var f := if e.counter % 8 == 0 then reply else e.fifo;
    var c := Inc(e.counter);
    Step(Engine(Transmit, if c % 8 == 0 then AckReceive else AckNull, c, Shifted(f, false)),
         calls, [PutSda(Msb(f))])
  }

  /** Both handlers keep the counter within a `uint`. */
  lemma StepsValid(e: Engine, tx: bv8, rx: bv8, event: bv32, level: bool, reply: bv8)
    requires ValidEngine(e)
    ensures ValidEngine(SdaStep(e, event, level, reply).engine)
    ensures ValidEngine(SclStep(e, tx, rx, event, level, reply).engine)
  {
  }

  // ---------------------------------------------------------------------
  // One handler call at a time

  /** START and STOP: with SCL high, a falling SDA edge enters START and a
      rising one NULL; both reset fifo, acknowledge state and counter, and
      call the handler once, with byte number 0 and the cleared fifo. With
      SCL low, or for any other event, nothing happens. */
  lemma SdaStepSpec(e: Engine, event: bv32, clockHigh: bool, reply: bv8)
    ensures var s := SdaStep(e, event, clockHigh, reply);
            s.pins == []
            && (event == Bus.EDGE_FALL && clockHigh ==>
                  s.engine == Engine(Start, AckNull, 0, reply) && s.calls == [Call(StartEvent, 0, 0)])
            && (event == Bus.EDGE_RISE && clockHigh ==>
                  s.engine == Engine(Null, AckNull, 0, reply) && s.calls == [Call(StopEvent, 0, 0)])
            && (!clockHigh || (event != Bus.EDGE_FALL && event != Bus.EDGE_RISE) ==>
                  s.engine == e && s.calls == [])
  {
  }

  /** The address phase: every rising edge shifts SDA in and compares the
      fifo with both conditions, after every bit; a match acknowledges with
      a cleared fifo and counter, no match stays in START. */
  lemma AddressStepSpec(e: Engine, tx: bv8, rx: bv8, dataHigh: bool, reply: bv8)
    requires ValidEngine(e) && e.state == Start
    ensures var s := SclStep(e, tx, rx, Bus.EDGE_RISE, dataHigh, reply);
            var f := Shifted(e.fifo, dataHigh);
            s.calls == [] && s.pins == []
            && (f == tx ==> s.engine == Engine(Transmit, AckTransmit, 0, 0))
            && (f != tx && f == rx ==> s.engine == Engine(Receive, AckTransmit, 0, 0))
            && (f != tx && f != rx ==> s.engine == e.(fifo := f))
  {
  }

  /** The master's acknowledge of a transmitted byte: the acknowledge state
      returns to NULL, and a NACK (SDA high) winds the counter back one byte,
      never below zero. */
  lemma AckSampleSpec(e: Engine, tx: bv8, rx: bv8, dataHigh: bool, reply: bv8)
    requires ValidEngine(e) && e.state == Transmit && e.ack == AckReceive
    ensures var s := SclStep(e, tx, rx, Bus.EDGE_RISE, dataHigh, reply).engine;
            s.ack == AckNull && s.state == Transmit && s.fifo == e.fifo
            && s.counter == (if dataHigh && e.counter >= 8 then e.counter - 8 else e.counter)
            && s.counter <= e.counter
  {
  }

  /** Receiving: each rising edge shifts one bit in and counts it; at a
      multiple of eight the handler gets the byte, numbered counter / 8, and
      the slave prepares its acknowledge. */
  lemma ReceiveStepSpec(e: Engine, tx: bv8, rx: bv8, dataHigh: bool, reply: bv8)
    requires ValidEngine(e) && e.state == Receive && e.ack == AckNull && e.counter + 1 < UintLimit
    ensures var s := SclStep(e, tx, rx, Bus.EDGE_RISE, dataHigh, reply);
            var c := e.counter + 1;
            s.engine.counter == c && s.engine.state == Receive
            && (c % 8 == 0 ==> s.calls == [Call(ReceiveEvent, c / 8, Shifted(e.fifo, dataHigh))]
                               && s.engine.ack == AckTransmit && s.engine.fifo == reply)
            && (c % 8 != 0 ==> s.calls == [] && s.engine.ack == AckNull
                               && s.engine.fifo == Shifted(e.fifo, dataHigh))
  {
  }

  /** Transmitting: each falling edge drives the next bit; at a byte boundary
      the handler is asked for the byte first; after the eighth bit the slave
      waits for the master's acknowledge. */
  lemma TransmitStepSpec(e: Engine, tx: bv8, rx: bv8, event: bv32, reply: bv8)
    requires ValidEngine(e) && e.state == Transmit && e.ack == AckNull && e.counter + 1 < UintLimit
    requires event != Bus.EDGE_RISE
    ensures var s := SclStep(e, tx, rx, event, false, reply);
            var f := if e.counter % 8 == 0 then reply else e.fifo;
            s.engine.counter == e.counter + 1 && s.engine.state == Transmit
            && s.pins == [PutSda(Msb(f))] && s.engine.fifo == Shifted(f, false)
            && s.calls == (if e.counter % 8 == 0 then [Call(RequestEvent, e.counter / 8, e.fifo)] else [])
            && (s.engine.ack == AckReceive <==> (e.counter + 1) % 8 == 0)
  {
  }

  /** Driving the acknowledge: a falling edge (or any event but a rising one)
      with the acknowledge pending pulls SDA low and clears the acknowledge
      state, in TRANSMIT and RECEIVE alike; counter and fifo stay. */
  lemma DriveAckSpec(e: Engine, tx: bv8, rx: bv8, event: bv32, level: bool, reply: bv8)
    requires ValidEngine(e) && (e.state == Transmit || e.state == Receive) && e.ack == AckTransmit
    requires event != Bus.EDGE_RISE
    ensures SclStep(e, tx, rx, event, level, reply)
         == Step(e.(ack := AckNull), [], [SdaOutput, PutSda(false)])
  {
  }

  /** In NULL the SCL handler does nothing at all. */
  lemma IdleSclSpec(e: Engine, tx: bv8, rx: bv8, event: bv32, level: bool, reply: bv8)
    requires ValidEngine(e) && e.state == Null
    ensures SclStep(e, tx, rx, event, level, reply) == Step(e, [], [])
  {
  }

  // ---------------------------------------------------------------------
  // Whole bytes

  /** Rising SCL edges, with the SDA levels `bits`, in the address phase. */
  function AddressRun(e: Engine, tx: bv8, rx: bv8, bits: seq<bool>): Engine
    requires ValidEngine(e)
    decreases |bits|
  {
    if bits == [] || e.state != Start then e
    else
      AddressRun(SclRise(e, tx, rx, bits[0], 0).engine, tx, rx, bits[1..])
  }

  /** While no condition has matched, the fifo holds the bits shifted in so far. */
  lemma {:induction false} AddressRunNoMatch(f: bv8, tx: bv8, rx: bv8, bits: seq<bool>)
    requires forall k :: 1 <= k <= |bits| ==> ShiftAll(f, bits[..k]) != tx && ShiftAll(f, bits[..k]) != rx
    ensures AddressRun(Engine(Start, AckNull, 0, f), tx, rx, bits) == Engine(Start, AckNull, 0, ShiftAll(f, bits))
    decreases |bits|
  {
    if bits != [] {
      var g := Shifted(f, bits[0]);
      assert bits[..1] == [bits[0]];
      assert ShiftAll(f, [bits[0]]) == g;
      forall k | 1 <= k <= |bits[1..]|
        ensures ShiftAll(g, bits[1..][..k]) != tx && ShiftAll(g, bits[1..][..k]) != rx
      {
        assert bits[..k + 1][1..] == bits[1..][..k];
        assert ShiftAll(f, bits[..k + 1]) == ShiftAll(g, bits[1..][..k]);
      }
      AddressRunNoMatch(g, tx, rx, bits[1..]);
    }
  }

  /** Fewer than eight bits shifted into a cleared fifo leave bit 7 clear. */
  lemma ShortShiftHighClear(bits: seq<bool>)
    requires |bits| < 8
    ensures !Bit(ShiftAll(0, bits), 7)
  {
    ShiftAllBit(0, bits, 7);
  }

  /** For an address with bit 6 set both conditions have bit 7 set, so no
      prefix of the first seven bits can match: after the START and the eight
      address bits the slave is in TRANSMIT exactly when the byte was its
      read condition, in RECEIVE exactly when it was its write condition. */
  lemma AddressPhase(address: bv8, b: bv8)
    requires Bit(address, 6)
    ensures var e := AddressRun(Reset(Start), TransmitCondition(address), ReceiveCondition(address), Bits(b));
            (e.state == Transmit <==> b == TransmitCondition(address))
            && (e.state == Receive <==> b == ReceiveCondition(address))
            && (e.state == Start <==> b != TransmitCondition(address) && b != ReceiveCondition(address))
            && (e.state != Start ==> e == Engine(e.state, AckTransmit, 0, 0))
  {
    var tx, rx := TransmitCondition(address), ReceiveCondition(address);
    var bits := Bits(b);
    assert Bit(tx, 7) && Bit(rx, 7) by {
      ConditionsHighBit(address);
    }
    var front := bits[..7];
    forall k | 1 <= k <= |front|
      ensures ShiftAll(0, front[..k]) != tx && ShiftAll(0, front[..k]) != rx
    {
      ShortShiftHighClear(front[..k]);
    }
    AddressRunNoMatch(0, tx, rx, front);
    var e7 := Engine(Start, AckNull, 0, ShiftAll(0, front));
    assert AddressRun(Reset(Start), tx, rx, bits) == AddressRun(e7, tx, rx, bits[7..]) by {
      AddressRunSplit(Reset(Start), tx, rx, front, bits[7..]);
      assert front + bits[7..] == bits;
    }
    assert Shifted(ShiftAll(0, front), bits[7]) == b by {
      ShiftAllSnoc(0, front, bits[7]);
      assert front + [bits[7]] == bits;
      BitsRoundTrip(b);
    }
    assert bits[7..] == [bits[7]];
    assert AddressRun(e7, tx, rx, [bits[7]]) == SclRise(e7, tx, rx, bits[7], 0).engine;
  }

  /** The comparison after every bit lets a prefix of the address byte
      match: a slave at address 0x01 (write condition 0x02) sees 0x02 in its
      fifo after the first seven bits of 0x04, a write to address 0x02, and
      enters RECEIVE. `AddressPhase` asks for bit 6 of the address because
      that is what rules such prefixes out. */
  lemma PrefixMatch()
    ensures var e := AddressRun(Reset(Start), TransmitCondition(1), ReceiveCondition(1), Bits(0x04));
            e.state == Receive && e == Engine(Receive, AckTransmit, 0, 0)
  {
    var tx, rx := TransmitCondition(1), ReceiveCondition(1);
    assert tx == 3 && rx == 2;
    assert Bits(0x04) == [false, false, false, false, false, true, false, false];
    var z := Reset(Start);
    var one := z.(fifo := 1);
    assert Shifted(0, false) == 0 && Shifted(0, true) == 1 && Shifted(1, false) == 2;
    assert AddressRun(z, tx, rx, [false, false, false, false, false, true, false, false])
        == AddressRun(z, tx, rx, [false, false, false, false, true, false, false]);
    assert AddressRun(z, tx, rx, [false, false, false, false, true, false, false])
        == AddressRun(z, tx, rx, [false, false, false, true, false, false]);
    assert AddressRun(z, tx, rx, [false, false, false, true, false, false])
        == AddressRun(z, tx, rx, [false, false, true, false, false]);
    assert AddressRun(z, tx, rx, [false, false, true, false, false])
        == AddressRun(z, tx, rx, [false, true, false, false]);
    assert AddressRun(z, tx, rx, [false, true, false, false])
        == AddressRun(z, tx, rx, [true, false, false]);
    assert AddressRun(z, tx, rx, [true, false, false]) == AddressRun(one, tx, rx, [false, false]);
    assert AddressRun(one, tx, rx, [false, false]) == Engine(Receive, AckTransmit, 0, 0);
  }

  /** A write to this slave on a real bus: the falling edge after the
      address byte drives the acknowledge, and the rising edge of that same
      acknowledge clock takes the RECEIVE branch, which turns SDA back to
      input, reads it (`ackLevel`) and counts it as a data bit. The first
      data byte is therefore already off by one: the first RECEIVE call
      comes after seven data bits and hands the handler the level read on
      the acknowledge clock followed by them. */
  lemma WriteAckClockCounted(address: bv8, ackLevel: bool, data: seq<bool>, reply: bv8)
    requires Bit(address, 6) && |data| == 7
    ensures var tx := TransmitCondition(address);
            var rx := ReceiveCondition(address);
            var e := AddressRun(Reset(Start), tx, rx, Bits(rx));
            e == Engine(Receive, AckTransmit, 0, 0)
            && var fall := SclStep(e, tx, rx, Bus.EDGE_FALL, false, reply);
            var rise := SclStep(fall.engine, tx, rx, Bus.EDGE_RISE, ackLevel, reply);
            fall.pins == [SdaOutput, PutSda(false)]
            && rise.calls == [] && rise.engine == Engine(Receive, AckNull, 1, Shifted(0, ackLevel))
            && ReceiveRun(rise.engine, tx, rx, data, reply).calls
               == [Call(ReceiveEvent, 1, FromBits([ackLevel] + data))]
  {
    var tx := TransmitCondition(address);
    var rx := ReceiveCondition(address);
    ConditionsSpec(address);
    AddressPhase(address, rx);
    var e := AddressRun(Reset(Start), tx, rx, Bits(rx));
    assert e == Engine(Receive, AckTransmit, 0, 0);
    DriveAckSpec(e, tx, rx, Bus.EDGE_FALL, false, reply);
    var e0 := Engine(Receive, AckNull, 0, 0);
    ReceiveByte(e0, tx, rx, [ackLevel] + data, reply);
    ReceiveRunSplit(e0, tx, rx, [ackLevel], data, reply);
    assert ([ackLevel] + data)[1..] == data;
    assert ReceiveRun(e0, tx, rx, [ackLevel], reply)
        == Step(Engine(Receive, AckNull, 1, Shifted(0, ackLevel)), [], [SdaInput]);
  }

  lemma ConditionsHighBit(address: bv8)
    requires Bit(address, 6)
    ensures Bit(TransmitCondition(address), 7) && Bit(ReceiveCondition(address), 7)
  {
  }

  /** Running the address phase over `a + b` runs it over `a`, then `b`. */
  lemma {:induction false} AddressRunSplit(e: Engine, tx: bv8, rx: bv8, a: seq<bool>, b: seq<bool>)
    requires ValidEngine(e)
    ensures ValidEngine(AddressRun(e, tx, rx, a))
    ensures AddressRun(e, tx, rx, a + b) == AddressRun(AddressRun(e, tx, rx, a), tx, rx, b)
    decreases |a|
  {
    if a == [] {
      assert a + b == b;
    } else if e.state != Start {
      AddressRunStays(e, tx, rx, b);
      AddressRunStays(e, tx, rx, a + b);
    } else {
      assert (a + b)[0] == a[0] && (a + b)[1..] == a[1..] + b;
      AddressRunSplit(SclRise(e, tx, rx, a[0], 0).engine, tx, rx, a[1..], b);
    }
  }

  lemma AddressRunStays(e: Engine, tx: bv8, rx: bv8, bits: seq<bool>)
    requires ValidEngine(e) && e.state != Start
    ensures AddressRun(e, tx, rx, bits) == e
  {
  }

  /** `n` falling SCL edges while transmitting; `reply` is the byte the
      handler answers at a byte boundary. */
  function TransmitRun(e: Engine, n: nat, reply: bv8): Step
    requires ValidEngine(e)
    decreases n
  {
    if n == 0 then Step(e, [], [])
    else
      var s := SclFall(e, reply);
      var rest := TransmitRun(s.engine, n - 1, reply);
      Step(rest.engine, s.calls + rest.calls, s.pins + rest.pins)
  }

  /** The pin writes that drive `levels` on SDA, one after the other. */
  function Puts(levels: seq<bool>): seq<PinOp>
  {
    if levels == [] then [] else [PutSda(levels[0])] + Puts(levels[1..])
  }

  /** The bits `k` calls of `shift_in(0)` push out of `d`, in order. */
  function OutBits(d: bv8, k: nat): seq<bool>
    decreases k
  {
    if k == 0 then [] else [Msb(d)] + OutBits(Shifted(d, false), k - 1)
  }

  /** `d` after `k` calls of `shift_in(0)`. */
  function ZeroShifts(d: bv8, k: nat): bv8
    decreases k
  {
    if k == 0 then d else ZeroShifts(Shifted(d, false), k - 1)
  }

  /** Within a byte, `k` more falling edges count `k` bits and leave the
      acknowledge state NULL until the byte's last bit; no handler call. */
  lemma {:induction false} TransmitRunCounts(e: Engine, p: nat, k: nat, reply: bv8)
    requires ValidEngine(e) && e.state == Transmit && e.ack == AckNull
    requires p == e.counter % 8 && p != 0 && e.counter + k < UintLimit && p + k <= 8
    ensures var r := TransmitRun(e, k, reply);
            r.calls == [] && r.engine.state == Transmit && r.engine.counter == e.counter + k
            && r.engine.ack == (if p + k == 8 then AckReceive else AckNull)
    decreases k
  {
    if k > 0 {
      ModStep(e.counter);
      var next := SendBit(e, reply).engine;
      assert next.counter == e.counter + 1 && next.state == Transmit
          && next.ack == (if p == 7 then AckReceive else AckNull);
      if k > 1 {
        TransmitRunCounts(next, p + 1, k - 1, reply);
      }
    }
  }

  /** Within a byte, `k` more falling edges drive the fifo's next `k` bits,
      MSB first, shifting it as `shift_in(0)` does. */
  lemma {:induction false} TransmitRunBits(e: Engine, p: nat, k: nat, reply: bv8)
    requires ValidEngine(e) && e.state == Transmit && e.ack == AckNull
    requires p == e.counter % 8 && p != 0 && e.counter + k < UintLimit && p + k <= 8
    ensures var r := TransmitRun(e, k, reply);
            r.pins == Puts(OutBits(e.fifo, k)) && r.engine.fifo == ZeroShifts(e.fifo, k)
    decreases k
  {
    if k > 0 {
      ModStep(e.counter);
      var s := SendBit(e, reply);
      assert s.engine == Engine(Transmit, if p == 7 then AckReceive else AckNull, e.counter + 1, Shifted(e.fifo, false))
          && s.pins == [PutSda(Msb(e.fifo))] && s.calls == [];
      var rest := TransmitRun(s.engine, k - 1, reply);
      assert TransmitRun(e, k, reply).pins == [PutSda(Msb(e.fifo))] + rest.pins;
      if k > 1 {
        TransmitRunBits(s.engine, p + 1, k - 1, reply);
      }
    }
  }

  /** The counter's position within its byte after one more bit. */
  lemma ModStep(c: nat)
    ensures (c + 1) % 8 == if c % 8 == 7 then 0 else c % 8 + 1
  {
  }

  /** The bits `shift_in(0)` pushes out are the old contents, MSB first. */
  lemma {:induction false} OutBitsAreShiftedOut(d: bv8, k: nat)
    ensures OutBits(d, k) == ShiftedOut(d, seq(k, i => false))
    decreases k
  {
    if k > 0 {
      var zeros := seq(k, i => false);
      assert zeros[0] == false && zeros[1..] == seq(k - 1, i => false);
      OutBitsAreShiftedOut(Shifted(d, false), k - 1);
    }
  }

  /** The first bit of a byte: the handler call, and the counter one into the byte. */
  lemma FirstBit(e: Engine, reply: bv8)
    requires ValidEngine(e) && e.state == Transmit && e.ack == AckNull
    requires e.counter % 8 == 0 && e.counter + 8 < UintLimit
    ensures var s := SendBit(e, reply);
            s.engine == Engine(Transmit, AckNull, e.counter + 1, Shifted(reply, false))
            && s.calls == [Call(RequestEvent, e.counter / 8, e.fifo)] && s.pins == [PutSda(Msb(reply))]
            && s.engine.counter % 8 == 1 && s.engine.counter + 7 < UintLimit
            && SclFall(e, reply) == s
  {
    ModStep(e.counter);
  }

  /** One byte of a read from this slave: at the byte boundary the handler
      is asked for the byte (numbered counter / 8, handed the fifo as it
      was), and eight falling edges then drive the byte it answered on SDA,
      MSB first, after which the slave waits for the master's acknowledge. */
  lemma TransmitByte(e: Engine, reply: bv8)
    requires ValidEngine(e) && e.state == Transmit && e.ack == AckNull
    requires e.counter % 8 == 0 && e.counter + 8 < UintLimit
    ensures var r := TransmitRun(e, 8, reply);
            r.calls == [Call(RequestEvent, e.counter / 8, e.fifo)]
            && r.pins == Puts(Bits(reply))
            && r.engine.state == Transmit && r.engine.ack == AckReceive
            && r.engine.counter == e.counter + 8
  {
    var s := SendBit(e, reply);
    FirstBit(e, reply);
    var rest := TransmitRun(s.engine, 7, reply);
    assert TransmitRun(e, 8, reply) == Step(rest.engine, s.calls + rest.calls, s.pins + rest.pins);
    assert rest.calls == [] && rest.engine.state == Transmit && rest.engine.ack == AckReceive
        && rest.engine.counter == e.counter + 8 by {
      TransmitRunCounts(s.engine, 1, 7, reply);
    }
    assert rest.pins == Puts(OutBits(Shifted(reply, false), 7)) by {
      TransmitRunBits(s.engine, 1, 7, reply);
    }
    assert OutBits(reply, 8) == Bits(reply) by {
      OutBitsAreShiftedOut(reply, 8);
      ShiftEightReturnsOld(reply, seq(8, i => false));
    }
    assert Puts(OutBits(reply, 8)) == s.pins + rest.pins by {
      assert OutBits(reply, 8) == [Msb(reply)] + OutBits(Shifted(reply, false), 7);
    }
    assert s.calls + [] == s.calls;
  }

  /** Rising SCL edges with the SDA levels `bits` while receiving; `reply`
      is the byte the handler leaves in the fifo at a byte boundary. */
  function ReceiveRun(e: Engine, tx: bv8, rx: bv8, bits: seq<bool>, reply: bv8): Step
    requires ValidEngine(e)
    decreases |bits|
  {
    if bits == [] then Step(e, [], [])
    else
      var s := SclRise(e, tx, rx, bits[0], reply);
      var rest := ReceiveRun(s.engine, tx, rx, bits[1..], reply);
      Step(rest.engine, s.calls + rest.calls, s.pins + rest.pins)
  }

  /** `n` switches of SDA to input. */
  function Inputs(n: nat): seq<PinOp>
  {
    if n == 0 then [] else [SdaInput] + Inputs(n - 1)
  }

  /** Before a byte's last bit, each rising edge shifts its bit in and counts
      it without calling the handler. */
  lemma {:induction false} ReceiveRunPartial(e: Engine, tx: bv8, rx: bv8, p: nat, bits: seq<bool>, reply: bv8)
    requires ValidEngine(e) && e.state == Receive && e.ack == AckNull
    requires p == e.counter % 8 && p + |bits| <= 7 && e.counter + |bits| < UintLimit
    ensures var r := ReceiveRun(e, tx, rx, bits, reply);
            r.calls == [] && r.pins == Inputs(|bits|)
            && r.engine == Engine(Receive, AckNull, e.counter + |bits|, ShiftAll(e.fifo, bits))
    decreases |bits|
  {
    if bits != [] {
      ModStep(e.counter);
      var s := SclRise(e, tx, rx, bits[0], reply);
      assert s == Step(Engine(Receive, AckNull, e.counter + 1, Shifted(e.fifo, bits[0])), [], [SdaInput]);
      ReceiveRunPartial(s.engine, tx, rx, p + 1, bits[1..], reply);
    }
  }

  /** One byte of a write to this slave: eight rising edges from a byte
      boundary hand the handler the eight bits as one byte, MSB first,
      numbered by the new counter / 8, whatever the fifo held before; the
      slave then holds the handler's byte and prepares its acknowledge. */
  lemma ReceiveByte(e: Engine, tx: bv8, rx: bv8, bits: seq<bool>, reply: bv8)
    requires ValidEngine(e) && e.state == Receive && e.ack == AckNull
    requires e.counter % 8 == 0 && e.counter + 8 < UintLimit && |bits| == 8
    ensures var r := ReceiveRun(e, tx, rx, bits, reply);
            r.calls == [Call(ReceiveEvent, e.counter / 8 + 1, FromBits(bits))]
            && r.pins == Inputs(8)
            && r.engine == Engine(Receive, AckTransmit, e.counter + 8, reply)
  {
    var front := bits[..7];
    assert front + [bits[7]] == bits by {
      assert bits[7..] == [bits[7]];
      assert front + bits[7..] == bits;
    }
    ReceiveRunPartial(e, tx, rx, 0, front, reply);
    var m := ReceiveRun(e, tx, rx, front, reply);
    var e7 := m.engine;
    assert ReceiveRun(e, tx, rx, bits, reply)
        == Step(ReceiveRun(e7, tx, rx, [bits[7]], reply).engine,
                m.calls + ReceiveRun(e7, tx, rx, [bits[7]], reply).calls,
                m.pins + ReceiveRun(e7, tx, rx, [bits[7]], reply).pins) by {
      ReceiveRunSplit(e, tx, rx, front, [bits[7]], reply);
    }
    assert ShiftAll(e.fifo, bits) == FromBits(bits) by {
      ShiftEightHoldsBits(e.fifo, bits);
    }
    assert Shifted(ShiftAll(e.fifo, front), bits[7]) == ShiftAll(e.fifo, bits) by {
      ShiftAllSnoc(e.fifo, front, bits[7]);
    }
    LastReceivedBit(e.counter, e7, tx, rx, bits[7], reply);
    assert Inputs(7) + [SdaInput] == Inputs(8) by {
      InputsSnoc(7);
    }
  }

  /** The eighth bit of a byte completes it. */
  lemma LastReceivedBit(c: nat, e: Engine, tx: bv8, rx: bv8, bit: bool, reply: bv8)
    requires c % 8 == 0 && c + 8 < UintLimit
    requires e == Engine(Receive, AckNull, c + 7, e.fifo)
    ensures ReceiveRun(e, tx, rx, [bit], reply)
         == Step(Engine(Receive, AckTransmit, c + 8, reply),
                 [Call(ReceiveEvent, c / 8 + 1, Shifted(e.fifo, bit))], [SdaInput])
  {
    assert (c + 8) % 8 == 0 && (c + 8) / 8 == c / 8 + 1;
    assert [bit][1..] == [];
  }

  lemma {:induction false} InputsSnoc(n: nat)
    ensures Inputs(n) + [SdaInput] == Inputs(n + 1)
  {
    if n > 0 {
      InputsSnoc(n - 1);
      assert Inputs(n) + [SdaInput] == [SdaInput] + (Inputs(n - 1) + [SdaInput]);
    }
  }

  /** Receiving `a + b` is receiving `a`, then `b`. */
  lemma {:induction false} ReceiveRunSplit(e: Engine, tx: bv8, rx: bv8, a: seq<bool>, b: seq<bool>, reply: bv8)
    requires ValidEngine(e)
    ensures ValidEngine(ReceiveRun(e, tx, rx, a, reply).engine)
    ensures var ra := ReceiveRun(e, tx, rx, a, reply);
            var rb := ReceiveRun(ra.engine, tx, rx, b, reply);
            ReceiveRun(e, tx, rx, a + b, reply) == Step(rb.engine, ra.calls + rb.calls, ra.pins + rb.pins)
    decreases |a|
  {
    if a == [] {
      assert a + b == b;
      var rb := ReceiveRun(e, tx, rx, b, reply);
      assert [] + rb.calls == rb.calls && [] + rb.pins == rb.pins;
    } else {
      var s := SclRise(e, tx, rx, a[0], reply);
      assert (a + b)[0] == a[0] && (a + b)[1..] == a[1..] + b;
      ReceiveRunSplit(s.engine, tx, rx, a[1..], b, reply);
      var ra' := ReceiveRun(s.engine, tx, rx, a[1..], reply);
      var rb := ReceiveRun(ra'.engine, tx, rx, b, reply);
      var rab := ReceiveRun(s.engine, tx, rx, a[1..] + b, reply);
      assert ReceiveRun(e, tx, rx, a + b, reply) == Step(rab.engine, s.calls + rab.calls, s.pins + rab.pins);
      assert ReceiveRun(e, tx, rx, a, reply) == Step(ra'.engine, s.calls + ra'.calls, s.pins + ra'.pins);
      Bus.AppendAssoc(s.calls, ra'.calls, rb.calls);
      Bus.AppendAssoc(s.pins, ra'.pins, rb.pins);
    }
  }

  // ---------------------------------------------------------------------
  // The class

  /** `i2c_software_slave`: the pins and address fixed at construction, the
      state machine, and the fifo held by value. `calls` and `pins` record
      the handler calls made and the SDA pin writes, in order. */
  class Slave {
    const sda: nat
    const scl: nat
    const address: bv8
    const transmitCondition: bv8
    const receiveCondition: bv8
    var state: I2cState
    var ack: AckState
    var counter: nat
    var fifo: bv8
    var calls: seq<Call>
    var pins: seq<PinOp>

    function Snapshot(): Engine
      reads this
    {
      Engine(state, ack, counter, fifo)
    }

    predicate Valid()
      reads this
    {
      counter < UintLimit && transmitCondition == TransmitCondition(address)
      && receiveCondition == ReceiveCondition(address)
    }

    constructor (sdaPin: nat, sclPin: nat, slaveAddress: bv8)
      ensures Valid()
      ensures sda == sdaPin && scl == sclPin && address == slaveAddress
      ensures Snapshot() == Reset(Null) && calls == [] && pins == []
    {
      sda := sdaPin;
      scl := sclPin;
      address := slaveAddress;
      transmitCondition := (slaveAddress << 1) | 1;
      receiveCondition := (slaveAddress << 1) & !1;
      state := Null;
      fifo := 0;
      ack := AckNull;
      counter := 0;
      calls := [];
      pins := [];
    }

    /** `get_sda_pin`. */
    function SdaPin(): (r: nat)
      reads this
      ensures r == sda
    {
      sda
    }

    /** `get_scl_pin`. */
    function SclPin(): (r: nat)
      reads this
      ensures r == scl
    {
      scl
    }

    /** `get_i2c_fifo`. */
    function Fifo(): (r: bv8)
      reads this
      ensures r == Snapshot().fifo
    {
      fifo
    }

    method ResetValues()
      modifies this
      ensures fifo == 0 && ack == AckNull && counter == 0
      ensures state == old(state) && calls == old(calls) && pins == old(pins)
    {
      fifo := 0;
      ack := AckNull;
      counter := 0;
    }

    /** The handler is called with the fifo byte; `reply` is what it leaves there. */
    method CallHandler(event: SlaveEvent, byteNumber: nat, reply: bv8)
      modifies this
      ensures calls == old(calls) + [Call(event, byteNumber, old(fifo))] && fifo == reply
      ensures state == old(state) && ack == old(ack) && counter == old(counter) && pins == old(pins)
    {
      calls := calls + [Call(event, byteNumber, fifo)];
      fifo := reply;
    }

    /** `sda_trigger_handler`; `clockHigh` is the level read from SCL. */
    method SdaTriggerHandler(event: bv32, clockHigh: bool, reply: bv8)
      requires Valid()
      modifies this
      ensures Valid()
      ensures var s := SdaStep(old(Snapshot()), event, clockHigh, reply);
              Snapshot() == s.engine && calls == old(calls) + s.calls && pins == old(pins) + s.pins
    {
      if event == Bus.EDGE_FALL && clockHigh {
        state := Start;
        ResetValues();
        CallHandler(StartEvent, 0, reply);
      } else if event == Bus.EDGE_RISE && clockHigh {
        state := Null;
        ResetValues();
        CallHandler(StopEvent, 0, reply);
      }
      assert pins == old(pins) + [];
    }

    /** `scl_trigger_handler`; `dataHigh` is the level read from SDA. */
    method SclTriggerHandler(event: bv32, dataHigh: bool, reply: bv8)
      requires Valid()
      modifies this
      ensures Valid()
      ensures var s := SclStep(old(Snapshot()), transmitCondition, receiveCondition, event, dataHigh, reply);
              Snapshot() == s.engine && calls == old(calls) + s.calls && pins == old(pins) + s.pins
    {
      if event == Bus.EDGE_RISE {
        SclRising(dataHigh, reply);
      } else {
        SclFalling(reply);
      }
    }

    /** The `GPIO_IRQ_EDGE_RISE` branch. */
    method SclRising(dataHigh: bool, reply: bv8)
      requires Valid()
      modifies this
      ensures Valid()
      ensures var s := SclRise(old(Snapshot()), transmitCondition, receiveCondition, dataHigh, reply);
              Snapshot() == s.engine && calls == old(calls) + s.calls && pins == old(pins) + s.pins
    {
      match state {
        case Start => MatchAddress(dataHigh);
        case Transmit => SampleAck(dataHigh);
        case Receive => ReceiveBit(dataHigh, reply);
        case Null =>
          assert pins == old(pins) + [] && calls == old(calls) + [];
      }
    }

    /** `case I2C_STATE_START` of the rising edge. */
    method MatchAddress(dataHigh: bool)
      requires Valid() && state == Start
      modifies this
      ensures Valid()
      ensures var s := SclRise(old(Snapshot()), transmitCondition, receiveCondition, dataHigh, 0);
              Snapshot() == s.engine && calls == old(calls) && pins == old(pins) && s.calls == [] && s.pins == []
    {
      fifo := Shifted(fifo, dataHigh);
      if fifo == transmitCondition {
        state := Transmit;
        ack := AckTransmit;
        counter := 0;
        fifo := 0;
      } else if fifo == receiveCondition {
        state := Receive;
        ack := AckTransmit;
        counter := 0;
        fifo := 0;
      }
    }

    /** `case I2C_STATE_TRANSMIT` of the rising edge. */
    method SampleAck(dataHigh: bool)
      requires Valid() && state == Transmit
      modifies this
      ensures Valid()
      ensures var s := SclRise(old(Snapshot()), transmitCondition, receiveCondition, dataHigh, 0);
              Snapshot() == s.engine && calls == old(calls) && pins == old(pins) + s.pins && s.calls == []
    {
      if ack == AckReceive {
        pins := pins + [SdaInput];
        var acknowledged := !dataHigh;
        ack := AckNull;
        pins := pins + [SdaOutput];
        if !acknowledged && counter >= 8 {
          counter := counter - 8;
        }
      } else {
        assert pins == old(pins) + [];
      }
    }

    /** `case I2C_STATE_RECEIVE` of the rising edge. */
    method ReceiveBit(dataHigh: bool, reply: bv8)
      requires Valid() && state == Receive
      modifies this
      ensures Valid()
      ensures var s := SclRise(old(Snapshot()), transmitCondition, receiveCondition, dataHigh, reply);
              Snapshot() == s.engine && calls == old(calls) + s.calls && pins == old(pins) + s.pins
    {
      if ack == AckNull {
        pins := pins + [SdaInput];
        fifo := Shifted(fifo, dataHigh);
        counter := Inc(counter);
        if counter % 8 == 0 {
          CallHandler(ReceiveEvent, counter / 8, reply);
          ack := AckTransmit;
        } else {
          assert calls == old(calls) + [];
        }
      } else {
        assert pins == old(pins) + [] && calls == old(calls) + [];
      }
    }

    /** The branch every other event takes. */
    method SclFalling(reply: bv8)
      requires Valid()
      modifies this
      ensures Valid()
      ensures var s := SclFall(old(Snapshot()), reply);
              Snapshot() == s.engine && calls == old(calls) + s.calls && pins == old(pins) + s.pins
    {
      match state {
        case Transmit =>
          if ack == AckTransmit {
            pins := pins + [SdaOutput, PutSda(false)];
            ack := AckNull;
            assert calls == old(calls) + [];
          } else if ack == AckNull {
            TransmitBit(reply);
          } else {
            assert pins == old(pins) + [] && calls == old(calls) + [];
          }
        case Receive =>
          if ack == AckTransmit {
            pins := pins + [SdaOutput, PutSda(false)];
            ack := AckNull;
          }
          assert calls == old(calls) + [];
        case _ =>
          assert pins == old(pins) + [] && calls == old(calls) + [];
      }
    }

    /** Sending one data bit: at a byte boundary the handler supplies the
        byte; the fifo's high bit goes out on SDA. */
    method TransmitBit(reply: bv8)
      requires Valid() && state == Transmit && ack == AckNull
      modifies this
      ensures Valid()
      ensures var s := SendBit(old(Snapshot()), reply);
              Snapshot() == s.engine && calls == old(calls) + s.calls && pins == old(pins) + s.pins
    {
      if counter % 8 == 0 {
        CallHandler(RequestEvent, counter / 8, reply);
      } else {
        assert calls == old(calls) + [];
      }
      var out := Msb(fifo);
      fifo := Shifted(fifo, false);
      pins := pins + [PutSda(out)];
      counter := Inc(counter);
      if counter % 8 == 0 {
        ack := AckReceive;
      }
    }
  }

  // ---------------------------------------------------------------------
  // The instance table

  /** What one instance does with an interrupt on pin `gpio`: the SDA
      handler if it is the instance's SDA pin, else the SCL handler if it is
      its SCL pin, else nothing. `level` gives the level read on each pin. */
  function Dispatched(e: Engine, sda: nat, scl: nat, address: bv8, gpio: nat, event: bv32,
                      level: nat -> bool, reply: bv8): Step
    requires ValidEngine(e)
  {
    if gpio == sda then SdaStep(e, event, level(scl), reply)
    else if gpio == scl then
      SclStep(e, TransmitCondition(address), ReceiveCondition(address), event, level(sda), reply)
    else Step(e, [], [])
  }

  /** The observable state of one instance. */
  datatype View = View(engine: Engine, calls: seq<Call>, pins: seq<PinOp>)

  function After(v: View, s: Step): View
  {
    View(s.engine, v.calls + s.calls, v.pins + s.pins)
  }

  /** An interrupt on a pin that is neither of an instance's pins leaves it
      as it was; one on its SDA pin never touches its SCL-side state. */
  lemma DispatchedSpec(e: Engine, sda: nat, scl: nat, address: bv8, gpio: nat, event: bv32,
                       level: nat -> bool, reply: bv8)
    requires ValidEngine(e)
    ensures gpio != sda && gpio != scl ==> Dispatched(e, sda, scl, address, gpio, event, level, reply) == Step(e, [], [])
    ensures gpio == sda ==> Dispatched(e, sda, scl, address, gpio, event, level, reply).pins == []
  {
  }

  /** `i2c_software_slave_instances` and `number_of_i2c_software_slave_instances`. */
  class Registry {
    const instances: array<Slave?>
    var count: nat

    predicate Valid()
      reads this, instances, set i | 0 <= i < count && i < instances.Length :: instances[i]
    {
      instances.Length == MaxSlaves && count <= MaxSlaves
      && (forall i :: 0 <= i < count ==> instances[i] != null && instances[i].Valid())
      && (forall i, j :: 0 <= i < j < count ==> instances[i] != instances[j])
    }

    /** The empty table. */
    constructor ()
      ensures Valid() && count == 0 && fresh(instances)
    {
      instances := new Slave?[MaxSlaves];
      count := 0;
    }

    /** `i2c_software_slave_init`: the table must have room; the new instance
        goes in the next free slot and the count goes up by one. */
    method Init(sdaPin: nat, sclPin: nat, slaveAddress: bv8) returns (s: Slave)
      requires Valid() && count < MaxSlaves
      modifies this, instances
      ensures Valid() && count == old(count) + 1 && fresh(s)
      ensures instances[old(count)] == s
      ensures forall i :: 0 <= i < old(count) ==> instances[i] == old(instances[i])
      ensures s.sda == sdaPin && s.scl == sclPin && s.address == slaveAddress
      ensures s.Snapshot() == Reset(Null) && s.calls == [] && s.pins == []
    {
      s := new Slave(sdaPin, sclPin, slaveAddress);
      instances[count] := s;
      count := count + 1;
    }

    /** `i2c_software_slave_trigger_handler`: every instance in table order
        gets the interrupt through `Dispatched`. */
    method TriggerHandler(gpio: nat, event: bv32, level: nat -> bool, reply: bv8)
      requires Valid()
      modifies set i | 0 <= i < count :: instances[i]
      ensures Valid()
      ensures forall i :: 0 <= i < count ==>
        var s := instances[i];
        View(s.Snapshot(), s.calls, s.pins)
          == After(old(View(s.Snapshot(), s.calls, s.pins)),
                   Dispatched(old(s.Snapshot()), s.sda, s.scl, s.address, gpio, event, level, reply))
    {
      var i := 0;
      while i < count
        invariant 0 <= i <= count
        invariant Valid()
        invariant forall j :: 0 <= j < i ==>
          var s := instances[j];
          View(s.Snapshot(), s.calls, s.pins)
            == After(old(View(s.Snapshot(), s.calls, s.pins)),
                     Dispatched(old(s.Snapshot()), s.sda, s.scl, s.address, gpio, event, level, reply))
        invariant forall j :: i <= j < count ==>
          var s := instances[j];
          View(s.Snapshot(), s.calls, s.pins) == old(View(s.Snapshot(), s.calls, s.pins))
      {
        Deliver(instances[i], gpio, event, level, reply);
        assert forall j :: 0 <= j < count && j != i ==> instances[j] != instances[i];
        i := i + 1;
      }
    }
  }

  /** The body of the dispatch loop for one instance. */
  method Deliver(s: Slave, gpio: nat, event: bv32, level: nat -> bool, reply: bv8)
    requires s.Valid()
    modifies s
    ensures s.Valid()
    ensures View(s.Snapshot(), s.calls, s.pins)
         == After(old(View(s.Snapshot(), s.calls, s.pins)),
                  Dispatched(old(s.Snapshot()), s.sda, s.scl, s.address, gpio, event, level, reply))
  {
    if gpio == s.SdaPin() {
      s.SdaTriggerHandler(event, level(s.scl), reply);
    } else if gpio == s.SclPin() {
      s.SclTriggerHandler(event, level(s.sda), reply);
    } else {
      assert s.calls == old(s.calls) + [] && s.pins == old(s.pins) + [];
    }
  }
}
