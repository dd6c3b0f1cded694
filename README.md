# Bit-banged I2C on the Raspberry Pi Pico, in Dafny

This project models the software I2C components of the `pico-examples`
repository. Each one drives or watches the two bus lines, SDA and SCL, through
plain GPIO pins and follows the NXP I2C-bus specification UM10204:

- START and STOP conditions (section 3.1.4);
- bytes sent most significant bit first (section 3.1.5);
- the ACK/NACK clock (section 3.1.6);
- the 7-bit address plus R/W bit (section 3.1.10).

The model covers:

- `fifo.dfy` (module `Fifo8`): the 8-bit shift register `fifo_8bit`. Every
  role uses it. It is a `Fifo` class over the pure functions `Shifted` and
  `ShiftAll`.
- `slave.dfy` (module `SoftSlave`): the interrupt-driven slave
  `i2c_software_slave` and its instance table.
  - The `Slave` class holds the state, acknowledge state, bit counter and
    fifo.
  - Its handler methods are proved against the step functions `SdaStep`,
    `SclStep`, `SclRise` and `SclFall`.
  - The event-handler calls and SDA pin writes are logged in order.
  - The `Registry` class is the 16-slot `i2c_software_slave_instances`
    table.
- `callbacks.dfy` (module `SlaveCallbacks`): the two example event handlers
  (increment-and-return, double-and-return) and the demos' `main`.
- `listener.dfy` (module `Listener`): the passive sniffer `i2c_listener`.
  - It runs a mod-9 bit-count state machine.
  - It packs 32-bit records; the records are collected in a sequence.
- `arcade_module.dfy` (module `ArcadeModule`): the arcade button module's
  sniffer/slave-mode state machine, with one-hot state flags.
- `bus.dfy` (module `Bus`): the masters' GPIO.
  - A `Gpio` class appends every write to a trace and takes every SDA read
    from a script of levels.
  - The functions `Run` and `Events` interpret a trace as the master's own
    latches and as the conditions those latches make (START, STOP, clock
    pulses). `Events` looks at latches, not at the wire: a START that only
    happens because the line was released and then retaken is not in it
    (see `Bus.WireStart`).
- `master_cpp.dfy` (module `CppMaster`): the C++ `i2c_software` master.
- `master_demo2.dfy` (module `Demo2Master`): the variant from the second
  arcade demo. It stops after the last byte read, mirrors every bit into a
  fifo, and has a main loop.
- `master_py.dfy` (module `PyMaster`): the MicroPython `I2CBitBang` master.
- `button_master.dfy` (module `ButtonMaster`): the button-fed shift register.
- `test_pins.dfy` (module `TestPins`): the test program's cyclic state
  stepper and walking LED.

Every interrupt handler call is one atomic step. Its inputs are the line
levels the handler reads with `gpio_get`, and, for the slave, the byte the
user's event handler leaves in the by-reference fifo. A master method's
contract ties its new trace and its remaining script to a pure function of
the old script: `WriteByteRun`, `ReadBytesRun`, `WriteRun`, and so on. The
lemmas state what those functions mean on the bus.

Behaviour of the code that the model keeps as written:

- The slave compares the fifo with both address conditions after every bit
  of the address phase, not only after the eighth. A prefix of the address
  byte can therefore match: a slave at 0x01 enters RECEIVE on the first
  seven bits of a write to 0x02 (`SoftSlave.PrefixMatch`). For an address
  with bit 6 set no prefix can match, which is why `SoftSlave.AddressPhase`
  asks for it.
- In the slave's SCL handler, `event = GPIO_IRQ_EDGE_FALL` is an assignment.
  So every event that is not exactly a rising edge takes the falling-edge
  branch.
- While receiving, the slave does not skip the acknowledge clock. Its rising
  edge is shifted in and counted as a data bit, starting with the clock of
  the acknowledge the slave gives to its own address. So even the first
  data byte is off by one: its RECEIVE call comes after seven data bits and
  carries the level read on the acknowledge clock followed by them
  (`SoftSlave.WriteAckClockCounted`). `SoftSlave.ReceiveByte` states one
  byte from a byte boundary.
- While transmitting, the slave samples the master's acknowledge at the
  rising edge that follows its eighth data bit. That is the clock of the
  eighth bit itself, one clock before the acknowledge clock.
- Both C++ master constructors assign `sda = sda; scl = scl;`, their
  parameters to themselves. The member pins therefore keep their
  initialisers, 4 and 5.
- The C++ `read_acknowledge` switches SDA back to output, with its latch
  low, while SCL is still high.
- In the second arcade demo, `read_byte(true)` does not send a NACK before
  the STOP. It pulls SDA low, raises SCL and raises SDA, which is an ACK
  clock followed by a STOP.
- The listener tags every record with state START and puts the fifo byte in
  both the address and the data fields. It sends the record on the ninth
  clock, after the acknowledge bit has been shifted in. So the data byte is
  the last eight bits, acknowledge included, and the "acknowledged" flag
  (the SDA level, high for NACK) always equals the data's bit 0.
- In the arcade module, the counter stays at 8 after the address byte. The
  protocol states start at zero, which names no enumerator (`Unset`).
- The Python `write` sends only the low eight bits of each integer.
- The Python `read(addr, count)` with `count` of zero or less performs the
  START, address and STOP and then fails on `result[0]`. This is the
  `IndexError` result.
- The Python `write_then_read` issues its second START from a held bus.
  This is a repeated START, preceded by one clock pulse.

## Model

| member | source | states |
|---|---|---|
| Fifo8.Fifo.constructor | pico-examples/C++/i2c_arcade_demo/i2c_software_slave_lib.h:36-38 | the register starts empty (`data = 0`) |
| Fifo8.Fifo.ShiftIn | pico-examples/C++/i2c_arcade_demo/i2c_software_slave_lib.h:41-47 | returns the bit that falls off the top and leaves the register shifted up one place with the new bit at the bottom |
| Fifo8.Fifo.Reset | pico-examples/C++/i2c_arcade_demo/i2c_software_slave_lib.h:50-53 | the register is empty again |
| Fifo8.ShiftedBits | pico-examples/C++/i2c_software/slave/i2c_software_slave_lib.h:39-45 | one shift moves every bit up one place, drops bit 7 (the returned bit) and puts the new bit in place 0 |
| Fifo8.Bits | pico-examples/C++/i2c_software/slave/i2c_software_slave_lib.h:36 | a byte read as eight bits, most significant first |
| Fifo8.BitsInjective | pico-examples/C++/i2c_software/slave/i2c_software_slave_lib.h:36 | two bytes with the same eight bits are equal |
| Fifo8.ShiftedOut | pico-examples/C++/i2c_software/slave/i2c_software_slave_lib.h:39-45 | one returned bit per bit shifted in |
| Fifo8.ShiftAllBit | pico-examples/C++/i2c_software/slave/i2c_software_slave_lib.h:39-45 | after up to eight shifts the low places hold the new bits, the latest lowest, and the high places the old low bits |
| Fifo8.ShiftAllSnoc | pico-examples/C++/i2c_software/slave/i2c_software_slave_lib.h:39-45 | shifting in one more bit extends a run of shifts |
| Fifo8.ShiftEightHoldsBits | pico-examples/C++/i2c_software/slave/i2c_software_slave_lib.h:39-45 | after eight shifts the register holds exactly those eight bits, the first as bit 7, whatever it held before |
| Fifo8.ShiftedOutBit | pico-examples/C++/i2c_software/slave/i2c_software_slave_lib.h:41 | while shifting, the returned bits are the old contents from bit 7 down |
| Fifo8.ShiftEightReturnsOld | pico-examples/C++/i2c_software/slave/i2c_software_slave_lib.h:39-45 | eight shifts return the old byte's eight bits in order: the register transmits what it held |
| Fifo8.BitsRoundTrip | pico-examples/C++/i2c_software/slave/i2c_software_slave_lib.h:36 | splitting a byte into bits and shifting them into a register gives the byte back |
| Bus.Gpio.constructor | pico-examples/C++/i2c_software/master/i2c_software_master.cpp:32-46 | a new GPIO view has written nothing and will present the given script of SDA levels |
| Bus.Gpio.PutSda | pico-examples/C++/i2c_software/master/i2c_software_master.cpp:90-93 | `gpio_put(sda, v)` is recorded as one SDA write; nothing is read |
| Bus.Gpio.PutScl | pico-examples/C++/i2c_software/master/i2c_software_master.cpp:100-103 | `gpio_put(scl, v)` is recorded as one SCL write; nothing is read |
| Bus.Gpio.SetSdaOutput | pico-examples/C++/i2c_software/master/i2c_software_master.cpp:147-164 | `gpio_set_dir(sda, …)` is recorded as one direction change; nothing is read |
| Bus.Gpio.Sleep | pico-examples/C++/i2c_software/master/i2c_software_master.cpp:85-88 | a half-period wait is recorded; nothing is read |
| Bus.Gpio.GetSda | pico-examples/C++/i2c_software/master/i2c_software_master.cpp:95-98 | `gpio_get(sda)` returns the next scripted level (high once the script is used up, the pull-up) and consumes it |
| Bus.Clocks | pico-examples/C++/i2c_software/master/i2c_software_master.cpp:126-134 | bits driven one after another show as one clock pulse each, carrying that bit |
| Bus.RunAppend | pico-examples/C++/i2c_software/master/i2c_software_master.cpp:48-65 | the line levels and bus events of two traces run back to back are those of the first followed by those of the second from where it left the lines |
| Bus.CountClocks | pico-examples/C++/i2c_software/master/i2c_software_master.cpp:126-134 | data clock pulses contain no START and no STOP |
| Bus.SamplesAt | pico-examples/C++/i2c_software/master/i2c_software_master.cpp:136-145 | the k-th level sampled is the script's level after k earlier samples |
| SoftSlave.EventCode | pico-examples/C++/i2c_software/slave/i2c_software_slave_lib.h:9-15 | the event enumerators have the values 1 to 5 |
| SoftSlave.StateCode | pico-examples/C++/i2c_software/slave/i2c_software_slave_lib.h:19-24 | the state enumerators have the values 1 to 4 |
| SoftSlave.AckCode | pico-examples/C++/i2c_software/slave/i2c_software_slave_lib.h:27-31 | the acknowledge enumerators have the values 1 to 3 |
| SoftSlave.CodesDistinct | pico-examples/C++/i2c_software/slave/i2c_software_slave_lib.h:9-31 | distinct enumerators have distinct values, in each of the three enums |
| SoftSlave.Inc | pico-examples/C++/i2c_software/slave/i2c_software_slave_lib.h:80 | `i2c_bit_counter++` on a 32-bit `uint` wraps to 0 past 2^32 - 1 |
| SoftSlave.ConditionsSpec | pico-examples/C++/i2c_arcade_demo/i2c_software_slave_lib.h:72-73 | the transmit (read) and receive (write) conditions differ exactly in the R/W bit and both carry address bits 6..0 above it |
| SoftSlave.StepsValid | pico-examples/C++/i2c_software/slave/i2c_software_slave_lib.cpp:45-180 | both handlers keep the bit counter a valid `uint` |
| SoftSlave.SdaStepSpec | pico-examples/C++/i2c_software/slave/i2c_software_slave_lib.cpp:45-63 | an SDA fall while SCL is high is a START: state START, everything reset, handler called with START; an SDA rise while SCL is high is a STOP: state NULL, reset, handler called with STOP; otherwise nothing changes |
| SoftSlave.AddressStepSpec | pico-examples/C++/i2c_software/slave/i2c_software_slave_lib.cpp:73-94 | in START each rising SCL edge shifts SDA in; a match with the transmit condition enters TRANSMIT, with the receive condition RECEIVE, both with the acknowledge pending and fifo and counter cleared; no match stays in START |
| SoftSlave.AckSampleSpec | pico-examples/C++/i2c_software/slave/i2c_software_slave_lib.cpp:97-110 | in TRANSMIT with the master's acknowledge awaited, the rising edge reads it: a NACK (SDA high) takes 8 back off the counter, never below zero, so the next falling edge requests the same byte number from the handler again (what it answers is up to the handler) |
| SoftSlave.ReceiveStepSpec | pico-examples/C++/i2c_software/slave/i2c_software_slave_lib.cpp:112-124 | in RECEIVE each rising edge shifts one bit in and counts it; the eighth bit of a byte hands the byte to the handler with RECEIVE and its byte number, and the slave prepares its acknowledge |
| SoftSlave.TransmitStepSpec | pico-examples/C++/i2c_software/slave/i2c_software_slave_lib.cpp:146-162 | in TRANSMIT each falling edge drives the fifo's top bit on SDA; at a byte boundary the handler is first asked (REQUEST) for the byte; after the eighth bit the slave awaits the master's acknowledge |
| SoftSlave.DriveAckSpec | pico-examples/C++/i2c_software/slave/i2c_software_slave_lib.cpp:136-143 | with an acknowledge pending, the falling edge takes SDA as output and pulls it low (ACK) and changes nothing else |
| SoftSlave.IdleSclSpec | pico-examples/C++/i2c_software/slave/i2c_software_slave_lib.cpp:65-180 | in NULL the SCL handler changes nothing |
| SoftSlave.AddressRunNoMatch | pico-examples/C++/i2c_software/slave/i2c_software_slave_lib.cpp:73-94 | while no condition has matched, the fifo holds the address bits seen so far |
| SoftSlave.PrefixMatch | pico-examples/C++/i2c_software/slave/i2c_software_slave_lib.cpp:73-94 | because the fifo is compared after every bit, a slave at 0x01 matches its write condition 0x02 on the first seven bits of the address byte 0x04 and enters RECEIVE |
| SoftSlave.WriteAckClockCounted | pico-examples/C++/i2c_software/slave/i2c_software_slave_lib.cpp:73-172 | after its write condition the slave drives the acknowledge on the falling edge, and the rising edge of that acknowledge clock is counted as a data bit, leaving RECEIVE with counter 1; the first RECEIVE call then comes after seven data bits and holds the level read on the acknowledge clock followed by them |
| SoftSlave.AddressPhase | pico-examples/C++/i2c_software/slave/i2c_software_slave_lib.cpp:73-94 | for an address with bit 6 set, the eight bits of a byte sent after a START put the slave in TRANSMIT exactly when the byte is its read condition, in RECEIVE exactly when it is its write condition, and leave it in START otherwise |
| SoftSlave.ShortShiftHighClear | pico-examples/C++/i2c_software/slave/i2c_software_slave_lib.cpp:73-94 | fewer than eight bits shifted into a cleared fifo leave bit 7 clear, so no earlier bit can match a condition whose bit 7 is set |
| SoftSlave.AddressRunSplit | pico-examples/C++/i2c_software/slave/i2c_software_slave_lib.cpp:73-94 | the address phase over two runs of bits is the phase over the first, then the second |
| SoftSlave.TransmitRunCounts | pico-examples/C++/i2c_software/slave/i2c_software_slave_lib.cpp:146-162 | within a byte, k falling edges count k bits without a handler call, and the acknowledge is awaited only after the byte's last bit |
| SoftSlave.TransmitRunBits | pico-examples/C++/i2c_software/slave/i2c_software_slave_lib.cpp:146-162 | within a byte, k falling edges drive the fifo's next k bits, most significant first |
| SoftSlave.OutBitsAreShiftedOut | pico-examples/C++/i2c_software/slave/i2c_software_slave_lib.cpp:146-162 | the bits driven are the bits the fifo's `shift_in(0)` returns |
| SoftSlave.FirstBit | pico-examples/C++/i2c_software/slave/i2c_software_slave_lib.cpp:146-162 | the first falling edge of a byte asks the handler for the byte (REQUEST, byte number) and drives its bit 7 |
| SoftSlave.TransmitByte | pico-examples/C++/i2c_software/slave/i2c_software_slave_lib.cpp:136-164 | eight falling edges from a byte boundary make one REQUEST and drive the handler's byte bit 7 first; the slave then awaits the acknowledge |
| SoftSlave.ReceiveRunPartial | pico-examples/C++/i2c_software/slave/i2c_software_slave_lib.cpp:112-124 | before a byte's last bit, each rising edge only shifts its bit in and counts it |
| SoftSlave.ReceiveByte | pico-examples/C++/i2c_software/slave/i2c_software_slave_lib.cpp:112-124 | eight rising edges from a byte boundary hand exactly those eight bits, first as bit 7, to the handler with RECEIVE and the byte number, and leave the acknowledge pending |
| SoftSlave.LastReceivedBit | pico-examples/C++/i2c_software/slave/i2c_software_slave_lib.cpp:112-124 | the eighth bit of a byte completes it and calls the handler |
| SoftSlave.ReceiveRunSplit | pico-examples/C++/i2c_software/slave/i2c_software_slave_lib.cpp:112-124 | receiving two runs of bits is receiving the first, then the second |
| SoftSlave.Slave.constructor | pico-examples/C++/i2c_arcade_demo/i2c_software_slave_lib.h:66-79 | a new instance has its pins and address, state NULL and everything reset |
| SoftSlave.Slave.SdaPin | pico-examples/C++/i2c_arcade_demo/i2c_software_slave_lib.h:87 | returns the instance's SDA pin |
| SoftSlave.Slave.SclPin | pico-examples/C++/i2c_arcade_demo/i2c_software_slave_lib.h:88 | returns the instance's SCL pin |
| SoftSlave.Slave.Fifo | pico-examples/C++/i2c_arcade_demo/i2c_software_slave_lib.h:90 | returns the fifo byte |
| SoftSlave.Slave.ResetValues | pico-examples/C++/i2c_software/slave/i2c_software_slave_lib.cpp:182-186 | fifo, acknowledge state and counter reset; the protocol state is kept |
| SoftSlave.Slave.CallHandler | pico-examples/C++/i2c_software/slave/i2c_software_slave_lib.cpp:49-54 | the user's event handler is called once with the current fifo byte, the byte number and the event, and the fifo holds what it left there |
| SoftSlave.Slave.SdaTriggerHandler | pico-examples/C++/i2c_software/slave/i2c_software_slave_lib.cpp:45-63 | the handler's new state, handler calls and pin writes are those of the START/STOP step |
| SoftSlave.Slave.SclTriggerHandler | pico-examples/C++/i2c_software/slave/i2c_software_slave_lib.cpp:65-180 | the handler's new state, handler calls and pin writes are those of the SCL step: rising edges read, every other event takes the falling-edge branch |
| SoftSlave.Slave.SclRising | pico-examples/C++/i2c_software/slave/i2c_software_slave_lib.cpp:68-129 | the rising-edge branch follows the address, acknowledge and receive steps |
| SoftSlave.Slave.MatchAddress | pico-examples/C++/i2c_software/slave/i2c_software_slave_lib.cpp:73-94 | the START case shifts, compares with both conditions and enters TRANSMIT or RECEIVE |
| SoftSlave.Slave.SampleAck | pico-examples/C++/i2c_software/slave/i2c_software_slave_lib.cpp:97-110 | the TRANSMIT case reads the master's acknowledge and repeats the byte on a NACK |
| SoftSlave.Slave.ReceiveBit | pico-examples/C++/i2c_software/slave/i2c_software_slave_lib.cpp:112-124 | the RECEIVE case shifts and counts, calling the handler on every eighth bit |
| SoftSlave.Slave.SclFalling | pico-examples/C++/i2c_software/slave/i2c_software_slave_lib.cpp:132-179 | the falling-edge branch drives the acknowledge or the next data bit |
| SoftSlave.Slave.TransmitBit | pico-examples/C++/i2c_software/slave/i2c_software_slave_lib.cpp:146-162 | one data bit out: a REQUEST at a byte boundary, then the fifo's top bit on SDA |
| SoftSlave.DispatchedSpec | pico-examples/C++/i2c_software/slave/i2c_software_slave_lib.cpp:33-43 | an instance ignores interrupts on pins that are not its own, and an SDA interrupt never writes its pins |
| SoftSlave.Registry.constructor | pico-examples/C++/i2c_arcade_demo/i2c_software_slave_lib.h:116-117 | the instance table starts empty |
| SoftSlave.Registry.Init | pico-examples/C++/i2c_software/slave/i2c_software_slave_lib.cpp:4-31 | with fewer than 16 instances, the new instance takes the next slot with its pins and address, state NULL; earlier instances are untouched |
| SoftSlave.Registry.TriggerHandler | pico-examples/C++/i2c_software/slave/i2c_software_slave_lib.cpp:33-43 | every registered instance receives the interrupt through its SDA or SCL handler by pin, in table order |
| SoftSlave.Deliver | pico-examples/C++/i2c_software/slave/i2c_software_slave_lib.cpp:37-41 | one instance's share of the dispatch loop |
| SlaveCallbacks.CountingStepSpec | pico-examples/C++/i2c_software/slave/i2c_software_slave.cpp:20-42 | the counting handler keeps the received byte on RECEIVE and answers a REQUEST with that byte plus one, modulo 256, remembering the answer; it changes the byte only on a REQUEST |
| SlaveCallbacks.RequestsConsecutive | pico-examples/C++/i2c_software/slave/i2c_software_slave.cpp:31-34 | consecutive REQUESTs answer consecutive values modulo 256 |
| SlaveCallbacks.DoublingStepSpec | pico-examples/C++/i2c_arcade_demo/i2c_arcade_demo.cpp:72-96 | the arcade demo's handler keeps the received byte on RECEIVE and answers a REQUEST with twice it, modulo 256 |
| SlaveCallbacks.DoublingAnswers | pico-examples/C++/i2c_arcade_demo/i2c_arcade_demo.cpp:70-96 | before any write a REQUEST answers 300 mod 256 = 44; after a write of v it answers 2v mod 256 |
| SlaveCallbacks.CountingHandler.constructor | pico-examples/C++/i2c_software/slave/i2c_software_slave.cpp:18 | the received byte starts at 0 |
| SlaveCallbacks.CountingHandler.EventHandler | pico-examples/C++/i2c_software/slave/i2c_software_slave.cpp:20-42 | one call does the counting step |
| SlaveCallbacks.DoublingHandler.constructor | pico-examples/C++/i2c_arcade_demo/i2c_arcade_demo.cpp:70 | the received byte starts at 150 |
| SlaveCallbacks.DoublingHandler.EventHandler | pico-examples/C++/i2c_arcade_demo/i2c_arcade_demo.cpp:72-96 | one call does the doubling step |
| SlaveCallbacks.DemoInit | pico-examples/C++/i2c_software/slave/i2c_software_slave.cpp:45-60 | the demo registers one slave, address 0x42 on SDA 4 and SCL 5, as the only instance |
| Listener.StateCode | pico-examples/C++/i2c_listener/src/i2c_listener.cpp:13-18 | the state enumerators count from 0, so every code fits the record's state field |
| Listener.AckCode | pico-examples/C++/i2c_listener/src/i2c_listener.cpp:21-25 | the acknowledge enumerators count from 0 and fit the 3-bit field |
| Listener.StateCodeRoundTrip | pico-examples/C++/i2c_listener/src/i2c_listener.cpp:13-25 | each code reads back as its enumerator |
| Listener.MessageFields | pico-examples/C++/i2c_listener/src/i2c_listener.cpp:90-95 | a record carries tag 0xF0 in the top byte, then the address byte, the 4-bit state, the 3-bit acknowledge state, the acknowledged flag and the data byte, each readable back from its own bits |
| Listener.PackFields | pico-examples/C++/i2c_listener/src/i2c_listener.cpp:94 | the fields of the packed word read back as packed, for codes within range |
| Listener.DecodeIffMessage | pico-examples/C++/i2c_listener/src/i2c_listener.cpp:90-95 | a word decodes to a record exactly when it is that record's packing: packing is injective and has a left inverse |
| Listener.DecodeMessage | pico-examples/C++/i2c_listener/src/i2c_listener.cpp:90-95 | decoding a packed record gives the record back |
| Listener.MessageOfDecode | pico-examples/C++/i2c_listener/src/i2c_listener.cpp:90-95 | a word that decodes is the packing of what it decodes to |
| Listener.Repack | pico-examples/C++/i2c_listener/src/i2c_listener.cpp:94 | a tagged word with in-range codes is the packing of its own fields |
| Listener.SdaStepSpec | pico-examples/C++/i2c_listener/src/i2c_listener.cpp:97-118 | an SDA fall with SCL high starts a transfer (START, counter 0); an SDA rise with SCL high ends it (NULL, counter 0); with SCL low only the recorded SDA level changes |
| Listener.SclIdleSpec | pico-examples/C++/i2c_listener/src/i2c_listener.cpp:120-157 | while idle a rising SCL edge only records the level; a falling edge only clears it |
| Listener.SclRiseCounts | pico-examples/C++/i2c_listener/src/i2c_listener.cpp:127-148 | while not idle every rising SCL edge shifts SDA into the fifo and counts one bit, sending at most one record |
| Listener.PredictSpec | pico-examples/C++/i2c_listener/src/i2c_listener.cpp:132-135 | the seventh bit after a START predicts RECEIVE when SDA is high and TRANSMIT when it is low |
| Listener.AckStateSpec | pico-examples/C++/i2c_listener/src/i2c_listener.cpp:136-139 | the eighth bit of each group of nine names who acknowledges: the slave after a master write, the master after a read |
| Listener.RecordSpec | pico-examples/C++/i2c_listener/src/i2c_listener.cpp:140-148 | the bit that makes the `uint32_t` sum `bit_counter + 1` a multiple of nine (wrap included) sends one record of the fifo (as data and address) tagged START with the acknowledge state and SDA level, then clears the acknowledge and moves to the predicted state; the acknowledged flag always equals the data's bit 0 |
| Listener.CounterWrapRecord | pico-examples/C++/i2c_listener/src/i2c_listener.cpp:88-148 | when `bit_counter` is 0xFFFFFFFF the sum wraps to 0, so the next rising edge sends a record, clears the acknowledge state, takes the predicted state and leaves the counter at 0, although 2^32 is not a multiple of nine |
| Listener.ClockBitSpec | pico-examples/C++/i2c_listener/src/i2c_listener.cpp:120-157 | a clock period is one rising-edge step followed by SCL low again |
| Listener.GroupStep | pico-examples/C++/i2c_listener/src/i2c_listener.cpp:127-148 | a clock period before a group's last bit shifts and counts, sets the acknowledge state on the eighth bit and the prediction on the seventh bit after START, and sends nothing |
| Listener.PredictBit | pico-examples/C++/i2c_listener/src/i2c_listener.cpp:132-135 | the seventh bit after a START sets the prediction |
| Listener.AckBit | pico-examples/C++/i2c_listener/src/i2c_listener.cpp:136-139 | the eighth bit of a group sets the acknowledge state |
| Listener.PlainBit | pico-examples/C++/i2c_listener/src/i2c_listener.cpp:130 | any other early bit is only shifted in and counted |
| Listener.GroupLast | pico-examples/C++/i2c_listener/src/i2c_listener.cpp:140-146 | the last clock period of a group sends its record |
| Listener.GroupPrefix | pico-examples/C++/i2c_listener/src/i2c_listener.cpp:127-148 | the first up to eight bits of a group send nothing |
| Listener.ClockBitsSnoc | pico-examples/C++/i2c_listener/src/i2c_listener.cpp:120-157 | one more clock period extends a run of them |
| Listener.ClockBitsCounter | pico-examples/C++/i2c_listener/src/i2c_listener.cpp:148 | a run of clock periods counts at most one bit per period |
| Listener.GroupSpec | pico-examples/C++/i2c_listener/src/i2c_listener.cpp:120-157 | nine clock periods from a group boundary send exactly one record, whose data byte is the last eight bits seen, the acknowledge bit included; they end the group with the acknowledge state NULL and the counter nine further on |
| Listener.AddressGroup | pico-examples/C++/i2c_listener/src/i2c_listener.cpp:97-157 | after a START, the first nine bits send one record whose direction comes from the seventh bit, the last address bit, not from the R/W bit after it |
| Listener.Sniffer.constructor | pico-examples/C++/i2c_listener/src/i2c_listener.cpp:67-71 | a new listener has its pins, reads the current levels, and is idle |
| Listener.Sniffer.SdaTriggerHandler | pico-examples/C++/i2c_listener/src/i2c_listener.cpp:97-118 | the SDA handler makes the SDA step and sends nothing |
| Listener.Sniffer.SclTriggerHandler | pico-examples/C++/i2c_listener/src/i2c_listener.cpp:120-157 | the SCL handler makes the SCL step, whose group tests are on the wrapped `uint32_t` sum; its record, if any, is appended to those sent |
| Listener.Sniffer.TriggerHandler | pico-examples/C++/i2c_listener/src/i2c_listener.cpp:72-82 | an interrupt goes to the SDA handler on the SDA pin, else to the SCL handler on the SCL pin (the SCL step with its wrapped counter tests), else changes nothing |
| Listener.ListenerMain | pico-examples/C++/i2c_listener/src/i2c_listener.cpp:189-202 | `main` watches SDA on pin 4 and SCL on pin 5, idle, with nothing sent |
| ArcadeModule.ConditionsSpec | pico-examples/C++/arcade_button_module/arcade_button_module.cpp:7-9 | the module's conditions are 0x84 (write) and 0x85 (read): address 0x42 with the R/W bit |
| ArcadeModule.SdaStepSpec | pico-examples/C++/arcade_button_module/arcade_button_module.cpp:244-270 | SDA edges with SCL high restart everything: a fall enters START, a rise enters NULL; with SCL low only the recorded level changes; the mode is never touched |
| ArcadeModule.SclIdleSpec | pico-examples/C++/arcade_button_module/arcade_button_module.cpp:160-242 | a falling SCL edge only clears the recorded level; a rising edge while idle, or before any START, only sets it |
| ArcadeModule.AddressDecisionSpec | pico-examples/C++/arcade_button_module/arcade_button_module.cpp:173-206 | the eighth rising edge after a START decides the transfer: in slave mode MOSI or MISO exactly when the fifo is the write or read condition, NULL otherwise; in sniffer mode the R/W bit decides; the fifo is cleared and the counter stays 8 |
| ArcadeModule.StartShiftSpec | pico-examples/C++/arcade_button_module/arcade_button_module.cpp:169-207 | before the eighth bit, START only shifts and counts |
| ArcadeModule.TransferSpec | pico-examples/C++/arcade_button_module/arcade_button_module.cpp:209-230 | in MOSI or MISO each rising edge shifts and counts; the eighth bit of a group of nine names the side that acknowledges and the ninth resets the acknowledge state |
| ArcadeModule.SwitchSpec | pico-examples/C++/arcade_button_module/arcade_button_module.cpp:272-288 | the mode switch sets slave mode on a rising edge and sniffer mode on a falling one, restarts fifo and counter, and leaves the protocol states alone |
| ArcadeModule.StartBelowEightKept | pico-examples/C++/arcade_button_module/arcade_button_module.cpp:160-298 | every handler keeps the counter below eight while in START: the eighth bit always leaves START |
| ArcadeModule.StartPrefix | pico-examples/C++/arcade_button_module/arcade_button_module.cpp:169-207 | the first up to seven bits after a START are only shifted and counted |
| ArcadeModule.AddressPhase | pico-examples/C++/arcade_button_module/arcade_button_module.cpp:169-207 | eight bits after a START leave the decided state and acknowledge state, an empty fifo and the counter at 8 |
| ArcadeModule.AddressPhaseDirection | pico-examples/C++/arcade_button_module/arcade_button_module.cpp:173-206 | in slave mode the module enters MOSI or MISO exactly when the address byte is its write or read condition; in sniffer mode the R/W bit alone decides |
| ArcadeModule.TransferBit | pico-examples/C++/arcade_button_module/arcade_button_module.cpp:209-230 | one clock period inside a transfer is one transfer step |
| ArcadeModule.GroupPrefix | pico-examples/C++/arcade_button_module/arcade_button_module.cpp:209-230 | the first bits of a group of nine leave the acknowledge state NULL |
| ArcadeModule.RunBits | pico-examples/C++/arcade_button_module/arcade_button_module.cpp:209-230 | bits that stay within a group only shift and count |
| ArcadeModule.DataGroup | pico-examples/C++/arcade_button_module/arcade_button_module.cpp:209-230 | nine bits from a group boundary leave the last eight bits in the fifo and the acknowledge state naming the side that acknowledges |
| ArcadeModule.LastBit | pico-examples/C++/arcade_button_module/arcade_button_module.cpp:209-230 | the last bit of a group names the acknowledging side |
| ArcadeModule.NineKeepLastEight | pico-examples/C++/arcade_button_module/arcade_button_module.cpp:133-153 | nine bits through the fifo leave the last eight |
| ArcadeModule.StateLedsOneHot | pico-examples/C++/arcade_button_module/arcade_button_module.cpp:120-131 | exactly one state LED and one acknowledge LED light, the ones naming the states, and none before the first START or STOP |
| ArcadeModule.ArcadeButton.constructor | pico-examples/C++/arcade_button_module/arcade_button_module.cpp:300-343 | at start the states are unset, fifo and counter are zero, and the levels and the mode come from the pins |
| ArcadeModule.ArcadeButton.ShiftAndCount | pico-examples/C++/arcade_button_module/arcade_button_module.cpp:169-230 | shifts the recorded SDA level in and counts one bit with `uint` wrap |
| ArcadeModule.ArcadeButton.SclHandler | pico-examples/C++/arcade_button_module/arcade_button_module.cpp:160-242 | the new state is the SCL step of the old one |
| ArcadeModule.ArcadeButton.SdaHandler | pico-examples/C++/arcade_button_module/arcade_button_module.cpp:244-270 | the new state is the SDA step of the old one |
| ArcadeModule.ArcadeButton.SlaveModeHandler | pico-examples/C++/arcade_button_module/arcade_button_module.cpp:272-288 | the new state is the switch step of the old one |
| ArcadeModule.ArcadeButton.TriggerHandler | pico-examples/C++/arcade_button_module/arcade_button_module.cpp:290-298 | an interrupt goes to the SCL, SDA or switch handler by pin, else changes nothing |
| ArcadeModule.ArcadeButton.StatusLeds | pico-examples/C++/arcade_button_module/arcade_button_module.cpp:120-131 | the START LED is lit exactly in START |
| ButtonMaster.SclButtonHandler | pico-examples/C++/button_master_module/button_master_module.cpp:99-108 | a rising edge on the SCL button shifts the SDA button's level into the fifo; every other interrupt leaves it alone |
| ButtonMaster.Sampled | pico-examples/C++/button_master_module/button_master_module.cpp:99-108 | no more samples than interrupts |
| ButtonMaster.ReplayShiftsSamples | pico-examples/C++/button_master_module/button_master_module.cpp:99-108 | any sequence of interrupts shifts in exactly the levels of the qualifying ones, in order |
| ButtonMaster.ShiftAllAppend | pico-examples/C++/button_master_module/button_master_module.cpp:80-88 | shifting in two runs of bits is shifting in their concatenation |
| ButtonMaster.LastEightSamples | pico-examples/C++/button_master_module/button_master_module.cpp:97-108 | after at least eight presses the fifo holds the last eight SDA samples, the earliest as bit 7, whatever it held before |
| ButtonMaster.QuietIrqsKeepFifo | pico-examples/C++/button_master_module/button_master_module.cpp:99-108 | interrupts that are not rising SCL edges leave the fifo unchanged |
| TestPins.NextI2c | pico-examples/C++/arcade_button_module_test_pins/arcade_button_module_test_pins.cpp:132-150 | the next I2C state is a named state: the successor on the cycle for a named one, NULL for anything else |
| TestPins.NextAck | pico-examples/C++/arcade_button_module_test_pins/arcade_button_module_test_pins.cpp:151-165 | the next acknowledge state is a named one: the successor, or NULL for anything else |
| TestPins.StateMachines.constructor | pico-examples/C++/arcade_button_module_test_pins/arcade_button_module_test_pins.cpp:35-46 | both static state variables start as zero, which names no state |
| TestPins.StateMachines.ShiftState | pico-examples/C++/arcade_button_module_test_pins/arcade_button_module_test_pins.cpp:130-166 | each variable moves to its own successor, neither reading the other |
| TestPins.I2cAfterIndex | pico-examples/C++/arcade_button_module_test_pins/arcade_button_module_test_pins.cpp:132-150 | n calls move a named I2C state n places along its cycle of four |
| TestPins.AckAfterIndex | pico-examples/C++/arcade_button_module_test_pins/arcade_button_module_test_pins.cpp:151-165 | n calls move a named acknowledge state n places along its cycle of three |
| TestPins.I2cPeriod | pico-examples/C++/arcade_button_module_test_pins/arcade_button_module_test_pins.cpp:132-150 | a named I2C state returns exactly after a multiple of four calls |
| TestPins.AckPeriod | pico-examples/C++/arcade_button_module_test_pins/arcade_button_module_test_pins.cpp:151-165 | a named acknowledge state returns exactly after a multiple of three calls |
| TestPins.BothPeriod | pico-examples/C++/arcade_button_module_test_pins/arcade_button_module_test_pins.cpp:130-166 | both displays show their starting states again exactly after a multiple of twelve calls |
| TestPins.FromUnnamed | pico-examples/C++/arcade_button_module_test_pins/arcade_button_module_test_pins.cpp:130-166 | from the zero of static storage the first call lands on NULL and the cycles run from there |
| TestPins.RotatedMask | pico-examples/C++/arcade_button_module_test_pins/arcade_button_module_test_pins.cpp:179-181 | one turn of the loop moves the lit LED one place up, from the top back to the bottom |
| TestPins.MaskOneHot | pico-examples/C++/arcade_button_module_test_pins/arcade_button_module_test_pins.cpp:175-181 | the LED mask lights exactly one LED |
| TestPins.Walker.constructor | pico-examples/C++/arcade_button_module_test_pins/arcade_button_module_test_pins.cpp:175 | the first LED is lit at start |
| TestPins.Walker.Walk | pico-examples/C++/arcade_button_module_test_pins/arcade_button_module_test_pins.cpp:179-181 | after `steps` turns the lit LED has moved `steps` places round the eight |
| TestPins.MainLoop | pico-examples/C++/arcade_button_module_test_pins/arcade_button_module_test_pins.cpp:168-189 | after `steps` turns exactly one LED is lit, the one of bit `steps mod 8` |
| CppMaster.SetBitSpec | pico-examples/C++/i2c_software/master/i2c_software_master.cpp:19-22 | `set_bit` sets the chosen bit of the byte to the value and leaves every other bit alone |
| CppMaster.DelayFor | pico-examples/C++/i2c_software/master/i2c_software_master.cpp:32-46 | the half-period in microseconds is the floor of 1 000 000 / frequency, and at least 1 |
| CppMaster.StartShape | pico-examples/C++/i2c_software/master/i2c_software_master.cpp:105-114 | `start_condition` pulls SDA low while SCL is high (a START) and leaves both lines low |
| CppMaster.StopShape | pico-examples/C++/i2c_software/master/i2c_software_master.cpp:116-124 | `stop_condition` clocks SDA low, then raises SDA while SCL is high (a STOP), and leaves both lines high |
| CppMaster.WriteBitShape | pico-examples/C++/i2c_software/master/i2c_software_master.cpp:126-134 | `write_bit` is exactly one clock pulse carrying the bit, SCL low after |
| CppMaster.ReadBitShape | pico-examples/C++/i2c_software/master/i2c_software_master.cpp:136-145 | `read_bit` is exactly one clock pulse and leaves the lines as they were |
| CppMaster.ReadAckShape | pico-examples/C++/i2c_software/master/i2c_software_master.cpp:147-164 | `read_acknowledge` is one clock pulse on a released SDA and reports success exactly when SDA read low |
| CppMaster.ReadAckNackStartsOnWire | pico-examples/C++/i2c_software/master/i2c_software_master.cpp:147-164 | after a NACK the released line was read high, so retaking SDA with the latch low under high SCL is a START on the wire; this happens exactly when the acknowledge is refused, and `Events` does not list it |
| CppMaster.ReadAckRetakesSdaWhileClockHigh | pico-examples/C++/i2c_software/master/i2c_software_master.cpp:147-164 | SDA is driven again, with its latch low, while SCL is still high |
| CppMaster.WriteBitsEvents | pico-examples/C++/i2c_software/master/i2c_software_master.cpp:126-134 | bits written in a row show on the bus as one clock pulse each, in order |
| CppMaster.StartCommEvents | pico-examples/C++/i2c_software/master/i2c_software_master.cpp:167-181 | an address phase is a START, address bits 6..0 most significant first, the R/W bit and one acknowledge clock; success exactly when SDA read low |
| CppMaster.AddressBit7Ignored | pico-examples/C++/i2c_software/master/i2c_software_master.cpp:167-181 | address bit 7 is never sent: addresses equal in bits 6..0 behave the same |
| CppMaster.WriteByteEvents | pico-examples/C++/i2c_software/master/i2c_software_master.cpp:205-213 | `write_byte` is the byte's bits 7..0 as clock pulses and one acknowledge clock; success exactly when SDA read low |
| CppMaster.ReadBitsEvents | pico-examples/C++/i2c_software/master/i2c_software_master.cpp:136-145 | successive `read_bit` calls are one clock pulse each |
| CppMaster.PackedBits | pico-examples/C++/i2c_software/master/i2c_software_master.cpp:183-203 | after n rounds `read_byte` holds the first n levels in bits 7 downwards and zeros below |
| CppMaster.PackedIsFromBits | pico-examples/C++/i2c_software/master/i2c_software_master.cpp:183-203 | the byte `read_byte` assembles with `set_bit` is the one a shift register builds from the same eight levels |
| CppMaster.ReadByteEvents | pico-examples/C++/i2c_software/master/i2c_software_master.cpp:183-203 | `read_byte` is eight clocks on a released SDA, then an ACK clock with SDA low |
| CppMaster.ReadByteValue | pico-examples/C++/i2c_software/master/i2c_software_master.cpp:183-203 | `read_byte` returns the next eight levels on SDA, the first as bit 7 |
| CppMaster.Attempts | pico-examples/C++/i2c_software/master/i2c_software_master.cpp:48-65 | a retry loop makes between one and three attempts |
| CppMaster.AttemptsBounds | pico-examples/C++/i2c_software/master/i2c_software_master.cpp:48-65 | every attempt but the last read a NACK, and a loop that stops early stopped at an ACK |
| CppMaster.StartRetryResult | pico-examples/C++/i2c_software/master/i2c_software_master.cpp:51-55 | the START retry loop succeeds exactly when its last attempt read an ACK, using one acknowledge level per attempt |
| CppMaster.StartCommCounts | pico-examples/C++/i2c_software/master/i2c_software_master.cpp:167-181 | one address phase holds exactly one START |
| CppMaster.StartRetryEvents | pico-examples/C++/i2c_software/master/i2c_software_master.cpp:51-55 | the retry loop makes one START per attempt |
| CppMaster.WriteByteRetryEvents | pico-examples/C++/i2c_software/master/i2c_software_master.cpp:59-63 | the inner retry loop sends the same byte once per attempt |
| CppMaster.WriteByteRetryResult | pico-examples/C++/i2c_software/master/i2c_software_master.cpp:59-63 | the inner retry loop succeeds exactly when its last attempt read an ACK |
| CppMaster.WriteAllEvents | pico-examples/C++/i2c_software/master/i2c_software_master.cpp:57-64 | the data loop of `write_bytes` sends every byte in order, one to three times each, and never a START or a STOP |
| CppMaster.WriteBytesEvents | pico-examples/C++/i2c_software/master/i2c_software_master.cpp:48-65 | `write_bytes` makes one to three STARTs, then sends every byte in order one to three times each, and never a STOP |
| CppMaster.ReadAllEvents | pico-examples/C++/i2c_software/master/i2c_software_master.cpp:76-79 | the data loop of `read_bytes` is, per byte, eight released clocks and an ACK |
| CppMaster.ReadAllValues | pico-examples/C++/i2c_software/master/i2c_software_master.cpp:76-79 | byte i read is the i-th group of eight levels on SDA |
| CppMaster.ReadBytesEvents | pico-examples/C++/i2c_software/master/i2c_software_master.cpp:67-80 | `read_bytes` makes one to three STARTs and no STOP, then the bytes |
| CppMaster.AddressBits | pico-examples/C++/i2c_software/master/i2c_software_master.cpp:167-181 | seven address bits |
| CppMaster.ReadAllRun | pico-examples/C++/i2c_software/master/i2c_software_master.cpp:76-79 | one byte per pass |
| CppMaster.SoftwareMaster.constructor | pico-examples/C++/i2c_software/master/i2c_software_master.cpp:32-46 | the pins stay 4 and 5, because the constructor assigns its parameters to themselves; the delay is the frequency's half-period |
| CppMaster.SoftwareMaster.StartCondition | pico-examples/C++/i2c_software/master/i2c_software_master.cpp:105-114 | the writes of `start_condition`, which StartShape reads as a START |
| CppMaster.SoftwareMaster.StopCondition | pico-examples/C++/i2c_software/master/i2c_software_master.cpp:116-124 | the writes of `stop_condition`, which StopShape reads as a STOP |
| CppMaster.SoftwareMaster.WriteBit | pico-examples/C++/i2c_software/master/i2c_software_master.cpp:126-134 | the writes of one bit, which WriteBitShape reads as one clock pulse |
| CppMaster.SoftwareMaster.ReadBit | pico-examples/C++/i2c_software/master/i2c_software_master.cpp:136-145 | returns the next SDA level and makes one clock pulse |
| CppMaster.SoftwareMaster.ReadAcknowledge | pico-examples/C++/i2c_software/master/i2c_software_master.cpp:147-164 | the acknowledge clock; returns whether SDA read low |
| CppMaster.SoftwareMaster.StartCommunicationWith | pico-examples/C++/i2c_software/master/i2c_software_master.cpp:167-181 | the address phase; returns whether the address was acknowledged |
| CppMaster.SoftwareMaster.ReadByte | pico-examples/C++/i2c_software/master/i2c_software_master.cpp:183-203 | returns the byte read and makes the writes ReadByteEvents describes |
| CppMaster.SoftwareMaster.WriteByte | pico-examples/C++/i2c_software/master/i2c_software_master.cpp:205-213 | sends the byte; returns whether it was acknowledged |
| CppMaster.SoftwareMaster.StartWithRetries | pico-examples/C++/i2c_software/master/i2c_software_master.cpp:51-55 | up to three address phases, stopping at the first ACK |
| CppMaster.SoftwareMaster.WriteByteWithRetries | pico-examples/C++/i2c_software/master/i2c_software_master.cpp:59-63 | up to three sends of one byte, stopping at the first ACK |
| CppMaster.SoftwareMaster.WriteBytes | pico-examples/C++/i2c_software/master/i2c_software_master.cpp:48-65 | the bus activity WriteBytesEvents describes |
| CppMaster.SoftwareMaster.ReadBytes | pico-examples/C++/i2c_software/master/i2c_software_master.cpp:67-80 | fills the first n cells with the bytes read and leaves the other cells alone |
| CppMaster.SoftwareMaster.ReadInto | pico-examples/C++/i2c_software/master/i2c_software_master.cpp:76-79 | the read loop: byte i of the array is the i-th group of eight levels read, each byte followed by an ACK clock, and cells from n on stay as they were |
| Demo2Master.NextNumber | pico-examples/C++/i2c_arcade_demo_2/i2c_arcade_demo_2.cpp:350-353 | the number written next is never 0 or 255: a byte read back as either becomes 42 |
| Demo2Master.ReadByteNoStop | pico-examples/C++/i2c_arcade_demo_2/i2c_arcade_demo_2.cpp:270-308 | a `read_byte` that does not stop behaves like the first master's |
| Demo2Master.ReadByteStopValue | pico-examples/C++/i2c_arcade_demo_2/i2c_arcade_demo_2.cpp:279-284 | either way `read_byte` returns the next eight levels, the first as bit 7 |
| Demo2Master.ReadDataEvents | pico-examples/C++/i2c_arcade_demo_2/i2c_arcade_demo_2.cpp:279-284 | the data phase is eight released clocks |
| Demo2Master.ReadByteStopEvents | pico-examples/C++/i2c_arcade_demo_2/i2c_arcade_demo_2.cpp:295-305 | a stopping `read_byte` is eight released clocks, an ACK clock (SDA low, not NACK), then a STOP, leaving both lines high |
| Demo2Master.ReadByteAckEvents | pico-examples/C++/i2c_arcade_demo_2/i2c_arcade_demo_2.cpp:290-294 | any other byte is eight released clocks and an ACK |
| Demo2Master.ReadAllStopRun | pico-examples/C++/i2c_arcade_demo_2/i2c_arcade_demo_2.cpp:159-163 | one byte per pass |
| Demo2Master.ReadAllStopPrefix | pico-examples/C++/i2c_arcade_demo_2/i2c_arcade_demo_2.cpp:159-163 | the bytes before the last are read as by the first master |
| Demo2Master.ReadAllStopEvents | pico-examples/C++/i2c_arcade_demo_2/i2c_arcade_demo_2.cpp:159-163 | n > 0 bytes are n - 1 acknowledged bytes, then the last byte and the STOP |
| Demo2Master.ReadAllStopValues | pico-examples/C++/i2c_arcade_demo_2/i2c_arcade_demo_2.cpp:159-163 | byte i read is the i-th group of eight levels |
| Demo2Master.ReadAllStopRest | pico-examples/C++/i2c_arcade_demo_2/i2c_arcade_demo_2.cpp:159-163 | the loop uses eight levels per byte |
| Demo2Master.ReadTailCounts | pico-examples/C++/i2c_arcade_demo_2/i2c_arcade_demo_2.cpp:159-163 | the data loop holds no START, and exactly one STOP unless it reads nothing |
| Demo2Master.ReadBytesStopShape | pico-examples/C++/i2c_arcade_demo_2/i2c_arcade_demo_2.cpp:150-164 | `read_bytes` is the address phase followed by the data loop |
| Demo2Master.ReadBytesStopEvents | pico-examples/C++/i2c_arcade_demo_2/i2c_arcade_demo_2.cpp:150-164 | `read_bytes` makes one to three STARTs and exactly one STOP, except for zero bytes, which leave the bus held |
| Demo2Master.WriteBytesStopEvents | pico-examples/C++/i2c_arcade_demo_2/i2c_arcade_demo_2.cpp:130-148 | `write_bytes` makes one to three STARTs, sends every byte in order one to three times each, and ends with exactly one STOP |
| Demo2Master.WriteBytesStopShape | pico-examples/C++/i2c_arcade_demo_2/i2c_arcade_demo_2.cpp:130-148 | `write_bytes` is the first master's `write_bytes` followed by a STOP |
| Demo2Master.WriteBytesHeld | pico-examples/C++/i2c_arcade_demo_2/i2c_arcade_demo_2.cpp:130-148 | before its STOP the master drives both lines low |
| Demo2Master.StopCounts | pico-examples/C++/i2c_arcade_demo_2/i2c_arcade_demo_2.cpp:200-208 | a STOP adds exactly one STOP event and no START |
| Demo2Master.AddressByteShifted | pico-examples/C++/i2c_arcade_demo_2/i2c_arcade_demo_2.cpp:251-268 | the byte mirrored during an address phase is the address shifted up with the R/W bit below |
| Demo2Master.AddressByteBits | pico-examples/C++/i2c_arcade_demo_2/i2c_arcade_demo_2.cpp:251-268 | the mirrored address byte's bits are the bits sent |
| Demo2Master.AddressMirror | pico-examples/C++/i2c_arcade_demo_2/i2c_arcade_demo_2.cpp:251-268 | after an address phase the fifo holds the address byte as it went on the bus |
| Demo2Master.ByteMirror | pico-examples/C++/i2c_arcade_demo_2/i2c_arcade_demo_2.cpp:310-320 | after a byte is written the fifo holds that byte |
| Demo2Master.ArcadeMaster.constructor | pico-examples/C++/i2c_arcade_demo_2/i2c_arcade_demo_2.cpp:114-128 | pins stay 4 and 5 (self-assignment), the fifo is empty and the delay is the frequency's half-period |
| Demo2Master.ArcadeMaster.ShiftIn | pico-examples/C++/i2c_arcade_demo_2/i2c_arcade_demo_2.cpp:77-85 | the shift register step on the master's fifo |
| Demo2Master.ArcadeMaster.StartCondition | pico-examples/C++/i2c_arcade_demo_2/i2c_arcade_demo_2.cpp:189-198 | the same writes as the first master's `start_condition` |
| Demo2Master.ArcadeMaster.StopCondition | pico-examples/C++/i2c_arcade_demo_2/i2c_arcade_demo_2.cpp:200-208 | the same writes as the first master's `stop_condition` |
| Demo2Master.ArcadeMaster.WriteBit | pico-examples/C++/i2c_arcade_demo_2/i2c_arcade_demo_2.cpp:210-218 | the same writes as the first master's `write_bit` |
| Demo2Master.ArcadeMaster.ReadBit | pico-examples/C++/i2c_arcade_demo_2/i2c_arcade_demo_2.cpp:220-229 | returns the next SDA level, as the first master's `read_bit` does |
| Demo2Master.ArcadeMaster.ReadAcknowledge | pico-examples/C++/i2c_arcade_demo_2/i2c_arcade_demo_2.cpp:231-248 | the acknowledge clock; returns whether SDA read low |
| Demo2Master.ArcadeMaster.StartCommunicationWith | pico-examples/C++/i2c_arcade_demo_2/i2c_arcade_demo_2.cpp:251-268 | the first master's address phase; afterwards the fifo holds the address byte |
| Demo2Master.ArcadeMaster.SendAddress | pico-examples/C++/i2c_arcade_demo_2/i2c_arcade_demo_2.cpp:251-268 | address bits 6..0 written and mirrored into the fifo |
| Demo2Master.ArcadeMaster.ReadByte | pico-examples/C++/i2c_arcade_demo_2/i2c_arcade_demo_2.cpp:270-308 | returns the byte read and leaves it in the fifo; the writes are those ReadByteStopEvents describes |
| Demo2Master.ArcadeMaster.WriteByte | pico-examples/C++/i2c_arcade_demo_2/i2c_arcade_demo_2.cpp:310-320 | sends the byte; afterwards the fifo holds it |
| Demo2Master.ArcadeMaster.StartWithRetries | pico-examples/C++/i2c_arcade_demo_2/i2c_arcade_demo_2.cpp:133-137 | up to three address phases, stopping at the first ACK |
| Demo2Master.ArcadeMaster.WriteByteWithRetries | pico-examples/C++/i2c_arcade_demo_2/i2c_arcade_demo_2.cpp:141-145 | up to three sends of one byte, stopping at the first ACK |
| Demo2Master.ArcadeMaster.WriteBytes | pico-examples/C++/i2c_arcade_demo_2/i2c_arcade_demo_2.cpp:130-148 | the bus activity WriteBytesStopEvents describes |
| Demo2Master.ArcadeMaster.WriteData | pico-examples/C++/i2c_arcade_demo_2/i2c_arcade_demo_2.cpp:139-146 | the data loop of `write_bytes` |
| Demo2Master.ArcadeMaster.ReadBytes | pico-examples/C++/i2c_arcade_demo_2/i2c_arcade_demo_2.cpp:150-164 | fills the first n cells with the bytes read and leaves the other cells alone |
| Demo2Master.ArcadeMaster.LoopOnce | pico-examples/C++/i2c_arcade_demo_2/i2c_arcade_demo_2.cpp:341-356 | one pass of `main`: write the number to 0x42, read one byte back, and the next number is that byte unless it is 0 or 255 |
| PyMaster.Pow2 | pico-examples/uPython/i2c_software/master/master_claude.py:134-135 | powers of two are positive |
| PyMaster.BitsOf | pico-examples/uPython/i2c_software/master/master_claude.py:134-135 | one bit per place |
| PyMaster.ByteBits | pico-examples/uPython/i2c_software/master/master_claude.py:134-135 | `_write_byte` sends bit 7 of the integer first and bit 0 last |
| PyMaster.Accumulate | pico-examples/uPython/i2c_software/master/master_claude.py:153-158 | shifting n bits in at the bottom of a zero integer gives a value below 2^n |
| PyMaster.ByteBitsLow | pico-examples/uPython/i2c_software/master/master_claude.py:134-135 | only the low eight bits of an integer reach the bus: b and b mod 256 send the same bits |
| PyMaster.AccumulateBitsOf | pico-examples/uPython/i2c_software/master/master_claude.py:153-158 | accumulating an integer's bits gives back its low bits |
| PyMaster.LowBitsFit | pico-examples/uPython/i2c_software/master/master_claude.py:153-158 | a value that fits in n bits is its own low n bits |
| PyMaster.BitsOfAccumulate | pico-examples/uPython/i2c_software/master/master_claude.py:153-158 | accumulating bits and sending the result sends the same bits |
| PyMaster.ByteRoundTrip | pico-examples/uPython/i2c_software/master/master_claude.py:123-164 | a byte sent bit by bit and read back bit by bit is the same byte, and eight levels read form a byte in 0..255 whose bits are those levels |
| PyMaster.AddressBytes | pico-examples/uPython/i2c_software/master/master_claude.py:186 | the write and read address bytes carry address bits 6..0 and differ only in the R/W bit, 0 for write and 1 for read |
| PyMaster.StartShape | pico-examples/uPython/i2c_software/master/master_claude.py:39-55 | `_start_condition` is a START, preceded by one clock pulse when SCL was low (a repeated START), and leaves both lines low |
| PyMaster.StopShape | pico-examples/uPython/i2c_software/master/master_claude.py:57-73 | `_stop_condition` is one clock with SDA low, then a STOP; both lines end released |
| PyMaster.InitShape | pico-examples/uPython/i2c_software/master/master_claude.py:11-33 | `__init__` releases both lines, whatever they were |
| PyMaster.WriteBitShape | pico-examples/uPython/i2c_software/master/master_claude.py:75-96 | `_write_bit` is exactly one clock pulse carrying the bit, with no START or STOP, because SCL is low whenever SDA changes |
| PyMaster.ReadBitShape | pico-examples/uPython/i2c_software/master/master_claude.py:98-121 | `_read_bit` is one clock pulse with SDA released |
| PyMaster.WriteBitsShape | pico-examples/uPython/i2c_software/master/master_claude.py:134-135 | bits written in a row are one clock pulse each |
| PyMaster.ReadBitsShape | pico-examples/uPython/i2c_software/master/master_claude.py:156-158 | bits read in a row are one released clock each |
| PyMaster.WriteByteShape | pico-examples/uPython/i2c_software/master/master_claude.py:123-141 | `_write_byte` is the eight data clocks and one acknowledge clock, and succeeds exactly when SDA read low |
| PyMaster.ReadByteShape | pico-examples/uPython/i2c_software/master/master_claude.py:143-164 | `_read_byte` is eight released clocks, then SDA low for ACK or released for NACK |
| PyMaster.ReadByteValue | pico-examples/uPython/i2c_software/master/master_claude.py:143-164 | `_read_byte` returns the eight sampled levels as a byte in 0..255, first level as bit 7 |
| PyMaster.LeadingAcks | pico-examples/uPython/i2c_software/master/master_claude.py:191-194 | at most n bytes acknowledged in a row |
| PyMaster.Sent | pico-examples/uPython/i2c_software/master/master_claude.py:191-194 | at most n bytes sent |
| PyMaster.LeadingAcksAll | pico-examples/uPython/i2c_software/master/master_claude.py:191-194 | all n bytes are acknowledged in a row exactly when each of the first n acknowledge levels is low |
| PyMaster.FirstRefused | pico-examples/uPython/i2c_software/master/master_claude.py:192-194 | when a byte is refused, the level that ended the run is high |
| PyMaster.DataRunEnd | pico-examples/uPython/i2c_software/master/master_claude.py:191-194 | the data loop succeeds exactly when every byte is acknowledged, and reads no acknowledge after the first refusal |
| PyMaster.DataRunHeld | pico-examples/uPython/i2c_software/master/master_claude.py:191-194 | the data loop leaves the bus held after success and released after the STOP of a refusal |
| PyMaster.DataRunEvents | pico-examples/uPython/i2c_software/master/master_claude.py:191-194 | the data loop sends the bytes up to and including the first refused one, then a STOP only after a refusal |
| PyMaster.DataEventsCounts | pico-examples/uPython/i2c_software/master/master_claude.py:191-194 | data bytes hold no START and no STOP |
| PyMaster.WriteShape | pico-examples/uPython/i2c_software/master/master_claude.py:166-200 | `write` is a START, the write address byte, a STOP when it is refused, else the data bytes up to the first refusal and a STOP unless everything was acknowledged and `stop` is false |
| PyMaster.WriteSucceeds | pico-examples/uPython/i2c_software/master/master_claude.py:166-200 | `write` reports success exactly when the address and every data byte were acknowledged |
| PyMaster.WriteResult | pico-examples/uPython/i2c_software/master/master_claude.py:166-200 | from released lines `write` makes exactly one START, and exactly one STOP except after a success with `stop` false |
| PyMaster.ReadAllShape | pico-examples/uPython/i2c_software/master/master_claude.py:223-226 | every byte of `read` is acknowledged except the last, which gets NACK |
| PyMaster.ReadAllValues | pico-examples/uPython/i2c_software/master/master_claude.py:223-226 | byte i read is the i-th group of eight levels, in 0..255 |
| PyMaster.ReadAllRest | pico-examples/uPython/i2c_software/master/master_claude.py:223-226 | the loop uses eight levels per byte |
| PyMaster.ReadAllRun | pico-examples/uPython/i2c_software/master/master_claude.py:223-226 | one byte per pass |
| PyMaster.ReadEventsCounts | pico-examples/uPython/i2c_software/master/master_claude.py:223-226 | the data loop holds no START and no STOP |
| PyMaster.ReadShape | pico-examples/uPython/i2c_software/master/master_claude.py:202-231 | `read` is a START, the read address byte, the data loop if the address was acknowledged, and a STOP, leaving both lines released |
| PyMaster.ReadShapeRefused | pico-examples/uPython/i2c_software/master/master_claude.py:217-219 | a refused address gives START, address byte, STOP |
| PyMaster.ReadShapeAccepted | pico-examples/uPython/i2c_software/master/master_claude.py:213-229 | an acknowledged address gives START, address byte, the bytes, STOP |
| PyMaster.ReadResultSpec | pico-examples/uPython/i2c_software/master/master_claude.py:202-231 | `read` gives None exactly when the address is refused; else a list of `count` bytes for count > 1, the single byte for count 1, and an IndexError for count <= 0 |
| PyMaster.ReadCounts | pico-examples/uPython/i2c_software/master/master_claude.py:202-231 | from released lines `read` makes exactly one START and one STOP |
| PyMaster.WriteThenReadSpec | pico-examples/uPython/i2c_software/master/master_claude.py:233-250 | `write_then_read` gives None and stops the bus when the write fails; otherwise it is the write without STOP followed by `read`, which starts with a clock pulse and a repeated START, two STARTs and one STOP in all |
| PyMaster.ProbeShape | pico-examples/uPython/i2c_software/master/master_claude.py:262-270 | one probe is START, the write address byte, STOP, and finds the address exactly when SDA read low |
| PyMaster.ScanRest | pico-examples/uPython/i2c_software/master/master_claude.py:261-270 | each probe uses one acknowledge level |
| PyMaster.ScanFound | pico-examples/uPython/i2c_software/master/master_claude.py:252-272 | `scan` returns exactly the addresses whose probe was acknowledged, in increasing order |
| PyMaster.ScanEvents | pico-examples/uPython/i2c_software/master/master_claude.py:252-272 | `scan` makes one START and one STOP per address probed and leaves both lines released |
| PyMaster.BitBangMaster.constructor | pico-examples/uPython/i2c_software/master/master_claude.py:11-33 | a new master has its pins and has released both lines |
| PyMaster.BitBangMaster.StartCondition | pico-examples/uPython/i2c_software/master/master_claude.py:39-55 | the writes StartShape reads as a START |
| PyMaster.BitBangMaster.StopCondition | pico-examples/uPython/i2c_software/master/master_claude.py:57-73 | the writes StopShape reads as a STOP |
| PyMaster.BitBangMaster.WriteBit | pico-examples/uPython/i2c_software/master/master_claude.py:75-96 | the writes of one clock pulse carrying the bit |
| PyMaster.BitBangMaster.ReadBit | pico-examples/uPython/i2c_software/master/master_claude.py:98-121 | returns the next SDA level and makes one released clock |
| PyMaster.BitBangMaster.WriteByte | pico-examples/uPython/i2c_software/master/master_claude.py:123-141 | sends the byte; returns whether it was acknowledged |
| PyMaster.BitBangMaster.ReadByte | pico-examples/uPython/i2c_software/master/master_claude.py:143-164 | returns the byte read and sends ACK or NACK |
| PyMaster.BitBangMaster.Write | pico-examples/uPython/i2c_software/master/master_claude.py:166-200 | the bus activity and result WriteShape and WriteSucceeds describe |
| PyMaster.BitBangMaster.WriteDataBytes | pico-examples/uPython/i2c_software/master/master_claude.py:191-194 | the data loop of `write` |
| PyMaster.BitBangMaster.Read | pico-examples/uPython/i2c_software/master/master_claude.py:202-231 | the bus activity and result ReadShape and ReadResultSpec describe |
| PyMaster.BitBangMaster.ReadData | pico-examples/uPython/i2c_software/master/master_claude.py:222-226 | the data loop of `read`, empty for a count of zero or less |
| PyMaster.BitBangMaster.WriteThenRead | pico-examples/uPython/i2c_software/master/master_claude.py:233-250 | the bus activity and result WriteThenReadSpec describes |
| PyMaster.BitBangMaster.Scan | pico-examples/uPython/i2c_software/master/master_claude.py:252-272 | probes 0x08 to 0x77 in turn; the result ScanFound describes |

## Left out

- Interrupt hardware: `gpio_init`, pin directions of the slave and sniffers, slew rate, `gpio_set_irq_enabled` and `irq_set_enabled` are left out. Each handler call is one atomic step; nesting and `volatile` semantics are not modelled.
- Timing: `sleep_us`, `sleep_ms`, `time.sleep` and `_delay_half_cycle` are recorded as `Delay` steps without a duration. The Python `self.delay = 1 / (freq * 4)` is floating point and is not modelled.
- CppMaster.DelayFor: the C++ `MAX(1000000.0f / float(frequency_hz), 1)` is single-precision floating point; the model takes the floor of the exact quotient, which can differ by rounding for large frequencies.
- LEDs: `init_leds`, `set_leds`, the LED update inside the button master's `shift_in` and handler, the arcade module's display loop and the test program's `set_state` drive GPIO outputs only. They are left out, apart from the arcade `set_state` mapping (`StatusLeds`, `StateLedsOneHot`).
- Serial output: `printf`, `stdio_init_all`, `tusb_init` and the listener's `send_32bit_serial` are left out. Records the listener would send are appended to the `sent` sequence.
- Endless loops: the idle `while (true)` loops of the slave demos, the listener, the button master and the arcade module are left out. The walking LED and the second demo's loop are modelled one turn or a bounded number of turns at a time (`Walker.Walk`, `ArcadeMaster.LoopOnce`).
- The C++ master's `main` (write, read back, compare) is not modelled beyond the operations it calls.
- In the test program, `main` never calls `shift_state` (the calls are commented out); it is modelled on its own.
- The user's event handler is a parameter of the slave: `reply` is the byte it leaves in the fifo. The two example handlers are modelled separately, in `callbacks.dfy`.
- The library file implements the class declared in `C++/i2c_arcade_demo/i2c_software_slave_lib.h`. The header beside it, `C++/i2c_software/slave/i2c_software_slave_lib.h`, declares file-scope statics instead. The class is modelled from the former, the enums and fifo from either (they agree).
- Bus.Events: lists only what the master's own latches do (`gpio_put` on a driven SDA, clock rises). After a NACK, `read_acknowledge` retakes SDA low while SCL is high, a START on the wire that `Events` and `CountStarts` leave out (`CppMaster.ReadAckNackStartsOnWire` states where it happens). The START counts of `CppMaster.StartCommCounts`, `StartRetryEvents`, `WriteAllEvents`, `WriteBytesEvents`, `ReadBytesEvents` and `Demo2Master.ReadBytesStopEvents`, `WriteBytesStopEvents` count `start_condition` calls, one per attempt, and miss one wire START per refused acknowledge.
- The line levels a master reads are a script given up front: the device on the other end is not modelled, and an exhausted script reads high, as the pull-up would.
- Demo2Master.ArcadeMaster.StartWithRetries: states the trace and the script but not the fifo contents after the loop.
- Demo2Master.ArcadeMaster.WriteByteWithRetries: states the trace and the script but not the fifo contents after the loop.
- Demo2Master.ArcadeMaster.WriteBytes: states the trace and the script but not the fifo contents.
- Demo2Master.ArcadeMaster.WriteData: states the trace and the script but not the fifo contents.
- Demo2Master.ArcadeMaster.ReadBytes: states the trace, the script and the array but not the fifo contents.
- Demo2Master.ArcadeMaster.LoopOnce: states the trace, the script and the next number but not the fifo contents.
- The hardware-I2C examples, `uPython/i2c_software/master/master.py`, the student code, the listener's Python decoder and the blink example are not part of this model.
