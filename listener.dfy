/** The passive bus sniffer `i2c_listener`: it follows the SDA and SCL edges
    of someone else's I2C traffic, counts bits modulo 9 (eight data bits and
    the acknowledge bit of UM10204 section 3.1.6) and, on the ninth bit of
    every group, packs a 32-bit record for the serial link. It only reads the
    lines; the records it hands to the serial sender are collected in
    `sent`. Each handler call is one atomic step. */
module Listener {
  import opened Fifo8
  import Bus
  import SoftSlave

  /** `i2c_state_t` of the listener, numbered from 0. */
  datatype State = Start | Transmit | Receive | Null

  /** `i2c_acknowledge_state_t` of the listener, numbered from 0. */
  datatype AckState = AckTransmit | AckReceive | AckNull

  function StateCode(s: State): (r: bv32)
    ensures r <= 3
  {
    match s
    case Start => 0 case Transmit => 1 case Receive => 2 case Null => 3
  }

  function AckCode(a: AckState): (r: bv32)
    ensures r <= 2
  {
    match a
    case AckTransmit => 0 case AckReceive => 1 case AckNull => 2
  }

  /** `i2c_message`: tag 0xF0 in bits 31-24, the address in 23-16, the state
      in 15-12, the acknowledge state in 11-9, the acknowledge bit in 8 and
      the data in 7-0. */
  function Message(data: bv8, state: State, ack: AckState, acknowledged: bool, address: bv8): bv32
  {
    Pack(data, StateCode(state), AckCode(ack), acknowledged, address)
  }

  /** The shifts and ors of `i2c_message` on the enumerators' values. */
  function Pack(data: bv8, state: bv32, ack: bv32, acknowledged: bool, address: bv8): bv32
  {
    (0xF0 << 24) | ((address as bv32) << 16) | (state << 12)
    | (ack << 9) | (if acknowledged then 0x100 else 0) | (data as bv32)
  }

  /** The fields of a record, as the receiving end reads them back. */
  datatype Record = Record(data: bv8, state: State, ack: AckState, acknowledged: bool, address: bv8)

  datatype Option<T> = None | Some(value: T)

  function StateOf(code: bv32): Option<State>
  {
    if code == 0 then Some(Start) else if code == 1 then Some(Transmit)
    else if code == 2 then Some(Receive) else if code == 3 then Some(Null) else None
  }

  function AckOf(code: bv32): Option<AckState>
  {
    if code == 0 then Some(AckTransmit) else if code == 1 then Some(AckReceive)
    else if code == 2 then Some(AckNull) else None
  }

  /** Reading a 32-bit word as a record: the tag must be 0xF0 and the two
      state fields must hold enumerator values. */
  function Decode(w: bv32): Option<Record>
  {
    var st := StateOf((w >> 12) & 0xF);
    var ak := AckOf((w >> 9) & 0x7);
    if w >> 24 != 0xF0 || st.None? || ak.None? then None
    else Some(Record((w & 0xFF) as bv8, st.value, ak.value, w & 0x100 != 0, ((w >> 16) & 0xFF) as bv8))
  }

  lemma StateCodeRoundTrip(s: State, a: AckState)
    ensures StateOf(StateCode(s)) == Some(s) && AckOf(AckCode(a)) == Some(a)
  {
  }

  /** Every field of a record sits in its own bits: packing and reading back
      agree field by field. */
  lemma MessageFields(data: bv8, state: State, ack: AckState, acknowledged: bool, address: bv8)
    ensures var w := Message(data, state, ack, acknowledged, address);
            w >> 24 == 0xF0 && ((w >> 16) & 0xFF) as bv8 == address
            && (w >> 12) & 0xF == StateCode(state) && (w >> 9) & 0x7 == AckCode(ack)
            && (w & 0x100 != 0) == acknowledged && (w & 0xFF) as bv8 == data
  {
    var w := Message(data, state, ack, acknowledged, address);
    var s := StateCode(state);
    var a := AckCode(ack);
    assert w == Pack(data, s, a, acknowledged, address);
    PackFields(data, s, a, acknowledged, address);
  }

  lemma PackFields(data: bv8, s: bv32, a: bv32, acknowledged: bool, address: bv8)
    requires s <= 3 && a <= 2
    ensures var w := Pack(data, s, a, acknowledged, address);
            w >> 24 == 0xF0 && ((w >> 16) & 0xFF) as bv8 == address
            && (w >> 12) & 0xF == s && (w >> 9) & 0x7 == a
            && (w & 0x100 != 0) == acknowledged && (w & 0xFF) as bv8 == data
  {
  }

  /** A word reads back as a record exactly when it is the packing of that
      record: every record the listener can build unpacks to its own fields,
      and nothing else unpacks to them. */
  lemma DecodeIffMessage(w: bv32, r: Record)
    ensures Decode(w) == Some(r) <==> w == Message(r.data, r.state, r.ack, r.acknowledged, r.address)
  {
    if w == Message(r.data, r.state, r.ack, r.acknowledged, r.address) {
      DecodeMessage(r);
    }
    if Decode(w) == Some(r) {
      MessageOfDecode(w, r);
    }
  }

  lemma DecodeMessage(r: Record)
    ensures Decode(Message(r.data, r.state, r.ack, r.acknowledged, r.address)) == Some(r)
  {
    var w := Message(r.data, r.state, r.ack, r.acknowledged, r.address);
    MessageFields(r.data, r.state, r.ack, r.acknowledged, r.address);
    StateCodeRoundTrip(r.state, r.ack);
    assert StateOf((w >> 12) & 0xF) == Some(r.state) && AckOf((w >> 9) & 0x7) == Some(r.ack);
  }

  lemma MessageOfDecode(w: bv32, r: Record)
    requires Decode(w) == Some(r)
    ensures w == Message(r.data, r.state, r.ack, r.acknowledged, r.address)
  {
    var s := (w >> 12) & 0xF;
    var a := (w >> 9) & 0x7;
    assert StateOf(s) == Some(r.state) && AckOf(a) == Some(r.ack);
    assert r.data == (w & 0xFF) as bv8 && r.acknowledged == (w & 0x100 != 0)
        && r.address == ((w >> 16) & 0xFF) as bv8;
    CodeOf(s, r.state, a, r.ack);
    Repack(w, s, a);
  }

  lemma CodeOf(s: bv32, st: State, a: bv32, ak: AckState)
    requires StateOf(s) == Some(st) && AckOf(a) == Some(ak)
    ensures s == StateCode(st) && a == AckCode(ak) && s <= 3 && a <= 2
  {
  }

  /** A word with tag 0xF0, a state field of at most 3 and an acknowledge
      field of at most 2 is the packing of its own fields. */
  lemma Repack(w: bv32, s: bv32, a: bv32)
    requires w >> 24 == 0xF0 && s == (w >> 12) & 0xF && a == (w >> 9) & 0x7 && s <= 3 && a <= 2
    ensures w == Pack((w & 0xFF) as bv8, s, a, w & 0x100 != 0, ((w >> 16) & 0xFF) as bv8)
  {
  }

  /** The listener's state, as the handlers update it. */
  datatype Sniff = Sniff(sdaLevel: bool, sclLevel: bool, state: State, ack: AckState,
                         predicted: State, fifo: bv8, counter: nat)

  /** The state after one handler call and the records it sent. */
  datatype Out = Out(next: Sniff, records: seq<bv32>)

  predicate ValidSniff(s: Sniff)
  {
    s.counter < SoftSlave.UintLimit
  }

  /** `sda_trigger_handler`: the new SDA level is recorded; with SCL high a
      falling edge is a START and a rising edge a STOP, and both restart the
      bit count. */
  function SdaStep(s: Sniff, event: bv32): Sniff
  {
    if event == Bus.EDGE_FALL then
      if s.sclLevel then s.(sdaLevel := false, state := Start, counter := 0) else s.(sdaLevel := false)
    else if event == Bus.EDGE_RISE then
      if s.sclLevel then s.(sdaLevel := true, state := Null, counter := 0) else s.(sdaLevel := true)
    else s
  }

  /** `scl_trigger_handler`. */
  function SclStep(s: Sniff, event: bv32): Out
    requires ValidSniff(s)
  {
    if event == Bus.EDGE_RISE then SclRise(s.(sclLevel := true))
    else if event == Bus.EDGE_FALL then Out(s.(sclLevel := false), [])
    else Out(s, [])
  }

  /** The rising-edge branch with `scl_level` already set: unless idle, shift
      the SDA level in, take the one decision that applies, and count. The
      tests are on `bit_counter + 1` as a `uint32_t`, which wraps to 0 at
      0xFFFFFFFF. */
  function SclRise(s: Sniff): Out
    requires ValidSniff(s)
  {
    if s.state == Null then Out(s, [])
    else
      var f := Shifted(s.fifo, s.sdaLevel);
      var t := s.(fifo := f, counter := SoftSlave.Inc(s.counter));
      if s.counter == 6 && s.state == Start then
        Out(t.(predicted := if s.sdaLevel then Receive else Transmit), [])
      else if SoftSlave.Inc(s.counter) % 9 == 8 then
        Out(t.(ack := if s.state == Receive then AckTransmit else AckReceive), [])
      else if SoftSlave.Inc(s.counter) % 9 == 0 then
        Out(t.(ack := AckNull, state := s.predicted), [Message(f, Start, s.ack, s.sdaLevel, f)])
      else Out(t, [])
  }

  // ---------------------------------------------------------------------
  // One handler call at a time

  /** SDA edges: a fall with SCL high enters START, a rise with SCL high
      NULL, both with the counter at 0; with SCL low only the recorded level
      changes. No SDA edge touches the fifo, the acknowledge state or the
      predicted state. */
  lemma SdaStepSpec(s: Sniff, event: bv32)
    ensures var t := SdaStep(s, event);
            t.fifo == s.fifo && t.ack == s.ack && t.predicted == s.predicted && t.sclLevel == s.sclLevel
            && (event == Bus.EDGE_FALL && s.sclLevel ==> t.state == Start && t.counter == 0 && !t.sdaLevel)
            && (event == Bus.EDGE_RISE && s.sclLevel ==> t.state == Null && t.counter == 0 && t.sdaLevel)
            && (!s.sclLevel ==> t == s.(sdaLevel := t.sdaLevel))
            && (event == Bus.EDGE_FALL ==> !t.sdaLevel) && (event == Bus.EDGE_RISE ==> t.sdaLevel)
  {
  }

  /** While idle, a rising SCL edge only records the level; a falling edge
      always only clears it. */
  lemma SclIdleSpec(s: Sniff, event: bv32)
    requires ValidSniff(s)
    ensures s.state == Null && event == Bus.EDGE_RISE ==> SclStep(s, event) == Out(s.(sclLevel := true), [])
    ensures event == Bus.EDGE_FALL ==> SclStep(s, event) == Out(s.(sclLevel := false), [])
  {
  }

  /** While not idle, every rising SCL edge shifts the SDA level into the
      fifo and counts exactly one bit, and sends at most one record. */
  lemma SclRiseCounts(s: Sniff)
    requires ValidSniff(s) && s.state != Null
    ensures var o := SclStep(s, Bus.EDGE_RISE);
            o.next.fifo == Shifted(s.fifo, s.sdaLevel) && o.next.counter == SoftSlave.Inc(s.counter)
            && o.next.sclLevel && o.next.sdaLevel == s.sdaLevel && |o.records| <= 1
  {
  }

  /** The seventh bit after a START decides the predicted state: RECEIVE
      when SDA is high, TRANSMIT when it is low. */
  lemma PredictSpec(s: Sniff)
    requires ValidSniff(s) && s.state == Start && s.counter == 6
    ensures var o := SclStep(s, Bus.EDGE_RISE);
            o.next.predicted == (if s.sdaLevel then Receive else Transmit)
            && o.next.state == Start && o.next.ack == s.ack && o.records == []
  {
  }

  /** On the eighth bit of a group the acknowledge state is set: the master
      acknowledges while the listener believes a read is going on, the slave
      otherwise. */
  lemma AckStateSpec(s: Sniff)
    requires ValidSniff(s) && s.state != Null && SoftSlave.Inc(s.counter) % 9 == 8
    ensures var o := SclStep(s, Bus.EDGE_RISE);
            o.next.ack == (if s.state == Receive then AckTransmit else AckReceive)
            && o.records == [] && o.next.state == s.state
  {
  }

  /** On the ninth bit of a group exactly one record goes out: state field
      START, address and data fields both the fifo just shifted, acknowledge
      bit the SDA level, so bit 0 and bit 8 of the record agree. Afterwards
      the acknowledge state is NULL and the state is the predicted one. */
  lemma RecordSpec(s: Sniff)
    requires ValidSniff(s) && s.state != Null && SoftSlave.Inc(s.counter) % 9 == 0
    ensures var o := SclStep(s, Bus.EDGE_RISE);
            var f := Shifted(s.fifo, s.sdaLevel);
            o.records == [Message(f, Start, s.ack, s.sdaLevel, f)]
            && o.next.ack == AckNull && o.next.state == s.predicted
            && Decode(o.records[0]) == Some(Record(f, Start, s.ack, s.sdaLevel, f))
            && (o.records[0] & 1 != 0) == (o.records[0] & 0x100 != 0)
  {
    var f := Shifted(s.fifo, s.sdaLevel);
    DecodeIffMessage(Message(f, Start, s.ack, s.sdaLevel, f), Record(f, Start, s.ack, s.sdaLevel, f));
    ShiftedBits(s.fifo, s.sdaLevel);
    MessageFields(f, Start, s.ack, s.sdaLevel, f);
    LowBit(Message(f, Start, s.ack, s.sdaLevel, f), f);
  }

  /** The counter test wraps with the `uint32_t` sum: when 0xFFFFFFFF bits
      have been counted since the last START, the next rising edge counts as
      the ninth bit of a group even though 2^32 is not a multiple of nine. It
      sends a record, clears the acknowledge state, takes the predicted state
      and starts counting again from 0. */
  lemma CounterWrapRecord(s: Sniff)
    requires s.counter == SoftSlave.UintLimit - 1 && s.state != Null
    ensures var o := SclStep(s, Bus.EDGE_RISE);
            var f := Shifted(s.fifo, s.sdaLevel);
            o.records == [Message(f, Start, s.ack, s.sdaLevel, f)]
            && o.next.counter == 0 && o.next.ack == AckNull && o.next.state == s.predicted
            && (s.counter + 1) % 9 != 0
  {
    RecordSpec(s);
  }

  /** Bit 0 of a word is bit 0 of its low byte. */
  lemma LowBit(w: bv32, f: bv8)
    requires (w & 0xFF) as bv8 == f
    ensures (w & 1 != 0) == Bit(f, 0)
  {
  }

  // ---------------------------------------------------------------------
  // Whole 9-bit groups

  /** One clock period of the bus as the listener sees it: SDA settles at
      `bit` while SCL is low (an SDA edge only when the level changes), then
      SCL rises and falls. */
  function ClockBit(s: Sniff, bit: bool): Out
    requires ValidSniff(s)
  {
    var a := if s.sdaLevel == bit then s else SdaStep(s, if bit then Bus.EDGE_RISE else Bus.EDGE_FALL);
    var r := SclStep(a, Bus.EDGE_RISE);
    Out(SclStep(r.next, Bus.EDGE_FALL).next, r.records)
  }

  /** Clock periods for each of `bits` in turn, and all records sent. */
  function ClockBits(s: Sniff, bits: seq<bool>): Out
    requires ValidSniff(s)
    decreases |bits|
  {
    if bits == [] then Out(s, [])
    else
      var o := ClockBit(s, bits[0]);
      if o.next.counter < SoftSlave.UintLimit then
        var rest := ClockBits(o.next, bits[1..]);
        Out(rest.next, o.records + rest.records)
      else Out(o.next, o.records)
  }

  /** A clock period that starts with SCL low is one rising-edge step with
      SDA at `bit`, followed by SCL low again. */
  lemma ClockBitSpec(s: Sniff, bit: bool)
    requires ValidSniff(s) && !s.sclLevel
    ensures var r := SclRise(s.(sdaLevel := bit, sclLevel := true));
            ClockBit(s, bit) == Out(r.next.(sclLevel := false), r.records)
  {
  }

  /** A clock period before the last bit of a group sends nothing: it
      shifts the bit in, counts it, sets the acknowledge state on the eighth
      bit and the predicted state on the seventh bit after a START. */
  lemma GroupStep(m: Sniff, bit: bool)
    requires ValidSniff(m) && !m.sclLevel && m.state != Null
    requires m.counter % 9 <= 7 && m.counter + 1 < SoftSlave.UintLimit
    ensures var o := ClockBit(m, bit);
            o.records == []
            && o.next == m.(sdaLevel := bit, fifo := Shifted(m.fifo, bit), counter := m.counter + 1,
                            ack := if m.counter % 9 == 7 then (if m.state == Receive then AckTransmit else AckReceive) else m.ack,
                            predicted := if m.counter == 6 && m.state == Start then (if bit then Receive else Transmit) else m.predicted)
  {
    if m.counter == 6 && m.state == Start {
      PredictBit(m, bit);
    } else if m.counter % 9 == 7 {
      AckBit(m, bit);
    } else {
      PlainBit(m, bit);
    }
  }

  /** The seventh bit after a START sets the predicted state. */
  lemma PredictBit(m: Sniff, bit: bool)
    requires ValidSniff(m) && !m.sclLevel && m.counter == 6 && m.state == Start
    ensures ClockBit(m, bit) == Out(m.(sdaLevel := bit, fifo := Shifted(m.fifo, bit), counter := 7,
                                       predicted := if bit then Receive else Transmit), [])
  {
    ClockBitSpec(m, bit);
  }

  /** The eighth bit of a group sets the acknowledge state. */
  lemma AckBit(m: Sniff, bit: bool)
    requires ValidSniff(m) && !m.sclLevel && m.state != Null
    requires m.counter % 9 == 7 && m.counter + 1 < SoftSlave.UintLimit
    ensures ClockBit(m, bit) == Out(m.(sdaLevel := bit, fifo := Shifted(m.fifo, bit), counter := m.counter + 1,
                                       ack := if m.state == Receive then AckTransmit else AckReceive), [])
  {
    ClockBitSpec(m, bit);
    assert (m.counter + 1) % 9 == 8;
  }

  /** Any other bit before the last of a group is only shifted in and
      counted. */
  lemma PlainBit(m: Sniff, bit: bool)
    requires ValidSniff(m) && !m.sclLevel && m.state != Null
    requires m.counter % 9 < 7 && m.counter + 1 < SoftSlave.UintLimit
    requires !(m.counter == 6 && m.state == Start)
    ensures ClockBit(m, bit) == Out(m.(sdaLevel := bit, fifo := Shifted(m.fifo, bit), counter := m.counter + 1), [])
  {
    ClockBitSpec(m, bit);
    assert (m.counter + 1) % 9 == m.counter % 9 + 1;
  }

  /** The last clock period of a group sends its record. */
  lemma GroupLast(m: Sniff, bit: bool)
    requires ValidSniff(m) && !m.sclLevel && m.state != Null
    requires m.counter % 9 == 8 && m.counter + 1 < SoftSlave.UintLimit
    ensures var o := ClockBit(m, bit);
            var f := Shifted(m.fifo, bit);
            o.records == [Message(f, Start, m.ack, bit, f)]
            && o.next == m.(sdaLevel := bit, fifo := f, counter := m.counter + 1, ack := AckNull, state := m.predicted)
  {
    ClockBitSpec(m, bit);
    assert (m.counter + 1) % 9 == 0;
  }

  /** The first `k` bits of a group (k at most 8, counting from a group
      boundary) send nothing; they shift into the fifo and count, the
      acknowledge state is set on the eighth, and the predicted state is set
      on the seventh bit after a START. */
  lemma {:induction false} GroupPrefix(s: Sniff, bits: seq<bool>)
    requires ValidSniff(s) && !s.sclLevel && s.state != Null
    requires s.counter % 9 == 0 && s.counter + 9 < SoftSlave.UintLimit && |bits| <= 8
    ensures PrefixDone(s, bits, ClockBits(s, bits))
    decreases |bits|
  {
    if bits != [] {
      var front := bits[..|bits| - 1];
      GroupPrefix(s, front);
      PrefixStep(s, front, bits[|bits| - 1]);
      assert front + [bits[|bits| - 1]] == bits;
    }
  }

  /** The state after the first bits of a group, as the previous lemma states it. */
  predicate PrefixDone(s: Sniff, bits: seq<bool>, o: Out)
    requires |bits| <= 8
  {
    o.records == [] && o.next.state == s.state && !o.next.sclLevel
    && o.next.counter == s.counter + |bits| && o.next.fifo == ShiftAll(s.fifo, bits)
    && o.next.ack == (if |bits| == 8 then (if s.state == Receive then AckTransmit else AckReceive) else s.ack)
    && o.next.predicted == (if s.state == Start && s.counter == 0 && |bits| >= 7
                            then (if bits[6] then Receive else Transmit) else s.predicted)
    && (bits != [] ==> o.next.sdaLevel == bits[|bits| - 1])
    && (bits == [] ==> o.next == s)
  }

  lemma PrefixStep(s: Sniff, front: seq<bool>, last: bool)
    requires ValidSniff(s) && !s.sclLevel && s.state != Null
    requires s.counter % 9 == 0 && s.counter + 9 < SoftSlave.UintLimit && |front| < 8
    requires PrefixDone(s, front, ClockBits(s, front))
    ensures PrefixDone(s, front + [last], ClockBits(s, front + [last]))
  {
    var m := ClockBits(s, front).next;
    assert m.counter == s.counter + |front|;
    ModAdd(s.counter, |front|);
    ClockBitsSnoc(s, front, last);
    var p := ClockBit(m, last);
    GroupStep(m, last);
    assert ClockBits(s, front + [last]) == p;
    PrefixExtend(s, front, last, m, p);
  }

  /** The bookkeeping half of the step above, with the clock period given as its outcome. */
  lemma PrefixExtend(s: Sniff, front: seq<bool>, last: bool, m: Sniff, p: Out)
    requires |front| < 8 && s.counter % 9 == 0
    requires PrefixDone(s, front, Out(m, []))
    requires p.records == []
    requires p.next == m.(sdaLevel := last, fifo := Shifted(m.fifo, last), counter := m.counter + 1,
                          ack := if m.counter % 9 == 7 then (if m.state == Receive then AckTransmit else AckReceive) else m.ack,
                          predicted := if m.counter == 6 && m.state == Start then (if last then Receive else Transmit) else m.predicted)
    ensures PrefixDone(s, front + [last], p)
  {
    var bits := front + [last];
    assert m.counter % 9 == |front| by {
      ModAdd(s.counter, |front|);
    }
    assert ShiftAll(s.fifo, bits) == Shifted(ShiftAll(s.fifo, front), last) by {
      ShiftAllSnoc(s.fifo, front, last);
    }
    if |bits| >= 8 {
      assert bits[6] == front[6];
    }
    if |bits| == 7 {
      assert bits[6] == last;
    }
  }

  lemma ModAdd(c: nat, k: nat)
    requires c % 9 == 0 && k < 9
    ensures (c + k) % 9 == k
  {
  }

  /** One more clock period at the end of a run that stays within range. */
  lemma {:induction false} ClockBitsSnoc(s: Sniff, bits: seq<bool>, bit: bool)
    requires ValidSniff(s)
    requires s.counter + |bits| + 1 < SoftSlave.UintLimit
    requires ClockBits(s, bits).next.counter <= s.counter + |bits|
    ensures var o := ClockBits(s, bits);
            var p := ClockBit(o.next, bit);
            ClockBits(s, bits + [bit]) == Out(p.next, o.records + p.records)
    decreases |bits|
  {
    if bits == [] {
      assert [bit][1..] == [];
      var p := ClockBit(s, bit);
      ClockBitCounter(s, bit);
      assert ClockBits(p.next, []) == Out(p.next, []);
      assert p.records + [] == p.records;
    } else {
      var o := ClockBit(s, bits[0]);
      ClockBitCounter(s, bits[0]);
      assert (bits + [bit])[0] == bits[0] && (bits + [bit])[1..] == bits[1..] + [bit];
      ClockBitsCounter(o.next, bits[1..]);
      ClockBitsSnoc(o.next, bits[1..], bit);
      var rest := ClockBits(o.next, bits[1..]);
      var p := ClockBit(rest.next, bit);
      Bus.AppendAssoc(o.records, rest.records, p.records);
    }
  }

  /** One clock period counts at most one bit. */
  lemma ClockBitCounter(s: Sniff, bit: bool)
    requires ValidSniff(s) && s.counter + 1 < SoftSlave.UintLimit
    ensures ClockBit(s, bit).next.counter <= s.counter + 1
  {
    var a := if s.sdaLevel == bit then s else SdaStep(s, if bit then Bus.EDGE_RISE else Bus.EDGE_FALL);
    assert a.counter <= s.counter;
    var r := SclStep(a, Bus.EDGE_RISE);
    assert r.next.counter <= a.counter + 1;
    assert ClockBit(s, bit).next.counter == r.next.counter;
  }

  lemma {:induction false} ClockBitsCounter(s: Sniff, bits: seq<bool>)
    requires ValidSniff(s) && s.counter + |bits| < SoftSlave.UintLimit
    ensures ClockBits(s, bits).next.counter <= s.counter + |bits|
    decreases |bits|
  {
    if bits != [] {
      ClockBitCounter(s, bits[0]);
      var o := ClockBit(s, bits[0]);
      ClockBitsCounter(o.next, bits[1..]);
    }
  }

  /** A whole group of nine clock periods from a group boundary sends
      exactly one record. Its data and address fields are the last eight
      bits seen (the group's bits 2 to 9, so the acknowledge bit is bit 0),
      its state field is START, its acknowledge bit is the ninth bit. After
      it the listener is in the predicted state with the acknowledge state
      NULL, nine bits further on. */
  lemma GroupSpec(s: Sniff, bits: seq<bool>)
    requires ValidSniff(s) && !s.sclLevel && s.state != Null
    requires s.counter % 9 == 0 && s.counter + 9 < SoftSlave.UintLimit && |bits| == 9
    ensures var o := ClockBits(s, bits);
            var b := FromBits(bits[1..]);
            var ack := if s.state == Receive then AckTransmit else AckReceive;
            var predicted := if s.state == Start && s.counter == 0 then (if bits[6] then Receive else Transmit) else s.predicted;
            o.records == [Message(b, Start, ack, bits[8], b)]
            && o.next.state == predicted && o.next.ack == AckNull && o.next.counter == s.counter + 9
            && o.next.fifo == b && !o.next.sclLevel
  {
    var front := bits[..8];
    var o := ClockBits(s, front);
    GroupPrefix(s, front);
    var m := o.next;
    assert o == Out(m, []);
    assert m.counter % 9 == 8 by {
      ModAdd(s.counter, 8);
    }
    var p := ClockBit(m, bits[8]);
    GroupLast(m, bits[8]);
    assert ClockBits(s, bits) == p by {
      ClockBitsSnoc(s, front, bits[8]);
      assert front + [bits[8]] == bits;
    }
    GroupFinish(s, bits, m, p);
  }

  /** The bookkeeping half of the lemma above, with the ninth clock period given as its outcome. */
  lemma GroupFinish(s: Sniff, bits: seq<bool>, m: Sniff, p: Out)
    requires |bits| == 9 && PrefixDone(s, bits[..8], Out(m, []))
    requires var f := Shifted(m.fifo, bits[8]);
             p.records == [Message(f, Start, m.ack, bits[8], f)]
             && p.next == m.(sdaLevel := bits[8], fifo := f, counter := m.counter + 1, ack := AckNull, state := m.predicted)
    ensures var b := FromBits(bits[1..]);
            var ack := if s.state == Receive then AckTransmit else AckReceive;
            var predicted := if s.state == Start && s.counter == 0 then (if bits[6] then Receive else Transmit) else s.predicted;
            p.records == [Message(b, Start, ack, bits[8], b)]
            && p.next.state == predicted && p.next.ack == AckNull && p.next.counter == s.counter + 9
            && p.next.fifo == b && !p.next.sclLevel
  {
    var front := bits[..8];
    assert Shifted(ShiftAll(s.fifo, front), bits[8]) == FromBits(bits[1..]) by {
      assert front + [bits[8]] == bits;
      ShiftAllSnoc(s.fifo, front, bits[8]);
      assert ShiftAll(s.fifo, bits) == ShiftAll(Shifted(s.fifo, bits[0]), bits[1..]);
      ShiftEightHoldsBits(Shifted(s.fifo, bits[0]), bits[1..]);
    }
    assert front[6] == bits[6];
  }

  /** A START, then the eight address bits and the acknowledge bit: one
      record, whose data field is the address byte moved up one place with
      the acknowledge bit below it, and whose acknowledge state is
      ACK_RECEIVE. The predicted state comes from the seventh bit, the lowest
      address bit, not from the R/W bit that follows it. */
  lemma AddressGroup(s: Sniff, bits: seq<bool>)
    requires ValidSniff(s) && s.sclLevel && s.sdaLevel && |bits| == 9
    ensures var t := SdaStep(s, Bus.EDGE_FALL).(sclLevel := false);
            var o := ClockBits(t, bits);
            var b := FromBits(bits[1..]);
            o.records == [Message(b, Start, AckReceive, bits[8], b)]
            && o.next.state == (if bits[6] then Receive else Transmit) && o.next.counter == 9
            && Bits(b)[7] == bits[8] && Bits(b)[..7] == bits[1..8]
  {
    var t := SdaStep(s, Bus.EDGE_FALL).(sclLevel := false);
    GroupSpec(t, bits);
    ShiftEightHoldsBits(0, bits[1..]);
  }

  // ---------------------------------------------------------------------
  // The class

  /** `i2c_listener`: the pins, the recorded line levels, the state
      machine and the fifo (held by value). `sent` is every record handed to
      the serial sender, in order. */
  class Sniffer {
    const sda: int
    const scl: int
    var sdaLevel: bool
    var sclLevel: bool
    var state: State
    var ack: AckState
    var predicted: State
    var fifo: bv8
    var counter: nat
    var sent: seq<bv32>

    function Snapshot(): Sniff
      reads this
    {
      Sniff(sdaLevel, sclLevel, state, ack, predicted, fifo, counter)
    }

    predicate Valid()
      reads this
    {
      counter < SoftSlave.UintLimit
    }

    /** The constructor: the pins, and the levels `gpio_get` reads on them. */
    constructor (sdaPin: int, sclPin: int, sdaNow: bool, sclNow: bool)
      ensures Valid() && sda == sdaPin && scl == sclPin
      ensures Snapshot() == Sniff(sdaNow, sclNow, Null, AckNull, Null, 0, 0) && sent == []
    {
      sda := sdaPin;
      scl := sclPin;
      state := Null;
      ack := AckNull;
      predicted := Null;
      fifo := 0;
      counter := 0;
      sent := [];
      sdaLevel := sdaNow;
      sclLevel := sclNow;
    }

    /** `sda_trigger_handler`. */
    method SdaTriggerHandler(event: bv32)
      requires Valid()
      modifies this
      ensures Valid() && Snapshot() == SdaStep(old(Snapshot()), event) && sent == old(sent)
    {
      if event == Bus.EDGE_FALL {
        sdaLevel := false;
        if sclLevel {
          state := Start;
          counter := 0;
        }
      } else if event == Bus.EDGE_RISE {
        sdaLevel := true;
        if sclLevel {
          state := Null;
          counter := 0;
        }
      }
    }

    /** `scl_trigger_handler`. */
    method SclTriggerHandler(event: bv32)
      requires Valid()
      modifies this
      ensures Valid()
      ensures var o := SclStep(old(Snapshot()), event);
              Snapshot() == o.next && sent == old(sent) + o.records
    {
      if event == Bus.EDGE_RISE {
        sclLevel := true;
        if state != Null {
          fifo := Shifted(fifo, sdaLevel);
          if counter == 6 && state == Start {
            predicted := if sdaLevel then Receive else Transmit;
          } else if SoftSlave.Inc(counter) % 9 == 8 {
            ack := if state == Receive then AckTransmit else AckReceive;
          } else if SoftSlave.Inc(counter) % 9 == 0 {
            var msg := Message(fifo, Start, ack, sdaLevel, fifo);
            sent := sent + [msg];
            ack := AckNull;
            state := predicted;
          }
          counter := SoftSlave.Inc(counter);
        }
      } else if event == Bus.EDGE_FALL {
        sclLevel := false;
      }
      assert sent == old(sent) + SclStep(old(Snapshot()), event).records;
    }

    /** `trigger_handler`: the event goes to the SDA handler if it is on the
        SDA pin, else to the SCL handler if it is on the SCL pin. */
    method TriggerHandler(gpio: int, events: bv32)
      requires Valid()
      modifies this
      ensures Valid()
      ensures gpio == sda ==> Snapshot() == SdaStep(old(Snapshot()), events) && sent == old(sent)
      ensures gpio != sda && gpio == scl ==>
                var o := SclStep(old(Snapshot()), events);
                Snapshot() == o.next && sent == old(sent) + o.records
      ensures gpio != sda && gpio != scl ==> Snapshot() == old(Snapshot()) && sent == old(sent)
    {
      if gpio == sda {
        SdaTriggerHandler(events);
      } else if gpio == scl {
        SclTriggerHandler(events);
      }
    }
  }

  /** `main`: the listener watches SDA on pin 4 and SCL on pin 5. */
  method ListenerMain(sdaNow: bool, sclNow: bool) returns (l: Sniffer)
    ensures l.Valid() && l.sda == 4 && l.scl == 5 && l.state == Null && l.counter == 0 && l.sent == []
  {
    l := new Sniffer(4, 5, sdaNow, sclNow);
  }
}
