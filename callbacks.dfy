/** The two example event handlers that the slave demos register, and the
    demos' start-up. Each handler keeps one static byte between calls and is
    handed the slave's fifo byte by reference; the byte it leaves there is the
    one the slave goes on with (for a REQUEST, the byte it transmits). */
module SlaveCallbacks {
  import opened SoftSlave

  /** After one handler call: the by-reference byte and the handler's static. */
  datatype Outcome = Outcome(data: bv8, kept: bv8)

  /** `event_handler` of the plain slave demo: a received byte is remembered;
      a request answers the remembered byte plus one, and remembers that. */
  function CountingStep(received: bv8, data: bv8, event: SlaveEvent): Outcome
  {
    match event
    case ReceiveEvent => Outcome(data, data)
    case RequestEvent => Outcome(received + 1, received + 1)
    case _ => Outcome(data, received)
  }

  /** RECEIVE stores the byte and leaves it in place; REQUEST writes and keeps
      `received + 1` modulo 256; every other event changes neither byte. The
      by-reference byte changes only on a REQUEST. */
  lemma CountingStepSpec(received: bv8, data: bv8, event: SlaveEvent)
    ensures var r := CountingStep(received, data, event);
            (event == ReceiveEvent ==> r.kept == data && r.data == data)
            && (event == RequestEvent ==> r.data == r.kept && r.kept as int == (received as int + 1) % 256)
            && (event != ReceiveEvent && event != RequestEvent ==> r.data == data && r.kept == received)
            && (r.data != data ==> event == RequestEvent)
  {
    IncMod(received);
  }

  /** The bytes `k` REQUESTs in a row write, with no RECEIVE between them. */
  function Requests(received: bv8, k: nat): seq<bv8>
    decreases k, received
  {
    if k == 0 then []
    else
      var r := CountingStep(received, 0, RequestEvent);
      [r.data] + Requests(r.kept, k - 1)
  }

  /** Consecutive REQUESTs answer consecutive values: the i-th (from 0) is
      `received + i + 1` modulo 256. */
  lemma {:induction false} RequestsConsecutive(received: bv8, k: nat)
    ensures |Requests(received, k)| == k
    ensures forall i :: 0 <= i < k ==> Requests(received, k)[i] as int == (received as int + i + 1) % 256
    decreases k
  {
    if k > 0 {
      var next := received + 1;
      IncMod(received);
      RequestsConsecutive(next, k - 1);
      assert Requests(received, k) == [next] + Requests(next, k - 1);
      ConsecutiveCons(received as int, next, Requests(next, k - 1));
    }
  }

  /** A run of consecutive values modulo 256 from `next`, preceded by `next`
      itself, is a run from the value before it. */
  lemma ConsecutiveCons(x: int, next: bv8, tail: seq<bv8>)
    requires next as int == (x + 1) % 256
    requires forall i :: 0 <= i < |tail| ==> tail[i] as int == (next as int + i + 1) % 256
    ensures forall i :: 0 <= i < |tail| + 1 ==> ([next] + tail)[i] as int == (x + i + 1) % 256
  {
    forall i | 1 <= i < |tail| + 1
      ensures ([next] + tail)[i] as int == (x + i + 1) % 256
    {
      assert ([next] + tail)[i] == tail[i - 1];
      ModShift(x, i);
    }
  }

  /** Adding one to a byte wraps modulo 256. */
  lemma IncMod(b: bv8)
    ensures (b + 1) as int == (b as int + 1) % 256
  {
  }

  lemma ModShift(x: int, i: nat)
    ensures ((x + 1) % 256 + (i - 1) + 1) % 256 == (x + i + 1) % 256
  {
  }

  /** `event_handler` of the arcade demo: a received byte is remembered; a
      request answers twice the remembered byte, modulo 256. */
  function DoublingStep(dataReceived: bv8, data: bv8, event: SlaveEvent): Outcome
  {
    match event
    case ReceiveEvent => Outcome(data, data)
    case RequestEvent => Outcome(dataReceived * 2, dataReceived)
    case _ => Outcome(data, dataReceived)
  }

  /** RECEIVE stores the byte and leaves it in place; REQUEST writes twice the
      stored byte modulo 256 and keeps it; START, STOP and the rest change
      neither byte. */
  lemma DoublingStepSpec(dataReceived: bv8, data: bv8, event: SlaveEvent)
    ensures var r := DoublingStep(dataReceived, data, event);
            (event == ReceiveEvent ==> r.kept == data && r.data == data)
            && (event == RequestEvent ==> r.kept == dataReceived && r.data as int == (dataReceived as int * 2) % 256)
            && (event != ReceiveEvent && event != RequestEvent ==> r.data == data && r.kept == dataReceived)
            && (r.data != data ==> event == RequestEvent)
  {
    DoubleMod(dataReceived);
  }

  /** Doubling a byte wraps modulo 256. */
  lemma DoubleMod(b: bv8)
    ensures (b * 2) as int == (b as int * 2) % 256
  {
  }

  /** `data_received` starts at 150, so a request before any write answers
      300 modulo 256, that is 44; after a write of `v`, requests answer 2v. */
  lemma DoublingAnswers(data: bv8, v: bv8, x: bv8)
    ensures DoublingStep(InitialDataReceived, data, RequestEvent).data == 44
    ensures var w := DoublingStep(x, v, ReceiveEvent);
            DoublingStep(w.kept, data, RequestEvent).data as int == (v as int * 2) % 256
  {
  }

  /** The initial value of `data_received`. */
  const InitialDataReceived: bv8 := 150

  /** The plain slave demo's handler with its static `received`, which starts
      at 0 like every static without an initialiser. */
  class CountingHandler {
    var received: bv8

    constructor ()
      ensures received == 0
    {
      received := 0;
    }

    /** One call: `data` is the fifo byte handed over, `out` the byte left in it. */
    method EventHandler(data: bv8, byteNumber: nat, event: SlaveEvent) returns (out: bv8)
      modifies this
      ensures Outcome(out, received) == CountingStep(old(received), data, event)
    {
      out := data;
      match event {
        case StartEvent =>
        case ReceiveEvent =>
          received := data;
        case RequestEvent =>
          received := received + 1;
          out := received;
        case StopEvent =>
        case NullEvent =>
      }
    }
  }

  /** The arcade demo's handler with its static `data_received`. */
  class DoublingHandler {
    var dataReceived: bv8

    constructor ()
      ensures dataReceived == InitialDataReceived
    {
      dataReceived := 150;
    }

    method EventHandler(data: bv8, byteNumber: nat, event: SlaveEvent) returns (out: bv8)
      modifies this
      ensures Outcome(out, dataReceived) == DoublingStep(old(dataReceived), data, event)
    {
      out := data;
      match event {
        case StartEvent =>
        case ReceiveEvent =>
          dataReceived := data;
        case RequestEvent =>
          out := dataReceived * 2;
        case StopEvent =>
        case NullEvent =>
      }
    }
  }

  /** The demos' `main`: one slave at address 0x42, SDA on pin 4 and SCL on
      pin 5, is the only instance in the table. */
  method DemoInit() returns (table: Registry, s: Slave)
    ensures table.Valid() && table.count == 1 && table.instances[0] == s
    ensures s.address == 0x42 && s.sda == 4 && s.scl == 5
    ensures s.Snapshot() == Reset(Null) && s.calls == [] && s.pins == []
  {
    table := new Registry();
    s := table.Init(4, 5, 0x42);
  }
}
