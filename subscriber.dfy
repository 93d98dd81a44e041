/** The MQTT ingest adapter: the message handler that decodes each payload and
    offers the point to the bounded channel, the counters it keeps, and the
    once-a-second metrics tick that rolls the per-interval count into the total.
    The transport, the JSON decoder and the clock are outside the model: the
    decoder is the function `decode`, and handler and tick are atomic steps. */
module Subscriber {
  import opened Telemetry
  import opened Channels

  /** The service's counters (`_messageCount`, `_totalMessages`, `_totalErrors`, `_droppedMessages`). */
  datatype Counters = Counters(messageCount: nat, totalMessages: nat, totalErrors: nat, droppedMessages: nat)

  const NoCounts := Counters(0, 0, 0, 0)

  /** What the handler acts on: the counters and the contents of the channel it writes to. */
  datatype Front = Front(counters: Counters, queue: seq<Point>)

  /** The handler for a payload whose decoding gave `decoded`. Every message
      is counted exactly once, as an error or as a decoded message; the total
      is untouched; at most one drop is counted; the channel stays within its
      capacity. */
  function Handle(f: Front, capacity: nat, decoded: Option<Point>): (r: Front)
    ensures r.counters.totalErrors + r.counters.messageCount
         == f.counters.totalErrors + f.counters.messageCount + 1
    ensures r.counters.totalErrors >= f.counters.totalErrors
    ensures r.counters.totalMessages == f.counters.totalMessages
    ensures f.counters.droppedMessages <= r.counters.droppedMessages <= f.counters.droppedMessages + 1
    ensures |f.queue| <= capacity ==> |r.queue| <= capacity
  {
    match decoded
    case None =>
      f.(counters := f.counters.(totalErrors := f.counters.totalErrors + 1))
    case Some(p) =>
      var offered := Offer(f.queue, capacity, p);
      var counted := f.counters.(messageCount := f.counters.messageCount + 1);
      if offered.accepted then Front(counted, offered.items)
      else Front(counted.(droppedMessages := counted.droppedMessages + 1), offered.items)
  }

  /** The metrics tick: the per-interval count moves into the running total,
      so their sum is preserved; the other counters are untouched. */
  function Tick(c: Counters): (r: Counters)
    ensures r.messageCount == 0
    ensures r.totalMessages + r.messageCount == c.totalMessages + c.messageCount
    ensures r.totalMessages >= c.totalMessages
    ensures r.totalErrors == c.totalErrors && r.droppedMessages == c.droppedMessages
  {
    c.(messageCount := 0, totalMessages := c.totalMessages + c.messageCount)
  }

  /** A payload that fails to decode counts one error and changes nothing else. */
  lemma DecodeFailureCountsError(f: Front, capacity: nat)
    ensures Handle(f, capacity, None).counters.totalErrors == f.counters.totalErrors + 1
    ensures Handle(f, capacity, None).counters.messageCount == f.counters.messageCount
    ensures Handle(f, capacity, None).counters.droppedMessages == f.counters.droppedMessages
    ensures Handle(f, capacity, None).queue == f.queue
  {
  }

  /** A decoded point is offered once: it is appended when the channel has room,
      otherwise one drop is counted and the channel is unchanged; either way the
      message count goes up by one and no error is counted. */
  lemma DecodedPointOfferedOnce(f: Front, capacity: nat, p: Point)
    ensures Handle(f, capacity, Some(p)).counters.messageCount == f.counters.messageCount + 1
    ensures Handle(f, capacity, Some(p)).counters.totalErrors == f.counters.totalErrors
    ensures |f.queue| < capacity ==>
              Handle(f, capacity, Some(p)).queue == f.queue + [p]
              && Handle(f, capacity, Some(p)).counters.droppedMessages == f.counters.droppedMessages
    ensures |f.queue| >= capacity ==>
              Handle(f, capacity, Some(p)).queue == f.queue
              && Handle(f, capacity, Some(p)).counters.droppedMessages == f.counters.droppedMessages + 1
  {
  }

  /** What happens to the adapter and its channel, one event at a time: a
      message arrives, the metrics tick fires, or the processor reads one item
      (what it reads is appended to `delivered`). */
  datatype Input = Message(payload: string) | MetricsTick | ConsumerRead

  datatype Trace = Trace(front: Front, delivered: seq<Point>)

  const Boot := Trace(Front(NoCounts, []), [])

  function Apply(t: Trace, capacity: nat, decode: string -> Option<Point>, i: Input): Trace
  {
    match i
    case Message(payload) => t.(front := Handle(t.front, capacity, decode(payload)))
    case MetricsTick => t.(front := t.front.(counters := Tick(t.front.counters)))
    case ConsumerRead =>
      var taken := Take(t.front.queue);
      Trace(t.front.(queue := taken.items),
            t.delivered + (if taken.item.Some? then [taken.item.value] else []))
  }

  function Replay(t: Trace, capacity: nat, decode: string -> Option<Point>, inputs: seq<Input>): Trace
  {
    if inputs == [] then t
    else Apply(Replay(t, capacity, decode, inputs[..|inputs| - 1]), capacity, decode, inputs[|inputs| - 1])
  }

  function Received(inputs: seq<Input>): nat
  {
    CountWhere(inputs, (i: Input) => i.Message?)
  }

  function Undecodable(inputs: seq<Input>, decode: string -> Option<Point>): nat
  {
    CountWhere(inputs, (i: Input) => i.Message? && decode(i.payload).None?)
  }

  function Decodable(inputs: seq<Input>, decode: string -> Option<Point>): nat
  {
    CountWhere(inputs, (i: Input) => i.Message? && decode(i.payload).Some?)
  }

  /** Over any run: errors count exactly the undecodable messages; the total
      plus the per-interval count is exactly the decoded messages; every decoded
      point is read by the processor, still queued, or counted as dropped; the
      channel stays within capacity; and no running total ever decreases. */
  lemma {:induction false} ReplayAccounts(t: Trace, capacity: nat, decode: string -> Option<Point>, inputs: seq<Input>)
    requires |t.front.queue| <= capacity
    ensures var r := Replay(t, capacity, decode, inputs).front.counters;
            r.totalErrors == t.front.counters.totalErrors + Undecodable(inputs, decode)
    ensures var r := Replay(t, capacity, decode, inputs).front.counters;
            r.totalMessages + r.messageCount
              == t.front.counters.totalMessages + t.front.counters.messageCount + Decodable(inputs, decode)
    ensures var r := Replay(t, capacity, decode, inputs);
            |r.delivered| + |r.front.queue| + r.front.counters.droppedMessages
              == |t.delivered| + |t.front.queue| + t.front.counters.droppedMessages + Decodable(inputs, decode)
    ensures |Replay(t, capacity, decode, inputs).front.queue| <= capacity
    ensures var r := Replay(t, capacity, decode, inputs).front.counters;
            r.totalErrors >= t.front.counters.totalErrors
            && r.droppedMessages >= t.front.counters.droppedMessages
            && r.totalMessages >= t.front.counters.totalMessages
  {
    if inputs != [] {
      var init := inputs[..|inputs| - 1];
      ReplayAccounts(t, capacity, decode, init);
      var last := inputs[|inputs| - 1];
      var before := Replay(t, capacity, decode, init);
      if last.Message? {
        match decode(last.payload)
        case None =>
        case Some(p) => DecodedPointOfferedOnce(before.front, capacity, p);
      }
    }
  }

  /** Conservation from a fresh start: every message received is an error, a
      point read by the processor, a point still queued, or a drop, and drops
      never exceed the decoded messages. */
  lemma Conservation(capacity: nat, decode: string -> Option<Point>, inputs: seq<Input>)
    ensures var r := Replay(Boot, capacity, decode, inputs);
            Received(inputs)
              == r.front.counters.totalErrors + |r.delivered| + |r.front.queue| + r.front.counters.droppedMessages
    ensures var c := Replay(Boot, capacity, decode, inputs).front.counters;
            c.droppedMessages <= c.totalMessages + c.messageCount
  {
    ReplayAccounts(Boot, capacity, decode, inputs);
    MessagesSplit(inputs, decode);
  }

  /** A received message either decodes or does not. */
  lemma {:induction false} MessagesSplit(inputs: seq<Input>, decode: string -> Option<Point>)
    ensures Received(inputs) == Undecodable(inputs, decode) + Decodable(inputs, decode)
  {
    if inputs != [] {
      MessagesSplit(inputs[..|inputs| - 1], decode);
    }
  }

  /** The decoded points of a run of messages. */
  function Points(inputs: seq<Input>, decode: string -> Option<Point>): seq<Point>
    requires forall i :: 0 <= i < |inputs| ==> inputs[i].Message? && decode(inputs[i].payload).Some?
  {
    seq(|inputs|, i requires 0 <= i < |inputs| => decode(inputs[i].payload).value)
  }

  /** Drop on full: a burst of M well-formed messages with no reader in between
      fills the channel with the first `capacity` of them, in arrival order, and
      counts the remaining M - capacity as dropped. */
  lemma {:induction false} DropOnFull(capacity: nat, decode: string -> Option<Point>, inputs: seq<Input>)
    requires forall i :: 0 <= i < |inputs| ==> inputs[i].Message? && decode(inputs[i].payload).Some?
    ensures var r := Replay(Boot, capacity, decode, inputs).front;
            r.queue == Points(inputs, decode)[..Min(|inputs|, capacity)]
            && r.counters.droppedMessages == |inputs| - Min(|inputs|, capacity)
  {
    if inputs != [] {
      var init := inputs[..|inputs| - 1];
      DropOnFull(capacity, decode, init);
      var before := Replay(Boot, capacity, decode, init).front;
      var p := decode(inputs[|inputs| - 1].payload).value;
      DecodedPointOfferedOnce(before, capacity, p);
      assert Points(init, decode) == Points(inputs, decode)[..|init|];
      if |init| < capacity {
        assert Points(inputs, decode)[..Min(|inputs|, capacity)]
            == Points(inputs, decode)[..Min(|init|, capacity)] + [p];
      }
    }
  }

  /** The subscriber service: its counters and the channel writer it was given. */
  class MqttSubscriberService {
    const decode: string -> Option<Point>
    const writer: BoundedChannel<Point>
    var messageCount: nat
    var totalMessages: nat
    var totalErrors: nat
    var droppedMessages: nat

    function Snapshot(): Counters
      reads this
    {
      Counters(messageCount, totalMessages, totalErrors, droppedMessages)
    }

    ghost predicate Valid()
      reads this, writer
    {
      writer.Valid()
    }

    /** All counters start at zero; the channel is whatever the host wired in. */
    constructor (decode: string -> Option<Point>, writer: BoundedChannel<Point>)
      requires writer.Valid()
      ensures Valid()
      ensures Snapshot() == NoCounts
      ensures this.decode == decode && this.writer == writer
    {
      this.decode := decode;
      this.writer := writer;
      messageCount, totalMessages, totalErrors, droppedMessages := 0, 0, 0, 0;
    }

    /** The MQTT message callback. It always returns normally: a decode
        failure is counted, never propagated. The topic is only logged. */
    method HandleIncomingMessageAsync(topic: string, payload: string)
      requires Valid()
      modifies this, writer
      ensures Valid()
      ensures Front(Snapshot(), writer.items)
           == Handle(old(Front(Snapshot(), writer.items)), writer.capacity, decode(payload))
    {
      var telemetry := decode(payload);
      match telemetry {
        case None =>
          totalErrors := totalErrors + 1;
        case Some(p) =>
          var written := writer.TryWrite(p);
          if !written {
            droppedMessages := droppedMessages + 1;
          }
          messageCount := messageCount + 1;
      }
    }

    /** One pass of the metrics loop: takes the per-interval count (returned,
        for the rate) and adds it to the running total. */
    method ReportMetrics() returns (currentCount: nat)
      requires Valid()
      modifies this
      ensures Valid()
      ensures currentCount == old(messageCount)
      ensures Snapshot() == Tick(old(Snapshot()))
    {
      currentCount := messageCount;
      messageCount := 0;
      totalMessages := totalMessages + currentCount;
    }
  }
}
