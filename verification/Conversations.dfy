// One device's conversation with the monitoring server: it sends a meterage, waits for the answer,
// keeps it and sends the next.
module Conversations {
  import opened CTypes
  import opened Messages
  import opened Serializer
  import opened Histories
  import opened Network

  // The executor in use at both ends.
  datatype Codec = Codec(encode: Bytes -> Bytes, decode: Bytes -> Bytes)

  ghost predicate Faithful(codec: Codec) {
    forall x: Bytes :: codec.decode(codec.encode(x)) == x
  }

  function Sealed(codec: Codec, m: Message): Bytes {
    codec.encode(Serialized(m))
  }

  function Opened(codec: Codec, x: Bytes): Option<Message> {
    Parsed(codec.decode(x))
  }

  lemma OpenedSealed(codec: Codec, m: Message)
    requires Faithful(codec)
    ensures Opened(codec, Sealed(codec, m)) == Some(m)
  {
    ParsedSerialized(m, []);
    assert Serialized(m) + [] == Serialized(m);
  }

  // A std::vector has fewer than 2^64 elements.
  type Meterages = s: seq<uint8> | |s| < 0x1_0000_0000_0000_0000

  datatype Device = Device(meterages: Meterages, timeStamp: uint64, messages: seq<Message>)

  // A device throws on anything but a command or an error.
  predicate DeviceAccepts(codec: Codec, x: Bytes) {
    var m := Opened(codec, x);
    m.Some? && !m.value.MessageMeterage?
  }

  // The device keeps what it gets.
  function Noting(codec: Codec, dev: Device, x: Bytes): Device
    requires DeviceAccepts(codec, x)
  {
    dev.(messages := dev.messages + [Opened(codec, x).value])
  }

  // The calls to the command center that a message from device d leads to.
  function Calls(codec: Codec, d: uint64, x: Bytes): History {
    match Opened(codec, x)
    case Some(MessageMeterage(t, m)) => [Measured(d, t, m)]
    case _ => []
  }

  // Message m stands at the start of what x decodes to.
  ghost predicate Carries(codec: Codec, x: Bytes, m: Message) {
    var y := codec.decode(x);
    exists n :: 0 <= n <= |y| && Stands(y[..n], m)
  }

  // A device adds to its messages the command or the error that stands at the start of what it gets; on
  // anything else it throws.
  lemma DeviceReads(codec: Codec, dev: Device, x: Bytes, m: Message)
    ensures DeviceAccepts(codec, x) <==> exists r :: Carries(codec, x, r) && !r.MessageMeterage?
    ensures DeviceAccepts(codec, x) && Carries(codec, x, m) ==>
              Noting(codec, dev, x) == dev.(messages := dev.messages + [m])
  {
    hide Parsed, Stands;
    var y := codec.decode(x);
    ParsedStands(y, m);
    if DeviceAccepts(codec, x) {
      ParsedStands(y, Parsed(y).value);
      assert Carries(codec, x, Parsed(y).value);
    }
    if r :| Carries(codec, x, r) && !r.MessageMeterage? {
      ParsedStands(y, r);
    }
  }

  // The server passes the meterage that stands at the start of what it gets on to the command center, under
  // the id of the device, and nothing else.
  lemma ServerReads(codec: Codec, d: uint64, x: Bytes, t: uint64, v: uint8)
    ensures Calls(codec, d, x) == [Measured(d, t, v)] <==> Carries(codec, x, MessageMeterage(t, v))
    ensures Calls(codec, d, x) == [] <==> forall u, w :: !Carries(codec, x, MessageMeterage(u, w))
  {
    hide Parsed, Stands;
    var y := codec.decode(x);
    ParsedStands(y, MessageMeterage(t, v));
    if Opened(codec, x).Some? && Opened(codec, x).value.MessageMeterage? {
      var m := Opened(codec, x).value;
      ParsedStands(y, m);
      assert m == MessageMeterage(m.timeStamp, m.meterage);
    }
    forall u, w ensures Carries(codec, x, MessageMeterage(u, w)) <==> Parsed(y) == Some(MessageMeterage(u, w)) {
      ParsedStands(y, MessageMeterage(u, w));
    }
  }

  // The calls that the first n meterages of ms lead to.
  function Measurements(d: uint64, ms: Meterages, n: nat): History
    requires n <= |ms|
  {
    seq(n, i requires 0 <= i < n => Measured(d, i, ms[i]))
  }

  // The answer to meterage i of ms, from the device's own calls alone.
  ghost function AnswerTo(own: History, d: uint64, ms: Meterages, i: nat): Message
    requires i < |ms|
  {
    Reply(own + Measurements(d, ms, i), d, i, ms[i])
  }

  ghost function Answers(own: History, d: uint64, ms: Meterages, n: nat): seq<Message>
    requires n <= |ms|
  {
    seq(n, i requires 0 <= i < n => AnswerTo(own, d, ms, i))
  }

  // What a device brings along: the meterages it will send, its earlier calls and messages.
  datatype Base = Base(meterages: Meterages, own: History, messages: seq<Message>)

  // Where the conversation stands: not begun, a meterage under way, an answer under way, or over.
  ghost predicate Talking(codec: Codec, b: Base, d: uint64, started: bool, dev: Device, own: History,
                          toServer: seq<Signal>, toDevice: seq<Signal>) {
    var ms, n := b.meterages, dev.timeStamp;
    if !started then
      toServer == [] && toDevice == [] && dev.messages == b.messages && own == b.own
    else
      && dev.meterages == ms && n <= |ms|
      && if toServer != [] then
           && 0 < n && toServer == [Got(Sealed(codec, MessageMeterage(n - 1, ms[n - 1])))] && toDevice == []
           && dev.messages == b.messages + Answers(b.own, d, ms, n - 1)
           && own == b.own + Measurements(d, ms, n - 1)
         else if toDevice != [] then
           && 0 < n && toDevice == [Got(Sealed(codec, AnswerTo(b.own, d, ms, n - 1)))]
           && dev.messages == b.messages + Answers(b.own, d, ms, n - 1)
           && own == b.own + Measurements(d, ms, n)
         else
           && n == |ms|
           && dev.messages == b.messages + Answers(b.own, d, ms, n)
           && own == b.own + Measurements(d, ms, n)
  }

  // Work left in the conversation: two tasks for every meterage not sent yet or under way, one for an answer.
  function Remaining(b: Base, started: bool, dev: Device, toServer: seq<Signal>, toDevice: seq<Signal>): int {
    if !started then 2 * |b.meterages|
    else 2 * (|b.meterages| - dev.timeStamp) + 2 * |toServer| + |toDevice|
  }

  // What sendNextMeterage adds to the server's agenda.
  function NextUp(codec: Codec, dev: Device): seq<Signal> {
    if dev.timeStamp >= |dev.meterages| then []
    else [Got(Sealed(codec, MessageMeterage(dev.timeStamp, dev.meterages[dev.timeStamp])))]
  }

  function Advanced(dev: Device): Device {
    if dev.timeStamp >= |dev.meterages| then dev else dev.(timeStamp := dev.timeStamp + 1)
  }

  lemma Begins(codec: Codec, b: Base, d: uint64, dev: Device, own: History)
    requires Talking(codec, b, d, false, dev, own, [], [])
    ensures var dev' := dev.(meterages := b.meterages, timeStamp := 0);
      && Talking(codec, b, d, true, Advanced(dev'), own, NextUp(codec, dev'), [])
      && Remaining(b, true, Advanced(dev'), NextUp(codec, dev'), []) == Remaining(b, false, dev, [], [])
  {
    assert Answers(b.own, d, b.meterages, 0) == [];
    assert Measurements(d, b.meterages, 0) == [];
    assert b.messages + [] == b.messages && b.own + [] == b.own;
  }

  lemma MeterageArrives(codec: Codec, b: Base, d: uint64, dev: Device, own: History, x: Bytes)
    requires Faithful(codec) && Talking(codec, b, d, true, dev, own, [Got(x)], [])
    ensures 0 < dev.timeStamp <= |b.meterages|
    ensures var i := dev.timeStamp - 1; var v := b.meterages[i]; var r := Reply(own, d, i, v);
      && Opened(codec, x) == Some(MessageMeterage(i, v))
      && Talking(codec, b, d, true, dev, own + [Measured(d, i, v)], [], [Got(Sealed(codec, r))])
      && Remaining(b, true, dev, [], [Got(Sealed(codec, r))]) == Remaining(b, true, dev, [Got(x)], []) - 1
  {
    hide Reply, Opened, Sealed;
    var i := dev.timeStamp - 1;
    OpenedSealed(codec, MessageMeterage(i, b.meterages[i]));
    assert Measurements(d, b.meterages, i + 1) == Measurements(d, b.meterages, i) + [Measured(d, i, b.meterages[i])];
    assert own + [Measured(d, i, b.meterages[i])] == b.own + Measurements(d, b.meterages, i + 1);
  }

  lemma AnswerIsNoMeterage(h: History, d: uint64, t: uint64, v: uint8)
    ensures !Reply(h, d, t, v).MessageMeterage?
  {
  }

  lemma AnswerArrives(codec: Codec, b: Base, d: uint64, dev: Device, own: History, x: Bytes)
    requires Faithful(codec) && Talking(codec, b, d, true, dev, own, [], [Got(x)])
    ensures DeviceAccepts(codec, x)
    ensures var dev' := Noting(codec, dev, x);
      && Talking(codec, b, d, true, Advanced(dev'), own, NextUp(codec, dev'), [])
      && Remaining(b, true, Advanced(dev'), NextUp(codec, dev'), []) == Remaining(b, true, dev, [], [Got(x)]) - 1
  {
    hide Reply, Opened, Sealed;
    var i := dev.timeStamp - 1;
    AnswerIsNoMeterage(b.own + Measurements(d, b.meterages, i), d, i, b.meterages[i]);
    OpenedSealed(codec, AnswerTo(b.own, d, b.meterages, i));
    assert Answers(b.own, d, b.meterages, i + 1) == Answers(b.own, d, b.meterages, i) + [AnswerTo(b.own, d, b.meterages, i)];
  }

  lemma OtherCalls(h: History, e: Event)
    ensures OwnCalls(h + [e], e.device) == OwnCalls(h, e.device) + [e]
    ensures forall d: uint64 :: d != e.device ==> OwnCalls(h + [e], d) == OwnCalls(h, d)
  {
    Snoc(h, e);
  }

  lemma ReplyToOwn(h: History, d: uint64, t: uint64, v: uint8)
    ensures Reply(h, d, t, v) == Reply(OwnCalls(h, d), d, t, v)
  {
    DeviceIsolation(h, d);
    SameViewReply(h, OwnCalls(h, d), d);
  }
}
