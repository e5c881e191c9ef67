// Whole runs of the system: the devices start in any order, at any time, and the queue is worked
// off; what a device has at the end does not depend on how that was interleaved.
module EndToEnd {
  import opened CTypes
  import opened Messages
  import opened Plans
  import opened Histories
  import opened Network
  import opened Conversations
  import opened Monitoring

  // ----- the answers, seen from the calls made before -----

  lemma MeasurementsUnseen(own: History, d: uint64, ms: Meterages, i: nat)
    requires i < |ms|
    ensures Seen(own + Measurements(d, ms, i), d, i) <==> Seen(own, d, i)
  {
    var h := own + Measurements(d, ms, i);
    if j :| 0 <= j < |own| && own[j].Measured? && own[j].device == d && i <= own[j].timeStamp {
      assert h[j] == own[j];
    }
    if j :| 0 <= j < |h| && h[j].Measured? && h[j].device == d && i <= h[j].timeStamp {
      assert j < |own| && own[j] == h[j];
    }
  }

  lemma {:induction false} MeasurementsKeepPlan(own: History, d: uint64, ms: Meterages, i: nat)
    requires i <= |ms|
    ensures LatestPlan(own + Measurements(d, ms, i), d) == LatestPlan(own, d)
  {
    if i == 0 {
      assert own + Measurements(d, ms, 0) == own;
    } else {
      MeasurementsKeepPlan(own, d, ms, i - 1);
      assert (own + Measurements(d, ms, i))[..|own| + i - 1] == own + Measurements(d, ms, i - 1);
    }
  }

  // The answer to a meterage does not depend on the meterages sent before it: time stamps increase.
  lemma AnswerFromBefore(own: History, d: uint64, ms: Meterages, i: nat)
    requires i < |ms|
    ensures AnswerTo(own, d, ms, i) == Reply(own, d, i, ms[i])
  {
    MeasurementsUnseen(own, d, ms, i);
    MeasurementsKeepPlan(own, d, ms, i);
    hide LatestPlan, Current;
  }

  // What a device that sends ms gets, by the calls in h.
  ghost function Expected(h: History, d: uint64, ms: Meterages): seq<Message> {
    seq(|ms|, i requires 0 <= i < |ms| => Reply(h, d, i, ms[i]))
  }

  lemma AnswersExpected(h: History, d: uint64, ms: Meterages)
    ensures Answers(OwnCalls(h, d), d, ms, |ms|) == Expected(h, d, ms)
  {
    forall i | 0 <= i < |ms| ensures Answers(OwnCalls(h, d), d, ms, |ms|)[i] == Expected(h, d, ms)[i] {
      AnswerFromBefore(OwnCalls(h, d), d, ms, i);
      ReplyToOwn(h, d, i, ms[i]);
    }
  }

  // A device that starts over begins with time stamp 0 again: of its new meterages exactly those are
  // obsolete whose number it had already reached, in the last run or before it.
  lemma StartedOver(h: History, h': History, d: uint64, ms: Meterages, again: Meterages, i: nat)
    requires OwnCalls(h', d) == OwnCalls(h, d) + Measurements(d, ms, |ms|) && i < |again|
    ensures Expected(h', d, again)[i] == MessageError(Obsolete) <==> i < |ms| || Seen(h, d, i)
  {
    hide OwnCalls, LatestPlan, Current;
    DeviceIsolation(h, d);
    DeviceIsolation(h', d);
    SeenAfter(OwnCalls(h, d), d, ms, i);
  }

  lemma SeenAfter(own: History, d: uint64, ms: Meterages, t: uint64)
    ensures Seen(own + Measurements(d, ms, |ms|), d, t) <==> t < |ms| || Seen(own, d, t)
  {
    var h := own + Measurements(d, ms, |ms|);
    if j :| 0 <= j < |own| && own[j].Measured? && own[j].device == d && t <= own[j].timeStamp {
      assert h[j] == own[j];
    }
    if t < |ms| {
      assert h[|own| + t] == Measured(d, t, ms[t]);
    }
    if j :| 0 <= j < |h| && h[j].Measured? && h[j].device == d && t <= h[j].timeStamp {
      assert j < |own| ==> own[j] == h[j];
    }
  }

  // ----- runs -----

  // A device sets its meterages and starts, or the queue processes a task.
  datatype Turn<K> = Start(device: K) | Next

  ghost predicate Reaches<C, K, V>(codec: Codec, s: Sys<C, K, V>, ms: map<K, Meterages>, started: set<K>,
                                   turns: seq<Turn<K>>, s': Sys<C, K, V>, started': set<K>)
    decreases |turns|
  {
    if turns == [] then s' == s && started' == started
    else match turns[0]
      case Start(k) =>
        && k in ms && k !in started && ClientExists(s, k)
        && Reaches(codec, StartSending(codec, s, k, ms[k]), ms, started + {k}, turns[1..], s', started')
      case Next =>
        && s.hub.net.tasks != [] && s.hub.net.tasks[0].SendMessageTask? && AllKnown(s.hub.net)
        && Reaches(codec, Deliver(codec, s), ms, started, turns[1..], s', started')
  }

  function Processed<K>(turns: seq<Turn<K>>): nat {
    if turns == [] then 0 else (if turns[0].Next? then 1 else 0) + Processed(turns[1..])
  }

  ghost predicate Keyed<C, K, V>(s: Sys<C, K, V>, w: Wiring<C, K>, bases: map<K, Base>) {
    s.devices.Keys == w.id.Keys == w.client.Keys == w.server.Keys == bases.Keys
  }

  ghost predicate Lists<K>(order: seq<K>, keys: set<K>) {
    && (forall i, j :: 0 <= i < j < |order| ==> order[i] != order[j])
    && (forall i :: 0 <= i < |order| ==> order[i] in keys)
    && (forall k :: k in keys ==> k in order)
  }

  // The work left for the devices of order.
  ghost function Left<C, K, V>(s: Sys<C, K, V>, w: Wiring<C, K>, bases: map<K, Base>, started: set<K>, order: seq<K>): int
    requires Keyed(s, w, bases) && forall i :: 0 <= i < |order| ==> order[i] in s.devices
  {
    if order == [] then 0
    else RemainingFor(s, w, bases[order[0]], order[0], order[0] in started) + Left(s, w, bases, started, order[1..])
  }

  ghost predicate SameWorkBut<C, K, V>(s: Sys<C, K, V>, s': Sys<C, K, V>, w: Wiring<C, K>, bases: map<K, Base>,
                                       started: set<K>, started': set<K>, k: Option<K>)
    requires Keyed(s, w, bases) && Keyed(s', w, bases)
  {
    forall x :: x in s.devices ==>
      RemainingFor(s', w, bases[x], x, x in started') ==
      RemainingFor(s, w, bases[x], x, x in started) - if Some(x) == k then 1 else 0
  }

  lemma {:induction false} LeftOver<C, K, V>(s: Sys<C, K, V>, s': Sys<C, K, V>, w: Wiring<C, K>, bases: map<K, Base>,
                                             started: set<K>, started': set<K>, k: Option<K>, order: seq<K>)
    requires Keyed(s, w, bases) && Keyed(s', w, bases) && SameWorkBut(s, s', w, bases, started, started', k)
    requires forall i :: 0 <= i < |order| ==> order[i] in s.devices
    requires forall i, j :: 0 <= i < j < |order| ==> order[i] != order[j]
    ensures Left(s', w, bases, started', order) ==
            Left(s, w, bases, started, order) - if k.Some? && k.value in order then 1 else 0
    decreases |order|
  {
    if order != [] {
      hide RemainingFor;
      LeftOver(s, s', w, bases, started, started', k, order[1..]);
    }
  }

  ghost predicate Sent<K>(bases: map<K, Base>, ms: map<K, Meterages>) {
    ms.Keys == bases.Keys && forall k :: k in bases ==> bases[k].meterages == ms[k]
  }

  // Along any run the invariant holds, and every processed task takes exactly one unit of work.
  lemma {:induction false} ReachesKeeps<C, K, V>(codec: Codec, s: Sys<C, K, V>, w: Wiring<C, K>, bases: map<K, Base>,
                                                 ms: map<K, Meterages>, started: set<K>, turns: seq<Turn<K>>,
                                                 s': Sys<C, K, V>, started': set<K>, order: seq<K>)
    requires SysInv(codec, s, w, bases, started) && Sent(bases, ms) && Lists(order, s.devices.Keys)
    requires Reaches(codec, s, ms, started, turns, s', started')
    ensures SysInv(codec, s', w, bases, started') && s'.devices.Keys == s.devices.Keys
    ensures Keyed(s, w, bases) && Keyed(s', w, bases)
    ensures Left(s', w, bases, started', order) + Processed(turns) == Left(s, w, bases, started, order)
    decreases |turns|
  {
    hide Conversing, Traffic, RemainingFor, Deliver, StartSending, ClientExists, AllKnown, Faithful, WiredTo;
    if turns != [] {
      match turns[0]
      case Start(k) =>
        StartKeeps(codec, s, w, bases, started, k);
        var s1 := StartSending(codec, s, k, ms[k]);
        LeftOver(s, s1, w, bases, started, started + {k}, None, order);
        hide SysInv;
        ReachesKeeps(codec, s1, w, bases, ms, started + {k}, turns[1..], s', started', order);
      case Next =>
        var k := DeliverKeeps(codec, s, w, bases, started);
        var s1 := Deliver(codec, s);
        LeftOver(s, s1, w, bases, started, started, Some(k), order);
        hide SysInv;
        ReachesKeeps(codec, s1, w, bases, ms, started, turns[1..], s', started', order);
    }
  }

  // ----- the end of a run -----

  // The bases of devices that have not started yet, in a state without tasks.
  ghost function Bases<C, K, V>(s: Sys<C, K, V>, w: Wiring<C, K>, ms: map<K, Meterages>): map<K, Base>
    requires ms.Keys == s.devices.Keys == w.id.Keys
  {
    map k | k in ms :: Base(ms[k], OwnCalls(s.history, w.id[k]), s.devices[k].messages)
  }

  lemma IdleKeeps<C, K, V>(codec: Codec, s: Sys<C, K, V>, w: Wiring<C, K>, ms: map<K, Meterages>)
    requires Faithful(codec) && Wired(s, w) && s.hub.net.tasks == [] && ms.Keys == s.devices.Keys
    ensures SysInv(codec, s, w, Bases(s, w, ms), {})
  {
    hide WiredTo, Faithful;
  }

  // Twice as many tasks as there are meterages to send.
  ghost function Work<K>(ms: map<K, Meterages>, order: seq<K>): nat
    requires forall i :: 0 <= i < |order| ==> order[i] in ms
  {
    if order == [] then 0 else 2 * |ms[order[0]]| + Work(ms, order[1..])
  }

  lemma {:induction false} LeftAtFirst<C, K, V>(s: Sys<C, K, V>, w: Wiring<C, K>, bases: map<K, Base>,
                                                ms: map<K, Meterages>, order: seq<K>)
    requires Keyed(s, w, bases) && Sent(bases, ms) && forall i :: 0 <= i < |order| ==> order[i] in s.devices
    ensures Left(s, w, bases, {}, order) == Work(ms, order)
    decreases |order|
  {
    if order != [] {
      LeftAtFirst(s, w, bases, ms, order[1..]);
    }
  }

  // A conversation has its share of the queue, at most one message, and is over when that is empty.
  lemma OneInFlight(codec: Codec, b: Base, d: uint64, dev: Device, own: History, toServer: seq<Signal>, toDevice: seq<Signal>)
    requires Talking(codec, b, d, true, dev, own, toServer, toDevice)
    ensures |toServer| + |toDevice| <= 1 && 0 <= Remaining(b, true, dev, toServer, toDevice)
    ensures |toServer| + |toDevice| == 0 <==> Remaining(b, true, dev, toServer, toDevice) == 0
    ensures Remaining(b, true, dev, toServer, toDevice) == 0 ==>
              dev.messages == b.messages + Answers(b.own, d, b.meterages, |b.meterages|) &&
              own == b.own + Measurements(d, b.meterages, |b.meterages|)
  {
    hide Answers, Measurements, Sealed;
  }

  lemma {:induction false} LeftBounds<C, K, V>(codec: Codec, s: Sys<C, K, V>, w: Wiring<C, K>, bases: map<K, Base>,
                                               started: set<K>, order: seq<K>)
    requires SysInv(codec, s, w, bases, started) && forall i :: 0 <= i < |order| ==> order[i] in s.devices
    ensures Keyed(s, w, bases) && 0 <= Left(s, w, bases, started, order)
    ensures s.hub.net.tasks == [] && started == s.devices.Keys ==> Left(s, w, bases, started, order) == 0
    decreases |order|
  {
    if order != [] {
      var k := order[0];
      assert Conversing(codec, s, w, bases[k], k, k in started);
      if k in started {
        OneInFlight(codec, bases[k], w.id[k], s.devices[k], OwnCalls(s.history, w.id[k]),
                    Agenda(s.hub.net.tasks, w.server[k]), Agenda(s.hub.net.tasks, w.client[k]));
      }
      hide Talking, Traffic, WiredTo, Wired, OwnCalls, Faithful;
      LeftBounds(codec, s, w, bases, started, order[1..]);
    }
  }

  // With the queue empty, the conversation of a device that has started is over.
  lemma ConversationOver<C, K, V>(codec: Codec, s: Sys<C, K, V>, w: Wiring<C, K>, bases: map<K, Base>, started: set<K>, k: K)
    requires SysInv(codec, s, w, bases, started) && s.hub.net.tasks == [] && k in started
    ensures k in s.devices && k in w.id && k in bases
    ensures var b, d := bases[k], w.id[k];
      && s.devices[k].messages == b.messages + Answers(b.own, d, b.meterages, |b.meterages|)
      && OwnCalls(s.history, d) == b.own + Measurements(d, b.meterages, |b.meterages|)
  {
    hide Agenda, WiredTo, Faithful, Traffic;
    assert Conversing(codec, s, w, bases[k], k, true);
    NothingQueued(s.hub.net.tasks, w.server[k]);
    NothingQueued(s.hub.net.tasks, w.client[k]);
    hide SysInv;
    OneInFlight(codec, bases[k], w.id[k], s.devices[k], OwnCalls(s.history, w.id[k]), [], []);
  }

  // However the starts of the devices and the tasks of the queue were interleaved: with the queue
  // empty, a device that has started has got the answer to each of its meterages, in their order, and
  // each answer is the one due by the calls before the run.
  lemma DrainedReplies<C, K, V>(codec: Codec, s: Sys<C, K, V>, w: Wiring<C, K>, ms: map<K, Meterages>, turns: seq<Turn<K>>,
                                s': Sys<C, K, V>, started: set<K>, order: seq<K>, k: K)
    requires Faithful(codec) && Wired(s, w) && s.hub.net.tasks == [] && ms.Keys == s.devices.Keys
    requires Lists(order, s.devices.Keys)
    requires Reaches(codec, s, ms, {}, turns, s', started)
    requires s'.hub.net.tasks == [] && k in started
    ensures k in s.devices && k in s'.devices && k in w.id
    ensures var d := w.id[k];
      && s'.devices[k].messages == s.devices[k].messages + Expected(s.history, d, ms[k])
      && OwnCalls(s'.history, d) == OwnCalls(s.history, d) + Measurements(d, ms[k], |ms[k]|)
      && Stats(s'.history, d) == Stats(s.history + Measurements(d, ms[k], |ms[k]|), d)
  {
    hide SysInv, Reaches, WiredTo, Faithful, Answers, Expected;
    var bases := Bases(s, w, ms);
    IdleKeeps(codec, s, w, ms);
    ReachesKeeps(codec, s, w, bases, ms, {}, turns, s', started, order);
    ConversationOver(codec, s', w, bases, started, k);
    var d := w.id[k];
    AnswersExpected(s.history, d, ms[k]);
    StatsAfter(s.history, s'.history, d, Measurements(d, ms[k], |ms[k]|));
  }

  lemma NothingQueued<C>(tasks: seq<Task<C>>, c: C)
    requires tasks == []
    ensures Agenda(tasks, c) == []
  {
  }

  lemma StatsAfter(h: History, h': History, d: uint64, more: History)
    requires OwnCalls(h', d) == OwnCalls(h, d) + more
    ensures Stats(h', d) == Stats(h + more, d)
  {
    DeviceIsolation(h, d);
    DeviceIsolation(h', d);
    SameViewAppend(h, OwnCalls(h, d), more, d);
    SameViewReply(h + more, OwnCalls(h, d) + more, d);
    SameViewReply(h', OwnCalls(h', d), d);
  }

  // Working off the queue ends: no run processes more tasks than two for every meterage, and a run in
  // which all the devices have started and the queue is empty has processed exactly that many.
  lemma RunsEnd<C, K, V>(codec: Codec, s: Sys<C, K, V>, w: Wiring<C, K>, ms: map<K, Meterages>, turns: seq<Turn<K>>,
                         s': Sys<C, K, V>, started: set<K>, order: seq<K>)
    requires Faithful(codec) && Wired(s, w) && s.hub.net.tasks == [] && ms.Keys == s.devices.Keys
    requires Lists(order, s.devices.Keys)
    requires Reaches(codec, s, ms, {}, turns, s', started)
    ensures Processed(turns) <= Work(ms, order)
    ensures s'.hub.net.tasks == [] && started == s.devices.Keys ==> Processed(turns) == Work(ms, order)
  {
    var bases := Bases(s, w, ms);
    IdleKeeps(codec, s, w, ms);
    ReachesKeeps(codec, s, w, bases, ms, {}, turns, s', started, order);
    hide Reaches, Traffic, Conversing, WiredTo, Faithful;
    LeftAtFirst(s, w, bases, ms, order);
    LeftBounds(codec, s', w, bases, started, order);
  }

  // In every state of a run: if there is a task it can be processed, and if it is for a device, the
  // device takes the message without throwing; no device has more than one message under way.
  lemma EveryState<C, K, V>(codec: Codec, s: Sys<C, K, V>, w: Wiring<C, K>, ms: map<K, Meterages>, turns: seq<Turn<K>>,
                            s': Sys<C, K, V>, started: set<K>, order: seq<K>)
    requires Faithful(codec) && Wired(s, w) && s.hub.net.tasks == [] && ms.Keys == s.devices.Keys
    requires Lists(order, s.devices.Keys)
    requires Reaches(codec, s, ms, {}, turns, s', started)
    ensures s'.hub.net.tasks != [] ==>
              && s'.hub.net.tasks[0].SendMessageTask? && AllKnown(s'.hub.net)
              && forall k :: k in w.client && w.client[k] == s'.hub.net.tasks[0].channel ==>
                   DeviceAccepts(codec, s'.hub.net.tasks[0].message)
    ensures forall k :: k in w.client && k in w.server ==>
              |Agenda(s'.hub.net.tasks, w.server[k])| + |Agenda(s'.hub.net.tasks, w.client[k])| <= 1
    ensures forall k :: k in ms && k !in started ==> ClientExists(s', k)
  {
    hide Agenda, Reaches, Traffic, WiredTo, Faithful;
    var bases := Bases(s, w, ms);
    IdleKeeps(codec, s, w, ms);
    ReachesKeeps(codec, s, w, bases, ms, {}, turns, s', started, order);
    hide Bases;
    forall k | k in w.client && k in w.server
      ensures |Agenda(s'.hub.net.tasks, w.server[k])| + |Agenda(s'.hub.net.tasks, w.client[k])| <= 1
    {
      assert Conversing(codec, s', w, bases[k], k, k in started);
      if k in started {
        OneInFlight(codec, bases[k], w.id[k], s'.devices[k], OwnCalls(s'.history, w.id[k]),
                    Agenda(s'.hub.net.tasks, w.server[k]), Agenda(s'.hub.net.tasks, w.client[k]));
      }
    }
    hide Talking;
    forall k | k in ms && k !in started ensures ClientExists(s', k) {
      StartExpected(codec, s', w, bases, started, k);
    }
    if s'.hub.net.tasks != [] {
      NextFits(codec, s', w, bases, started);
    }
  }

  lemma NextFits<C, K, V>(codec: Codec, s: Sys<C, K, V>, w: Wiring<C, K>, bases: map<K, Base>, started: set<K>)
    requires SysInv(codec, s, w, bases, started) && s.hub.net.tasks != []
    ensures s.hub.net.tasks[0].SendMessageTask? && AllKnown(s.hub.net)
    ensures forall k :: k in w.client && w.client[k] == s.hub.net.tasks[0].channel ==>
              DeviceAccepts(codec, s.hub.net.tasks[0].message)
  {
    hide DeviceAccepts, Conversing, WiredTo, Faithful;
    MessageTaken(s, w);
    hide Process, Traffic;
    forall k | k in w.client && w.client[k] == s.hub.net.tasks[0].channel
      ensures DeviceAccepts(codec, s.hub.net.tasks[0].message)
    {
      AnswerExpected(codec, s, w, bases, started, k);
    }
  }
}
