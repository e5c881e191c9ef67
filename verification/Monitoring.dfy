// Devices and the monitoring server joined by the transport: every device asks with one meterage
// at a time, the server answers each with a command or an error.
module Monitoring {
  import opened CTypes
  import opened Messages
  import opened Histories
  import opened Network
  import opened Connections
  import opened Conversations

  // The devices with the clients they own, and the monitoring server with its calls to the command center.
  datatype Sys<C, K, V> = Sys(hub: Hub<C, K, V>, server: V, devices: map<K, Device>, history: History)

  ghost predicate ClientExists<C, K, V>(s: Sys<C, K, V>, k: K) {
    k in s.devices && ClientUsable(s.hub, k)
  }

  ghost predicate ServerExists<C, K, V>(s: Sys<C, K, V>, id: uint64) {
    ServerUsable(s.hub, s.server, id)
  }

  // What sendNextMeterage sends.
  ghost function MeterageSent<C, K, V>(codec: Codec, h: Hub<C, K, V>, k: K, dev: Device): Hub<C, K, V>
    requires ClientUsable(h, k)
  {
    if dev.timeStamp >= |dev.meterages| then h
    else ClientSend(h, k, Sealed(codec, MessageMeterage(dev.timeStamp, dev.meterages[dev.timeStamp])))
  }

  ghost function SendNext<C, K, V>(codec: Codec, s: Sys<C, K, V>, k: K): Sys<C, K, V>
    requires ClientExists(s, k)
  {
    s.(hub := MeterageSent(codec, s.hub, k, s.devices[k]), devices := s.devices[k := Advanced(s.devices[k])])
  }

  // setMeterages and startMeterageSending
  ghost function StartSending<C, K, V>(codec: Codec, s: Sys<C, K, V>, k: K, meterages: Meterages): Sys<C, K, V>
    requires ClientExists(s, k)
  {
    SendNext(codec, s.(devices := s.devices[k := s.devices[k].(meterages := meterages, timeStamp := 0)]), k)
  }

  // DeviceMock::onMessageReceived; a message it throws at changes nothing.
  ghost function DeviceReceives<C, K, V>(codec: Codec, s: Sys<C, K, V>, k: K, x: Bytes): Sys<C, K, V>
    requires ClientExists(s, k)
  {
    if DeviceAccepts(codec, x) then SendNext(codec, s.(devices := s.devices[k := Noting(codec, s.devices[k], x)]), k)
    else s
  }

  // What the server sends in reaction to a message: anything but a meterage is ignored.
  ghost function AnswerSent<C, K, V>(codec: Codec, h: Hub<C, K, V>, v: V, history: History, id: uint64, x: Bytes): Hub<C, K, V>
    requires ServerUsable(h, v, id)
  {
    match Opened(codec, x)
    case Some(MessageMeterage(t, m)) => ServerSend(h, v, id, Sealed(codec, Reply(history, id, t, m)))
    case _ => h
  }

  // DeviceMonitoringServer::onMessageReceived
  ghost function ServerReceives<C, K, V>(codec: Codec, s: Sys<C, K, V>, id: uint64, x: Bytes): Sys<C, K, V>
    requires ServerExists(s, id)
  {
    s.(hub := AnswerSent(codec, s.hub, s.server, s.history, id, x), history := s.history + Calls(codec, id, x))
  }

  // The handler of channel x gets the message, if the channel still exists.
  ghost function Handle<C, K, V>(codec: Codec, s: Sys<C, K, V>, x: C, m: Bytes): Sys<C, K, V> {
    if !(x in s.hub.owner && x in s.hub.net.chans && s.hub.net.chans[x].alive) then s
    else match s.hub.owner[x]
      case ClientOwner(k) => if ClientExists(s, k) then DeviceReceives(codec, s, k, m) else s
      case ServerOwner(v) =>
        var id := s.hub.net.chans[x].peerId;
        if v == s.server && ServerExists(s, id) then ServerReceives(codec, s, id, m) else s
  }

  // processTask for a message.
  ghost function Deliver<C, K, V>(codec: Codec, s: Sys<C, K, V>): Sys<C, K, V>
    requires s.hub.net.tasks != [] && s.hub.net.tasks[0].SendMessageTask? && AllKnown(s.hub.net)
  {
    var t := s.hub.net.tasks[0];
    Handle(codec, s.(hub := s.hub.(net := Process(s.hub.net))), t.channel, t.message)
  }

  // ----- established connections -----

  // The two ends of every device's connection.
  datatype Wiring<C, K> = Wiring(id: map<K, uint64>, client: map<K, C>, server: map<K, C>)

  ghost predicate Linked<C>(n: Net<C>, c: C, e: C) {
    && c in n.chans && e in n.chans
    && n.chans[c].alive && n.chans[c].connected && n.chans[c].peer == Some(e)
    && n.chans[e].alive && n.chans[e].connected && n.chans[e].peer == Some(c)
  }

  ghost predicate WiredTo<C, K, V>(h: Hub<C, K, V>, v: V, k: K, d: uint64, c: C, e: C) {
    && k in h.clients && h.clients[k].channel == Some(c)
    && v in h.servers && d in h.servers[v].connections && h.servers[v].connections[d] == e
    && Linked(h.net, c, e) && h.net.chans[e].peerId == d
    && c in h.owner && h.owner[c] == ClientOwner(k)
    && e in h.owner && h.owner[e] == ServerOwner(v)
  }

  ghost predicate Wired<C, K, V>(s: Sys<C, K, V>, w: Wiring<C, K>) {
    && w.id.Keys == w.client.Keys == w.server.Keys == s.devices.Keys
    && forall k :: k in s.devices ==> WiredTo(s.hub, s.server, k, w.id[k], w.client[k], w.server[k])
  }

  // All tasks are messages between the ends of these connections.
  ghost predicate Traffic<C, K>(tasks: seq<Task<C>>, w: Wiring<C, K>) {
    forall i :: 0 <= i < |tasks| ==> ToAnEnd(tasks[i], w)
  }

  ghost predicate ToAnEnd<C, K>(t: Task<C>, w: Wiring<C, K>) {
    t.SendMessageTask? &&
    ((exists k :: k in w.client && w.client[k] == t.channel) || exists k :: k in w.server && w.server[k] == t.channel)
  }

  lemma EndsDistinct<C, K, V>(s: Sys<C, K, V>, w: Wiring<C, K>, k: K, x: K)
    requires Wired(s, w) && k in s.devices && x in s.devices
    ensures w.client[k] != w.server[x]
    ensures k != x ==> w.client[k] != w.client[x] && w.server[k] != w.server[x] && w.id[k] != w.id[x]
  {
    assert WiredTo(s.hub, s.server, k, w.id[k], w.client[k], w.server[k]);
    assert WiredTo(s.hub, s.server, x, w.id[x], w.client[x], w.server[x]);
  }

  ghost predicate SameLinks<C>(n: Net<C>, n': Net<C>) {
    && n'.chans.Keys == n.chans.Keys
    && forall c :: c in n.chans ==>
         var row := n'.chans[c];
         row == n.chans[c].(accepted := row.accepted, log := row.log, refs := row.refs)
  }

  lemma StaysWired<C, K, V>(s: Sys<C, K, V>, s': Sys<C, K, V>, w: Wiring<C, K>)
    requires Wired(s, w) && SameLinks(s.hub.net, s'.hub.net)
    requires s'.hub == s.hub.(net := s'.hub.net) && s'.server == s.server && s'.devices.Keys == s.devices.Keys
    ensures Wired(s', w)
  {
    forall k | k in s'.devices ensures WiredTo(s'.hub, s'.server, k, w.id[k], w.client[k], w.server[k]) {
      assert WiredTo(s.hub, s.server, k, w.id[k], w.client[k], w.server[k]);
    }
  }

  // A message sent over an established connection is queued for the other end.
  lemma SendQueues<C>(n: Net<C>, c: C, e: C, m: Bytes)
    requires Linked(n, c, e)
    ensures Send(n, c, m).tasks == n.tasks + [SendMessageTask(m, e)] && SameLinks(n, Send(n, c, m))
  {
  }

  // One more message under way to end e of device d's connection.
  lemma MessageQueued<C, K, V>(s: Sys<C, K, V>, s': Sys<C, K, V>, w: Wiring<C, K>, k: K, e: C, m: Bytes)
    requires Wired(s, w) && Traffic(s.hub.net.tasks, w)
    requires k in s.devices && (e == w.client[k] || e == w.server[k])
    requires SameLinks(s.hub.net, s'.hub.net) && s'.hub.net.tasks == s.hub.net.tasks + [SendMessageTask(m, e)]
    requires s'.hub == s.hub.(net := s'.hub.net) && s'.server == s.server && s'.devices.Keys == s.devices.Keys
    ensures Wired(s', w) && Traffic(s'.hub.net.tasks, w)
    ensures forall c :: Agenda(s'.hub.net.tasks, c) == Agenda(s.hub.net.tasks, c) + if c == e then [Got(m)] else []
  {
    hide Agenda, WiredTo;
    assert ToAnEnd(SendMessageTask(m, e), w);
    hide ToAnEnd, SameLinks;
    StaysWired(s, s', w);
    hide Wired;
    forall c ensures Agenda(s'.hub.net.tasks, c) == Agenda(s.hub.net.tasks, c) + if c == e then [Got(m)] else [] {
      AgendaSnoc(s.hub.net.tasks, SendMessageTask(m, e), c);
    }
  }

  lemma DeviceSends<C, K, V>(codec: Codec, s: Sys<C, K, V>, w: Wiring<C, K>, k: K)
    requires Wired(s, w) && Traffic(s.hub.net.tasks, w) && k in s.devices
    ensures ClientExists(s, k)
    ensures var s' := SendNext(codec, s, k);
      && Wired(s', w) && Traffic(s'.hub.net.tasks, w)
      && s'.history == s.history && s'.devices == s.devices[k := Advanced(s.devices[k])]
      && forall c :: Agenda(s'.hub.net.tasks, c) == Agenda(s.hub.net.tasks, c) +
                       if c == w.server[k] then NextUp(codec, s.devices[k]) else []
  {
    hide Sealed, Agenda, Send, Traffic, SameLinks;
    assert WiredTo(s.hub, s.server, k, w.id[k], w.client[k], w.server[k]);
    var dev := s.devices[k];
    if dev.timeStamp < |dev.meterages| {
      var m := Sealed(codec, MessageMeterage(dev.timeStamp, dev.meterages[dev.timeStamp]));
      SendQueues(s.hub.net, w.client[k], w.server[k], m);
      MessageQueued(s, SendNext(codec, s, k), w, k, w.server[k], m);
    } else {
      assert s.devices == s.devices[k := s.devices[k]];
    }
  }

  lemma ServerSends<C, K, V>(s: Sys<C, K, V>, w: Wiring<C, K>, k: K, m: Bytes)
    requires Wired(s, w) && Traffic(s.hub.net.tasks, w) && k in s.devices
    ensures ServerExists(s, w.id[k])
    ensures var s' := s.(hub := ServerSend(s.hub, s.server, w.id[k], m));
      && Wired(s', w) && Traffic(s'.hub.net.tasks, w)
      && forall c :: Agenda(s'.hub.net.tasks, c) == Agenda(s.hub.net.tasks, c) + if c == w.client[k] then [Got(m)] else []
  {
    hide Agenda, Send;
    assert WiredTo(s.hub, s.server, k, w.id[k], w.client[k], w.server[k]);
    SendQueues(s.hub.net, w.server[k], w.client[k], m);
    MessageQueued(s, s.(hub := ServerSend(s.hub, s.server, w.id[k], m)), w, k, w.client[k], m);
  }

  // Taking the first message off the queue.
  lemma MessageTaken<C, K, V>(s: Sys<C, K, V>, w: Wiring<C, K>)
    requires Wired(s, w) && Traffic(s.hub.net.tasks, w) && s.hub.net.tasks != []
    ensures AllKnown(s.hub.net) && s.hub.net.tasks[0].SendMessageTask?
    ensures var t := s.hub.net.tasks[0]; var s' := s.(hub := s.hub.(net := Process(s.hub.net)));
      && Wired(s', w) && s'.hub.net.tasks == s.hub.net.tasks[1..] && Traffic(s'.hub.net.tasks, w)
      && forall c :: Agenda(s.hub.net.tasks, c) ==
           (if c == t.channel then [Got(t.message)] else []) + Agenda(s'.hub.net.tasks, c)
  {
    TrafficKnown(s, w);
    var t, s' := s.hub.net.tasks[0], s.(hub := s.hub.(net := Process(s.hub.net)));
    assert ToAnEnd(t, w);
    ProcessKeepsLinks(s.hub.net);
    hide ToAnEnd;
    StaysWired(s, s', w);
    hide Wired;
    forall c
      ensures Agenda(s.hub.net.tasks, c) == (if c == t.channel then [Got(t.message)] else []) + Agenda(s'.hub.net.tasks, c)
    {
      HeadOfAgenda(s.hub.net.tasks, c);
    }
  }

  lemma ProcessKeepsLinks<C>(n: Net<C>)
    requires n.tasks != [] && AllKnown(n) && n.tasks[0].SendMessageTask?
    ensures SameLinks(n, Process(n))
  {
  }

  lemma TrafficKnown<C, K, V>(s: Sys<C, K, V>, w: Wiring<C, K>)
    requires Wired(s, w) && Traffic(s.hub.net.tasks, w)
    ensures AllKnown(s.hub.net)
  {
    forall i | 0 <= i < |s.hub.net.tasks| ensures Target(s.hub.net.tasks[i]).value in s.hub.net.chans {
      assert ToAnEnd(s.hub.net.tasks[i], w);
    }
  }

  // ----- the whole system -----

  ghost predicate Conversing<C, K, V>(codec: Codec, s: Sys<C, K, V>, w: Wiring<C, K>, b: Base, k: K, started: bool)
    requires k in s.devices && k in w.id && k in w.client && k in w.server
  {
    Talking(codec, b, w.id[k], started, s.devices[k], OwnCalls(s.history, w.id[k]),
            Agenda(s.hub.net.tasks, w.server[k]), Agenda(s.hub.net.tasks, w.client[k]))
  }

  ghost predicate SysInv<C, K, V>(codec: Codec, s: Sys<C, K, V>, w: Wiring<C, K>, bases: map<K, Base>, started: set<K>) {
    && Faithful(codec)
    && Wired(s, w) && Traffic(s.hub.net.tasks, w)
    && bases.Keys == s.devices.Keys && started <= s.devices.Keys
    && forall k :: k in s.devices ==> Conversing(codec, s, w, bases[k], k, k in started)
  }

  ghost function RemainingFor<C, K, V>(s: Sys<C, K, V>, w: Wiring<C, K>, b: Base, k: K, started: bool): int
    requires k in s.devices && k in w.id && k in w.client && k in w.server
  {
    Remaining(b, started, s.devices[k], Agenda(s.hub.net.tasks, w.server[k]), Agenda(s.hub.net.tasks, w.client[k]))
  }

  // Nothing but the conversation with k has moved.
  ghost predicate OnlyMoved<C, K, V>(s: Sys<C, K, V>, s': Sys<C, K, V>, w: Wiring<C, K>, k: K)
    requires k in w.id && k in w.client && k in w.server
  {
    && s'.devices.Keys == s.devices.Keys
    && (forall x :: x in s.devices && x in w.id && x != k ==>
          s'.devices[x] == s.devices[x] && OwnCalls(s'.history, w.id[x]) == OwnCalls(s.history, w.id[x]))
    && (forall c :: c in s.hub.net.chans && c != w.client[k] && c != w.server[k] ==>
          Agenda(s'.hub.net.tasks, c) == Agenda(s.hub.net.tasks, c))
  }

  lemma OthersUndisturbed<C, K, V>(codec: Codec, s: Sys<C, K, V>, s': Sys<C, K, V>, w: Wiring<C, K>, bases: map<K, Base>,
                                started: set<K>, started': set<K>, k: K)
    requires SysInv(codec, s, w, bases, started) && k in s.devices
    requires Wired(s', w) && Traffic(s'.hub.net.tasks, w) && OnlyMoved(s, s', w, k)
    requires started' <= s'.devices.Keys && forall x :: x != k ==> (x in started' <==> x in started)
    requires Conversing(codec, s', w, bases[k], k, k in started')
    ensures SysInv(codec, s', w, bases, started')
    ensures forall x :: x in s.devices && x != k ==>
              RemainingFor(s', w, bases[x], x, x in started') == RemainingFor(s, w, bases[x], x, x in started)
  {
    hide Talking, Agenda, Traffic, Remaining, OwnCalls, Faithful;
    forall x | x in s.devices && x != k
      ensures Conversing(codec, s', w, bases[x], x, x in started')
      ensures RemainingFor(s', w, bases[x], x, x in started') == RemainingFor(s, w, bases[x], x, x in started)
    {
      assert Conversing(codec, s, w, bases[x], x, x in started);
      assert WiredTo(s.hub, s.server, x, w.id[x], w.client[x], w.server[x]);
      EndsDistinct(s, w, k, x);
      EndsDistinct(s, w, x, k);
    }
  }

  // From s to s2 the messages of device k alone have changed, and now it sends its next meterage.
  ghost predicate Touched<C, K, V>(s: Sys<C, K, V>, s2: Sys<C, K, V>, w: Wiring<C, K>, k: K)
    requires k in w.id && k in w.client && k in w.server
  {
    && Wired(s2, w) && Traffic(s2.hub.net.tasks, w) && OnlyMoved(s, s2, w, k)
    && k in s2.devices && s2.hub.net.chans.Keys == s.hub.net.chans.Keys
  }

  lemma DeviceMoves<C, K, V>(codec: Codec, s: Sys<C, K, V>, s2: Sys<C, K, V>, w: Wiring<C, K>, k: K)
    requires k in w.id && k in w.client && k in w.server && Touched(s, s2, w, k)
    ensures ClientExists(s2, k)
    ensures var s' := SendNext(codec, s2, k); var tasks, tasks' := s2.hub.net.tasks, s'.hub.net.tasks;
      && Touched(s, s', w, k)
      && s'.devices[k] == Advanced(s2.devices[k]) && s'.history == s2.history
      && Agenda(tasks', w.server[k]) == Agenda(tasks, w.server[k]) + NextUp(codec, s2.devices[k])
      && Agenda(tasks', w.client[k]) == Agenda(tasks, w.client[k])
  {
    hide Agenda, Traffic, NextUp, Advanced, OwnCalls, Linked;
    DeviceSends(codec, s2, w, k);
    EndsDistinct(s2, w, k, k);
    SendKeepsChannels(codec, s2, k);
    hide SendNext;
  }

  lemma SendKeepsChannels<C, K, V>(codec: Codec, s: Sys<C, K, V>, k: K)
    requires ClientExists(s, k)
    ensures SendNext(codec, s, k).hub.net.chans.Keys == s.hub.net.chans.Keys
  {
    hide Sealed;
  }

  lemma ServerMoves<C, K, V>(s: Sys<C, K, V>, s2: Sys<C, K, V>, w: Wiring<C, K>, k: K, m: Bytes)
    requires k in w.id && k in w.client && k in w.server && Touched(s, s2, w, k)
    ensures ServerExists(s2, w.id[k])
    ensures var s' := s2.(hub := ServerSend(s2.hub, s2.server, w.id[k], m));
      var tasks, tasks' := s2.hub.net.tasks, s'.hub.net.tasks;
      && Touched(s, s', w, k)
      && Agenda(tasks', w.client[k]) == Agenda(tasks, w.client[k]) + [Got(m)]
      && Agenda(tasks', w.server[k]) == Agenda(tasks, w.server[k])
  {
    hide Agenda, Traffic, OwnCalls, Linked;
    ServerSends(s2, w, k, m);
    EndsDistinct(s2, w, k, k);
    ReplyKeepsChannels(s2, w.id[k], m);
  }

  lemma ReplyKeepsChannels<C, K, V>(s: Sys<C, K, V>, id: uint64, m: Bytes)
    requires ServerExists(s, id)
    ensures ServerSend(s.hub, s.server, id, m).net.chans.Keys == s.hub.net.chans.Keys
  {
  }

  // The state in which device k starts sending.
  ghost function Loaded<C, K, V>(s: Sys<C, K, V>, k: K, meterages: Meterages): Sys<C, K, V>
    requires k in s.devices
  {
    s.(devices := s.devices[k := s.devices[k].(meterages := meterages, timeStamp := 0)])
  }

  lemma LoadedTouched<C, K, V>(s: Sys<C, K, V>, w: Wiring<C, K>, k: K, meterages: Meterages)
    requires Wired(s, w) && Traffic(s.hub.net.tasks, w) && k in s.devices
    ensures Touched(s, Loaded(s, k, meterages), w, k)
  {
    hide Traffic, Agenda, OwnCalls;
    StaysWired(s, Loaded(s, k, meterages), w);
  }

  lemma StartKeeps<C, K, V>(codec: Codec, s: Sys<C, K, V>, w: Wiring<C, K>, bases: map<K, Base>, started: set<K>, k: K)
    requires SysInv(codec, s, w, bases, started) && k in s.devices && k !in started
    ensures ClientExists(s, k)
    ensures var s' := StartSending(codec, s, k, bases[k].meterages);
      && SysInv(codec, s', w, bases, started + {k})
      && s'.devices.Keys == s.devices.Keys
      && forall x :: x in s.devices ==>
           RemainingFor(s', w, bases[x], x, x in started + {k}) == RemainingFor(s, w, bases[x], x, x in started)
  {
    hide Agenda, SendNext, Traffic, NextUp, Advanced, OwnCalls, WiredTo, Talking, Remaining, ClientExists, Faithful;
    StartExpected(codec, s, w, bases, started, k);
    var s2 := Loaded(s, k, bases[k].meterages);
    LoadedTouched(s, w, k, bases[k].meterages);
    DeviceMoves(codec, s, s2, w, k);
    Begins(codec, bases[k], w.id[k], s.devices[k], OwnCalls(s.history, w.id[k]));
    hide Wired;
    assert [] + NextUp(codec, s2.devices[k]) == NextUp(codec, s2.devices[k]);
    OthersUndisturbed(codec, s, SendNext(codec, s2, k), w, bases, started, started + {k}, k);
  }

  lemma StartExpected<C, K, V>(codec: Codec, s: Sys<C, K, V>, w: Wiring<C, K>, bases: map<K, Base>, started: set<K>, k: K)
    requires SysInv(codec, s, w, bases, started) && k in s.devices && k !in started
    ensures ClientExists(s, k)
    ensures Agenda(s.hub.net.tasks, w.client[k]) == [] && Agenda(s.hub.net.tasks, w.server[k]) == []
    ensures Talking(codec, bases[k], w.id[k], false, s.devices[k], OwnCalls(s.history, w.id[k]), [], [])
  {
    hide Agenda, Traffic;
    assert WiredTo(s.hub, s.server, k, w.id[k], w.client[k], w.server[k]);
    assert Conversing(codec, s, w, bases[k], k, false);
  }

  // Processing one task moves one conversation on by one, and no device throws.
  lemma DeliverKeeps<C, K, V>(codec: Codec, s: Sys<C, K, V>, w: Wiring<C, K>, bases: map<K, Base>, started: set<K>)
    returns (k: K)
    requires SysInv(codec, s, w, bases, started) && s.hub.net.tasks != []
    ensures AllKnown(s.hub.net) && s.hub.net.tasks[0].SendMessageTask?
    ensures k in s.devices
    ensures s.hub.net.tasks[0].channel == w.client[k] ==> DeviceAccepts(codec, s.hub.net.tasks[0].message)
    ensures var s' := Deliver(codec, s);
      && SysInv(codec, s', w, bases, started) && s'.devices.Keys == s.devices.Keys
      && RemainingFor(s', w, bases[k], k, k in started) == RemainingFor(s, w, bases[k], k, k in started) - 1
      && forall x :: x in s.devices && x != k ==>
           RemainingFor(s', w, bases[x], x, x in started) == RemainingFor(s, w, bases[x], x, x in started)
  {
    hide Agenda, WiredTo, Talking, Remaining, OwnCalls, Faithful, Deliver;
    MessageTaken(s, w);
    var t := s.hub.net.tasks[0];
    assert ToAnEnd(t, w);
    hide Traffic, SysInv, Process;
    if c :| c in w.client && w.client[c] == t.channel {
      k := c;
      AnswerDelivered(codec, s, w, bases, started, k);
    } else {
      k :| k in w.server && w.server[k] == t.channel;
      MeterageDelivered(codec, s, w, bases, started, k);
    }
  }

  // What Deliver does with an answer, up to the device's next meterage.
  ghost function Noted<C, K, V>(codec: Codec, s: Sys<C, K, V>, k: K): Sys<C, K, V>
    requires s.hub.net.tasks != [] && s.hub.net.tasks[0].SendMessageTask? && AllKnown(s.hub.net)
    requires k in s.devices && DeviceAccepts(codec, s.hub.net.tasks[0].message)
  {
    s.(hub := s.hub.(net := Process(s.hub.net)),
       devices := s.devices[k := Noting(codec, s.devices[k], s.hub.net.tasks[0].message)])
  }

  lemma NotedTouched<C, K, V>(codec: Codec, s: Sys<C, K, V>, w: Wiring<C, K>, k: K)
    requires Wired(s, w) && Traffic(s.hub.net.tasks, w) && s.hub.net.tasks != [] && k in s.devices
    requires AllKnown(s.hub.net) && s.hub.net.tasks[0].SendMessageTask? && s.hub.net.tasks[0].channel == w.client[k]
    requires DeviceAccepts(codec, s.hub.net.tasks[0].message)
    ensures var s2 := Noted(codec, s, k);
      && Touched(s, s2, w, k) && ClientExists(s2, k) && Deliver(codec, s) == SendNext(codec, s2, k)
      && Agenda(s.hub.net.tasks, w.client[k]) == [Got(s.hub.net.tasks[0].message)] + Agenda(s2.hub.net.tasks, w.client[k])
      && Agenda(s.hub.net.tasks, w.server[k]) == Agenda(s2.hub.net.tasks, w.server[k])
  {
    hide Agenda, Traffic, Opened, OwnCalls, Linked, SendNext, WiredTo, Handle, DeviceAccepts;
    var s1 := s.(hub := s.hub.(net := Process(s.hub.net)));
    MessageTaken(s, w);
    EndsDistinct(s, w, k, k);
    EndsReachable(s1, w, k);
    HandledByDevice(codec, s1, k, w.client[k], s.hub.net.tasks[0].message);
    StaysWired(s1, Noted(codec, s, k), w);
  }

  lemma HandledByDevice<C, K, V>(codec: Codec, s: Sys<C, K, V>, k: K, c: C, x: Bytes)
    requires Alive(s.hub.net, c) && c in s.hub.owner && s.hub.owner[c] == ClientOwner(k) && ClientExists(s, k)
    ensures Handle(codec, s, c, x) == DeviceReceives(codec, s, k, x)
  {
  }

  lemma HandledByServer<C, K, V>(codec: Codec, s: Sys<C, K, V>, id: uint64, e: C, x: Bytes)
    requires Alive(s.hub.net, e) && s.hub.net.chans[e].peerId == id
    requires e in s.hub.owner && s.hub.owner[e] == ServerOwner(s.server) && ServerExists(s, id)
    ensures Handle(codec, s, e, x) == ServerReceives(codec, s, id, x)
  {
  }

  // Both ends of a connection can send and be called back.
  lemma EndsReachable<C, K, V>(s: Sys<C, K, V>, w: Wiring<C, K>, k: K)
    requires Wired(s, w) && k in s.devices
    ensures ClientExists(s, k) && Alive(s.hub.net, w.client[k])
    ensures w.client[k] in s.hub.owner && s.hub.owner[w.client[k]] == ClientOwner(k)
    ensures ServerExists(s, w.id[k]) && Alive(s.hub.net, w.server[k]) && s.hub.net.chans[w.server[k]].peerId == w.id[k]
    ensures w.server[k] in s.hub.owner && s.hub.owner[w.server[k]] == ServerOwner(s.server)
  {
    assert WiredTo(s.hub, s.server, k, w.id[k], w.client[k], w.server[k]);
  }

  lemma AnswerDelivered<C, K, V>(codec: Codec, s: Sys<C, K, V>, w: Wiring<C, K>, bases: map<K, Base>, started: set<K>, k: K)
    requires SysInv(codec, s, w, bases, started) && s.hub.net.tasks != [] && k in s.devices
    requires AllKnown(s.hub.net) && s.hub.net.tasks[0].SendMessageTask? && s.hub.net.tasks[0].channel == w.client[k]
    ensures DeviceAccepts(codec, s.hub.net.tasks[0].message)
    ensures var s' := Deliver(codec, s);
      && SysInv(codec, s', w, bases, started) && s'.devices.Keys == s.devices.Keys
      && RemainingFor(s', w, bases[k], k, k in started) == RemainingFor(s, w, bases[k], k, k in started) - 1
      && forall x :: x in s.devices && x != k ==>
           RemainingFor(s', w, bases[x], x, x in started) == RemainingFor(s, w, bases[x], x, x in started)
  {
    AnswerExpected(codec, s, w, bases, started, k);
    hide Agenda, SendNext, Traffic, NextUp, Advanced, OwnCalls, WiredTo, Wired, Deliver, Process, Opened, DeviceAccepts;
    NotedTouched(codec, s, w, k);
    DeviceMoves(codec, s, Noted(codec, s, k), w, k);
    AnswerArrives(codec, bases[k], w.id[k], s.devices[k], OwnCalls(s.history, w.id[k]), s.hub.net.tasks[0].message);
    hide Talking, Remaining;
    OthersUndisturbed(codec, s, Deliver(codec, s), w, bases, started, started, k);
  }

  lemma AnswerExpected<C, K, V>(codec: Codec, s: Sys<C, K, V>, w: Wiring<C, K>, bases: map<K, Base>, started: set<K>, k: K)
    requires SysInv(codec, s, w, bases, started) && s.hub.net.tasks != [] && k in s.devices
    requires AllKnown(s.hub.net) && s.hub.net.tasks[0].SendMessageTask? && s.hub.net.tasks[0].channel == w.client[k]
    ensures var x := s.hub.net.tasks[0].message;
      && k in started && Agenda(s.hub.net.tasks, w.client[k]) == [Got(x)] && Agenda(s.hub.net.tasks, w.server[k]) == []
      && Talking(codec, bases[k], w.id[k], true, s.devices[k], OwnCalls(s.history, w.id[k]), [], [Got(x)])
      && DeviceAccepts(codec, x)
  {
    MessageTaken(s, w);
    hide Agenda, Traffic, Process, Wired;
    assert Conversing(codec, s, w, bases[k], k, k in started);
    AnswerArrives(codec, bases[k], w.id[k], s.devices[k], OwnCalls(s.history, w.id[k]), s.hub.net.tasks[0].message);
  }

  // What Deliver does with a meterage, up to the server's answer.
  ghost function Measuring<C, K, V>(s: Sys<C, K, V>, e: Event): Sys<C, K, V>
    requires s.hub.net.tasks != [] && AllKnown(s.hub.net)
  {
    s.(hub := s.hub.(net := Process(s.hub.net)), history := s.history + [e])
  }

  lemma MeasuringTouched<C, K, V>(codec: Codec, s: Sys<C, K, V>, w: Wiring<C, K>, k: K, t: uint64, v: uint8)
    requires Wired(s, w) && Traffic(s.hub.net.tasks, w) && s.hub.net.tasks != [] && k in s.devices
    requires AllKnown(s.hub.net) && s.hub.net.tasks[0].SendMessageTask? && s.hub.net.tasks[0].channel == w.server[k]
    requires Opened(codec, s.hub.net.tasks[0].message) == Some(MessageMeterage(t, v))
    ensures var s2, m := Measuring(s, Measured(w.id[k], t, v)), Sealed(codec, Reply(s.history, w.id[k], t, v));
      && Touched(s, s2, w, k) && ServerExists(s2, w.id[k])
      && Deliver(codec, s) == s2.(hub := ServerSend(s2.hub, s2.server, w.id[k], m))
      && Agenda(s.hub.net.tasks, w.server[k]) == [Got(s.hub.net.tasks[0].message)] + Agenda(s2.hub.net.tasks, w.server[k])
      && Agenda(s.hub.net.tasks, w.client[k]) == Agenda(s2.hub.net.tasks, w.client[k])
  {
    hide Agenda, Traffic, Opened, OwnCalls, Linked, Sealed, Reply, WiredTo, Handle;
    var s1 := s.(hub := s.hub.(net := Process(s.hub.net)));
    MessageTaken(s, w);
    EndsDistinct(s, w, k, k);
    EndsReachable(s1, w, k);
    HandledByServer(codec, s1, w.id[k], w.server[k], s.hub.net.tasks[0].message);
    OtherCalls(s.history, Measured(w.id[k], t, v));
    forall x | x in s.devices && x != k ensures w.id[x] != w.id[k] {
      EndsDistinct(s, w, k, x);
    }
    StaysWired(s1, Measuring(s, Measured(w.id[k], t, v)), w);
  }

  lemma MeterageDelivered<C, K, V>(codec: Codec, s: Sys<C, K, V>, w: Wiring<C, K>, bases: map<K, Base>, started: set<K>, k: K)
    requires SysInv(codec, s, w, bases, started) && s.hub.net.tasks != [] && k in s.devices
    requires AllKnown(s.hub.net) && s.hub.net.tasks[0].SendMessageTask? && s.hub.net.tasks[0].channel == w.server[k]
    ensures var s' := Deliver(codec, s);
      && SysInv(codec, s', w, bases, started) && s'.devices.Keys == s.devices.Keys
      && RemainingFor(s', w, bases[k], k, k in started) == RemainingFor(s, w, bases[k], k, k in started) - 1
      && forall x :: x in s.devices && x != k ==>
           RemainingFor(s', w, bases[x], x, x in started) == RemainingFor(s, w, bases[x], x, x in started)
  {
    MeterageExpected(codec, s, w, bases, started, k);
    hide Agenda, SendNext, Traffic, NextUp, Advanced, OwnCalls, WiredTo, Wired, Deliver, Process, Opened, Sealed, Reply;
    var own := OwnCalls(s.history, w.id[k]);
    MeterageArrives(codec, bases[k], w.id[k], s.devices[k], own, s.hub.net.tasks[0].message);
    var i := s.devices[k].timeStamp - 1;
    var v := bases[k].meterages[i];
    ReplyToOwn(s.history, w.id[k], i, v);
    OtherCalls(s.history, Measured(w.id[k], i, v));
    MeasuringTouched(codec, s, w, k, i, v);
    ServerMoves(s, Measuring(s, Measured(w.id[k], i, v)), w, k, Sealed(codec, Reply(s.history, w.id[k], i, v)));
    hide Talking, Remaining;
    OthersUndisturbed(codec, s, Deliver(codec, s), w, bases, started, started, k);
  }

  lemma MeterageExpected<C, K, V>(codec: Codec, s: Sys<C, K, V>, w: Wiring<C, K>, bases: map<K, Base>, started: set<K>, k: K)
    requires SysInv(codec, s, w, bases, started) && s.hub.net.tasks != [] && k in s.devices
    requires AllKnown(s.hub.net) && s.hub.net.tasks[0].SendMessageTask? && s.hub.net.tasks[0].channel == w.server[k]
    ensures var x := s.hub.net.tasks[0].message;
      && k in started && Agenda(s.hub.net.tasks, w.server[k]) == [Got(x)] && Agenda(s.hub.net.tasks, w.client[k]) == []
      && Talking(codec, bases[k], w.id[k], true, s.devices[k], OwnCalls(s.history, w.id[k]), [Got(x)], [])
  {
    MessageTaken(s, w);
    hide Agenda, Traffic, Process, Wired, Sealed;
    assert Conversing(codec, s, w, bases[k], k, k in started);
  }
}
