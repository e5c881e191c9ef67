// The whole program as objects: any number of devices and the monitoring server on one queue.
module Simulations {
  import opened CTypes
  import opened Histories
  import opened Network
  import opened Channels
  import opened Connections
  import opened ConnectionMocks
  import opened CommandCenters
  import opened MessageEncoders
  import opened Conversations
  import opened Monitoring
  import opened EndToEnd
  import opened Devices

  ghost predicate SameCodec(a: Codec, b: Codec) {
    forall x: Bytes :: a.encode(x) == b.encode(x) && a.decode(x) == b.decode(x)
  }

  lemma SameCodecDevice<C, K, V>(a: Codec, b: Codec, h: Hub<C, K, V>, k: K, dev: Device, x: Bytes)
    requires SameCodec(a, b) && ClientUsable(h, k)
    ensures MeterageSent(a, h, k, dev) == MeterageSent(b, h, k, dev)
    ensures DeviceAccepts(a, x) == DeviceAccepts(b, x)
    ensures DeviceAccepts(a, x) ==> Noting(a, dev, x) == Noting(b, dev, x)
  {
    hide ClientSend;
  }

  ghost predicate DeviceFits(r: Registries, codec: Codec, k: ClientConnectionMock, device: DeviceMock)
    reads device.encoder
  {
    k.registries == r && device.clientConnection == k && device.encoder.Valid() && SameCodec(CodecOf(device.encoder), codec)
  }

  ghost predicate AllFit(r: Registries, codec: Codec, devices: map<ClientConnectionMock, DeviceMock>, encoders: set<MessageEncoder>)
    reads encoders
  {
    forall k :: k in devices ==> devices[k].encoder in encoders && DeviceFits(r, codec, k, devices[k])
  }

  ghost function ContentsOf(devices: map<ClientConnectionMock, DeviceMock>): map<ClientConnectionMock, Device>
    reads devices.Values
  {
    map k | k in devices :: devices[k].Contents()
  }

  class Simulation {
    const registries: Registries
    const server: DeviceMonitoringServer
    const devices: map<ClientConnectionMock, DeviceMock>
    ghost const encoders: set<MessageEncoder>

    ghost function State(): Sys<ConnectionChannel, ClientConnectionMock, ConnectionServerMock>
      reads registries, server.commandCenter, devices.Values
    {
      Sys(registries.hub, server.connectionServer, ContentsOf(devices), server.commandCenter.history)
    }

    // The executor in use, which has to be the same everywhere.
    ghost function InUse(): Codec
      reads server.encoder
    {
      CodecOf(server.encoder)
    }

    ghost predicate Valid()
      reads registries, registries.taskQueue, registries.taskQueue.net.chans.Keys
      reads registries.hub.clients.Keys, registries.hub.servers.Keys
      reads server.encoder, server.commandCenter, encoders
    {
      && registries.Valid() && server.commandCenter.Valid() && Equipped()
      && server.connectionServer in registries.hub.servers && devices.Keys <= registries.hub.clients.Keys
    }

    // Everyone is on the same registries and uses executors that do the same.
    ghost predicate Equipped()
      reads server.encoder, encoders
    {
      && server.connectionServer.registries == registries && server.encoder.Valid()
      && AllFit(registries, InUse(), devices, encoders)
    }

    lemma Equipment(k: ClientConnectionMock)
      requires Valid() && k in devices
      ensures k.registries == registries && devices[k].clientConnection == k && SameCodec(CodecOf(devices[k].encoder), InUse())
      ensures devices[k].Ready() && ClientUsable(registries.hub, k)
      ensures forall x :: x in devices && x != k ==> devices[x] != devices[k]
      ensures ContentsOf(devices).Keys == devices.Keys && ContentsOf(devices)[k] == devices[k].Contents()
    {
      hide Registries.Valid, CommandCenter.Valid;
      assert forall x :: x in devices ==> DeviceFits(registries, InUse(), x, devices[x]);
      KnownUsable(k);
    }

    constructor (registries: Registries, server: DeviceMonitoringServer, devices: map<ClientConnectionMock, DeviceMock>)
      requires registries.Valid() && server.commandCenter.Valid() && server.encoder.Valid()
      requires server.connectionServer.registries == registries && server.connectionServer in registries.hub.servers
      requires devices.Keys <= registries.hub.clients.Keys
      requires forall k :: k in devices ==> DeviceFits(registries, CodecOf(server.encoder), k, devices[k])
      ensures Valid() && this.registries == registries && this.server == server && this.devices == devices
    {
      this.registries := registries;
      this.server := server;
      this.devices := devices;
      encoders := set k | k in devices :: devices[k].encoder;
      new;
      hide Registries.Valid, CommandCenter.Valid, MessageEncoder.Valid, SameCodec, CodecOf;
    }

    // All the objects that change in a run.
    ghost function Footprint(): set<object>
      reads registries, registries.taskQueue
    {
      {server.commandCenter, registries, registries.taskQueue} + registries.taskQueue.net.chans.Keys +
      registries.hub.clients.Keys + registries.hub.servers.Keys + devices.Values
    }

    method DeliverToDevice(k: ClientConnectionMock, message: Bytes) returns (thrown: bool)
      requires Valid() && k in devices
      modifies registries`hub, registries.taskQueue, registries.taskQueue.net.chans.Keys`refCounter
      modifies {devices[k]}`messages, {devices[k]}`timeStamp
      ensures Valid() && ClientExists(old(State()), k)
      ensures State() == DeviceReceives(InUse(), old(State()), k, message)
      ensures thrown <==> !DeviceAccepts(InUse(), message)
    {
      hide Registries.Valid, CommandCenter.Valid, MessageEncoder.Valid, Equipped, SameCodec, ContentsOf, CodecOf, ClientUsable;
      hide DeviceMock.Ready, ClientConnectionMock.Known;
      hide MeterageSent, Advanced, Noting, DeviceAccepts, DeviceReceives, DeviceMock.Contents;
      ghost var s := State();
      Equipment(k);
      thrown := devices[k].OnMessageReceived(message);
      ReceivedThrough(CodecOf(devices[k].encoder), InUse(), s, k, message, registries.hub, devices[k].Contents(), thrown);
      DeviceChanged(k);
    }

    method DeliverToServer(id: uint64, message: Bytes)
      requires Valid()
      modifies server.commandCenter, registries`hub, registries.taskQueue, registries.taskQueue.net.chans.Keys`refCounter
      ensures Valid() && ServerExists(old(State()), id)
      ensures State() == ServerReceives(InUse(), old(State()), id, message)
    {
      hide Registries.Valid, CommandCenter.Valid, Equipped, ContentsOf, CodecOf, AnswerSent, Calls;
      ghost var s := State();
      ServerEquipment();
      ServerKnownUsable(server.connectionServer, id);
      server.OnMessageReceived(id, message);
      AnsweredOnNet(InUse(), s.hub, s.server, s.history, id, message);
    }

    method SetMeterages(k: ClientConnectionMock, meterages: Meterages)
      requires Valid() && k in devices
      modifies {devices[k]}`meterages, {devices[k]}`timeStamp
      ensures Valid() && k in old(State()).devices
      ensures State() == old(State()).(devices :=
                old(State()).devices[k := old(State()).devices[k].(meterages := meterages, timeStamp := 0)])
    {
      hide HubInvBut, CommandCenter.Valid, MessageEncoder.Valid, Equipped, ContentsOf, Inv, AllKnown;
      Equipment(k);
      devices[k].SetMeterages(meterages);
      DeviceChanged(k);
    }

    method StartMeterageSending(k: ClientConnectionMock)
      requires Valid() && k in devices
      modifies registries`hub, registries.taskQueue, registries.taskQueue.net.chans.Keys`refCounter, {devices[k]}`timeStamp
      ensures Valid() && ClientExists(old(State()), k)
      ensures State() == SendNext(InUse(), old(State()), k)
    {
      hide Registries.Valid, CommandCenter.Valid, MessageEncoder.Valid, Equipped, SameCodec, ContentsOf, CodecOf, ClientUsable;
      hide MeterageSent, SendNext, Advanced, DeviceMock.Ready, ClientConnectionMock.Known, DeviceMock.Contents;
      ghost var s := State();
      Equipment(k);
      devices[k].StartMeterageSending();
      SentThrough(CodecOf(devices[k].encoder), InUse(), s, k, registries.hub);
      DeviceChanged(k);
    }

    method StartDevice(k: ClientConnectionMock, meterages: Meterages)
      requires Valid() && k in devices
      modifies Footprint()
      ensures Valid() && InUse() == old(InUse()) && Footprint() == old(Footprint()) && ClientExists(old(State()), k)
      ensures State() == StartSending(InUse(), old(State()), k, meterages)
    {
      hide Valid, State, InUse, SendNext, Footprint;
      ghost var s := State();
      InFootprint(k);
      SetMeterages(k, meterages);
      StartMeterageSending(k);
      StartKeepsObjects(InUse(), s, k, meterages);
      InFootprint(k);
    }

    lemma InFootprint(k: ClientConnectionMock)
      requires Valid() && k in devices
      ensures {registries, registries.taskQueue, devices[k]} + registries.taskQueue.net.chans.Keys <= Footprint()
      ensures Footprint() == {server.commandCenter, registries, registries.taskQueue} + State().hub.net.chans.Keys +
                             State().hub.clients.Keys + State().hub.servers.Keys + devices.Values
    {
      OneNetwork();
      hide Valid;
    }

    // The handler of channel c gets the message: the device of a client, or this server.
    method HandleMessage(c: ConnectionChannel, message: Bytes) returns (thrown: bool)
      requires Valid() && c in registries.taskQueue.net.chans
      modifies server.commandCenter, registries`hub, registries.taskQueue, registries.taskQueue.net.chans.Keys`refCounter
      modifies devices.Values`messages, devices.Values`timeStamp
      ensures Valid() && State() == Handle(InUse(), old(State()), c, message)
      ensures thrown <==> ForDevice(old(State()), c) && !DeviceAccepts(InUse(), message)
    {
      hide CommandCenter.Valid, MessageEncoder.Valid, Equipped, SameCodec, CodecOf, ClientUsable, ServerUsable, DeviceAccepts;
      hide TaskQueue.Valid, HubInvBut, ClientsMatch, ServersMatch, DeviceReceives, ServerReceives, ContentsOf;
      thrown := false;
      KnownChannel(registries.taskQueue, c);
      DevicesListed(devices);
      if c.alive && c in registries.handlers {
        match registries.handlers[c] {
          case ClientOwner(k) =>
            if k in devices {
              thrown := DeliverToDevice(k, message);
            }
          case ServerOwner(v) =>
            if v == server.connectionServer {
              DeliverToServer(c.peerId, message);
            }
        }
      }
    }

    // Everything processTask does but the reaction to a message.
    method TakeTask() returns (task: Option<Task<ConnectionChannel>>)
      requires Valid()
      modifies registries`hub, registries`handlers, registries.taskQueue, registries.taskQueue.net.chans.Keys
      modifies registries.hub.clients.Keys`channel, registries.hub.servers.Keys`connections
      ensures old(registries.taskQueue.tasks) == old(State()).hub.net.tasks
      ensures TaskTaken(old(State()), State(), task) && Valid()
    {
      hide CommandCenter.Valid, MessageEncoder.Valid, Equipped, CodecOf, Process, TaskDone;
      hide Registries.Valid, HubInvBut, ContentsOf, AllKnown;
      QueueOf(registries);
      ghost var h := registries.hub;
      ghost var made;
      task, made := registries.ProcessTask();
      if task.Some? {
        TaskDoneKeepsObjects(h, task.value, registries.hub, made);
      }
    }

    // processTask; more is its result.
    method ProcessTask() returns (more: bool, thrown: bool)
      requires Valid()
      modifies server.commandCenter, registries`hub, registries`handlers, registries.taskQueue, registries.taskQueue.net.chans.Keys
      modifies registries.hub.clients.Keys`channel, registries.hub.servers.Keys`connections
      modifies devices.Values`messages, devices.Values`timeStamp
      ensures Valid() && (more <==> old(registries.taskQueue.tasks) != [])
      ensures old(registries.taskQueue.tasks) == old(State()).hub.net.tasks && AllKnown(old(State()).hub.net)
      ensures !more ==> State() == old(State()) && !thrown
      ensures more && old(State()).hub.net.tasks[0].SendMessageTask? ==>
                var t := old(State()).hub.net.tasks[0];
                && State() == Deliver(InUse(), old(State()))
                && (thrown <==> ForDevice(old(State()), t.channel) && !DeviceAccepts(InUse(), t.message))
    {
      hide Valid, State, CodecOf, Handle, Process, AllKnown, DeviceAccepts;
      more, thrown := false, false;
      ghost var s := State();
      OneNetwork();
      var task := TakeTask();
      if task.Some? {
        more := true;
        if task.value.SendMessageTask? {
          SameOwners(s, task.value.channel);
          OneNetwork();
          thrown := HandleMessage(task.value.channel, task.value.message);
        }
      }
    }

    // processTask in the course of conversations: one unit of work is done, and nothing is thrown.
    method Step(ghost w: Wiring<ConnectionChannel, ClientConnectionMock>, ghost bases: map<ClientConnectionMock, Base>,
                ghost started: set<ClientConnectionMock>, ghost order: seq<ClientConnectionMock>) returns (more: bool)
      requires Valid() && SysInv(InUse(), State(), w, bases, started) && Lists(order, State().devices.Keys)
      modifies Footprint()
      ensures Valid() && InUse() == old(InUse()) && SysInv(InUse(), State(), w, bases, started)
      ensures SameObjects(old(State()), State()) && Footprint() == old(Footprint())
      ensures !more ==> State().hub.net.tasks == [] && State() == old(State())
      ensures Backlog(State(), w, bases, started, order) == Backlog(old(State()), w, bases, started, order) - if more then 1 else 0
    {
      hide Valid, State, InUse, SysInv, Deliver, Backlog, AllKnown, ForDevice, DeviceAccepts, Lists;
      ghost var s, codec := State(), InUse();
      OneNetwork();
      var thrown;
      more, thrown := ProcessTask();
      if more {
        TurnKeeps(codec, s, w, bases, started, order);
        assert !thrown;
      }
      OneNetwork();
    }

    // Up to limit calls of processTask.
    method ProcessSome(limit: nat, ghost w: Wiring<ConnectionChannel, ClientConnectionMock>,
                       ghost bases: map<ClientConnectionMock, Base>, ghost started: set<ClientConnectionMock>,
                       ghost order: seq<ClientConnectionMock>) returns (processed: nat)
      requires Valid() && SysInv(InUse(), State(), w, bases, started) && Lists(order, State().devices.Keys)
      modifies Footprint()
      ensures Valid() && InUse() == old(InUse()) && SysInv(InUse(), State(), w, bases, started)
      ensures SameObjects(old(State()), State()) && Footprint() == old(Footprint())
      ensures processed == Backlog(old(State()), w, bases, started, order) - Backlog(State(), w, bases, started, order)
    {
      hide Valid, InUse, SysInv, Backlog, Lists, State, Footprint;
      ghost var s, codec := State(), InUse();
      processed := 0;
      for i := 0 to limit
        invariant Valid() && InUse() == codec && SysInv(codec, State(), w, bases, started)
        invariant SameObjects(s, State())
        invariant Footprint() == old(Footprint())
        invariant processed + Backlog(State(), w, bases, started, order) == Backlog(s, w, bases, started, order)
      {
        var more := Step(w, bases, started, order);
        if !more {
          break;
        }
        processed := processed + 1;
      }
    }

    // while (taskQueue.processTask());
    method Drain(ghost w: Wiring<ConnectionChannel, ClientConnectionMock>, ghost bases: map<ClientConnectionMock, Base>,
                 ghost started: set<ClientConnectionMock>, ghost order: seq<ClientConnectionMock>) returns (processed: nat)
      requires Valid() && SysInv(InUse(), State(), w, bases, started) && Lists(order, State().devices.Keys)
      modifies Footprint()
      ensures Valid() && InUse() == old(InUse()) && SysInv(InUse(), State(), w, bases, started)
      ensures SameObjects(old(State()), State()) && Footprint() == old(Footprint()) && State().hub.net.tasks == []
      ensures processed == Backlog(old(State()), w, bases, started, order) - Backlog(State(), w, bases, started, order)
    {
      hide Valid, InUse, SysInv, Backlog, Lists, State, Footprint;
      ghost var s, codec := State(), InUse();
      BacklogBounds(codec, s, w, bases, started, order);
      var more := true;
      processed := 0;
      while more
        invariant Valid() && InUse() == codec && SysInv(codec, State(), w, bases, started)
        invariant SameObjects(s, State())
        invariant Footprint() == old(Footprint())
        invariant !more ==> State().hub.net.tasks == []
        invariant 0 <= Backlog(State(), w, bases, started, order)
        invariant processed + Backlog(State(), w, bases, started, order) == Backlog(s, w, bases, started, order)
        decreases Backlog(State(), w, bases, started, order), more
      {
        more := Step(w, bases, started, order);
        BacklogBounds(codec, State(), w, bases, started, order);
        processed := processed + if more then 1 else 0;
      }
    }

    // Device k sets its meterages and starts; then the queue processes up to limit tasks.
    method Begin(k: ClientConnectionMock, meterages: Meterages, limit: nat,
                 ghost w: Wiring<ConnectionChannel, ClientConnectionMock>, ghost bases: map<ClientConnectionMock, Base>,
                 ghost started: set<ClientConnectionMock>, ghost order: seq<ClientConnectionMock>) returns (processed: nat)
      requires Valid() && SysInv(InUse(), State(), w, bases, started) && Lists(order, State().devices.Keys)
      requires k in devices && k !in started && k in bases && bases[k].meterages == meterages
      modifies Footprint()
      ensures Valid() && InUse() == old(InUse()) && SysInv(InUse(), State(), w, bases, started + {k})
      ensures SameObjects(old(State()), State()) && Footprint() == old(Footprint())
      ensures processed == Backlog(old(State()), w, bases, started, order) - Backlog(State(), w, bases, started + {k}, order)
    {
      hide Valid, InUse, SysInv, Backlog, StartSending, State, Lists, Footprint;
      ghost var s, codec := State(), InUse();
      ListedDevices();
      StartTurn(codec, s, w, bases, started, order, k);
      StartDevice(k, meterages);
      processed := ProcessSome(limit, w, bases, started + {k}, order);
    }

    lemma ListedDevices()
      requires Valid()
      ensures State().devices.Keys == devices.Keys
    {
      DevicesListed(devices);
    }

    // Starts the devices in any order, after each of them processing as many tasks as pauses says.
    method BeginAll(ms: map<ClientConnectionMock, Meterages>, pauses: map<ClientConnectionMock, nat>,
                    ghost w: Wiring<ConnectionChannel, ClientConnectionMock>, ghost bases: map<ClientConnectionMock, Base>,
                    ghost order: seq<ClientConnectionMock>) returns (processed: nat)
      requires Valid() && SysInv(InUse(), State(), w, bases, {}) && Sent(bases, ms)
      requires ms.Keys == pauses.Keys == State().devices.Keys && Lists(order, State().devices.Keys)
      modifies Footprint()
      ensures Valid() && InUse() == old(InUse()) && SysInv(InUse(), State(), w, bases, ms.Keys)
      ensures SameObjects(old(State()), State()) && Footprint() == old(Footprint())
      ensures processed == Backlog(old(State()), w, bases, {}, order) - Backlog(State(), w, bases, ms.Keys, order)
    {
      hide Valid, InUse, SysInv, Backlog, Lists, State, Footprint;
      ghost var s, codec := State(), InUse();
      ListedDevices();
      ghost var started: set<ClientConnectionMock> := {};
      var todo := ms.Keys;
      processed := 0;
      while todo != {}
        invariant Valid() && InUse() == codec && SysInv(codec, State(), w, bases, started)
        invariant SameObjects(s, State())
        invariant Footprint() == old(Footprint())
        invariant todo <= ms.Keys && started == ms.Keys - todo
        invariant processed + Backlog(State(), w, bases, started, order) == Backlog(s, w, bases, {}, order)
        decreases todo
      {
        var k :| k in todo;
        var n := Begin(k, ms[k], pauses[k], w, bases, started, order);
        processed := processed + n;
        started, todo := started + {k}, todo - {k};
      }
      assert started == ms.Keys;
    }

    // A whole run, from connected devices and an empty queue to an empty queue.
    method Run(ms: map<ClientConnectionMock, Meterages>, pauses: map<ClientConnectionMock, nat>,
               ghost w: Wiring<ConnectionChannel, ClientConnectionMock>, ghost order: seq<ClientConnectionMock>)
      returns (processed: nat)
      requires Valid() && Faithful(InUse()) && Wired(State(), w) && State().hub.net.tasks == []
      requires ms.Keys == pauses.Keys == State().devices.Keys && Lists(order, State().devices.Keys)
      modifies Footprint()
      ensures Valid() && InUse() == old(InUse()) && Footprint() == old(Footprint())
      ensures Wired(State(), w) && State().hub.net.tasks == [] && SameObjects(old(State()), State())
      ensures processed == Work(ms, order)
      ensures forall k :: k in ms ==> HasItsAnswers(old(State()), State(), w, ms, k)
    {
      hide Valid, InUse, SysInv, Backlog, Lists, Wired, HasItsAnswers, Faithful, State, Work, Footprint, Bases;
      ghost var s, codec := State(), InUse();
      BacklogAtFirst(s, w, ms, order);
      WiredKeys(s, w);
      ghost var bases := Bases(s, w, ms);
      IdleKeeps(codec, s, w, ms);
      processed := BeginAll(ms, pauses, w, bases, order);
      var rest := Drain(w, bases, ms.Keys, order);
      processed := processed + rest;
      BacklogBounds(codec, State(), w, bases, ms.Keys, order);
      RemainsWired(codec, State(), w, bases, ms.Keys);
      AllAnswered(codec, s, State(), w, ms, bases, ms.Keys);
    }

    lemma OneNetwork()
      requires Valid()
      ensures registries.taskQueue.net == State().hub.net && State().hub == registries.hub
    {
      hide HubInvBut, TaskQueue.Valid, ClientsMatch, ServersMatch, CommandCenter.Valid, Equipped;
    }

    lemma ServerEquipment()
      requires Equipped()
      ensures server.connectionServer.registries == registries && server.encoder.Valid()
    {
    }

    // The contents of device k may have changed, those of the other devices have not.
    twostate lemma DeviceChanged(k: ClientConnectionMock)
      requires k in devices
      requires forall x :: x in devices && devices[x] != devices[k] ==> devices[x].Contents() == old(devices[x].Contents())
      requires forall x :: x in devices && x != k ==> devices[x] != devices[k]
      ensures ContentsOf(devices) == old(ContentsOf(devices))[k := devices[k].Contents()]
    {
    }
  }

  // Sending goes no further than the network.
  lemma SentOnNet<C, K, V>(codec: Codec, h: Hub<C, K, V>, k: K, dev: Device)
    requires ClientUsable(h, k)
    ensures MeterageSent(codec, h, k, dev) == h.(net := MeterageSent(codec, h, k, dev).net)
  {
  }

  lemma AnsweredOnNet<C, K, V>(codec: Codec, h: Hub<C, K, V>, v: V, history: History, id: uint64, x: Bytes)
    requires ServerUsable(h, v, id)
    ensures AnswerSent(codec, h, v, history, id, x) == h.(net := AnswerSent(codec, h, v, history, id, x).net)
  {
  }

  // A device with an executor that does the same as the server's receives the same.
  lemma ReceivedThrough<C, K, V>(own: Codec, codec: Codec, s: Sys<C, K, V>, k: K, x: Bytes,
                                 h: Hub<C, K, V>, dev: Device, thrown: bool)
    requires SameCodec(own, codec) && ClientExists(s, k)
    requires thrown <==> !DeviceAccepts(own, x)
    requires thrown ==> dev == s.devices[k] && h == s.hub
    requires !thrown ==> dev == Advanced(Noting(own, s.devices[k], x))
    requires !thrown ==> h == MeterageSent(own, s.hub, k, Noting(own, s.devices[k], x))
    ensures thrown <==> !DeviceAccepts(codec, x)
    ensures h == s.hub.(net := h.net)
    ensures s.(hub := h, devices := s.devices[k := dev]) == DeviceReceives(codec, s, k, x)
  {
    hide SameCodec, MeterageSent, Advanced, Noting, DeviceAccepts;
    SameCodecDevice(own, codec, s.hub, k, s.devices[k], x);
    if thrown {
      assert s.devices[k := s.devices[k]] == s.devices;
    } else {
      var n := Noting(codec, s.devices[k], x);
      SameCodecDevice(own, codec, s.hub, k, n, x);
      SentOnNet(own, s.hub, k, n);
      assert s.devices[k := n][k := Advanced(n)] == s.devices[k := Advanced(n)];
    }
  }

  lemma SentThrough<C, K, V>(own: Codec, codec: Codec, s: Sys<C, K, V>, k: K, h: Hub<C, K, V>)
    requires SameCodec(own, codec) && ClientExists(s, k) && h == MeterageSent(own, s.hub, k, s.devices[k])
    ensures h == s.hub.(net := h.net)
    ensures s.(hub := h, devices := s.devices[k := Advanced(s.devices[k])]) == SendNext(codec, s, k)
    ensures h.net.chans.Keys == s.hub.net.chans.Keys
  {
    SendKeepsChannels(own, s, k);
    hide SameCodec, MeterageSent;
    SameCodecDevice(own, codec, s.hub, k, s.devices[k], []);
    SentOnNet(own, s.hub, k, s.devices[k]);
  }

  lemma ServerKnownUsable(v: ConnectionServerMock, id: uint64)
    requires v.Known()
    ensures ServerUsable(v.registries.hub, v, id)
  {
    ChannelOfConnection(v.registries.hub, v, id);
  }

  ghost predicate TaskTaken<C, K, V>(s: Sys<C, K, V>, s': Sys<C, K, V>, task: Option<Task<C>>) {
    && AllKnown(s.hub.net)
    && task == (if s.hub.net.tasks == [] then None else Some(s.hub.net.tasks[0]))
    && (task.None? ==> s' == s)
    && (task.Some? && task.value.SendMessageTask? ==> s' == s.(hub := s.hub.(net := Process(s.hub.net))))
  }

  // The message handler of channel c is that of a device.
  ghost predicate ForDevice<C, K, V>(s: Sys<C, K, V>, c: C) {
    Alive(s.hub.net, c) && c in s.hub.owner && s.hub.owner[c].ClientOwner? && s.hub.owner[c].client in s.devices
  }

  lemma QueueOf(r: Registries)
    requires r.Valid()
    ensures HubInvBut(r.hub, {}) && r.hub.net == r.taskQueue.net && r.taskQueue.tasks == r.hub.net.tasks && AllKnown(r.hub.net)
  {
    hide HubInvBut;
    QueueMatches(r.taskQueue);
  }

  lemma SameOwners<C, K, V>(s: Sys<C, K, V>, c: C)
    requires s.hub.net.tasks != [] && AllKnown(s.hub.net) && s.hub.net.tasks[0].SendMessageTask?
    requires c == s.hub.net.tasks[0].channel
    ensures Process(s.hub.net).chans.Keys == s.hub.net.chans.Keys
    ensures var n := Process(s.hub.net); c in n.chans && (ForDevice(s, c) <==> ForDevice(s.(hub := s.hub.(net := n)), c))
  {
  }

  lemma DevicesListed(devices: map<ClientConnectionMock, DeviceMock>)
    ensures ContentsOf(devices).Keys == devices.Keys
  {
  }

  lemma TaskDoneKeepsObjects<C, K, V>(h: Hub<C, K, V>, t: Task<C>, h': Hub<C, K, V>, made: Option<(C, C)>)
    requires HubInvBut(h, {}) && AllKnown(h.net) && TaskDone(h, t, h', made)
    ensures h'.clients.Keys == h.clients.Keys && h'.servers.Keys == h.servers.Keys
    ensures t.SendMessageTask? ==> h' == h.(net := Process(h.net))
  {
    hide HubInvBut, AllKnown, Process, Dispatched;
    ProcessedBooks(h);
    DispatchedKeepsObjects(h.(net := Process(h.net)), t, h', made);
  }

  lemma DispatchedKeepsObjects<C, K, V>(h: Hub<C, K, V>, t: Task<C>, h': Hub<C, K, V>, made: Option<(C, C)>)
    requires HubInvBut(h, {}) && Dispatched(h, t, h', made)
    ensures h'.clients.Keys == h.clients.Keys && h'.servers.Keys == h.servers.Keys
    ensures t.SendMessageTask? ==> h' == h
  {
    hide HubInvBut, Destroy, Pair;
  }

  // The same objects and channels exist, and the same are registered and connected.
  ghost predicate SameObjects<C, K, V>(s: Sys<C, K, V>, s': Sys<C, K, V>) {
    && s'.hub == s.hub.(net := s'.hub.net) && s'.hub.net.chans.Keys == s.hub.net.chans.Keys
    && s'.server == s.server && s'.devices.Keys == s.devices.Keys
  }

  lemma DeliverKeepsObjects<C, K, V>(codec: Codec, s: Sys<C, K, V>)
    requires s.hub.net.tasks != [] && s.hub.net.tasks[0].SendMessageTask? && AllKnown(s.hub.net)
    ensures SameObjects(s, Deliver(codec, s))
  {
    ProcessKeepsObjects(s);
    hide Process;
    var t := s.hub.net.tasks[0];
    HandleKeepsObjects(codec, s.(hub := s.hub.(net := Process(s.hub.net))), t.channel, t.message);
  }

  lemma ProcessKeepsObjects<C, K, V>(s: Sys<C, K, V>)
    requires s.hub.net.tasks != [] && s.hub.net.tasks[0].SendMessageTask? && AllKnown(s.hub.net)
    ensures SameObjects(s, s.(hub := s.hub.(net := Process(s.hub.net))))
  {
  }

  lemma SendKeepsObjects<C, K, V>(codec: Codec, s: Sys<C, K, V>, k: K)
    requires ClientExists(s, k)
    ensures SameObjects(s, SendNext(codec, s, k))
  {
    SendKeepsChannels(codec, s, k);
    SentOnNet(codec, s.hub, k, s.devices[k]);
    hide MeterageSent;
  }

  lemma HandleKeepsObjects<C, K, V>(codec: Codec, s: Sys<C, K, V>, c: C, x: Bytes)
    ensures SameObjects(s, Handle(codec, s, c, x))
  {
    hide Sealed, Opened, Reply, SendNext, Schedule, Noting, DeviceAccepts;
    if c in s.hub.owner && c in s.hub.net.chans && s.hub.net.chans[c].alive {
      match s.hub.owner[c]
      case ClientOwner(k) =>
        if ClientExists(s, k) && DeviceAccepts(codec, x) {
          SendKeepsObjects(codec, s.(devices := s.devices[k := Noting(codec, s.devices[k], x)]), k);
        }
      case ServerOwner(v) =>
        var id := s.hub.net.chans[c].peerId;
        if ServerExists(s, id) && Opened(codec, x).Some? && Opened(codec, x).value.MessageMeterage? {
          var m := Opened(codec, x).value;
          ReplyKeepsChannels(s, id, Sealed(codec, Reply(s.history, id, m.timeStamp, m.meterage)));
          AnsweredOnNet(codec, s.hub, s.server, s.history, id, x);
        }
    }
  }

  // The work left for the devices of order.
  ghost function Backlog<C, K, V>(s: Sys<C, K, V>, w: Wiring<C, K>, bases: map<K, Base>, started: set<K>, order: seq<K>): int {
    if Keyed(s, w, bases) && Lists(order, s.devices.Keys) then Left(s, w, bases, started, order) else 0
  }

  lemma BacklogBounds<C, K, V>(codec: Codec, s: Sys<C, K, V>, w: Wiring<C, K>, bases: map<K, Base>, started: set<K>, order: seq<K>)
    requires SysInv(codec, s, w, bases, started) && Lists(order, s.devices.Keys)
    ensures 0 <= Backlog(s, w, bases, started, order)
    ensures s.hub.net.tasks == [] && started == s.devices.Keys ==> Backlog(s, w, bases, started, order) == 0
  {
    hide SysInv, Left;
    LeftBounds(codec, s, w, bases, started, order);
  }

  lemma BacklogAtFirst<C, K, V>(s: Sys<C, K, V>, w: Wiring<C, K>, ms: map<K, Meterages>, order: seq<K>)
    requires Wired(s, w) && ms.Keys == s.devices.Keys && Lists(order, s.devices.Keys)
    ensures Backlog(s, w, Bases(s, w, ms), {}, order) == Work(ms, order) && Sent(Bases(s, w, ms), ms)
  {
    hide WiredTo;
    LeftAtFirst(s, w, Bases(s, w, ms), ms, order);
  }

  lemma TurnKeeps<C, K, V>(codec: Codec, s: Sys<C, K, V>, w: Wiring<C, K>, bases: map<K, Base>, started: set<K>, order: seq<K>)
    requires SysInv(codec, s, w, bases, started) && s.hub.net.tasks != [] && Lists(order, s.devices.Keys)
    ensures s.hub.net.tasks[0].SendMessageTask? && AllKnown(s.hub.net)
    ensures var s' := Deliver(codec, s);
      && SysInv(codec, s', w, bases, started) && SameObjects(s, s')
      && Backlog(s', w, bases, started, order) == Backlog(s, w, bases, started, order) - 1
    ensures ForDevice(s, s.hub.net.tasks[0].channel) ==> DeviceAccepts(codec, s.hub.net.tasks[0].message)
  {
    hide Conversing, Traffic, RemainingFor, Deliver, AllKnown, Faithful, WiredTo, ForDevice, DeviceAccepts, SameObjects;
    var k := DeliverKeeps(codec, s, w, bases, started);
    LeftOver(s, Deliver(codec, s), w, bases, started, started, Some(k), order);
    DeliverKeepsObjects(codec, s);
    NoThrow(codec, s, w, bases, started);
  }

  lemma NoThrow<C, K, V>(codec: Codec, s: Sys<C, K, V>, w: Wiring<C, K>, bases: map<K, Base>, started: set<K>)
    requires SysInv(codec, s, w, bases, started) && s.hub.net.tasks != [] && s.hub.net.tasks[0].SendMessageTask?
    ensures ForDevice(s, s.hub.net.tasks[0].channel) ==> DeviceAccepts(codec, s.hub.net.tasks[0].message)
  {
    hide Conversing, Faithful, DeviceAccepts, WiredTo;
    NextFits(codec, s, w, bases, started);
    var c := s.hub.net.tasks[0].channel;
    assert ToAnEnd(s.hub.net.tasks[0], w);
    if k :| k in w.server && w.server[k] == c {
      EndsReachable(s, w, k);
    }
  }

  lemma StartTurn<C, K, V>(codec: Codec, s: Sys<C, K, V>, w: Wiring<C, K>, bases: map<K, Base>, started: set<K>, order: seq<K>, k: K)
    requires SysInv(codec, s, w, bases, started) && Lists(order, s.devices.Keys) && k in s.devices && k !in started
    ensures ClientExists(s, k) && k in bases
    ensures var s' := StartSending(codec, s, k, bases[k].meterages);
      && SysInv(codec, s', w, bases, started + {k}) && SameObjects(s, s')
      && Backlog(s', w, bases, started + {k}, order) == Backlog(s, w, bases, started, order)
  {
    hide Conversing, Traffic, RemainingFor, SendNext, Faithful, WiredTo, ClientExists, SameObjects;
    StartKeeps(codec, s, w, bases, started, k);
    LeftOver(s, StartSending(codec, s, k, bases[k].meterages), w, bases, started, started + {k}, None, order);
    StartKeepsObjects(codec, s, k, bases[k].meterages);
  }

  lemma StartKeepsObjects<C, K, V>(codec: Codec, s: Sys<C, K, V>, k: K, meterages: Meterages)
    requires ClientExists(s, k)
    ensures SameObjects(s, StartSending(codec, s, k, meterages))
  {
    hide SendNext;
    SendKeepsObjects(codec, s.(devices := s.devices[k := s.devices[k].(meterages := meterages, timeStamp := 0)]), k);
  }

  // Device k has got the predicted answers, and the command center its meterages with their statistics.
  ghost predicate HasItsAnswers<C, K, V>(s: Sys<C, K, V>, s': Sys<C, K, V>, w: Wiring<C, K>, ms: map<K, Meterages>, k: K) {
    && k in s.devices && k in s'.devices && k in w.id && k in ms
    && s'.devices[k].messages == s.devices[k].messages + Expected(s.history, w.id[k], ms[k])
    && OwnCalls(s'.history, w.id[k]) == OwnCalls(s.history, w.id[k]) + Measurements(w.id[k], ms[k], |ms[k]|)
    && Stats(s'.history, w.id[k]) == Stats(s.history + Measurements(w.id[k], ms[k], |ms[k]|), w.id[k])
  }

  lemma AllAnswered<C, K, V>(codec: Codec, s: Sys<C, K, V>, s': Sys<C, K, V>, w: Wiring<C, K>, ms: map<K, Meterages>,
                             bases: map<K, Base>, started: set<K>)
    requires ms.Keys == s.devices.Keys == w.id.Keys && bases == Bases(s, w, ms) && started == ms.Keys
    requires SysInv(codec, s', w, bases, started) && s'.hub.net.tasks == []
    ensures forall k :: k in ms ==> HasItsAnswers(s, s', w, ms, k)
  {
    hide SysInv, Answers, Expected, OwnCalls, Measurements, Stats;
    forall k | k in ms ensures HasItsAnswers(s, s', w, ms, k) {
      ConversationOver(codec, s', w, bases, started, k);
      AnswersExpected(s.history, w.id[k], ms[k]);
      StatsAfter(s.history, s'.history, w.id[k], Measurements(w.id[k], ms[k], |ms[k]|));
    }
  }

  lemma RemainsWired<C, K, V>(codec: Codec, s: Sys<C, K, V>, w: Wiring<C, K>, bases: map<K, Base>, started: set<K>)
    requires SysInv(codec, s, w, bases, started)
    ensures Wired(s, w)
  {
    hide Wired, Conversing, Traffic, Faithful;
  }

  lemma WiredKeys<C, K, V>(s: Sys<C, K, V>, w: Wiring<C, K>)
    requires Wired(s, w)
    ensures s.devices.Keys == w.id.Keys == w.client.Keys == w.server.Keys
  {
  }
}
