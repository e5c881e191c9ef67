// The fixture of the integration tests: a server and its devices made from nothing, connected, and run.
module Programs {
  import opened CTypes
  import opened Messages
  import opened Plans
  import opened Histories
  import opened Executors
  import opened MessageEncoders
  import opened CommandCenters
  import opened Network
  import opened Channels
  import opened Connections
  import opened ConnectionMocks
  import opened Conversations
  import opened Monitoring
  import opened EndToEnd
  import opened Setup
  import opened Devices
  import opened Simulations

  // ----- executors by their names -----

  // What an encoder does that has the default executors and "Dummy", with name selected if it can be.
  function Named(name: string): Codec {
    if name == "ROT3" then Codec(s => Rotated(s, 3), s => Rotated(s, -3))
    else if name == "Mirror" then Codec(s => MirrorEncoded(s), s => MirrorDecoded(s))
    else if name == "Multiply41" then Codec(s => Multiply41Encoded(s), s => Multiply41Decoded(s))
    else Codec(s => s, s => s)
  }

  lemma NamedFaithful(name: string)
    ensures Faithful(Named(name))
  {
    DefaultsRoundTrip();
  }

  lemma FaithfulLike(a: Codec, b: Codec)
    requires SameCodec(a, b) && Faithful(b)
    ensures Faithful(a)
  {
  }

  ghost predicate WithDummy(executors: seq<Executor>) {
    && |executors| == 4 && Defaults(executors[..3]) && executors[3].name == "Dummy"
    && forall s: Bytes :: executors[3].encode(s) == s && executors[3].decode(s) == s
  }

  lemma FindNamed(executors: seq<Executor>, name: string)
    requires WithDummy(executors)
    ensures Find(executors, name) ==
            if name == "ROT3" then 0 else if name == "Mirror" then 1 else if name == "Multiply41" then 2
            else if name == "Dummy" then 3 else -1
  {
    assert executors[0] == executors[..3][0] && executors[1] == executors[..3][1] && executors[2] == executors[..3][2];
  }

  lemma NamedSelected(r: Registry, name: string)
    requires WithDummy(r.executors) && r.current == r.executors[3]
    ensures var e := Selected(r, name).current;
      e != null && SameCodec(Codec(e.encode, e.decode), Named(name))
  {
    FindNamed(r.executors, name);
    assert forall i :: 0 <= i < 3 ==> r.executors[i] == r.executors[..3][i];
  }

  // The test program adds the dummy executor, selects it, and may select another one after that.
  method Equip(encoder: MessageEncoder, name: string)
    requires encoder.Valid() && Defaults(encoder.executors) && encoder.currentExecutor == null
    modifies encoder
    ensures encoder.Valid() && SameCodec(CodecOf(encoder), Named(name))
  {
    hide SameCodec;
    ghost var defaults := encoder.executors;
    var dummy := new Executor("Dummy", s => s, s => s);
    var _ := encoder.AddExecutor(dummy);
    assert encoder.executors[..3] == defaults;
    FindNamed(encoder.executors, "Dummy");
    var _ := encoder.SelectExecutor("Dummy");
    NamedSelected(encoder.Contents(), name);
    var _ := encoder.SelectExecutor(name);
  }

  // ----- connecting -----

  // while (taskQueue.processTask()) with one request in the queue, of a client and a server that can be connected.
  method DrainRequest(r: Registries, ghost k: ClientConnectionMock, d: uint64, ghost v: ConnectionServerMock, j: uint64)
    returns (ghost s: ConnectionChannel, ghost c: ConnectionChannel)
    requires r.Valid() && r.hub.net.tasks == [ConnectToServerTask(d, j)] && CanConnect(r.hub, k, d, v, j)
    modifies r`hub, r`handlers, r.taskQueue, r.taskQueue.net.chans.Keys
    modifies r.hub.clients.Keys`channel, r.hub.servers.Keys`connections
    ensures r.Valid() && fresh(s) && fresh(c) && s != c
    ensures v in old(r.hub).servers && old(r.hub).net.tasks != []
    ensures r.hub == ConnectedHub(old(r.hub), k, d, v, j, s, c)
    ensures r.hub.net.chans.Keys == old(r.hub).net.chans.Keys + {s, c}
    ensures r.hub.clients.Keys == old(r.hub).clients.Keys && r.hub.servers.Keys == old(r.hub).servers.Keys
  {
    hide Registries.Valid, HubInvBut, TaskDone, ConnectedHub, CanConnect;
    ghost var h := r.hub;
    ghost var made: Option<(ConnectionChannel, ConnectionChannel)> := None;
    CanConnectEnds(h, k, d, v, j);
    BooksOf(r);
    var more := true;
    while more
      invariant r.Valid() && (made.None? ==> more && r.hub == h)
      invariant made.Some? ==> fresh(made.value.0) && fresh(made.value.1) && made.value.0 != made.value.1
      invariant made.Some? ==> r.hub == ConnectedHub(h, k, d, v, j, made.value.0, made.value.1)
      invariant made.Some? ==> r.hub.net.tasks == []
      invariant r.hub.clients.Keys == h.clients.Keys && r.hub.servers.Keys == h.servers.Keys
      invariant made.Some? ==> r.hub.net.chans.Keys == h.net.chans.Keys + {made.value.0, made.value.1}
      invariant r.hub.net == r.taskQueue.net
      decreases if made.None? then 2 else if more then 1 else 0
    {
      BooksOf(r);
      var task, m := r.ProcessTask();
      more := task.Some?;
      BooksOf(r);
      if more {
        RequestDone(h, task.value, r.hub, m, k, d, v, j);
        made := m;
      }
    }
    s, c := made.value.0, made.value.1;
  }

  // Client k is bound to d and has no channel; server v listens under j and has no connection of d.
  ghost predicate CanConnect<C, K, V>(h: Hub<C, K, V>, k: K, d: uint64, v: V, j: uint64) {
    && d in h.clientIds && h.clientIds[d] == k && k in h.clients && h.clients[k].channel.None?
    && j in h.serverIds && h.serverIds[j] == v && v in h.servers && d !in h.servers[v].connections
  }

  lemma CanConnectEnds<C, K, V>(h: Hub<C, K, V>, k: K, d: uint64, v: V, j: uint64)
    requires CanConnect(h, k, d, v, j)
    ensures k in h.clients && v in h.servers
  {
  }

  lemma BooksOf(r: Registries)
    requires r.Valid()
    ensures HubInvBut(r.hub, {}) && r.hub.net == r.taskQueue.net && r.taskQueue.tasks == r.hub.net.tasks
  {
    QueueMatches(r.taskQueue);
  }

  lemma RequestDone<C, K, V>(h: Hub<C, K, V>, t: Task<C>, h': Hub<C, K, V>, made: Option<(C, C)>,
                             k: K, d: uint64, v: V, j: uint64)
    requires HubInv(h) && h.net.tasks == [ConnectToServerTask(d, j)] && CanConnect(h, k, d, v, j)
    requires TaskDone(h, t, h', made)
    requires made.Some? ==> made.value.0 !in h.net.chans && made.value.1 !in h.net.chans && made.value.0 != made.value.1
    ensures made.Some? && h' == ConnectedHub(h, k, d, v, j, made.value.0, made.value.1) && h'.net.tasks == []
    ensures h'.clients.Keys == h.clients.Keys && h'.servers.Keys == h.servers.Keys
    ensures h'.net.chans.Keys == h.net.chans.Keys + {made.value.0, made.value.1}
  {
    RequestMakes(h, t, h', made, d, j);
    TaskDoneIsProcessTask(h, t, h', made, made.value.0, made.value.1);
    hide HubInvBut, TaskDone, ProcessTask;
    FirstConnect(h, d, j, made.value.0, made.value.1);
  }

  lemma RequestMakes<C, K, V>(h: Hub<C, K, V>, t: Task<C>, h': Hub<C, K, V>, made: Option<(C, C)>, d: uint64, j: uint64)
    requires TaskDone(h, t, h', made) && h.net.tasks[0] == ConnectToServerTask(d, j)
    requires d in h.clientIds && j in h.serverIds
    ensures made.Some?
  {
    hide Process, Establish;
    assert h.(net := Process(h.net)).clientIds == h.clientIds;
  }

  lemma StandingAlone<C, K, V>(v: V, j: uint64, h: Hub<C, K, V>)
    requires j != 0 && HubInv(h)
    requires h == Connections.Listen(NewServer(Hub(Net(map[], []), map[], map[], map[], map[], map[]), v), v, j)
    ensures Standing(h, v, j, Wiring(map[], map[], map[]))
    ensures h.net == Net(map[], []) && h.clients == map[] && h.clientIds == map[] && h.servers.Keys == {v}
  {
    hide HubInvBut;
  }

  lemma RowOf(c: ClientConnectionMock)
    requires c.Known()
    ensures c.registries.clientsMap == c.registries.hub.clientIds && c.Matches(c.registries.hub.clients[c])
  {
    hide HubInvBut;
    c.MatchingClient();
  }

  lemma BindingShape<C, K, V>(h: Hub<C, K, V>, k: K, d: uint64)
    requires d !in h.clientIds && d != 0 && k in h.clients && h.clients[k] == Client(0, None)
    ensures var a := Connections.Bind(h, k, d); k in a.clients && a.clients[k] == Client(d, None)
  {
  }

  lemma AskingShape<C, K, V>(h: Hub<C, K, V>, k: K, d: uint64, j: uint64)
    requires d !in h.clientIds && d != 0
    ensures var n := NewClient(h, k);
      && k in n.clients && n.clients[k] == Client(0, None) && n.clientIds == h.clientIds
      && k in Connections.Bind(n, k, d).clients
      && Asked(h, k, d, j) == Connections.ConnectToHost(Connections.Bind(n, k, d), k, j)
  {
  }

  lemma AskedCanConnect<C, K, V>(h: Hub<C, K, V>, v: V, j: uint64, w: Wiring<C, K>, k: K, d: uint64)
    requires HubInv(h) && Standing(h, v, j, w) && d !in h.clientIds && d != 0
    ensures var a := Asked(h, k, d, j);
      && a.net.tasks == [ConnectToServerTask(d, j)] && CanConnect(a, k, d, v, j)
      && a.net.chans == h.net.chans && a.clients.Keys == h.clients.Keys + {k} && a.servers == h.servers
  {
    hide Asked, AllWired;
    ListeningNonZero(h, v, j);
    AskedShape(h, k, d, j);
  }

  lemma ServingNonZero<C, K, V>(h: Hub<C, K, V>, v: V, j: uint64, w: Wiring<C, K>)
    requires HubInv(h) && Standing(h, v, j, w)
    ensures j != 0
  {
    hide AllWired, BoundAs;
    ListeningNonZero(h, v, j);
  }

  // The objects that come with the connection of client k.
  ghost predicate Grown<C, K, V>(h: Hub<C, K, V>, h': Hub<C, K, V>, d: uint64, k: K, s: C, c: C) {
    && h'.clientIds == h.clientIds[d := k] && h'.clients.Keys == h.clients.Keys + {k}
    && h'.servers.Keys == h.servers.Keys && h'.net.chans.Keys == h.net.chans.Keys + {s, c}
  }

  // The queue, the registries and all that is registered or queued for.
  ghost function WiresOf(r: Registries, h: Hub<ConnectionChannel, ClientConnectionMock, ConnectionServerMock>): set<object> {
    {r, r.taskQueue} + h.net.chans.Keys + h.clients.Keys + h.servers.Keys
  }

  lemma InWires(r: Registries, h: Hub<ConnectionChannel, ClientConnectionMock, ConnectionServerMock>)
    ensures r in WiresOf(r, h) && r.taskQueue in WiresOf(r, h)
    ensures h.net.chans.Keys <= WiresOf(r, h) && h.clients.Keys <= WiresOf(r, h) && h.servers.Keys <= WiresOf(r, h)
  {
  }

  lemma GrownIds(r: Registries, h: Hub<ConnectionChannel, ClientConnectionMock, ConnectionServerMock>,
                 h': Hub<ConnectionChannel, ClientConnectionMock, ConnectionServerMock>,
                 d: uint64, k: ClientConnectionMock, s: ConnectionChannel, c: ConnectionChannel)
    requires Grown(h, h', d, k, s, c)
    ensures h'.clientIds == h.clientIds[d := k] && WiresOf(r, h') == WiresOf(r, h) + {k, s, c}
  {
  }

  lemma NothingReceived(device: DeviceMock)
    requires device.Contents() == Device([], 0, [])
    ensures device.messages == []
  {
  }

  // Hub a is h with the request of the new client k to come to server v.
  ghost predicate Pending<C, K, V>(h: Hub<C, K, V>, a: Hub<C, K, V>, v: V, j: uint64, k: K, d: uint64) {
    && k !in h.clients && d != 0 && d !in h.clientIds && a == Asked(h, k, d, j)
    && a.net.tasks == [ConnectToServerTask(d, j)] && CanConnect(a, k, d, v, j)
    && a.net.chans == h.net.chans && a.clients.Keys == h.clients.Keys + {k} && a.servers == h.servers
  }

  lemma WhilePending<C, K, V>(h: Hub<C, K, V>, a: Hub<C, K, V>, v: V, j: uint64, k: K, d: uint64)
    requires Pending(h, a, v, j, k, d)
    ensures a.net.tasks == [ConnectToServerTask(d, j)] && CanConnect(a, k, d, v, j)
    ensures a.net.chans == h.net.chans && a.clients.Keys == h.clients.Keys + {k} && a.servers == h.servers
  {
    hide Asked, CanConnect;
  }

  lemma JoinedStanding<C, K, V>(h: Hub<C, K, V>, a: Hub<C, K, V>, v: V, j: uint64, w: Wiring<C, K>, r: Request<C, K>)
    requires HubInv(h) && Standing(h, v, j, w) && Pending(h, a, v, j, r.client, r.id)
    requires r.serverSide !in h.net.chans && r.clientSide !in h.net.chans && r.serverSide != r.clientSide
    requires v in a.servers && a.net.tasks != []
    ensures var h' := ConnectedHub(a, r.client, r.id, v, j, r.serverSide, r.clientSide);
      Standing(h', v, j, Extended(w, r)) && Grown(h, h', r.id, r.client, r.serverSide, r.clientSide)
  {
    hide Standing, Asked, Extended, HubInvBut, Connectable;
    ServingNonZero(h, v, j, w);
    OneMoreStanding(h, v, j, w, r);
    AskedShape(h, r.client, r.id, j);
  }

  // ----- devices by their clients -----

  // The clients of the devices are those bound to their ids.
  ghost predicate Owned(devices: map<uint64, DeviceMock>, ids: map<uint64, ClientConnectionMock>) {
    devices.Keys == ids.Keys && forall d :: d in devices ==> devices[d].clientConnection == ids[d]
  }

  ghost predicate OwnClients(devices: map<uint64, DeviceMock>) {
    forall d, e :: d in devices && e in devices && d != e ==> devices[d].clientConnection != devices[e].clientConnection
  }

  function ByClient<T>(devices: map<uint64, DeviceMock>, t: map<uint64, T>): (r: map<ClientConnectionMock, T>)
    requires t.Keys == devices.Keys && OwnClients(devices)
  {
    map d | d in devices :: devices[d].clientConnection := t[d]
  }

  lemma OwnersDiffer<K>(devices: map<uint64, DeviceMock>, ids: map<uint64, ClientConnectionMock>,
                        w: Wiring<K, ClientConnectionMock>)
    requires Owned(devices, ids) && BoundAs(ids, w)
    ensures OwnClients(devices)
    ensures forall d :: d in devices ==> devices[d].clientConnection in w.id && w.id[devices[d].clientConnection] == d
  {
  }

  lemma KeysByClient<K, T>(devices: map<uint64, DeviceMock>, t: map<uint64, T>, ids: map<uint64, ClientConnectionMock>,
                           w: Wiring<K, ClientConnectionMock>)
    requires Owned(devices, ids) && BoundAs(ids, w) && OwnClients(devices) && t.Keys == devices.Keys
    ensures ByClient(devices, t).Keys == w.id.Keys
    ensures forall d :: d in devices ==>
              devices[d].clientConnection in ByClient(devices, t) && ByClient(devices, t)[devices[d].clientConnection] == t[d]
  {
    forall k | k in w.id ensures k in ByClient(devices, t) {
      assert w.id[k] in devices && devices[w.id[k]].clientConnection == k;
    }
  }

  ghost function ClientsOf(devices: map<uint64, DeviceMock>, order: seq<uint64>): seq<ClientConnectionMock>
    requires forall i :: 0 <= i < |order| ==> order[i] in devices
  {
    seq(|order|, i requires 0 <= i < |order| => devices[order[i]].clientConnection)
  }

  lemma ClientsListed<T>(devices: map<uint64, DeviceMock>, t: map<uint64, T>, order: seq<uint64>)
    requires Lists(order, devices.Keys) && OwnClients(devices) && t.Keys == devices.Keys
    ensures Lists(ClientsOf(devices, order), ByClient(devices, t).Keys)
  {
    var clients := ClientsOf(devices, order);
    forall i, j | 0 <= i < j < |clients| ensures clients[i] != clients[j] {
      assert order[i] != order[j];
    }
    forall i | 0 <= i < |clients| ensures clients[i] in ByClient(devices, t) {
      assert order[i] in devices;
    }
    forall k | k in ByClient(devices, t) ensures k in clients {
      var d :| d in devices && devices[d].clientConnection == k;
      var i :| 0 <= i < |order| && order[i] == d;
      assert clients[i] == k;
    }
  }

  lemma {:induction false} SameWork(devices: map<uint64, DeviceMock>, meterages: map<uint64, Meterages>, order: seq<uint64>)
    requires OwnClients(devices) && meterages.Keys == devices.Keys
    requires forall i :: 0 <= i < |order| ==> order[i] in devices
    ensures forall i :: 0 <= i < |order| ==> ClientsOf(devices, order)[i] in ByClient(devices, meterages)
    ensures Work(ByClient(devices, meterages), ClientsOf(devices, order)) == Work(meterages, order)
    decreases |order|
  {
    if order != [] {
      assert ClientsOf(devices, order)[1..] == ClientsOf(devices, order[1..]);
      SameWork(devices, meterages, order[1..]);
    }
  }

  lemma {:induction false} Enumeration<K>(keys: set<K>) returns (order: seq<K>)
    ensures Lists(order, keys)
    decreases keys
  {
    order := [];
    if keys != {} {
      var k :| k in keys;
      var rest := Enumeration(keys - {k});
      order := [k] + rest;
    }
  }

  // Every device has got the replies due by the calls h before the run.
  ghost predicate Received(before: map<uint64, seq<Message>>, after: map<uint64, seq<Message>>, h: History,
                           meterages: map<uint64, Meterages>) {
    && before.Keys == after.Keys == meterages.Keys
    && forall d :: d in meterages ==> after[d] == before[d] + Expected(h, d, meterages[d])
  }

  // The calls to the command center during a run are the meterages of each device in their order.
  ghost predicate Reported(h: History, h': History, meterages: map<uint64, Meterages>) {
    forall d :: d in meterages ==>
      && OwnCalls(h', d) == OwnCalls(h, d) + Measurements(d, meterages[d], |meterages[d]|)
      && Stats(h', d) == Stats(h + Measurements(d, meterages[d], |meterages[d]|), d)
  }

  // ----- the fixture -----

  ghost predicate ServerReady(r: Registries, executor: string, server: DeviceMonitoringServer)
    reads server.commandCenter, server.encoder
  {
    && server.connectionServer.registries == r && server.commandCenter.Valid()
    && server.encoder.Valid() && SameCodec(CodecOf(server.encoder), Named(executor))
  }

  // The devices are those of the bound clients, with the executor of the server.
  ghost predicate DevicesReady(r: Registries, executor: string, ids: map<uint64, ClientConnectionMock>,
                               devices: map<uint64, DeviceMock>, encoders: set<MessageEncoder>)
    reads encoders
  {
    && devices.Keys == ids.Keys
    && forall d :: d in devices ==> devices[d].encoder in encoders && DeviceFits(r, Named(executor), ids[d], devices[d])
  }

  lemma OneMoreReady(r: Registries, executor: string, ids: map<uint64, ClientConnectionMock>,
                     devices: map<uint64, DeviceMock>, encoders: set<MessageEncoder>, d: uint64, device: DeviceMock)
    requires DevicesReady(r, executor, ids, devices, encoders)
    requires DeviceFits(r, Named(executor), device.clientConnection, device)
    ensures DevicesReady(r, executor, ids[d := device.clientConnection], devices[d := device], encoders + {device.encoder})
  {
    hide DeviceFits;
  }

  ghost predicate AllFitFor(r: Registries, codec: Codec, devices: map<ClientConnectionMock, DeviceMock>,
                            clients: set<ClientConnectionMock>)
    reads set k | k in devices :: devices[k].encoder
  {
    devices.Keys == clients && forall k :: k in devices ==> DeviceFits(r, codec, k, devices[k])
  }

  lemma FitDevices<K>(r: Registries, executor: string, server: DeviceMonitoringServer,
                      ids: map<uint64, ClientConnectionMock>, devices: map<uint64, DeviceMock>,
                      encoders: set<MessageEncoder>, w: Wiring<K, ClientConnectionMock>)
    requires ServerReady(r, executor, server) && DevicesReady(r, executor, ids, devices, encoders) && BoundAs(ids, w)
    ensures Owned(devices, ids) && OwnClients(devices)
    ensures AllFitFor(r, CodecOf(server.encoder), ByClient(devices, devices), w.id.Keys)
    ensures EncodersIn(devices, encoders) && SameCodec(CodecOf(server.encoder), Named(executor))
  {
    hide MessageEncoder.Valid, CommandCenter.Valid, CodecOf;
    OwnersDiffer(devices, ids, w);
    KeysByClient(devices, devices, ids, w);
  }

  lemma ReadyAgain(r: Registries, executor: string, codec: Codec, ids: map<uint64, ClientConnectionMock>,
                   devices: map<uint64, DeviceMock>, encoders: set<MessageEncoder>, clients: set<ClientConnectionMock>)
    requires Owned(devices, ids) && OwnClients(devices) && EncodersIn(devices, encoders)
    requires AllFitFor(r, codec, ByClient(devices, devices), clients) && SameCodec(codec, Named(executor))
    ensures DevicesReady(r, executor, ids, devices, encoders)
  {
    hide MessageEncoder.Valid, CodecOf;
    forall d | d in devices ensures DeviceFits(r, Named(executor), ids[d], devices[d]) {
      ByClientAt(devices, devices, d);
    }
  }

  ghost predicate EncodersIn(devices: map<uint64, DeviceMock>, encoders: set<MessageEncoder>) {
    forall d :: d in devices ==> devices[d].encoder in encoders
  }

  lemma ByClientAt<T>(devices: map<uint64, DeviceMock>, t: map<uint64, T>, d: uint64)
    requires t.Keys == devices.Keys && OwnClients(devices) && d in devices
    ensures devices[d].clientConnection in ByClient(devices, t) && ByClient(devices, t)[devices[d].clientConnection] == t[d]
  {
  }

  lemma ValuesByClient(devices: map<uint64, DeviceMock>)
    requires OwnClients(devices)
    ensures ByClient(devices, devices).Values == devices.Values
  {
    forall x | x in devices.Values ensures x in ByClient(devices, devices).Values {
      var d :| d in devices && devices[d] == x;
      ByClientAt(devices, devices, d);
    }
  }

  lemma StandingWired<C, K, V>(h: Hub<C, K, V>, v: V, j: uint64, w: Wiring<C, K>, devices: map<K, Device>, history: History)
    requires Standing(h, v, j, w) && devices.Keys == w.id.Keys
    ensures Wired(Sys(h, v, devices, history), w) && h.net.tasks == []
  {
    hide WiredTo, BoundAs;
  }

  lemma StandingAgain<C, K, V>(s: Sys<C, K, V>, s': Sys<C, K, V>, j: uint64, w: Wiring<C, K>)
    requires Standing(s.hub, s.server, j, w) && SameObjects(s, s') && Wired(s', w) && s'.hub.net.tasks == []
    ensures Standing(s'.hub, s.server, j, w)
  {
    hide WiredTo, BoundAs;
  }

  // The devices of a system have received what the inboxes say.
  ghost predicate Shows(d: map<ClientConnectionMock, Device>, devices: map<uint64, DeviceMock>,
                        inboxes: map<uint64, seq<Message>>) {
    && inboxes.Keys == devices.Keys
    && forall i :: i in devices ==> devices[i].clientConnection in d && d[devices[i].clientConnection].messages == inboxes[i]
  }

  lemma RunOutcome<C, V>(s: Sys<C, ClientConnectionMock, V>, s': Sys<C, ClientConnectionMock, V>,
                         w: Wiring<C, ClientConnectionMock>, ids: map<uint64, ClientConnectionMock>,
                         devices: map<uint64, DeviceMock>, meterages: map<uint64, Meterages>,
                         before: map<uint64, seq<Message>>, after: map<uint64, seq<Message>>)
    requires Owned(devices, ids) && OwnClients(devices) && BoundAs(ids, w) && meterages.Keys == devices.Keys
    requires forall k :: k in ByClient(devices, meterages) ==> HasItsAnswers(s, s', w, ByClient(devices, meterages), k)
    requires Shows(s.devices, devices, before) && Shows(s'.devices, devices, after)
    ensures Received(before, after, s.history, meterages) && Reported(s.history, s'.history, meterages)
  {
    hide Expected, OwnCalls, Stats, Measurements, ByClient;
    OwnersDiffer(devices, ids, w);
    forall d | d in meterages
      ensures after[d] == before[d] + Expected(s.history, d, meterages[d])
      ensures OwnCalls(s'.history, d) == OwnCalls(s.history, d) + Measurements(d, meterages[d], |meterages[d]|)
      ensures Stats(s'.history, d) == Stats(s.history + Measurements(d, meterages[d], |meterages[d]|), d)
    {
      ByClientAt(devices, meterages, d);
      assert HasItsAnswers(s, s', w, ByClient(devices, meterages), devices[d].clientConnection);
    }
  }

  lemma WiredClients<C, K, V>(h: Hub<C, K, V>, v: V, w: Wiring<C, K>)
    requires AllWired(h, v, w)
    ensures w.id.Keys <= h.clients.Keys
  {
  }

  class MonitoringServerTest {
    const serverId: uint64
    const registries: Registries
    const server: DeviceMonitoringServer
    const executor: string
    var devices: map<uint64, DeviceMock>

    ghost var wiring: Wiring<ConnectionChannel, ClientConnectionMock>
    ghost var encoders: set<MessageEncoder>

    ghost predicate Valid()
      reads this, registries, registries.taskQueue, registries.taskQueue.net.chans.Keys
      reads registries.hub.clients.Keys, registries.hub.servers.Keys
      reads server.commandCenter, server.encoder, encoders
    {
      && registries.Valid() && ServerReady(registries, executor, server)
      && DevicesReady(registries, executor, registries.hub.clientIds, devices, encoders)
      && Standing(registries.hub, server.connectionServer, serverId, wiring)
    }

    ghost function Wires(): set<object>
      reads registries
    {
      WiresOf(registries, registries.hub)
    }

    // All the objects that change in a run.
    ghost function Footprint(): set<object>
      reads this, registries
    {
      {server.commandCenter} + Wires() + devices.Values
    }

    constructor (serverId: uint64, executor: string)
      requires serverId != 0
      ensures Valid() && fresh(Footprint()) && this.serverId == serverId && this.executor == executor
      ensures devices == map[] && server.commandCenter.history == []
    {
      hide Registries.Valid, CommandCenter.Valid, MessageEncoder.Valid, CodecOf, SameCodec, Standing, WiresOf;
      var r, s := NewServerOn(serverId, executor);
      this.serverId := serverId;
      this.executor := executor;
      registries := r;
      server := s;
      devices := map[];
      wiring := Wiring(map[], map[], map[]);
      encoders := {};
      new;
    }

    static method NewServerOn(serverId: uint64, executor: string) returns (r: Registries, s: DeviceMonitoringServer)
      requires serverId != 0
      ensures r.Valid() && fresh(r) && fresh(r.taskQueue) && fresh(s) && fresh(s.commandCenter) && fresh(s.encoder)
      ensures fresh(s.connectionServer) && s.connectionServer.registries == r
      ensures s.commandCenter.Valid() && s.commandCenter.history == []
      ensures s.encoder.Valid() && SameCodec(CodecOf(s.encoder), Named(executor))
      ensures fresh(WiresOf(r, r.hub)) && r.taskQueue.net == Net(map[], [])
      ensures r.hub.clients == map[] && r.hub.clientIds == map[]
      ensures r.hub.servers.Keys == {s.connectionServer}
      ensures Standing(r.hub, s.connectionServer, serverId, Wiring(map[], map[], map[]))
    {
      hide Registries.Valid, CommandCenter.Valid, MessageEncoder.Valid, Defaults, CodecOf, SameCodec, Standing;
      hide Connections.Listen;
      var q := new TaskQueue();
      r := new Registries(q);
      var connectionServer := new ConnectionServerMock(r);
      s := new DeviceMonitoringServer(connectionServer);
      Equip(s.encoder, executor);
      var _ := s.Listen(serverId);
      BooksOf(r);
      StandingAlone(connectionServer, serverId, r.hub);
    }

    method SetDeviceWorkSchedule(deviceId: uint64, schedule: seq<Phase>)
      requires Valid()
      modifies server.commandCenter
      ensures Valid() && deviceId in server.commandCenter.scheduleInfo
      ensures server.commandCenter.history == old(server.commandCenter.history) +
              [Planned(deviceId, schedule, server.commandCenter.scheduleInfo[deviceId].phases)]
    {
      hide HubInvBut, CommandCenter.Valid, MessageEncoder.Valid, CodecOf, SameCodec, Standing;
      server.SetDeviceWorkSchedule(deviceId, schedule);
    }

    // A new device with a new client connection and the executor of the server.
    method NewDevice() returns (device: DeviceMock)
      requires registries.Valid()
      modifies registries`hub
      ensures registries.Valid() && fresh(device) && fresh(device.clientConnection) && fresh(device.encoder)
      ensures device.Contents() == Device([], 0, [])
      ensures DeviceFits(registries, Named(executor), device.clientConnection, device)
      ensures device.clientConnection !in old(registries.hub.clients)
      ensures registries.hub == NewClient(old(registries.hub), device.clientConnection)
    {
      hide HubInvBut, TaskQueue.Valid, ClientsMatch, ServersMatch;
      hide MessageEncoder.Valid, Defaults, CodecOf, SameCodec;
      var client := new ClientConnectionMock(registries);
      device := new DeviceMock(client);
      Equip(device.encoder, executor);
    }

    // The device binds and asks for a connection; ok says that neither was refused.
    method Ask(device: DeviceMock, deviceId: uint64) returns (ok: bool)
      requires registries.Valid() && device.clientConnection.registries == registries
      requires device.clientConnection in registries.hub.clients
      requires registries.hub.clients[device.clientConnection] == Client(0, None)
      requires deviceId != 0 && deviceId !in registries.hub.clientIds && serverId != 0
      modifies registries`hub, registries`clientsMap, registries.taskQueue, device.clientConnection`clientId
      ensures registries.Valid() && ok
      ensures device.clientConnection in old(Connections.Bind(registries.hub, device.clientConnection, deviceId).clients)
      ensures registries.hub ==
              Connections.ConnectToHost(old(Connections.Bind(registries.hub, device.clientConnection, deviceId)),
                                        device.clientConnection, serverId)
    {
      hide Registries.Valid, Connections.Bind, Connections.ConnectToHost;
      BindingShape(registries.hub, device.clientConnection, deviceId);
      RowOf(device.clientConnection);
      ok := device.Bind(deviceId);
      RowOf(device.clientConnection);
      var asked := device.ConnectToServer(serverId);
      ok := ok && asked;
    }

    // A new device, bound, that has asked for a connection.
    method AskingDevice(deviceId: uint64) returns (device: DeviceMock, ok: bool)
      requires registries.Valid() && deviceId != 0 && deviceId !in registries.hub.clientIds && serverId != 0
      modifies registries`hub, registries`clientsMap, registries.taskQueue
      ensures registries.Valid() && ok && fresh(device) && fresh(device.clientConnection) && fresh(device.encoder)
      ensures device.Contents() == Device([], 0, [])
      ensures DeviceFits(registries, Named(executor), device.clientConnection, device)
      ensures device.clientConnection !in old(registries.hub.clients)
      ensures registries.hub == Asked(old(registries.hub), device.clientConnection, deviceId, serverId)
    {
      hide Registries.Valid, MessageEncoder.Valid, CodecOf, SameCodec, Asked;
      ghost var h := registries.hub;
      device := NewDevice();
      AskingShape(h, device.clientConnection, deviceId, serverId);
      ok := Ask(device, deviceId);
    }

    // With the request in the queue and everything in place for it.
    method PendingDevice(deviceId: uint64) returns (device: DeviceMock, ok: bool)
      requires registries.Valid() && Standing(registries.hub, server.connectionServer, serverId, wiring)
      requires deviceId != 0 && deviceId !in registries.hub.clientIds
      modifies registries`hub, registries`clientsMap, registries.taskQueue
      ensures registries.Valid() && ok && fresh(device) && fresh(device.clientConnection) && fresh(device.encoder)
      ensures device.Contents() == Device([], 0, [])
      ensures DeviceFits(registries, Named(executor), device.clientConnection, device)
      ensures Pending(old(registries.hub), registries.hub, server.connectionServer, serverId, device.clientConnection, deviceId)
      ensures registries.taskQueue.net == registries.hub.net
    {
      hide Registries.Valid, DeviceFits, Standing, CanConnect, HubInvBut, Asked;
      ghost var h, v := registries.hub, server.connectionServer;
      BooksOf(registries);
      ServingNonZero(h, v, serverId, wiring);
      device, ok := AskingDevice(deviceId);
      BooksOf(registries);
      AskedCanConnect(h, v, serverId, wiring, device.clientConnection, deviceId);
    }

    // The part of connectDevice that is about the registries.
    method JoinDevice(deviceId: uint64)
      returns (device: DeviceMock, ok: bool, ghost s: ConnectionChannel, ghost c: ConnectionChannel)
      requires registries.Valid() && Standing(registries.hub, server.connectionServer, serverId, wiring)
      requires deviceId != 0 && deviceId !in registries.hub.clientIds && registries.taskQueue.net == registries.hub.net
      modifies registries`hub, registries`handlers, registries`clientsMap
      modifies registries.taskQueue, registries.taskQueue.net.chans.Keys
      modifies registries.hub.clients.Keys`channel, registries.hub.servers.Keys`connections
      ensures registries.Valid() && ok && fresh(device) && fresh(device.clientConnection) && fresh(s) && fresh(c)
      ensures device.Contents() == Device([], 0, [])
      ensures fresh(device.encoder) && DeviceFits(registries, Named(executor), device.clientConnection, device)
      ensures Standing(registries.hub, server.connectionServer, serverId,
                       Extended(wiring, Request(device.clientConnection, deviceId, s, c)))
      ensures Grown(old(registries.hub), registries.hub, deviceId, device.clientConnection, s, c)
    {
      hide Registries.Valid, DeviceFits, Standing, CanConnect, HubInvBut, ConnectedHub, Extended, Grown, Pending;
      ghost var h, v := registries.hub, server.connectionServer;
      BooksOf(registries);
      device, ok := PendingDevice(deviceId);
      ghost var k, a := device.clientConnection, registries.hub;
      WhilePending(h, a, v, serverId, k, deviceId);
      s, c := DrainRequest(registries, k, deviceId, v, serverId);
      JoinedStanding(h, a, v, serverId, wiring, Request(k, deviceId, s, c));
    }

    // connectDevice; ok says that nothing the test program asserts was refused.
    method ConnectDevice(deviceId: uint64) returns (device: DeviceMock, ok: bool)
      requires Valid() && deviceId != 0 && deviceId !in devices
      modifies this, Wires()
      ensures ok && devices == old(devices)[deviceId := device] && fresh(device) && device.Contents() == Device([], 0, [])
      ensures forall o :: o in Wires() && o !in old(Wires()) ==> fresh(o)
      ensures Valid()
    {
      hide Valid, Registries.Valid, ServerReady, DevicesReady, DeviceFits, Standing, Extended, Grown, WiresOf;
      ReadyDevices();
      OneQueue();
      InWires(registries, registries.hub);
      ghost var h := registries.hub;
      ghost var s, c;
      device, ok, s, c := JoinDevice(deviceId);
      GrownIds(registries, h, registries.hub, deviceId, device.clientConnection, s, c);
      Insert(deviceId, device, h.clientIds, s, c);
    }

    method Insert(deviceId: uint64, device: DeviceMock, ghost ids: map<uint64, ClientConnectionMock>,
                  ghost s: ConnectionChannel, ghost c: ConnectionChannel)
      requires registries.Valid() && ServerReady(registries, executor, server)
      requires DevicesReady(registries, executor, ids, devices, encoders)
      requires DeviceFits(registries, Named(executor), device.clientConnection, device)
      requires registries.hub.clientIds == ids[deviceId := device.clientConnection]
      requires Standing(registries.hub, server.connectionServer, serverId,
                        Extended(wiring, Request(device.clientConnection, deviceId, s, c)))
      modifies `devices, `wiring, `encoders
      ensures Valid() && devices == old(devices)[deviceId := device]
    {
      hide HubInvBut, TaskQueue.Valid, ClientsMatch, ServersMatch, ServerReady, DevicesReady, DeviceFits, Standing, Extended;
      OneMoreReady(registries, executor, ids, devices, encoders, deviceId, device);
      devices := devices[deviceId := device];
      wiring := Extended(wiring, Request(device.clientConnection, deviceId, s, c));
      encoders := encoders + {device.encoder};
    }

    lemma ReadyDevices()
      requires Valid()
      ensures devices.Keys == registries.hub.clientIds.Keys
      ensures ServerReady(registries, executor, server)
      ensures DevicesReady(registries, executor, registries.hub.clientIds, devices, encoders)
      ensures registries.Valid() && Standing(registries.hub, server.connectionServer, serverId, wiring)
    {
      hide Registries.Valid, Standing;
    }

    // What each device has received.
    ghost function Inboxes(): map<uint64, seq<Message>>
      reads this, devices.Values
    {
      map d | d in devices :: devices[d].messages
    }

    lemma FitForRun()
      requires Valid()
      ensures OwnClients(devices) && Owned(devices, registries.hub.clientIds)
      ensures BoundAs(registries.hub.clientIds, wiring) && AllWired(registries.hub, server.connectionServer, wiring)
      ensures wiring.id.Keys <= registries.hub.clients.Keys && server.connectionServer in registries.hub.servers
      ensures AllFitFor(registries, CodecOf(server.encoder), ByClient(devices, devices), wiring.id.Keys)
      ensures EncodersIn(devices, encoders) && SameCodec(CodecOf(server.encoder), Named(executor))
    {
      hide Registries.Valid, ServerReady, DevicesReady, AllFitFor, WiredTo;
      FitDevices(registries, executor, server, registries.hub.clientIds, devices, encoders, wiring);
      WiredClients(registries.hub, server.connectionServer, wiring);
    }

    // sim has the objects of this fixture.
    ghost predicate Matches(sim: Simulation)
      reads this
    {
      && sim.registries == registries && sim.server == server
      && OwnClients(devices) && sim.devices == ByClient(devices, devices)
    }

    method NewSimulation() returns (sim: Simulation)
      requires Valid()
      ensures Matches(sim) && sim.Valid() && Valid()
    {
      hide Registries.Valid, CommandCenter.Valid, MessageEncoder.Valid, SameCodec, CodecOf, Standing, DevicesReady, ByClient;
      FitForRun();
      sim := new Simulation(registries, server, ByClient(devices, devices));
    }

    lemma Starting(sim: Simulation)
      requires Valid() && Matches(sim)
      ensures Wired(sim.State(), wiring) && sim.State().hub.net.tasks == []
      ensures Faithful(sim.InUse()) && SameCodec(sim.InUse(), Named(executor))
      ensures sim.State().hub == registries.hub && sim.State().history == server.commandCenter.history
      ensures sim.State().server == server.connectionServer && sim.State().devices.Keys == wiring.id.Keys
      ensures Standing(registries.hub, server.connectionServer, serverId, wiring)
    {
      hide Registries.Valid, ServerReady, DevicesReady, Standing, Wired, Faithful, SameCodec, ByClient, ContentsOf;
      FitForRun();
      NamedFaithful(executor);
      FaithfulLike(CodecOf(server.encoder), Named(executor));
      DevicesListed(sim.devices);
      StandingWired(registries.hub, server.connectionServer, serverId, wiring, ContentsOf(sim.devices), sim.State().history);
    }

    lemma SameFootprint(sim: Simulation)
      requires Matches(sim) && sim.Valid()
      ensures sim.Footprint() == Footprint() && this !in Footprint()
    {
      hide Simulation.Valid, ByClient, OwnClients;
      sim.OneNetwork();
      ValuesByClient(devices);
      OwnFootprint();
    }

    lemma OwnFootprint()
      ensures this !in Footprint() && server.commandCenter in Footprint()
    {
    }

    lemma Showing(sim: Simulation)
      requires Matches(sim)
      ensures Shows(sim.State().devices, devices, Inboxes()) && sim.State().history == server.commandCenter.history
    {
      hide ByClient;
      forall d | d in devices
        ensures devices[d].clientConnection in sim.devices && sim.devices[devices[d].clientConnection] == devices[d]
      {
        ByClientAt(devices, devices, d);
      }
    }

    lemma Ending(sim: Simulation, s: Sys<ConnectionChannel, ClientConnectionMock, ConnectionServerMock>)
      requires Matches(sim) && sim.Valid() && SameCodec(sim.InUse(), Named(executor))
      requires SameObjects(s, sim.State()) && Wired(sim.State(), wiring) && sim.State().hub.net.tasks == []
      requires Standing(s.hub, s.server, serverId, wiring) && Owned(devices, s.hub.clientIds) && EncodersIn(devices, encoders)
      ensures Valid()
    {
      hide Registries.Valid, CommandCenter.Valid, MessageEncoder.Valid, SameCodec, CodecOf, Standing, Wired, ByClient;
      hide ContentsOf, DeviceFits, DevicesReady;
      StandingAgain(s, sim.State(), serverId, wiring);
      ReadyAgain(registries, executor, sim.InUse(), registries.hub.clientIds, devices, encoders, sim.devices.Keys);
    }

    // Every device sets its meterages and starts, in any order and with any number of tasks processed
    // between two starts; then the queue is worked off.
    method Run(meterages: map<uint64, Meterages>, pauses: map<uint64, nat>) returns (processed: nat, ghost order: seq<uint64>)
      requires Valid() && meterages.Keys == pauses.Keys == devices.Keys
      modifies Footprint()
      ensures Lists(order, meterages.Keys) && processed == Work(meterages, order)
      ensures Received(old(Inboxes()), Inboxes(), old(server.commandCenter.history), meterages)
      ensures Reported(old(server.commandCenter.history), server.commandCenter.history, meterages)
      ensures Footprint() == old(Footprint()) && Valid()
    {
      hide Valid, Simulation.Valid, Simulation.State, Simulation.InUse, Simulation.Footprint, Footprint, Inboxes;
      hide Wired, HasItsAnswers, Lists, Work, Faithful, SameCodec, SameObjects, Standing, ByClient, Shows, AllFitFor, Owned;
      hide BoundAs, OwnClients, EncodersIn, AllWired;
      FitForRun();
      ghost var ids, before := registries.hub.clientIds, Inboxes();
      var sim := NewSimulation();
      Starting(sim);
      Showing(sim);
      SameFootprint(sim);
      ghost var s := sim.State();
      order := Enumeration(meterages.Keys);
      var ms, ps := ByClient(devices, meterages), ByClient(devices, pauses);
      KeysByClient(devices, meterages, ids, wiring);
      KeysByClient(devices, pauses, ids, wiring);
      ClientsListed(devices, meterages, order);
      SameWork(devices, meterages, order);
      processed := sim.Run(ms, ps, wiring, ClientsOf(devices, order));
      SameFootprint(sim);
      Showing(sim);
      RunOutcome(s, sim.State(), wiring, ids, devices, meterages, before, Inboxes());
      Ending(sim, s);
    }

    // Connects the devices of ids one after the other, in any order.
    method ConnectDevices(ids: set<uint64>)
      requires Valid() && devices == map[] && 0 !in ids
      modifies this, Wires()
      ensures devices.Keys == ids && forall d :: d in devices ==> fresh(devices[d]) && devices[d].messages == []
      ensures forall o :: o in Wires() && o !in old(Wires()) ==> fresh(o)
      ensures Valid()
    {
      hide Valid, Wires, DeviceMock.Contents;
      var todo := ids;
      while todo != {}
        invariant Valid() && forall o :: o in Wires() && o !in old(Wires()) ==> fresh(o)
        invariant todo <= ids && devices.Keys == ids - todo
        invariant forall d :: d in devices ==> fresh(devices[d]) && devices[d].messages == []
        decreases todo
      {
        var d :| d in todo;
        NoWire();
        var device, ok := ConnectDevice(d);
        NothingReceived(device);
        todo := todo - {d};
      }
    }

    lemma NoWire()
      ensures server.commandCenter !in Wires() && forall d :: d in devices ==> devices[d] !in Wires()
    {
    }

    lemma OneQueue()
      requires Valid()
      ensures registries.taskQueue.net == registries.hub.net && server.commandCenter.Valid()
      ensures WellFormed(server.commandCenter.history)
    {
      BooksOf(registries);
      hide Registries.Valid, Standing, DevicesReady;
    }

    // Sets the plans one after the other.
    method SetDeviceWorkSchedules(plans: seq<(uint64, seq<Phase>)>)
      requires Valid() && server.commandCenter.history == []
      modifies server.commandCenter
      ensures Valid() && PlanCalls(server.commandCenter.history, plans)
    {
      hide Valid;
      for i := 0 to |plans|
        invariant Valid() && |server.commandCenter.history| == i
        invariant forall k :: 0 <= k < i ==>
                    && server.commandCenter.history[k].Planned?
                    && (server.commandCenter.history[k].device, server.commandCenter.history[k].submitted) == plans[k]
      {
        SetDeviceWorkSchedule(plans[i].0, plans[i].1);
      }
      OneQueue();
    }

    method AllDeviationStats() returns (stats: map<uint64, seq<DeviationStats>>)
      requires Valid()
      modifies server.commandCenter`statsInfo
      ensures Valid() && stats.Keys == devices.Keys
      ensures forall d :: d in stats ==> stats[d] == Stats(server.commandCenter.history, d)
    {
      hide Valid, Stats;
      stats := map[];
      var todo := devices.Keys;
      while todo != {}
        invariant Valid() && todo <= devices.Keys && stats.Keys == devices.Keys - todo
        invariant forall d :: d in stats ==> stats[d] == Stats(server.commandCenter.history, d)
        decreases todo
      {
        var d :| d in todo;
        var s := DeviationStatsOf(d);
        stats, todo := stats[d := s], todo - {d};
      }
    }

    method DeviationStatsOf(deviceId: uint64) returns (stats: seq<DeviationStats>)
      requires Valid()
      modifies server.commandCenter`statsInfo
      ensures Valid() && stats == Stats(server.commandCenter.history, deviceId)
    {
      hide HubInvBut, CommandCenter.Valid, MessageEncoder.Valid, CodecOf, SameCodec, Standing, Stats;
      stats := server.DeviationStats(deviceId);
    }
  }

  // The calls that set the plans, with any legal outcome of the sort for each.
  ghost predicate PlanCalls(h: History, plans: seq<(uint64, seq<Phase>)>) {
    && WellFormed(h) && |h| == |plans|
    && forall i :: 0 <= i < |plans| ==> h[i].Planned? && (h[i].device, h[i].submitted) == plans[i]
  }

  // A server with its plans and connected devices, made from nothing.
  method Prepare(serverId: uint64, executor: string, plans: seq<(uint64, seq<Phase>)>, ids: set<uint64>)
    returns (test: MonitoringServerTest)
    requires serverId != 0 && 0 !in ids
    ensures fresh(test) && test.devices.Keys == ids && forall o :: o in test.Footprint() ==> fresh(o)
    ensures test.Inboxes() == map d | d in ids :: []
    ensures PlanCalls(test.server.commandCenter.history, plans)
    ensures test.Valid()
  {
    hide MonitoringServerTest.Valid, WiresOf, PlanCalls;
    test := new MonitoringServerTest(serverId, executor);
    test.NoWire();
    test.ConnectDevices(ids);
    test.SetDeviceWorkSchedules(plans);
  }

  // The whole program from nothing to its results: a server and any number of devices are made and
  // connected, plans are set, the devices send their meterages. What a device gets and what the server
  // records of it depends on the plans and on its own meterages alone.
  method Monitor(serverId: uint64, executor: string, plans: seq<(uint64, seq<Phase>)>,
                 meterages: map<uint64, Meterages>, pauses: map<uint64, nat>)
    returns (messages: map<uint64, seq<Message>>, stats: map<uint64, seq<DeviationStats>>, processed: nat,
             ghost h: History, ghost order: seq<uint64>)
    requires serverId != 0 && 0 !in meterages && pauses.Keys == meterages.Keys
    ensures PlanCalls(h, plans) && messages.Keys == stats.Keys == meterages.Keys
    ensures forall d :: d in meterages ==> messages[d] == Expected(h, d, meterages[d])
    ensures forall d :: d in meterages ==> stats[d] == Stats(h + Measurements(d, meterages[d], |meterages[d]|), d)
    ensures Lists(order, meterages.Keys) && processed == Work(meterages, order)
  {
    hide MonitoringServerTest.Valid, MonitoringServerTest.Footprint;
    hide Stats, Expected, Measurements, Lists, Work, PlanCalls, Received, Reported;
    var test := Prepare(serverId, executor, plans, meterages.Keys);
    test.OwnFootprint();
    h := test.server.commandCenter.history;
    processed, order := test.Run(meterages, pauses);
    messages := map d | d in test.devices :: test.devices[d].messages;
    stats := test.AllDeviationStats();
    FirstResults(messages, stats, h, test.server.commandCenter.history, meterages);
  }

  // The results of a run of devices that had received nothing before.
  lemma FirstResults(messages: map<uint64, seq<Message>>, stats: map<uint64, seq<DeviationStats>>, h: History, h': History,
                     meterages: map<uint64, Meterages>)
    requires Received(map d | d in meterages.Keys :: [], messages, h, meterages) && Reported(h, h', meterages)
    requires stats.Keys == meterages.Keys && forall d :: d in stats ==> stats[d] == Stats(h', d)
    ensures forall d :: d in meterages ==> messages[d] == Expected(h, d, meterages[d])
    ensures forall d :: d in meterages ==> stats[d] == Stats(h + Measurements(d, meterages[d], |meterages[d]|), d)
  {
    hide Stats, Expected, Measurements;
  }
}
