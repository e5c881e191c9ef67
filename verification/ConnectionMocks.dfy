// The client and server mocks as objects; every method is the operation of Connections it names.
module ConnectionMocks {
  import opened CTypes
  import opened Network
  import opened Channels
  import opened Connections

  ghost predicate ClientsMatch(r: Registries, clients: map<ClientConnectionMock, Client<ConnectionChannel>>)
    reads clients.Keys
  {
    forall k :: k in clients ==> k.registries == r && k.Matches(clients[k])
  }

  ghost predicate ServersMatch(r: Registries, servers: map<ConnectionServerMock, Server<ConnectionChannel>>)
    reads servers.Keys
  {
    forall v :: v in servers ==> v.registries == r && v.Matches(servers[v])
  }

  // The static registries of the mocks and the queue they share, with the handlers set on channels.
  class Registries {
    const taskQueue: TaskQueue
    var clientsMap: map<uint64, ClientConnectionMock>
    var serversMap: map<uint64, ConnectionServerMock>
    var handlers: map<ConnectionChannel, Owner<ClientConnectionMock, ConnectionServerMock>>

    ghost var hub: Hub<ConnectionChannel, ClientConnectionMock, ConnectionServerMock>

    // The channels of x are being handed over.
    ghost predicate ValidBut(x: set<ConnectionChannel>)
      reads this, taskQueue, taskQueue.net.chans.Keys, hub.clients.Keys, hub.servers.Keys
    {
      && taskQueue.Valid() && HubInvBut(hub, x)
      && hub.net == taskQueue.net && hub.owner == handlers && hub.clientIds == clientsMap && hub.serverIds == serversMap
      && ClientsMatch(this, hub.clients) && ServersMatch(this, hub.servers)
    }

    ghost predicate Valid()
      reads this, taskQueue, taskQueue.net.chans.Keys, hub.clients.Keys, hub.servers.Keys
    {
      ValidBut({})
    }

    constructor (taskQueue: TaskQueue)
      requires taskQueue.Valid() && taskQueue.net == Net(map[], [])
      ensures Valid() && this.taskQueue == taskQueue
      ensures hub == Hub(taskQueue.net, map[], map[], map[], map[], map[])
    {
      this.taskQueue := taskQueue;
      clientsMap, serversMap, handlers := map[], map[], map[];
      hub := Hub(taskQueue.net, map[], map[], map[], map[], map[]);
    }

    ghost method Enter(client: ClientConnectionMock)
      requires Valid() && client !in hub.clients && client.registries == this && client.Matches(Client(0, None))
      modifies `hub
      ensures Valid() && hub == NewClient(old(hub), client)
    {
      hide ClientsMatch, ServersMatch, HubInvBut, TaskQueue.Valid;
      NewClientKeeps(hub, client);
      OneMoreClient(this, hub.clients, client, Client(0, None));
      hub := NewClient(hub, client);
    }

    ghost method EnterServer(server: ConnectionServerMock)
      requires Valid() && server !in hub.servers && server.registries == this && server.Matches(Server(0, map[]))
      modifies `hub
      ensures Valid() && hub == NewServer(old(hub), server)
    {
      hide ClientsMatch, ServersMatch, HubInvBut, TaskQueue.Valid;
      NewServerKeeps(hub, server);
      OneMoreServer(this, hub.servers, server, Server(0, map[]));
      hub := NewServer(hub, server);
    }

    // ConnectToServerTask; made are the two channels, server side first, if both ends are registered.
    method ConnectToServer(clientId: uint64, serverId: uint64) returns (ghost made: Option<(ConnectionChannel, ConnectionChannel)>)
      requires Valid()
      modifies `hub, `handlers, taskQueue, taskQueue.net.chans.Keys, hub.clients.Keys`channel, hub.servers.Keys`connections
      ensures Valid()
      ensures made.Some? <==> clientId in old(clientsMap) && serverId in old(serversMap)
      ensures made.None? ==> hub == old(hub)
      ensures made.Some? ==> fresh(made.value.0) && fresh(made.value.1) && made.value.0 != made.value.1
      ensures made.Some? ==> BothExist(old(hub), clientId, serverId)
      ensures made.Some? ==> hub == Establish(old(hub), clientId, serverId, made.value.0, made.value.1)
    {
      hide ClientsMatch, ServersMatch, HubInvBut, TaskQueue.Valid, Connections.SetChannel, Connections.AddChannel, Pair;
      made := None;
      if clientId in clientsMap && serverId in serversMap {
        var server, client := serversMap[serverId], clientsMap[clientId];
        BothRegistered(hub, clientId, serverId);
        ClientRegistries(this, hub.clients, client);
        ServerRegistries(this, hub.servers, server);
        var s, c := ConnectChannels(taskQueue, clientId, serverId);
        PairAddsUnheld(hub, s, c, clientId, serverId);
        hub := hub.(net := taskQueue.net);
        PairAlive(old(hub.net), s, c, clientId, serverId);
        HandOver(server, s, client, c);
        made := Some((s, c));
      }
    }

    // processTask. What is left to do after it is the reaction to a delivered message.
    method ProcessTask() returns (task: Option<Task<ConnectionChannel>>,
                                  ghost made: Option<(ConnectionChannel, ConnectionChannel)>)
      requires Valid()
      modifies `hub, `handlers, taskQueue, taskQueue.net.chans.Keys, hub.clients.Keys`channel, hub.servers.Keys`connections
      ensures Valid()
      ensures task == if old(taskQueue.tasks) == [] then None else Some(old(taskQueue.tasks)[0])
      ensures task.None? ==> hub == old(hub)
      ensures task.Some? ==> TaskDone(old(hub), task.value, hub, made)
      ensures made.Some? ==> fresh(made.value.0) && fresh(made.value.1) && made.value.0 != made.value.1
    {
      hide ValidBut, Process, Dispatched;
      made := None;
      task := TakeTask();
      if task.Some? {
        made := Dispatch(task.value);
      }
    }

    // The first task leaves the queue; a channel has seen its event.
    method TakeTask() returns (task: Option<Task<ConnectionChannel>>)
      requires Valid()
      modifies `hub, taskQueue, taskQueue.net.chans.Keys`refCounter
      ensures Valid() && old(taskQueue.tasks) == old(hub.net.tasks) && AllKnown(old(hub.net))
      ensures task == if old(hub.net.tasks) == [] then None else Some(old(hub.net.tasks)[0])
      ensures hub == if task.None? then old(hub) else old(hub).(net := Process(old(hub.net)))
      ensures old(taskQueue.net) == old(hub.net) && taskQueue.net == hub.net && hub.net.chans.Keys == old(hub.net.chans.Keys)
    {
      hide ClientsMatch, ServersMatch, HubInvBut, TaskQueue.Valid, Process, AllKnown;
      QueueMatches(taskQueue);
      task := taskQueue.ProcessTask();
      if task.Some? {
        ProcessedBooks(hub);
        hub := hub.(net := taskQueue.net);
      }
    }

    method Dispatch(task: Task<ConnectionChannel>) returns (ghost made: Option<(ConnectionChannel, ConnectionChannel)>)
      requires Valid() && (Target(task).Some? ==> Target(task).value in hub.net.chans)
      modifies `hub, `handlers, taskQueue, taskQueue.net.chans.Keys, hub.clients.Keys`channel, hub.servers.Keys`connections
      ensures Valid() && Dispatched(old(hub), task, hub, made)
      ensures made.Some? ==> fresh(made.value.0) && fresh(made.value.1) && made.value.0 != made.value.1
    {
      hide ClientsMatch, ServersMatch, HubInvBut, TaskQueue.Valid, Forget, Establish;
      made := None;
      match task {
        case SendMessageTask(_, _) =>
        case DisconnectTask(c) => DispatchDisconnected(c);
        case ConnectToServerTask(clientId, serverId) => made := ConnectToServer(clientId, serverId);
      }
    }

    // DisconnectTask: the handler of the channel, if the channel still exists.
    method DispatchDisconnected(c: ConnectionChannel)
      requires Valid() && c in taskQueue.net.chans
      modifies `hub, taskQueue, taskQueue.net.chans.Keys, hub.clients.Keys`channel, hub.servers.Keys`connections
      ensures Valid()
      ensures hub == if old(hub).net.chans[c].alive && c in old(hub).owner then Forget(old(hub), c) else old(hub)
    {
      hide ClientsMatch, ServersMatch, HubInvBut, TaskQueue.Valid, Forget;
      KnownChannel(taskQueue, c);
      if c.alive && c in handlers {
        HolderExists(hub, c);
        match handlers[c] {
          case ClientOwner(client) =>
            ClientRegistries(this, hub.clients, client);
            client.OnDisconnected(c);
          case ServerOwner(server) =>
            ServerRegistries(this, hub.servers, server);
            server.OnDisconnected(c.peerId, c);
        }
      }
    }

    // The ends of a new pair go to their owners.
    method HandOver(server: ConnectionServerMock, s: ConnectionChannel, client: ClientConnectionMock, c: ConnectionChannel)
      requires ValidBut({s, c}) && s != c && Alive(hub.net, s) && Alive(hub.net, c)
      requires server in hub.servers && server.registries == this && client in hub.clients && client.registries == this
      modifies `hub, `handlers, taskQueue, taskQueue.net.chans.Keys, client`channel, server`connections
      ensures Valid()
      ensures client in Connections.AddChannel(old(hub), server, s).clients
      ensures c in Connections.AddChannel(old(hub), server, s).net.chans
      ensures hub == Connections.SetChannel(Connections.AddChannel(old(hub), server, s), client, c)
    {
      hide ClientsMatch, ServersMatch, HubInvBut, TaskQueue.Valid, Connections.SetChannel;
      StillAlive(hub, server, s, c);
      hide Connections.AddChannel;
      var _ := server.AddChannel(s, {s, c});
      assert {s, c} - {s} == {c};
      var _ := client.SetChannel(c, {c});
      assert {c} - {c} == {};
    }

    // Deletes a channel that nobody has taken.
    method Discard(channel: ConnectionChannel, ghost x: set<ConnectionChannel>)
      requires ValidBut(x) && channel in x && Alive(hub.net, channel)
      modifies `hub, taskQueue, taskQueue.net.chans.Keys`connected, taskQueue.net.chans.Keys`refCounter, channel`alive
      ensures ValidBut(x - {channel}) && hub == old(hub).(net := Destroy(old(hub.net), channel))
    {
      hide ClientsMatch, ServersMatch, HubInvBut, Symmetric, Destroy, TaskQueue.Valid, ConnectionChannel.Known;
      DeleteUnheld(hub, channel, x);
      PairedBooks(hub, x);
      KnownChannel(taskQueue, channel);
      channel.Delete();
      hub := hub.(net := Destroy(hub.net, channel));
    }
  }

  class ClientConnectionMock {
    const registries: Registries
    var clientId: uint64
    var channel: ConnectionChannel?

    ghost predicate Matches(row: Client<ConnectionChannel>)
      reads this
    {
      row.id == clientId && row.channel == if channel == null then None else Some(channel)
    }

    ghost predicate Known()
      reads this, registries, registries.taskQueue, registries.taskQueue.net.chans.Keys
      reads registries.hub.clients.Keys, registries.hub.servers.Keys
    {
      registries.Valid() && this in registries.hub.clients
    }

    constructor (registries: Registries)
      requires registries.Valid()
      modifies registries`hub
      ensures registries.Valid() && this.registries == registries && fresh(this)
      ensures registries.hub == NewClient(old(registries.hub), this)
    {
      this.registries := registries;
      clientId := 0;
      channel := null;
      new;
      hide Registries.Valid;
      registries.Enter(this);
    }

    method Bind(clientId: uint64) returns (ok: bool)
      requires Known()
      modifies registries`hub, registries`clientsMap, `clientId
      ensures registries.Valid() && registries.hub == Connections.Bind(old(registries.hub), this, clientId)
      ensures ok <==> !(clientId in old(registries.clientsMap) || channel != null || clientId == 0)
    {
      hide ClientsMatch, ServersMatch, HubInvBut, TaskQueue.Valid;
      BindKeeps(registries.hub, this, clientId);
      MatchingClient();
      if clientId in registries.clientsMap || channel != null || clientId == 0 {
        return false;
      }
      registries.clientsMap := registries.clientsMap - {this.clientId};
      this.clientId := clientId;
      registries.clientsMap := registries.clientsMap[clientId := this];
      registries.hub := Connections.Bind(registries.hub, this, clientId);
      Changed(registries.hub.clients[this]);
      return true;
    }

    method ConnectToHost(serverId: uint64) returns (ok: bool)
      requires Known()
      modifies registries`hub, registries.taskQueue
      ensures registries.Valid() && registries.hub == Connections.ConnectToHost(old(registries.hub), this, serverId)
      ensures ok <==> clientId != 0 && serverId != 0
    {
      hide HubInvBut;
      RequestKeepsBooks(registries.hub, this, serverId);
      if clientId == 0 || serverId == 0 {
        return false;
      }
      registries.taskQueue.ScheduleTask(ConnectToServerTask(clientId, serverId));
      registries.hub := Connections.ConnectToHost(registries.hub, this, serverId);
      return true;
    }

    method SendMessage(message: Bytes)
      requires Known()
      modifies registries`hub, registries.taskQueue, registries.taskQueue.net.chans.Keys`refCounter
      ensures registries.Valid()
      ensures ClientUsable(old(registries.hub), this) && registries.hub == ClientSend(old(registries.hub), this, message)
    {
      hide ClientsMatch, ServersMatch, HubInvBut, Symmetric, Send, TaskQueue.Valid, ConnectionChannel.Known;
      ClientUseKeeps(registries.hub, this, message);
      ChannelOfClient(registries.hub, this, {});
      MatchingClient();
      if channel != null {
        KnownChannel(registries.taskQueue, channel);
      }
      if channel != null {
        channel.SendMessage(message);
      }
      registries.hub := ClientSend(registries.hub, this, message);
    }

    method Disconnect()
      requires Known()
      modifies registries`hub, registries.taskQueue
      modifies registries.taskQueue.net.chans.Keys`connected, registries.taskQueue.net.chans.Keys`refCounter
      ensures registries.Valid()
      ensures ClientUsable(old(registries.hub), this) && registries.hub == ClientDisconnect(old(registries.hub), this)
    {
      hide ClientsMatch, ServersMatch, HubInvBut, Symmetric, Close, TaskQueue.Valid, ConnectionChannel.Known;
      ClientUseKeeps(registries.hub, this, []);
      ChannelOfClient(registries.hub, this, {});
      MatchingClient();
      if channel != null {
        KnownChannel(registries.taskQueue, channel);
      }
      if channel != null {
        channel.Disconnect();
      }
      registries.hub := ClientDisconnect(registries.hub, this);
    }

    // This client has changed to row and no other client has changed.
    twostate lemma Changed(row: Client<ConnectionChannel>)
      requires old(ClientsMatch(registries, registries.hub.clients)) && this in old(registries.hub.clients) && Matches(row)
      requires forall k :: k in old(registries.hub.clients) && k != this ==>
                 k.clientId == old(k.clientId) && k.channel == old(k.channel)
      ensures ClientsMatch(registries, old(registries.hub.clients)[this := row])
    {
    }

    lemma MatchingClient()
      requires ClientsMatch(registries, registries.hub.clients) && this in registries.hub.clients
      ensures Matches(registries.hub.clients[this])
    {
    }

    // A client has one channel; a second one is deleted. connects says whether the connected handler runs.
    method SetChannel(channel: ConnectionChannel, ghost x: set<ConnectionChannel>) returns (connects: bool)
      requires registries.ValidBut(x) && this in registries.hub.clients && channel in x && Alive(registries.hub.net, channel)
      modifies registries`hub, registries`handlers, registries.taskQueue, `channel, channel`alive
      modifies registries.taskQueue.net.chans.Keys`connected, registries.taskQueue.net.chans.Keys`refCounter
      ensures registries.ValidBut(x - {channel})
      ensures registries.hub == Connections.SetChannel(old(registries.hub), this, channel)
      ensures connects <==> old(this.channel) == null
    {
      hide ClientsMatch, ServersMatch, HubInvBut, Destroy, TaskQueue.Valid;
      MatchingClient();
      if this.channel != null {
        registries.Discard(channel, x);
        return false;
      }
      SetChannelKeeps(registries.hub, this, channel, x);
      this.channel := channel;
      registries.handlers := registries.handlers[channel := ClientOwner(this)];
      Changed(Client(clientId, Some(channel)));
      registries.hub := Connections.SetChannel(registries.hub, this, channel);
      return true;
    }

    // The handler of the disconnected channel c.
    method OnDisconnected(ghost c: ConnectionChannel)
      requires Known() && Alive(registries.hub.net, c) && c in registries.handlers && registries.handlers[c] == ClientOwner(this)
      modifies registries`hub, registries.taskQueue, `channel, registries.taskQueue.net.chans.Keys
      ensures registries.Valid() && registries.hub == Forget(old(registries.hub), c)
    {
      hide ClientsMatch, ServersMatch, HubInvBut, Symmetric, Destroy, TaskQueue.Valid, ConnectionChannel.Known;
      ForgetKeeps(registries.hub, c);
      HeldByClient(registries.hub, c, this);
      ChannelOfClient(registries.hub, this, {});
      MatchingClient();
      if channel != null {
        KnownChannel(registries.taskQueue, channel);
      }
      if channel != null {
        channel.Delete();
      }
      channel := null;
      Changed(Client(clientId, None));
      registries.hub := Forget(registries.hub, c);
    }

    // The destructor.
    method Delete()
      requires Known()
      modifies registries`hub, registries`clientsMap, registries.taskQueue, registries.taskQueue.net.chans.Keys
      ensures registries.Valid()
      ensures ClientUsable(old(registries.hub), this) && registries.hub == DestroyClient(old(registries.hub), this)
    {
      hide ClientsMatch, ServersMatch, HubInvBut, Symmetric, Destroy, TaskQueue.Valid, ConnectionChannel.Known;
      DestroyClientKeeps(registries.hub, this);
      ChannelOfClient(registries.hub, this, {});
      MatchingClient();
      if channel != null {
        KnownChannel(registries.taskQueue, channel);
      }
      registries.clientsMap := registries.clientsMap - {clientId};
      if channel != null {
        channel.Delete();
      }
      registries.hub := DestroyClient(registries.hub, this);
      OthersMatch(registries, old(registries.hub.clients), this);
    }
  }

  lemma OneMoreClient(r: Registries, clients: map<ClientConnectionMock, Client<ConnectionChannel>>,
                      k: ClientConnectionMock, row: Client<ConnectionChannel>)
    requires ClientsMatch(r, clients) && k.registries == r && k.Matches(row)
    ensures ClientsMatch(r, clients[k := row])
  {
  }

  lemma OneMoreServer(r: Registries, servers: map<ConnectionServerMock, Server<ConnectionChannel>>,
                      v: ConnectionServerMock, row: Server<ConnectionChannel>)
    requires ServersMatch(r, servers) && v.registries == r && v.Matches(row)
    ensures ServersMatch(r, servers[v := row])
  {
  }

  // What processing task t turns hub h into; made are the channels of a new connection.
  ghost predicate TaskDone<C, K, V>(h: Hub<C, K, V>, t: Task<C>, h': Hub<C, K, V>, made: Option<(C, C)>) {
    && h.net.tasks != [] && t == h.net.tasks[0]
    && (Target(t).Some? ==> Target(t).value in h.net.chans)
    && Dispatched(h.(net := Process(h.net)), t, h', made)
  }

  ghost predicate Dispatched<C, K, V>(h: Hub<C, K, V>, t: Task<C>, h': Hub<C, K, V>, made: Option<(C, C)>) {
    && (Target(t).Some? ==> Target(t).value in h.net.chans)
    && match t
       case SendMessageTask(_, _) => h' == h
       case DisconnectTask(c) => h' == if h.net.chans[c].alive && c in h.owner then Forget(h, c) else h
       case ConnectToServerTask(i, j) =>
         if made.Some? then BothExist(h, i, j) && h' == Establish(h, i, j, made.value.0, made.value.1)
         else !(i in h.clientIds && j in h.serverIds) && h' == h
  }

  // That is the processTask of Connections.
  lemma TaskDoneIsProcessTask<C, K, V>(h: Hub<C, K, V>, t: Task<C>, h': Hub<C, K, V>, made: Option<(C, C)>, s: C, c: C)
    requires HubInv(h) && TaskDone(h, t, h', made) && (made.Some? ==> made == Some((s, c)))
    ensures h' == ProcessTask(h, s, c)
  {
    ProcessKeepsLives(h.net);
    hide Process, Forget, SetChannel, AddChannel, Pair;
  }

  lemma QueueMatches(q: TaskQueue)
    requires q.Valid()
    ensures q.tasks == q.net.tasks && AllKnown(q.net)
  {
  }

  lemma ProcessedBooks<C, K, V>(h: Hub<C, K, V>)
    requires HubInvBut(h, {}) && h.net.tasks != [] && AllKnown(h.net)
    ensures HubInvBut(h.(net := Process(h.net)), {}) && Process(h.net).chans.Keys == h.net.chans.Keys
    ensures forall c :: c in h.net.chans ==> Process(h.net).chans[c].alive == h.net.chans[c].alive
  {
    ProcessKeeps(h.net);
    ProcessKeepsLives(h.net);
    SameLivesKeep(h, Process(h.net), {});
  }

  lemma HolderExists<C, K, V>(h: Hub<C, K, V>, c: C)
    requires HubInvBut(h, {}) && Alive(h.net, c) && c in h.owner
    ensures match h.owner[c] case ClientOwner(k) => k in h.clients case ServerOwner(v) => v in h.servers
  {
    assert Held(h, c);
  }

  lemma ClientRegistries(r: Registries, clients: map<ClientConnectionMock, Client<ConnectionChannel>>, k: ClientConnectionMock)
    requires ClientsMatch(r, clients) && k in clients
    ensures k.registries == r
  {
  }

  lemma ServerRegistries(r: Registries, servers: map<ConnectionServerMock, Server<ConnectionChannel>>, v: ConnectionServerMock)
    requires ServersMatch(r, servers) && v in servers
    ensures v.registries == r
  {
  }

  ghost predicate BothExist<C, K, V>(h: Hub<C, K, V>, clientId: uint64, serverId: uint64) {
    && (clientId in h.clientIds ==> h.clientIds[clientId] in h.clients)
    && (serverId in h.serverIds ==> h.serverIds[serverId] in h.servers)
  }

  lemma BothRegistered<C, K, V>(h: Hub<C, K, V>, clientId: uint64, serverId: uint64)
    requires HubInvBut(h, {})
    ensures BothExist(h, clientId, serverId)
  {
    RegisteredExist(h, clientId, serverId);
  }

  lemma PairAlive<C>(n: Net<C>, s: C, c: C, clientId: uint64, serverId: uint64)
    ensures Pair(n, s, c, clientId, serverId).chans.Keys == n.chans.Keys + {s, c}
    ensures Alive(Pair(n, s, c, clientId, serverId), s) && Alive(Pair(n, s, c, clientId, serverId), c)
  {
  }

  lemma StillAlive<C, K, V>(h: Hub<C, K, V>, v: V, s: C, c: C)
    requires v in h.servers && s != c && s in h.net.chans && Alive(h.net, c)
    ensures Alive(AddChannel(h, v, s).net, c) && AddChannel(h, v, s).net.chans.Keys == h.net.chans.Keys
    ensures AddChannel(h, v, s).clients == h.clients
  {
    DestroyKeepsLives(h.net, s);
    hide Destroy;
  }

  lemma OthersMatch(r: Registries, clients: map<ClientConnectionMock, Client<ConnectionChannel>>, k: ClientConnectionMock)
    requires ClientsMatch(r, clients)
    ensures ClientsMatch(r, clients - {k})
  {
  }

  lemma KnownChannel(q: TaskQueue, c: ConnectionChannel)
    requires q.Valid() && c in q.net.chans
    ensures c.taskQueue == q && c.Known() && c.alive == q.net.chans[c].alive && c.peerId == q.net.chans[c].peerId
  {
  }

  // What the books say about the channel of a client.
  lemma ChannelOfClient<C, K, V>(h: Hub<C, K, V>, k: K, x: set<C>)
    requires HubInvBut(h, x) && k in h.clients
    ensures Symmetric(h.net) && ClientUsable(h, k)
    ensures h.clients[k].channel.Some? ==> Alive(h.net, h.clients[k].channel.value)
  {
    PairedSymmetric(h.net);
  }

  lemma HeldByClient<C, K, V>(h: Hub<C, K, V>, c: C, k: K)
    requires HubInvBut(h, {}) && Alive(h.net, c) && c in h.owner && h.owner[c] == ClientOwner(k)
    ensures k in h.clients && h.clients[k].channel == Some(c)
  {
    assert Held(h, c);
  }

  // A connection of a server, made for one channel.
  class ConnectionMock {
    const server: ConnectionServerMock
    const channel: ConnectionChannel

    constructor (server: ConnectionServerMock, channel: ConnectionChannel)
      ensures this.server == server && this.channel == channel
    {
      this.server := server;
      this.channel := channel;
    }

    function PeerId(): uint64 {
      channel.peerId
    }

    // The part of disconnect that is about the channel.
    method CloseChannel()
      requires server.registries.taskQueue.Valid() && Inv(server.registries.taskQueue.net)
      requires channel in server.registries.taskQueue.net.chans
      modifies server.registries.taskQueue
      modifies server.registries.taskQueue.net.chans.Keys`connected, server.registries.taskQueue.net.chans.Keys`refCounter
      ensures server.registries.taskQueue.Valid()
      ensures server.registries.taskQueue.net == Close(old(server.registries.taskQueue.net), channel)
    {
      KnownChannel(server.registries.taskQueue, channel);
      InvSymmetric(server.registries.taskQueue.net);
      hide TaskQueue.Valid, Symmetric, Close, Inv;
      channel.Disconnect();
    }

    // The destructor.
    method Delete()
      requires server.registries.taskQueue.Valid() && Symmetric(server.registries.taskQueue.net)
      requires Alive(server.registries.taskQueue.net, channel)
      modifies server.registries.taskQueue, server.registries.taskQueue.net.chans.Keys
      ensures server.registries.taskQueue.Valid()
      ensures server.registries.taskQueue.net == Destroy(old(server.registries.taskQueue.net), channel)
    {
      KnownChannel(server.registries.taskQueue, channel);
      hide TaskQueue.Valid, Symmetric, Destroy;
      channel.Delete();
    }

    // The server has this connection under its peer id.
    ghost predicate Held()
      reads server, server.registries, server.registries.taskQueue, server.registries.taskQueue.net.chans.Keys
      reads server.registries.hub.clients.Keys, server.registries.hub.servers.Keys
    {
      server.Known() && PeerId() in server.connections && server.connections[PeerId()] == this
    }

    method SendMessage(message: Bytes)
      requires Held()
      modifies server.registries`hub, server.registries.taskQueue, server.registries.taskQueue.net.chans.Keys`refCounter
      ensures server.registries.Valid() && ServerUsable(old(server.registries.hub), server, PeerId())
      ensures server.registries.hub == ServerSend(old(server.registries.hub), server, PeerId(), message)
    {
      hide ClientsMatch, ServersMatch, HubInvBut, Symmetric, Send, TaskQueue.Valid, ConnectionChannel.Known;
      ServerSendKeeps(server.registries.hub, server, PeerId(), message);
      ChannelOfConnection(server.registries.hub, server, PeerId());
      server.MatchingServer();
      KnownChannel(server.registries.taskQueue, channel);
      channel.SendMessage(message);
      server.registries.hub := ServerSend(server.registries.hub, server, PeerId(), message);
    }

    method Disconnect()
      requires Held()
      modifies server.registries`hub, server.registries.taskQueue
      modifies server.registries.taskQueue.net.chans.Keys`connected, server.registries.taskQueue.net.chans.Keys`refCounter
      ensures server.registries.Valid() && ServerUsable(old(server.registries.hub), server, PeerId())
      ensures server.registries.hub == ServerClose(old(server.registries.hub), server, PeerId())
    {
      hide ClientsMatch, ServersMatch, HubInvBut, Symmetric, Inv, Close, TaskQueue.Valid, ConnectionChannel.Known;
      ServerCloseKeeps(server.registries.hub, server, PeerId());
      ChannelOfConnection(server.registries.hub, server, PeerId());
      BooksOfServer(server.registries.hub, server);
      server.MatchingServer();
      CloseChannel();
      server.registries.hub := ServerClose(server.registries.hub, server, PeerId());
    }
  }

  // What the books say about the channel of a connection.
  lemma ChannelOfConnection<C, K, V>(h: Hub<C, K, V>, v: V, id: uint64)
    requires HubInvBut(h, {}) && v in h.servers
    ensures Symmetric(h.net) && ServerUsable(h, v, id)
    ensures id in h.servers[v].connections ==> Alive(h.net, h.servers[v].connections[id])
  {
    PairedSymmetric(h.net);
  }

  class ConnectionServerMock {
    const registries: Registries
    var serverId: uint64
    var connections: map<uint64, ConnectionMock>

    ghost predicate Matches(row: Server<ConnectionChannel>)
      reads this
    {
      && row.id == serverId && row.connections.Keys == connections.Keys
      && forall id :: id in connections ==>
           connections[id].server == this && connections[id].channel == row.connections[id] && connections[id].PeerId() == id
    }

    ghost predicate Known()
      reads this, registries, registries.taskQueue, registries.taskQueue.net.chans.Keys
      reads registries.hub.clients.Keys, registries.hub.servers.Keys
    {
      registries.Valid() && this in registries.hub.servers
    }

    lemma MatchingServer()
      requires ServersMatch(registries, registries.hub.servers) && this in registries.hub.servers
      ensures Matches(registries.hub.servers[this])
    {
    }

    lemma MatchingKeys()
      requires ServersMatch(registries, registries.hub.servers) && this in registries.hub.servers
      ensures connections.Keys == registries.hub.servers[this].connections.Keys
    {
      MatchingServer();
    }

    lemma MatchingConnection(id: uint64)
      requires ServersMatch(registries, registries.hub.servers) && this in registries.hub.servers
      ensures id in connections <==> id in registries.hub.servers[this].connections
      ensures id in connections ==>
                connections[id].server == this && connections[id].channel == registries.hub.servers[this].connections[id]
    {
      MatchingServer();
    }

    // This server has changed to row and no other server has changed.
    twostate lemma Changed(row: Server<ConnectionChannel>)
      requires old(ServersMatch(registries, registries.hub.servers)) && this in old(registries.hub.servers) && Matches(row)
      requires forall v :: v in old(registries.hub.servers) && v != this ==>
                 v.serverId == old(v.serverId) && v.connections == old(v.connections)
      ensures ServersMatch(registries, old(registries.hub.servers)[this := row])
    {
    }

    constructor (registries: Registries)
      requires registries.Valid()
      modifies registries`hub
      ensures registries.Valid() && this.registries == registries && fresh(this)
      ensures registries.hub == NewServer(old(registries.hub), this)
    {
      this.registries := registries;
      serverId := 0;
      connections := map[];
      new;
      hide Registries.Valid;
      registries.EnterServer(this);
    }

    method Listen(serverId: uint64) returns (ok: bool)
      requires Known()
      modifies registries`hub, registries`serversMap, `serverId
      ensures registries.Valid() && registries.hub == Connections.Listen(old(registries.hub), this, serverId)
      ensures ok <==> !(serverId in old(registries.serversMap) || old(this.serverId) != 0 || serverId == 0)
    {
      hide ClientsMatch, ServersMatch, HubInvBut, TaskQueue.Valid;
      ListenKeeps(registries.hub, this, serverId);
      MatchingServer();
      if serverId in registries.serversMap || this.serverId != 0 || serverId == 0 {
        return false;
      }
      this.serverId := serverId;
      registries.serversMap := registries.serversMap[serverId := this];
      registries.hub := Connections.Listen(registries.hub, this, serverId);
      Changed(registries.hub.servers[this]);
      return true;
    }

    method Connection(clientId: uint64) returns (c: ConnectionMock?)
      requires Known()
      ensures c == null <==> clientId !in registries.hub.servers[this].connections
      ensures c != null ==> c.Held() && c.server == this && c.PeerId() == clientId
    {
      MatchingServer();
      hide ClientsMatch, ServersMatch, HubInvBut, TaskQueue.Valid;
      c := if clientId in connections then connections[clientId] else null;
    }

    method Insert(connection: ConnectionMock)
      requires this in registries.hub.servers && ServersMatch(registries, registries.hub.servers) && connection.server == this
      modifies `connections
      ensures var row := registries.hub.servers[this]; var id := connection.PeerId();
        ServersMatch(registries, registries.hub.servers[this := row.(connections := row.connections[id := connection.channel])])
    {
      MatchingServer();
      hide ServersMatch;
      connections := connections[connection.PeerId() := connection];
      Changed(Server(serverId, registries.hub.servers[this].connections[connection.PeerId() := connection.channel]));
    }

    method Erase(clientId: uint64)
      requires this in registries.hub.servers && ServersMatch(registries, registries.hub.servers)
      modifies `connections
      ensures var row := registries.hub.servers[this];
        ServersMatch(registries, registries.hub.servers[this := row.(connections := row.connections - {clientId})])
    {
      MatchingServer();
      hide ServersMatch;
      connections := connections - {clientId};
      Changed(Server(serverId, registries.hub.servers[this].connections - {clientId}));
    }

    method AddChannel(channel: ConnectionChannel, ghost x: set<ConnectionChannel>) returns (announces: bool)
      requires registries.ValidBut(x) && this in registries.hub.servers && channel in x && Alive(registries.hub.net, channel)
      modifies registries`hub, registries`handlers, registries.taskQueue, `connections, channel`alive
      modifies registries.taskQueue.net.chans.Keys`connected, registries.taskQueue.net.chans.Keys`refCounter
      ensures registries.ValidBut(x - {channel})
      ensures registries.hub == Connections.AddChannel(old(registries.hub), this, channel)
      ensures announces <==> channel.peerId !in old(connections)
    {
      var conn := new ConnectionMock(this, channel);
      announces := AddConnection(conn, x);
    }

    // A server has one connection per client id; a second one is deleted with its channel. announces says
    // whether the new connection handler runs.
    method AddConnection(connection: ConnectionMock, ghost x: set<ConnectionChannel>) returns (announces: bool)
      requires registries.ValidBut(x) && this in registries.hub.servers && connection.server == this
      requires connection.channel in x && Alive(registries.hub.net, connection.channel)
      modifies registries`hub, registries`handlers, registries.taskQueue, `connections, connection.channel`alive
      modifies registries.taskQueue.net.chans.Keys`connected, registries.taskQueue.net.chans.Keys`refCounter
      ensures registries.ValidBut(x - {connection.channel})
      ensures registries.hub == Connections.AddChannel(old(registries.hub), this, connection.channel)
      ensures announces <==> connection.PeerId() !in old(connections)
    {
      hide ClientsMatch, ServersMatch, HubInvBut, Destroy, TaskQueue.Valid, Matches;
      var channel, clientId := connection.channel, connection.PeerId();
      MatchingConnection(clientId);
      KnownChannel(registries.taskQueue, channel);
      if clientId in connections {
        registries.Discard(channel, x);
        return false;
      }
      AddChannelKeeps(registries.hub, this, channel, x);
      Insert(connection);
      registries.handlers := registries.handlers[channel := ServerOwner(this)];
      registries.hub := Connections.AddChannel(registries.hub, this, channel);
      return true;
    }

    // Deletes a connection and removes it.
    method DeleteConnection(clientId: uint64)
      requires registries.taskQueue.Valid() && Symmetric(registries.taskQueue.net)
      requires ClientsMatch(registries, registries.hub.clients) && ServersMatch(registries, registries.hub.servers)
      requires this in registries.hub.servers && clientId in registries.hub.servers[this].connections
      requires Alive(registries.taskQueue.net, registries.hub.servers[this].connections[clientId])
      modifies registries.taskQueue, `connections, registries.taskQueue.net.chans.Keys
      ensures registries.taskQueue.Valid() && ClientsMatch(registries, registries.hub.clients)
      ensures registries.taskQueue.net ==
              Destroy(old(registries.taskQueue.net), registries.hub.servers[this].connections[clientId])
      ensures var row := registries.hub.servers[this];
        ServersMatch(registries, registries.hub.servers[this := row.(connections := row.connections - {clientId})])
    {
      hide ClientsMatch, ServersMatch, Symmetric, Destroy, TaskQueue.Valid, Matches;
      MatchingConnection(clientId);
      connections[clientId].Delete();
      Erase(clientId);
    }

    // The handler of the disconnected channel c, whose peer id is clientId.
    method OnDisconnected(clientId: uint64, ghost c: ConnectionChannel)
      requires Known() && Alive(registries.hub.net, c) && c in registries.handlers && registries.handlers[c] == ServerOwner(this)
      requires clientId == registries.hub.net.chans[c].peerId
      modifies registries`hub, registries.taskQueue, `connections, registries.taskQueue.net.chans.Keys
      ensures registries.Valid() && registries.hub == Forget(old(registries.hub), c)
    {
      hide ClientsMatch, ServersMatch, HubInvBut, Symmetric, Destroy, TaskQueue.Valid, ConnectionChannel.Known, Forget, Matches;
      ForgetKeeps(registries.hub, c);
      PairedBooks(registries.hub, {});
      ForgottenByServer(registries.hub, c, this);
      MatchingConnection(clientId);
      if clientId in connections {
        DeleteConnection(clientId);
      }
      registries.hub := Forget(registries.hub, c);
    }

    // The loop takes the connections in any order.
    method Disconnect() returns (ghost order: seq<ConnectionChannel>)
      requires Known()
      modifies registries`hub, registries`serversMap, `serverId, registries.taskQueue
      modifies registries.taskQueue.net.chans.Keys`connected, registries.taskQueue.net.chans.Keys`refCounter
      ensures registries.Valid() && Enumerates(order, old(registries.hub.servers[this].connections))
      ensures forall i :: 0 <= i < |order| ==> order[i] in old(registries.hub.net.chans)
      ensures registries.hub == ServerDisconnect(old(registries.hub), this, order)
    {
      hide ClientsMatch, ServersMatch, HubInvBut, TaskQueue.Valid, Enumerates, CloseAll, Matches;
      ghost var h := registries.hub;
      order := DisconnectAll();
      ClosedBooks(h, this, order);
      registries.hub := h.(net := CloseAll(h.net, order));
      StopListening();
    }

    method StopListening()
      requires Known()
      modifies registries`hub, registries`serversMap, `serverId
      ensures registries.Valid()
      ensures registries.hub == old(registries.hub).(
                serverIds := old(registries.hub.serverIds) - {old(registries.hub.servers[this].id)},
                servers := old(registries.hub.servers)[this := old(registries.hub.servers[this]).(id := 0)])
    {
      hide ClientsMatch, ServersMatch, HubInvBut, TaskQueue.Valid;
      MatchingServer();
      StopListeningKeeps(registries.hub, this);
      registries.serversMap := registries.serversMap - {serverId};
      serverId := 0;
      ghost var row := registries.hub.servers[this];
      Changed(row.(id := 0));
      registries.hub := registries.hub.(serverIds := registries.hub.serverIds - {row.id},
                                        servers := registries.hub.servers[this := row.(id := 0)]);
    }

    method DisconnectAll() returns (ghost order: seq<ConnectionChannel>)
      requires Known()
      modifies registries.taskQueue
      modifies registries.taskQueue.net.chans.Keys`connected, registries.taskQueue.net.chans.Keys`refCounter
      ensures Enumerates(order, registries.hub.servers[this].connections)
      ensures forall i :: 0 <= i < |order| ==> order[i] in old(registries.taskQueue.net.chans)
      ensures registries.taskQueue.Valid() && registries.taskQueue.net == CloseAll(old(registries.taskQueue.net), order)
    {
      hide ClientsMatch, ServersMatch, HubInvBut, TaskQueue.Valid, Enumerates, CloseAll, Inv, Close, Matches;
      ghost var channels := registries.hub.servers[this].connections;
      MatchingKeys();
      NothingClosed(registries.taskQueue.net);
      BooksOfServer(registries.hub, this);
      order := [];
      var ids := connections.Keys;
      NothingEnumerated(channels, ids);
      while ids != {}
        invariant ids <= channels.Keys && Enumerates(order, channels - ids)
        invariant forall i :: 0 <= i < |order| ==> order[i] in old(registries.taskQueue.net.chans)
        invariant registries.taskQueue.Valid() && registries.taskQueue.net == CloseAll(old(registries.taskQueue.net), order)
        decreases ids
      {
        var id :| id in ids;
        MatchingConnection(id);
        CloseAllKeeps(old(registries.taskQueue.net), order);
        connections[id].CloseChannel();
        CloseAllSnoc(old(registries.taskQueue.net), order, connections[id].channel);
        EnumeratesMore(order, channels, ids, id);
        order := order + [connections[id].channel];
        ids := ids - {id};
      }
      assert channels - {} == channels;
    }

    // The destructor: every connection goes with its channel.
    method Delete() returns (ghost order: seq<ConnectionChannel>)
      requires Known()
      modifies registries`hub, registries`serversMap, registries.taskQueue, registries.taskQueue.net.chans.Keys
      ensures registries.Valid() && Enumerates(order, old(registries.hub.servers[this].connections))
      ensures forall i :: 0 <= i < |order| ==> order[i] in old(registries.hub.net.chans)
      ensures registries.hub == DestroyServer(old(registries.hub), this, order)
    {
      hide ClientsMatch, ServersMatch, HubInvBut, TaskQueue.Valid, Enumerates, DestroyAll, Matches;
      ghost var h := registries.hub;
      order := DeleteAll();
      DestroyServerKeeps(h, this, order);
      MatchingId();
      registries.serversMap := registries.serversMap - {serverId};
      OtherServersMatch(registries, h.servers, this);
      registries.hub := DestroyServer(h, this, order);
    }

    method DeleteAll() returns (ghost order: seq<ConnectionChannel>)
      requires Known()
      modifies registries.taskQueue, registries.taskQueue.net.chans.Keys
      ensures Enumerates(order, registries.hub.servers[this].connections)
      ensures forall i :: 0 <= i < |order| ==> order[i] in old(registries.taskQueue.net.chans)
      ensures registries.taskQueue.Valid() && registries.taskQueue.net == DestroyAll(old(registries.taskQueue.net), order)
    {
      hide ClientsMatch, ServersMatch, HubInvBut, TaskQueue.Valid, Enumerates, DestroyAll, Inv, Destroy, Matches, Symmetric;
      ghost var channels := registries.hub.servers[this].connections;
      BooksOfServer(registries.hub, this);
      InvSymmetric(registries.taskQueue.net);
      order := [];
      var ids := connections.Keys;
      MatchingKeys();
      NothingClosed(registries.taskQueue.net);
      NothingEnumerated(channels, ids);
      while ids != {}
        invariant ids <= channels.Keys && Enumerates(order, channels - ids)
        invariant forall i :: 0 <= i < |order| ==> order[i] in old(registries.taskQueue.net.chans)
        invariant registries.taskQueue.Valid() && registries.taskQueue.net == DestroyAll(old(registries.taskQueue.net), order)
        invariant Symmetric(registries.taskQueue.net)
        invariant forall id :: id in ids ==> Alive(registries.taskQueue.net, channels[id])
        decreases ids
      {
        var id :| id in ids;
        MatchingConnection(id);
        DestroyKeepsLives(registries.taskQueue.net, channels[id]);
        DestroyKeepsSymmetric(registries.taskQueue.net, channels[id]);
        connections[id].Delete();
        DestroyAllSnoc(old(registries.taskQueue.net), order, channels[id]);
        EnumeratesMore(order, channels, ids, id);
        order := order + [channels[id]];
        ids := ids - {id};
      }
      assert channels - {} == channels;
    }

    lemma MatchingId()
      requires ServersMatch(registries, registries.hub.servers) && this in registries.hub.servers
      ensures serverId == registries.hub.servers[this].id
    {
      MatchingServer();
    }
  }

  lemma DestroyKeepsSymmetric<C>(n: Net<C>, c: C)
    requires Symmetric(n) && c in n.chans
    ensures Symmetric(Destroy(n, c))
  {
    ClosePeerShape(n, c);
    hide ClosePeer;
  }

  lemma OtherServersMatch(r: Registries, servers: map<ConnectionServerMock, Server<ConnectionChannel>>, v: ConnectionServerMock)
    requires ServersMatch(r, servers)
    ensures ServersMatch(r, servers - {v})
  {
  }

  lemma NothingClosed<C>(n: Net<C>)
    ensures CloseAll(n, []) == n && DestroyAll(n, []) == n
  {
  }

  lemma NothingEnumerated<C>(connections: map<uint64, C>, ids: set<uint64>)
    requires ids == connections.Keys
    ensures Enumerates([], connections - ids)
  {
  }

  lemma ClosedBooks<C, K, V>(h: Hub<C, K, V>, v: V, order: seq<C>)
    requires HubInvBut(h, {}) && v in h.servers && Enumerates(order, h.servers[v].connections)
    ensures forall i :: 0 <= i < |order| ==> order[i] in h.net.chans
    ensures HubInvBut(h.(net := CloseAll(h.net, order)), {})
  {
    OrderInNet(h, v, order);
    CloseAllKeeps(h.net, order);
    SameLivesKeep(h, CloseAll(h.net, order), {});
  }

  lemma InvSymmetric<C>(n: Net<C>)
    requires Inv(n)
    ensures Symmetric(n)
  {
    PairedSymmetric(n);
  }

  lemma BooksOfServer<C, K, V>(h: Hub<C, K, V>, v: V)
    requires HubInvBut(h, {}) && v in h.servers
    ensures Inv(h.net) && DistinctChannels(h.servers[v].connections)
    ensures forall id :: id in h.servers[v].connections ==> Alive(h.net, h.servers[v].connections[id])
  {
  }

  lemma ForgottenByServer<C, K, V>(h: Hub<C, K, V>, c: C, v: V)
    requires HubInvBut(h, {}) && Alive(h.net, c) && c in h.owner && h.owner[c] == ServerOwner(v) && v in h.servers
    ensures var id, s := h.net.chans[c].peerId, h.servers[v];
      && id in s.connections && s.connections[id] == c
      && Forget(h, c) == h.(servers := h.servers[v := s.(connections := s.connections - {id})], net := Destroy(h.net, c))
  {
    assert Held(h, c);
  }

  lemma PairedBooks<C, K, V>(h: Hub<C, K, V>, x: set<C>)
    requires HubInvBut(h, x)
    ensures Symmetric(h.net)
  {
    PairedSymmetric(h.net);
  }
}
