// The client and server mocks over the transport: who is registered under which id, and who
// owns which channel. C, K and V are the identities of channels, clients and servers.
module Connections {
  import opened CTypes
  import opened Network

  // Id 0 means not bound and not listening.
  datatype Client<C> = Client(id: uint64, channel: Option<C>)
  datatype Server<C> = Server(id: uint64, connections: map<uint64, C>)

  // The object whose handlers a channel calls.
  datatype Owner<K, V> = ClientOwner(client: K) | ServerOwner(server: V)

  datatype Hub<C, K, V> = Hub(net: Net<C>, owner: map<C, Owner<K, V>>,
                              clients: map<K, Client<C>>, clientIds: map<uint64, K>,
                              servers: map<V, Server<C>>, serverIds: map<uint64, V>)

  ghost predicate ClientUsable<C, K, V>(h: Hub<C, K, V>, k: K) {
    k in h.clients && (h.clients[k].channel.Some? ==> h.clients[k].channel.value in h.net.chans)
  }

  ghost predicate ServerUsable<C, K, V>(h: Hub<C, K, V>, v: V, id: uint64) {
    v in h.servers && (id in h.servers[v].connections ==> h.servers[v].connections[id] in h.net.chans)
  }

  // ----- the operations of clients -----

  function NewClient<C, K(==), V>(h: Hub<C, K, V>, k: K): Hub<C, K, V> {
    h.(clients := h.clients[k := Client(0, None)])
  }

  function Bind<C, K(==), V>(h: Hub<C, K, V>, k: K, id: uint64): Hub<C, K, V>
    requires k in h.clients
  {
    if id in h.clientIds || h.clients[k].channel.Some? || id == 0 then h
    else h.(clientIds := (h.clientIds - {h.clients[k].id})[id := k],
            clients := h.clients[k := h.clients[k].(id := id)])
  }

  function ConnectToHost<C(==), K(==), V>(h: Hub<C, K, V>, k: K, serverId: uint64): Hub<C, K, V>
    requires k in h.clients
  {
    if h.clients[k].id == 0 || serverId == 0 then h
    else h.(net := Schedule(h.net, ConnectToServerTask(h.clients[k].id, serverId)))
  }

  function ClientSend<C(==), K(==), V>(h: Hub<C, K, V>, k: K, m: Bytes): Hub<C, K, V>
    requires k in h.clients && (h.clients[k].channel.Some? ==> h.clients[k].channel.value in h.net.chans)
  {
    match h.clients[k].channel
    case None => h
    case Some(c) => h.(net := Send(h.net, c, m))
  }

  function ClientDisconnect<C(==), K(==), V>(h: Hub<C, K, V>, k: K): Hub<C, K, V>
    requires k in h.clients && (h.clients[k].channel.Some? ==> h.clients[k].channel.value in h.net.chans)
  {
    match h.clients[k].channel
    case None => h
    case Some(c) => h.(net := Close(h.net, c))
  }

  function DestroyClient<C(==), K(==), V>(h: Hub<C, K, V>, k: K): Hub<C, K, V>
    requires k in h.clients && (h.clients[k].channel.Some? ==> h.clients[k].channel.value in h.net.chans)
  {
    h.(clientIds := h.clientIds - {h.clients[k].id},
       clients := h.clients - {k},
       net := match h.clients[k].channel
              case None => h.net
              case Some(c) => Destroy(h.net, c))
  }

  // A client has one channel; a second one is thrown away.
  function SetChannel<C(==), K(==), V>(h: Hub<C, K, V>, k: K, c: C): Hub<C, K, V>
    requires k in h.clients && c in h.net.chans
  {
    if h.clients[k].channel.Some? then h.(net := Destroy(h.net, c))
    else h.(clients := h.clients[k := h.clients[k].(channel := Some(c))],
            owner := h.owner[c := ClientOwner(k)])
  }

  // ----- the operations of servers -----

  function NewServer<C, K, V(==)>(h: Hub<C, K, V>, v: V): Hub<C, K, V> {
    h.(servers := h.servers[v := Server(0, map[])])
  }

  function Listen<C, K, V(==)>(h: Hub<C, K, V>, v: V, id: uint64): Hub<C, K, V>
    requires v in h.servers
  {
    if id in h.serverIds || h.servers[v].id != 0 || id == 0 then h
    else h.(serverIds := h.serverIds[id := v], servers := h.servers[v := h.servers[v].(id := id)])
  }

  function ServerSend<C(==), K, V(==)>(h: Hub<C, K, V>, v: V, clientId: uint64, m: Bytes): Hub<C, K, V>
    requires v in h.servers && (clientId in h.servers[v].connections ==> h.servers[v].connections[clientId] in h.net.chans)
  {
    if clientId in h.servers[v].connections then h.(net := Send(h.net, h.servers[v].connections[clientId], m)) else h
  }

  function ServerClose<C(==), K, V(==)>(h: Hub<C, K, V>, v: V, clientId: uint64): Hub<C, K, V>
    requires v in h.servers && (clientId in h.servers[v].connections ==> h.servers[v].connections[clientId] in h.net.chans)
  {
    if clientId in h.servers[v].connections then h.(net := Close(h.net, h.servers[v].connections[clientId])) else h
  }

  // A server has one connection per client id; a second one is thrown away with its channel.
  function AddChannel<C(==), K, V(==)>(h: Hub<C, K, V>, v: V, s: C): Hub<C, K, V>
    requires v in h.servers && s in h.net.chans
  {
    var clientId := h.net.chans[s].peerId;
    if clientId in h.servers[v].connections then h.(net := Destroy(h.net, s))
    else h.(servers := h.servers[v := h.servers[v].(connections := h.servers[v].connections[clientId := s])],
            owner := h.owner[s := ServerOwner(v)])
  }

  // A loop over the connections of a server goes through its channels in some order.
  ghost predicate Enumerates<C>(order: seq<C>, connections: map<uint64, C>) {
    && (forall i, j :: 0 <= i < j < |order| ==> order[i] != order[j])
    && (forall i :: 0 <= i < |order| ==> exists id :: id in connections && connections[id] == order[i])
    && (forall id :: id in connections ==> connections[id] in order)
  }

  ghost function CloseAll<C>(n: Net<C>, order: seq<C>): (n': Net<C>)
    requires forall i :: 0 <= i < |order| ==> order[i] in n.chans
    ensures n'.chans.Keys == n.chans.Keys
    decreases |order|
  {
    if order == [] then n else CloseAll(Close(n, order[0]), order[1..])
  }

  ghost function DestroyAll<C>(n: Net<C>, order: seq<C>): (n': Net<C>)
    requires forall i :: 0 <= i < |order| ==> order[i] in n.chans
    ensures n'.chans.Keys == n.chans.Keys
    decreases |order|
  {
    if order == [] then n else DestroyAll(Destroy(n, order[0]), order[1..])
  }

  // The loops take one channel after the other.
  lemma {:induction false} CloseAllSnoc<C>(n: Net<C>, order: seq<C>, c: C)
    requires c in n.chans && forall i :: 0 <= i < |order| ==> order[i] in n.chans
    ensures forall i :: 0 <= i < |order + [c]| ==> (order + [c])[i] in n.chans
    ensures CloseAll(n, order + [c]) == Close(CloseAll(n, order), c)
    decreases |order|
  {
    if order == [] {
      assert CloseAll(n, [c]) == CloseAll(Close(n, c), [c][1..]);
    } else {
      CloseAllSnoc(Close(n, order[0]), order[1..], c);
      assert (order + [c])[1..] == order[1..] + [c];
    }
  }

  lemma {:induction false} DestroyAllSnoc<C>(n: Net<C>, order: seq<C>, c: C)
    requires c in n.chans && forall i :: 0 <= i < |order| ==> order[i] in n.chans
    ensures forall i :: 0 <= i < |order + [c]| ==> (order + [c])[i] in n.chans
    ensures DestroyAll(n, order + [c]) == Destroy(DestroyAll(n, order), c)
    decreases |order|
  {
    if order == [] {
      assert DestroyAll(n, [c]) == DestroyAll(Destroy(n, c), [c][1..]);
    } else {
      DestroyAllSnoc(Destroy(n, order[0]), order[1..], c);
      assert (order + [c])[1..] == order[1..] + [c];
    }
  }

  ghost predicate DistinctChannels<C>(connections: map<uint64, C>) {
    forall i, j :: i in connections && j in connections && i != j ==> connections[i] != connections[j]
  }

  lemma EnumeratesMore<C>(order: seq<C>, connections: map<uint64, C>, ids: set<uint64>, id: uint64)
    requires Enumerates(order, connections - ids) && id in ids && id in connections && DistinctChannels(connections)
    ensures Enumerates(order + [connections[id]], connections - (ids - {id}))
  {
    var rest, rest' := connections - ids, connections - (ids - {id});
    forall i | 0 <= i < |order| ensures exists x :: x in rest' && rest'[x] == order[i] {
      var x :| x in rest && rest[x] == order[i];
      assert x in rest';
    }
    assert id in rest' && (order + [connections[id]])[|order|] == connections[id];
    assert forall x :: x in rest' ==> x == id || x in rest;
  }

  ghost function ServerDisconnect<C, K, V>(h: Hub<C, K, V>, v: V, order: seq<C>): Hub<C, K, V>
    requires v in h.servers && forall i :: 0 <= i < |order| ==> order[i] in h.net.chans
  {
    h.(net := CloseAll(h.net, order), serverIds := h.serverIds - {h.servers[v].id},
       servers := h.servers[v := h.servers[v].(id := 0)])
  }

  ghost function DestroyServer<C, K, V>(h: Hub<C, K, V>, v: V, order: seq<C>): Hub<C, K, V>
    requires v in h.servers && forall i :: 0 <= i < |order| ==> order[i] in h.net.chans
  {
    h.(net := DestroyAll(h.net, order), serverIds := h.serverIds - {h.servers[v].id}, servers := h.servers - {v})
  }

  // ----- the tasks -----

  // ConnectToServerTask, making the channels s and c if both ends are registered.
  function Establish<C(==), K(==), V(==)>(h: Hub<C, K, V>, clientId: uint64, serverId: uint64, s: C, c: C): Hub<C, K, V>
    requires clientId in h.clientIds ==> h.clientIds[clientId] in h.clients
    requires serverId in h.serverIds ==> h.serverIds[serverId] in h.servers
  {
    if clientId in h.clientIds && serverId in h.serverIds then
      var h1 := h.(net := Pair(h.net, s, c, clientId, serverId));
      var h2 := AddChannel(h1, h.serverIds[serverId], s);
      SetChannel(h2, h.clientIds[clientId], c)
    else h
  }

  // The handler of a disconnected channel: the client deletes its channel, the server the connection
  // it has under the channel's peer id.
  function Forget<C(==), K(==), V(==)>(h: Hub<C, K, V>, c: C): Hub<C, K, V>
    requires c in h.net.chans && c in h.owner
  {
    match h.owner[c]
    case ClientOwner(k) =>
      if k in h.clients && h.clients[k].channel.Some? && h.clients[k].channel.value in h.net.chans
      then h.(clients := h.clients[k := h.clients[k].(channel := None)],
              net := Destroy(h.net, h.clients[k].channel.value))
      else h
    case ServerOwner(v) =>
      var id := h.net.chans[c].peerId;
      if v in h.servers && id in h.servers[v].connections && h.servers[v].connections[id] in h.net.chans
      then h.(servers := h.servers[v := h.servers[v].(connections := h.servers[v].connections - {id})],
              net := Destroy(h.net, h.servers[v].connections[id]))
      else h
  }

  // processTask; s and c are the channels a connection request makes. The application's reaction
  // to a delivered message is not part of it.
  function ProcessTask<C(==), K(==), V(==)>(h: Hub<C, K, V>, s: C, c: C): Hub<C, K, V>
    requires h.net.tasks != []
    requires Target(h.net.tasks[0]).Some? ==> Target(h.net.tasks[0]).value in h.net.chans
    requires forall id :: id in h.clientIds ==> h.clientIds[id] in h.clients
    requires forall id :: id in h.serverIds ==> h.serverIds[id] in h.servers
  {
    var h1 := h.(net := Process(h.net));
    match h.net.tasks[0]
    case SendMessageTask(_, _) => h1
    case DisconnectTask(x) => if h.net.chans[x].alive && x in h.owner then Forget(h1, x) else h1
    case ConnectToServerTask(i, j) => Establish(h1, i, j, s, c)
  }

  // ----- the bookkeeping -----

  // The registry of clients maps exactly the ids that bound clients hold.
  ghost predicate ClientsRegistered<C, K>(clients: map<K, Client<C>>, ids: map<uint64, K>) {
    && (forall id :: id in ids ==> id != 0 && ids[id] in clients && clients[ids[id]].id == id)
    && (forall k :: k in clients && clients[k].id != 0 ==> clients[k].id in ids && ids[clients[k].id] == k)
  }

  ghost predicate ServersRegistered<C, V>(servers: map<V, Server<C>>, ids: map<uint64, V>) {
    && (forall id :: id in ids ==> id != 0 && ids[id] in servers && servers[ids[id]].id == id)
    && (forall v :: v in servers && servers[v].id != 0 ==> servers[v].id in ids && ids[servers[v].id] == v)
  }

  ghost predicate Alive<C>(n: Net<C>, c: C) {
    c in n.chans && n.chans[c].alive
  }

  // The channels of the clients live and call back their client.
  ghost predicate ClientsHold<C, K, V>(n: Net<C>, owner: map<C, Owner<K, V>>, clients: map<K, Client<C>>) {
    forall k :: k in clients && clients[k].channel.Some? ==>
      var c := clients[k].channel.value;
      Alive(n, c) && c in owner && owner[c] == ClientOwner(k)
  }

  // The channels of the connections live, call back their server and are kept under their peer id.
  ghost predicate ConnectionsHold<C, K, V>(n: Net<C>, owner: map<C, Owner<K, V>>, servers: map<V, Server<C>>) {
    forall v, id :: v in servers && id in servers[v].connections ==>
      var c := servers[v].connections[id];
      Alive(n, c) && n.chans[c].peerId == id && c in owner && owner[c] == ServerOwner(v)
  }

  // c is the channel of the client or of the connection that its handlers lead to.
  ghost predicate Held<C, K, V>(h: Hub<C, K, V>, c: C)
    requires c in h.net.chans
  {
    c in h.owner &&
    match h.owner[c]
    case ClientOwner(k) => k in h.clients && h.clients[k].channel == Some(c)
    case ServerOwner(v) =>
      var id := h.net.chans[c].peerId;
      v in h.servers && id in h.servers[v].connections && h.servers[v].connections[id] == c
  }

  ghost predicate NoClientHolds<C, K>(clients: map<K, Client<C>>, x: set<C>) {
    forall k :: k in clients && clients[k].channel.Some? ==> clients[k].channel.value !in x
  }

  ghost predicate NoConnectionHolds<C, V>(servers: map<V, Server<C>>, x: set<C>) {
    forall v, id :: v in servers && id in servers[v].connections ==> servers[v].connections[id] !in x
  }

  ghost predicate AllHeldBut<C, K, V>(h: Hub<C, K, V>, x: set<C>) {
    forall c :: c in h.net.chans && h.net.chans[c].alive && c !in x ==> Held(h, c)
  }

  // The channels of x are on their way from one holder to another. With x empty no live channel is leaked.
  ghost predicate HubInvBut<C, K, V>(h: Hub<C, K, V>, x: set<C>) {
    && Inv(h.net)
    && ClientsRegistered(h.clients, h.clientIds) && ServersRegistered(h.servers, h.serverIds)
    && ClientsHold(h.net, h.owner, h.clients) && NoClientHolds(h.clients, x)
    && ConnectionsHold(h.net, h.owner, h.servers) && NoConnectionHolds(h.servers, x)
    && AllHeldBut(h, x)
  }

  ghost predicate HubInv<C, K, V>(h: Hub<C, K, V>) {
    HubInvBut(h, {})
  }

  // ----- how the transport's operations look from here -----

  // n' has the channels of n, with c destroyed if it is given.
  ghost predicate SameLives<C>(n: Net<C>, n': Net<C>, dead: Option<C>) {
    && n'.chans.Keys == n.chans.Keys
    && forall c :: c in n.chans ==>
         n'.chans[c].peerId == n.chans[c].peerId && n'.chans[c].alive == (n.chans[c].alive && Some(c) != dead)
  }

  lemma SendKeepsLives<C>(n: Net<C>, c: C, m: Bytes)
    requires c in n.chans
    ensures SameLives(n, Send(n, c, m), None)
  {
  }

  lemma CloseKeepsLives<C>(n: Net<C>, c: C)
    requires c in n.chans
    ensures SameLives(n, Close(n, c), None)
  {
  }

  lemma DestroyKeepsLives<C>(n: Net<C>, c: C)
    requires c in n.chans
    ensures SameLives(n, Destroy(n, c), Some(c))
  {
    ClosePeerShape(n, c);
    hide ClosePeer;
  }

  lemma ProcessKeepsLives<C>(n: Net<C>)
    requires n.tasks != [] && AllKnown(n)
    ensures SameLives(n, Process(n), None)
  {
  }

  lemma LivesKeepHolders<C, K, V>(h: Hub<C, K, V>, n: Net<C>, dead: Option<C>, x: set<C>)
    requires SameLives(h.net, n, dead) && (dead.Some? ==> dead.value in x)
    ensures ClientsHold(h.net, h.owner, h.clients) && NoClientHolds(h.clients, x) ==> ClientsHold(n, h.owner, h.clients)
    ensures ConnectionsHold(h.net, h.owner, h.servers) && NoConnectionHolds(h.servers, x) ==>
              ConnectionsHold(n, h.owner, h.servers)
  {
  }

  lemma LivesKeepHeld<C, K, V>(h: Hub<C, K, V>, n: Net<C>, dead: Option<C>, x: set<C>)
    requires AllHeldBut(h, x) && (dead.Some? ==> dead.value in x) && SameLives(h.net, n, dead)
    ensures AllHeldBut(h.(net := n), if dead.Some? then x - {dead.value} else x)
  {
    forall y | y in n.chans && n.chans[y].alive && (y !in x || Some(y) == dead) ensures Held(h.(net := n), y) {
      assert Held(h, y);
    }
  }

  lemma SameLivesKeep<C, K, V>(h: Hub<C, K, V>, n: Net<C>, x: set<C>)
    requires HubInvBut(h, x) && Inv(n) && SameLives(h.net, n, None)
    ensures HubInvBut(h.(net := n), x)
  {
    hide Inv, SameLives, ClientsRegistered, ServersRegistered, ClientsHold, ConnectionsHold, AllHeldBut;
    LivesKeepHolders(h, n, None, x);
    LivesKeepHeld(h, n, None, x);
  }

  // A channel nobody holds can be deleted.
  lemma DeleteUnheld<C, K, V>(h: Hub<C, K, V>, c: C, x: set<C>)
    requires HubInvBut(h, x) && c in x && Alive(h.net, c)
    ensures HubInvBut(h.(net := Destroy(h.net, c)), x - {c})
  {
    DestroyKeeps(h.net, c);
    DestroyKeepsLives(h.net, c);
    hide Inv, SameLives, ClientsRegistered, ServersRegistered, ClientsHold, ConnectionsHold, AllHeldBut, Destroy;
    LivesKeepHolders(h, Destroy(h.net, c), Some(c), x);
    LivesKeepHeld(h, Destroy(h.net, c), Some(c), x);
  }

  // ----- every operation keeps the books -----

  lemma NewClientKeeps<C, K, V>(h: Hub<C, K, V>, k: K)
    requires HubInv(h) && k !in h.clients
    ensures HubInv(NewClient(h, k))
  {
    hide Inv, ServersRegistered, ConnectionsHold;
    assert forall y :: y in h.net.chans && Held(h, y) ==> Held(NewClient(h, k), y);
  }

  lemma NewServerKeeps<C, K, V>(h: Hub<C, K, V>, v: V)
    requires HubInv(h) && v !in h.servers
    ensures HubInv(NewServer(h, v))
  {
    hide Inv, ClientsRegistered, ServersRegistered, ClientsHold, ConnectionsHold, AllHeldBut, NoClientHolds, NoConnectionHolds;
    NewServerRegistered(h.servers, h.serverIds, v);
    NewServerHoldsNothing(h.net, h.owner, h.servers, v);
    HeldWithNewServer(h, v);
  }

  lemma NewServerRegistered<C, V>(servers: map<V, Server<C>>, ids: map<uint64, V>, v: V)
    requires ServersRegistered(servers, ids) && v !in servers
    ensures ServersRegistered(servers[v := Server(0, map[])], ids)
  {
  }

  lemma NewServerHoldsNothing<C, K, V>(n: Net<C>, owner: map<C, Owner<K, V>>, servers: map<V, Server<C>>, v: V)
    requires ConnectionsHold(n, owner, servers) && NoConnectionHolds(servers, {})
    ensures var servers' := servers[v := Server(0, map[])]; ConnectionsHold(n, owner, servers') && NoConnectionHolds(servers', {})
  {
  }

  lemma HeldWithNewServer<C, K, V>(h: Hub<C, K, V>, v: V)
    requires AllHeldBut(h, {}) && v !in h.servers
    ensures AllHeldBut(NewServer(h, v), {})
  {
    forall y | y in h.net.chans && h.net.chans[y].alive ensures Held(NewServer(h, v), y) {
      assert Held(h, y);
    }
  }

  lemma BindKeeps<C, K, V>(h: Hub<C, K, V>, k: K, id: uint64)
    requires HubInv(h) && k in h.clients
    ensures HubInv(Bind(h, k, id))
  {
    hide Inv, ServersRegistered, ConnectionsHold;
    assert forall y :: y in h.net.chans && Held(h, y) ==> Held(Bind(h, k, id), y);
  }

  // A server's listening id is no matter for its connections.
  lemma OnlyIdChanged<C, K, V>(h: Hub<C, K, V>, v: V, id: uint64)
    requires HubInv(h) && v in h.servers
    ensures var servers := h.servers[v := h.servers[v].(id := id)];
      && ConnectionsHold(h.net, h.owner, servers) && NoConnectionHolds(servers, {})
      && AllHeldBut(h.(servers := servers), {})
  {
    hide Inv, ClientsRegistered, ServersRegistered, ClientsHold;
    var h' := h.(servers := h.servers[v := h.servers[v].(id := id)]);
    forall y | y in h.net.chans && h.net.chans[y].alive ensures Held(h', y) {
      assert Held(h, y);
    }
  }

  lemma HeldWhateverIds<C, K, V>(h: Hub<C, K, V>, ids: map<uint64, V>, x: set<C>)
    requires AllHeldBut(h, x)
    ensures AllHeldBut(h.(serverIds := ids), x)
  {
    forall y | y in h.net.chans && h.net.chans[y].alive && y !in x ensures Held(h.(serverIds := ids), y) {
      assert Held(h, y);
    }
  }

  lemma ListenKeeps<C, K, V>(h: Hub<C, K, V>, v: V, id: uint64)
    requires HubInv(h) && v in h.servers
    ensures HubInv(Listen(h, v, id))
  {
    OnlyIdChanged(h, v, id);
    HeldWhateverIds(h.(servers := h.servers[v := h.servers[v].(id := id)]), h.serverIds[id := v], {});
    hide Inv, ClientsRegistered, ClientsHold, ConnectionsHold, AllHeldBut, NoConnectionHolds;
  }

  lemma RequestKeepsBooks<C, K, V>(h: Hub<C, K, V>, k: K, serverId: uint64)
    requires HubInv(h) && k in h.clients
    ensures HubInv(ConnectToHost(h, k, serverId))
  {
    if h.clients[k].id != 0 && serverId != 0 {
      RequestKeeps(h.net, h.clients[k].id, serverId);
      SameLivesKeep(h, Schedule(h.net, ConnectToServerTask(h.clients[k].id, serverId)), {});
    }
  }

  lemma DestroyClientKeeps<C, K, V>(h: Hub<C, K, V>, k: K)
    requires HubInv(h) && k in h.clients
    ensures h.clients[k].channel.Some? ==> h.clients[k].channel.value in h.net.chans
    ensures HubInv(DestroyClient(h, k))
  {
    hide Inv, ServersRegistered;
    var x := if h.clients[k].channel.Some? then {h.clients[k].channel.value} else {};
    var h1 := h.(clientIds := h.clientIds - {h.clients[k].id}, clients := h.clients - {k});
    assert HubInvBut(h1, x) by {
      assert forall y :: y in h.net.chans && h.net.chans[y].alive && y !in x && Held(h, y) ==> Held(h1, y);
    }
    if h.clients[k].channel.Some? {
      DeleteUnheld(h1, h.clients[k].channel.value, x);
    }
  }

  lemma ServerKeepsId<C, V>(servers: map<V, Server<C>>, ids: map<uint64, V>, v: V, s: Server<C>)
    requires ServersRegistered(servers, ids) && v in servers && s.id == servers[v].id
    ensures ServersRegistered(servers[v := s], ids)
  {
  }

  lemma ClientKeepsId<C, K>(clients: map<K, Client<C>>, ids: map<uint64, K>, k: K, c: Client<C>)
    requires ClientsRegistered(clients, ids) && k in clients && c.id == clients[k].id
    ensures ClientsRegistered(clients[k := c], ids)
  {
  }

  // A channel nobody holds may get new handlers.
  lemma OwnerOfUnheld<C, K, V>(h: Hub<C, K, V>, c: C, o: Owner<K, V>, x: set<C>)
    requires HubInvBut(h, x) && c in x
    ensures ClientsHold(h.net, h.owner[c := o], h.clients) && ConnectionsHold(h.net, h.owner[c := o], h.servers)
  {
    hide Inv, ClientsRegistered, ServersRegistered, AllHeldBut;
  }

  lemma NewHolderOfClient<C, K, V>(h: Hub<C, K, V>, k: K, c: C, x: set<C>)
    requires HubInvBut(h, x) && k in h.clients && h.clients[k].channel.None? && c in x && c in h.net.chans
    ensures AllHeldBut(SetChannel(h, k, c), x - {c})
  {
    hide Inv, ClientsRegistered, ServersRegistered, ClientsHold, ConnectionsHold;
    var h' := SetChannel(h, k, c);
    forall y | y in h.net.chans && h.net.chans[y].alive && y !in x - {c} ensures Held(h', y) {
      assert y != c ==> Held(h, y);
    }
  }

  lemma SetChannelKeeps<C, K, V>(h: Hub<C, K, V>, k: K, c: C, x: set<C>)
    requires HubInvBut(h, x) && k in h.clients && c in x && Alive(h.net, c)
    ensures HubInvBut(SetChannel(h, k, c), x - {c})
  {
    hide HubInvBut, Destroy;
    if h.clients[k].channel.Some? {
      DeleteUnheld(h, c, x);
    } else {
      ChannelTaken(h, k, c, x);
    }
  }

  lemma ChannelTaken<C, K, V>(h: Hub<C, K, V>, k: K, c: C, x: set<C>)
    requires HubInvBut(h, x) && k in h.clients && c in x && Alive(h.net, c) && h.clients[k].channel.None?
    ensures HubInvBut(SetChannel(h, k, c), x - {c})
  {
    OwnerOfUnheld(h, c, ClientOwner(k), x);
    NewHolderOfClient(h, k, c, x);
    ClientKeepsId(h.clients, h.clientIds, k, h.clients[k].(channel := Some(c)));
    hide Inv, ClientsRegistered, ServersRegistered, AllHeldBut, ConnectionsHold;
  }

  lemma NewHolderOfServer<C, K, V>(h: Hub<C, K, V>, v: V, s: C, x: set<C>)
    requires HubInvBut(h, x) && v in h.servers && s in x && s in h.net.chans
    requires h.net.chans[s].peerId !in h.servers[v].connections
    ensures AllHeldBut(AddChannel(h, v, s), x - {s})
  {
    hide Inv, ClientsRegistered, ServersRegistered, ClientsHold, ConnectionsHold;
    var h' := AddChannel(h, v, s);
    forall y | y in h.net.chans && h.net.chans[y].alive && y !in x - {s} ensures Held(h', y) {
      assert y != s ==> Held(h, y);
    }
  }

  lemma AddChannelKeeps<C, K, V>(h: Hub<C, K, V>, v: V, s: C, x: set<C>)
    requires HubInvBut(h, x) && v in h.servers && s in x && Alive(h.net, s)
    ensures HubInvBut(AddChannel(h, v, s), x - {s})
  {
    hide HubInvBut, Destroy;
    if h.net.chans[s].peerId in h.servers[v].connections {
      DeleteUnheld(h, s, x);
    } else {
      ConnectionTaken(h, v, s, x);
    }
  }

  lemma ConnectionTaken<C, K, V>(h: Hub<C, K, V>, v: V, s: C, x: set<C>)
    requires HubInvBut(h, x) && v in h.servers && s in x && Alive(h.net, s)
    requires h.net.chans[s].peerId !in h.servers[v].connections
    ensures HubInvBut(AddChannel(h, v, s), x - {s})
  {
    hide Inv, ClientsRegistered, ServersRegistered, AllHeldBut, ClientsHold, ConnectionsHold, NoClientHolds, NoConnectionHolds;
    var id := h.net.chans[s].peerId;
    var servers := h.servers[v := h.servers[v].(connections := h.servers[v].connections[id := s])];
    OwnerOfUnheld(h, s, ServerOwner(v), x);
    NewHolderOfServer(h, v, s, x);
    ServerKeepsId(h.servers, h.serverIds, v, servers[v]);
    NewConnectionHolds(h.net, h.owner[s := ServerOwner(v)], h.servers, v, s, x);
    FewerOnTheirWay(h.clients, h.servers, x, s);
  }

  lemma NewConnectionHolds<C, K, V>(n: Net<C>, owner: map<C, Owner<K, V>>, servers: map<V, Server<C>>, v: V, s: C, x: set<C>)
    requires ConnectionsHold(n, owner, servers) && NoConnectionHolds(servers, x) && v in servers && Alive(n, s)
    requires s in owner && owner[s] == ServerOwner(v)
    ensures var servers' := servers[v := servers[v].(connections := servers[v].connections[n.chans[s].peerId := s])];
      ConnectionsHold(n, owner, servers') && NoConnectionHolds(servers', x - {s})
  {
  }

  lemma FewerOnTheirWay<C, K, V>(clients: map<K, Client<C>>, servers: map<V, Server<C>>, x: set<C>, c: C)
    ensures NoClientHolds(clients, x) ==> NoClientHolds(clients, x - {c})
    ensures NoConnectionHolds(servers, x) ==> NoConnectionHolds(servers, x - {c})
  {
  }

  lemma StrangersUnheld<C, K, V>(h: Hub<C, K, V>, x: set<C>)
    requires HubInv(h) && forall c :: c in x ==> c !in h.net.chans
    ensures NoClientHolds(h.clients, x) && NoConnectionHolds(h.servers, x)
  {
    hide Inv, ClientsRegistered, ServersRegistered, AllHeldBut;
  }

  lemma PairKeepsHolders<C, K, V>(h: Hub<C, K, V>, s: C, c: C, clientId: uint64, serverId: uint64)
    requires HubInv(h) && s !in h.net.chans && c !in h.net.chans
    ensures var n := Pair(h.net, s, c, clientId, serverId);
      ClientsHold(n, h.owner, h.clients) && ConnectionsHold(n, h.owner, h.servers)
  {
    hide Inv, ClientsRegistered, ServersRegistered, AllHeldBut;
  }

  lemma PairAddsUnheld<C, K, V>(h: Hub<C, K, V>, s: C, c: C, clientId: uint64, serverId: uint64)
    requires HubInv(h) && s !in h.net.chans && c !in h.net.chans && s != c
    ensures HubInvBut(h.(net := Pair(h.net, s, c, clientId, serverId)), {s, c})
  {
    PairKeeps(h.net, s, c, clientId, serverId);
    StrangersUnheld(h, {s, c});
    PairKeepsHolders(h, s, c, clientId, serverId);
    hide Inv, ClientsRegistered, ServersRegistered, ClientsHold, ConnectionsHold, NoClientHolds, NoConnectionHolds;
    var h' := h.(net := Pair(h.net, s, c, clientId, serverId));
    forall y | y in h'.net.chans && h'.net.chans[y].alive && y !in {s, c} ensures Held(h', y) {
      assert Held(h, y);
    }
  }

  lemma EstablishKeeps<C, K, V>(h: Hub<C, K, V>, clientId: uint64, serverId: uint64, s: C, c: C)
    requires HubInv(h) && s !in h.net.chans && c !in h.net.chans && s != c
    ensures clientId in h.clientIds ==> h.clientIds[clientId] in h.clients
    ensures serverId in h.serverIds ==> h.serverIds[serverId] in h.servers
    ensures HubInv(Establish(h, clientId, serverId, s, c))
  {
    RegisteredExist(h, clientId, serverId);
    hide HubInvBut, Destroy;
    if clientId in h.clientIds && serverId in h.serverIds {
      var k, v := h.clientIds[clientId], h.serverIds[serverId];
      var h1 := h.(net := Pair(h.net, s, c, clientId, serverId));
      PairAddsUnheld(h, s, c, clientId, serverId);
      AddChannelKeeps(h1, v, s, {s, c});
      DestroyKeepsLives(h1.net, s);
      var h2 := AddChannel(h1, v, s);
      assert {s, c} - {s} == {c};
      SetChannelKeeps(h2, k, c, {c});
      assert {c} - {c} == {};
    }
  }

  lemma RegisteredExist<C, K, V>(h: Hub<C, K, V>, clientId: uint64, serverId: uint64)
    requires HubInv(h)
    ensures clientId in h.clientIds ==> h.clientIds[clientId] in h.clients
    ensures serverId in h.serverIds ==> h.serverIds[serverId] in h.servers
  {
  }

  lemma ForgetKeeps<C, K, V>(h: Hub<C, K, V>, c: C)
    requires HubInv(h) && Alive(h.net, c)
    ensures c in h.owner && HubInv(Forget(h, c))
  {
    assert Held(h, c);
    match h.owner[c]
    case ClientOwner(k) =>
      ReleaseByClient(h, k, c);
      DeleteUnheld(h.(clients := h.clients[k := h.clients[k].(channel := None)]), c, {c});
      assert {c} - {c} == {};
    case ServerOwner(v) =>
      var id := h.net.chans[c].peerId;
      ReleaseByServer(h, v, id);
      DeleteUnheld(h.(servers := h.servers[v := h.servers[v].(connections := h.servers[v].connections - {id})]), c, {c});
      assert {c} - {c} == {};
  }

  lemma ReleaseByClient<C, K, V>(h: Hub<C, K, V>, k: K, c: C)
    requires HubInv(h) && k in h.clients && h.clients[k].channel == Some(c)
    ensures HubInvBut(h.(clients := h.clients[k := h.clients[k].(channel := None)]), {c})
  {
    hide Inv, ServersRegistered;
    var h' := h.(clients := h.clients[k := h.clients[k].(channel := None)]);
    forall y | y in h.net.chans && h.net.chans[y].alive && y != c ensures Held(h', y) {
      assert Held(h, y);
    }
  }

  lemma ReleaseByServer<C, K, V>(h: Hub<C, K, V>, v: V, id: uint64)
    requires HubInv(h) && v in h.servers && id in h.servers[v].connections
    ensures HubInvBut(h.(servers := h.servers[v := h.servers[v].(connections := h.servers[v].connections - {id})]),
                      {h.servers[v].connections[id]})
  {
    ReleasedByServer(h, v, id);
    ReleasedUnheld(h, v, id);
    ServerKeepsId(h.servers, h.serverIds, v, h.servers[v].(connections := h.servers[v].connections - {id}));
    hide Inv, ClientsRegistered, ServersRegistered, ClientsHold, ConnectionsHold, NoClientHolds, NoConnectionHolds, AllHeldBut;
  }

  lemma ReleasedByServer<C, K, V>(h: Hub<C, K, V>, v: V, id: uint64)
    requires HubInv(h) && v in h.servers && id in h.servers[v].connections
    ensures AllHeldBut(h.(servers := h.servers[v := h.servers[v].(connections := h.servers[v].connections - {id})]),
                       {h.servers[v].connections[id]})
  {
    hide Inv, ClientsRegistered, ServersRegistered;
    var h' := h.(servers := h.servers[v := h.servers[v].(connections := h.servers[v].connections - {id})]);
    forall y | y in h.net.chans && h.net.chans[y].alive && y != h.servers[v].connections[id] ensures Held(h', y) {
      assert Held(h, y);
    }
  }

  lemma ReleasedUnheld<C, K, V>(h: Hub<C, K, V>, v: V, id: uint64)
    requires HubInv(h) && v in h.servers && id in h.servers[v].connections
    ensures var servers := h.servers[v := h.servers[v].(connections := h.servers[v].connections - {id})];
      && ConnectionsHold(h.net, h.owner, servers) && NoConnectionHolds(servers, {h.servers[v].connections[id]})
      && NoClientHolds(h.clients, {h.servers[v].connections[id]})
  {
    hide Inv, ClientsRegistered, ServersRegistered, AllHeldBut;
  }

  lemma ProcessTaskKeeps<C, K, V>(h: Hub<C, K, V>, s: C, c: C)
    requires HubInv(h) && h.net.tasks != [] && s !in h.net.chans && c !in h.net.chans && s != c
    ensures HubInv(ProcessTask(h, s, c))
  {
    ProcessKeeps(h.net);
    ProcessKeepsLives(h.net);
    SameLivesKeep(h, Process(h.net), {});
    hide Inv, Process;
    var h1 := h.(net := Process(h.net));
    match h.net.tasks[0]
    case SendMessageTask(_, _) =>
    case DisconnectTask(x) =>
      if h.net.chans[x].alive {
        ForgetKeeps(h1, x);
      }
    case ConnectToServerTask(i, j) => EstablishKeeps(h1, i, j, s, c);
  }

  lemma ClientUseKeeps<C, K, V>(h: Hub<C, K, V>, k: K, m: Bytes)
    requires HubInv(h) && k in h.clients
    ensures h.clients[k].channel.Some? ==> h.clients[k].channel.value in h.net.chans
    ensures HubInv(ClientSend(h, k, m)) && HubInv(ClientDisconnect(h, k))
  {
    if h.clients[k].channel.Some? {
      var c := h.clients[k].channel.value;
      assert Alive(h.net, c);
      SendKeeps(h.net, c, m);
      SendKeepsLives(h.net, c, m);
      CloseKeeps(h.net, c);
      CloseKeepsLives(h.net, c);
      hide HubInvBut, Inv, SameLives, Send, Close;
      SameLivesKeep(h, Send(h.net, c, m), {});
      SameLivesKeep(h, Close(h.net, c), {});
    }
  }

  lemma ServerSendKeeps<C, K, V>(h: Hub<C, K, V>, v: V, id: uint64, m: Bytes)
    requires HubInv(h) && v in h.servers
    ensures id in h.servers[v].connections ==> h.servers[v].connections[id] in h.net.chans
    ensures HubInv(ServerSend(h, v, id, m))
  {
    if id in h.servers[v].connections {
      var c := h.servers[v].connections[id];
      assert Alive(h.net, c);
      SendKeeps(h.net, c, m);
      SendKeepsLives(h.net, c, m);
      SameLivesKeep(h, Send(h.net, c, m), {});
    }
  }

  lemma ServerCloseKeeps<C, K, V>(h: Hub<C, K, V>, v: V, id: uint64)
    requires HubInv(h) && v in h.servers
    ensures id in h.servers[v].connections ==> h.servers[v].connections[id] in h.net.chans
    ensures HubInv(ServerClose(h, v, id))
  {
    if id in h.servers[v].connections {
      var c := h.servers[v].connections[id];
      assert Alive(h.net, c);
      CloseKeeps(h.net, c);
      CloseKeepsLives(h.net, c);
      hide HubInvBut, Inv, SameLives, Close;
      SameLivesKeep(h, Close(h.net, c), {});
    }
  }

  lemma {:induction false} CloseAllKeeps<C>(n: Net<C>, order: seq<C>)
    requires Inv(n) && forall i :: 0 <= i < |order| ==> order[i] in n.chans
    ensures Inv(CloseAll(n, order)) && SameLives(n, CloseAll(n, order), None)
    decreases |order|
  {
    if order != [] {
      CloseKeeps(n, order[0]);
      CloseKeepsLives(n, order[0]);
      hide Inv, Close;
      CloseAllKeeps(Close(n, order[0]), order[1..]);
    }
  }

  ghost function ChannelsOf<C>(s: Server<C>): set<C> {
    set id | id in s.connections :: s.connections[id]
  }

  lemma OrderInNet<C, K, V>(h: Hub<C, K, V>, v: V, order: seq<C>)
    requires HubInv(h) && v in h.servers && Enumerates(order, h.servers[v].connections)
    ensures forall i :: 0 <= i < |order| ==> order[i] in h.net.chans && h.net.chans[order[i]].alive
    ensures forall c :: c in order <==> c in ChannelsOf(h.servers[v])
  {
    hide Inv, AllHeldBut, ClientsHold, ClientsRegistered, ServersRegistered;
  }

  lemma ServerDisconnectKeeps<C, K, V>(h: Hub<C, K, V>, v: V, order: seq<C>)
    requires HubInv(h) && v in h.servers && Enumerates(order, h.servers[v].connections)
    ensures forall i :: 0 <= i < |order| ==> order[i] in h.net.chans
    ensures HubInv(ServerDisconnect(h, v, order))
  {
    OrderInNet(h, v, order);
    CloseAllKeeps(h.net, order);
    SameLivesKeep(h, CloseAll(h.net, order), {});
    StopListeningKeeps(h.(net := CloseAll(h.net, order)), v);
  }

  lemma StopListeningKeeps<C, K, V>(h: Hub<C, K, V>, v: V)
    requires HubInv(h) && v in h.servers
    ensures HubInv(h.(serverIds := h.serverIds - {h.servers[v].id}, servers := h.servers[v := h.servers[v].(id := 0)]))
  {
    OnlyIdChanged(h, v, 0);
    HeldWhateverIds(h.(servers := h.servers[v := h.servers[v].(id := 0)]), h.serverIds - {h.servers[v].id}, {});
    hide Inv, ClientsRegistered, ClientsHold, ConnectionsHold, AllHeldBut, NoConnectionHolds;
  }

  lemma {:induction false} DestroyAllUnheld<C, K, V>(h: Hub<C, K, V>, order: seq<C>, x: set<C>)
    requires HubInvBut(h, x)
    requires forall i :: 0 <= i < |order| ==> order[i] in x && order[i] in h.net.chans && h.net.chans[order[i]].alive
    requires forall i, j :: 0 <= i < j < |order| ==> order[i] != order[j]
    ensures HubInvBut(h.(net := DestroyAll(h.net, order)), x - Elements(order))
    decreases |order|
  {
    hide HubInvBut, Destroy;
    if order == [] {
      assert x - Elements(order) == x;
    } else {
      var c, rest := order[0], order[1..];
      DeleteUnheld(h, c, x);
      DestroyKeepsLives(h.net, c);
      ElementsSplit(order, x);
      DestroyAllUnheld(h.(net := Destroy(h.net, c)), rest, x - {c});
    }
  }

  ghost function Elements<C>(order: seq<C>): set<C> {
    set c | c in order
  }

  lemma ElementsSplit<C>(order: seq<C>, x: set<C>)
    requires order != []
    ensures x - {order[0]} - Elements(order[1..]) == x - Elements(order)
  {
  }

  lemma ReleaseAll<C, K, V>(h: Hub<C, K, V>, v: V)
    requires HubInv(h) && v in h.servers
    ensures HubInvBut(h.(serverIds := h.serverIds - {h.servers[v].id}, servers := h.servers - {v}), ChannelsOf(h.servers[v]))
  {
    hide Inv, ClientsRegistered;
    var h' := h.(serverIds := h.serverIds - {h.servers[v].id}, servers := h.servers - {v});
    forall y | y in h.net.chans && h.net.chans[y].alive && y !in ChannelsOf(h.servers[v]) ensures Held(h', y) {
      assert Held(h, y);
    }
  }

  lemma DestroyServerKeeps<C, K, V>(h: Hub<C, K, V>, v: V, order: seq<C>)
    requires HubInv(h) && v in h.servers && Enumerates(order, h.servers[v].connections)
    ensures forall i :: 0 <= i < |order| ==> order[i] in h.net.chans
    ensures HubInv(DestroyServer(h, v, order))
  {
    OrderInNet(h, v, order);
    ReleaseAll(h, v);
    hide HubInvBut;
    DestroyAllUnheld(h.(serverIds := h.serverIds - {h.servers[v].id}, servers := h.servers - {v}), order, ChannelsOf(h.servers[v]));
    assert ChannelsOf(h.servers[v]) - Elements(order) == {};
  }

  // ----- runs -----

  datatype HubOp<C, K, V> =
    | NewClientOp(client: K)
    | BindOp(client: K, id: uint64)
    | ConnectOp(client: K, id: uint64)
    | ClientSendOp(client: K, message: Bytes)
    | ClientDisconnectOp(client: K)
    | DestroyClientOp(client: K)
    | NewServerOp(server: V)
    | ListenOp(server: V, id: uint64)
    | ServerSendOp(server: V, id: uint64, message: Bytes)
    | ServerCloseOp(server: V, id: uint64)
    | ServerDisconnectOp(server: V, order: seq<C>)
    | DestroyServerOp(server: V, order: seq<C>)
    | ProcessTaskOp(serverSide: C, clientSide: C)

  // Only existing clients and servers are used; new objects are new.
  ghost predicate HubEnabled<C, K, V>(h: Hub<C, K, V>, op: HubOp<C, K, V>) {
    match op
    case NewClientOp(k) => k !in h.clients
    case NewServerOp(v) => v !in h.servers
    case ListenOp(v, _) => v in h.servers
    case ServerSendOp(v, _, _) => v in h.servers
    case ServerCloseOp(v, _) => v in h.servers
    case ServerDisconnectOp(v, order) => v in h.servers && Enumerates(order, h.servers[v].connections)
    case DestroyServerOp(v, order) => v in h.servers && Enumerates(order, h.servers[v].connections)
    case ProcessTaskOp(s, c) => h.net.tasks != [] && s !in h.net.chans && c !in h.net.chans && s != c
    case _ => op.client in h.clients
  }

  ghost function HubStep<C, K, V>(h: Hub<C, K, V>, op: HubOp<C, K, V>): Hub<C, K, V>
    requires HubInv(h) && HubEnabled(h, op)
  {
    match op
    case NewClientOp(k) => NewClient(h, k)
    case BindOp(k, id) => Bind(h, k, id)
    case ConnectOp(k, id) => ConnectToHost(h, k, id)
    case ClientSendOp(k, m) => ClientUseKeeps(h, k, m); ClientSend(h, k, m)
    case ClientDisconnectOp(k) => ClientUseKeeps(h, k, []); ClientDisconnect(h, k)
    case DestroyClientOp(k) => DestroyClientKeeps(h, k); DestroyClient(h, k)
    case NewServerOp(v) => NewServer(h, v)
    case ListenOp(v, id) => Listen(h, v, id)
    case ServerSendOp(v, id, m) => ServerSendKeeps(h, v, id, m); ServerSend(h, v, id, m)
    case ServerCloseOp(v, id) => ServerCloseKeeps(h, v, id); ServerClose(h, v, id)
    case ServerDisconnectOp(v, order) => OrderInNet(h, v, order); ServerDisconnect(h, v, order)
    case DestroyServerOp(v, order) => OrderInNet(h, v, order); DestroyServer(h, v, order)
    case ProcessTaskOp(s, c) => ProcessTask(h, s, c)
  }

  lemma HubStepKeeps<C, K, V>(h: Hub<C, K, V>, op: HubOp<C, K, V>)
    requires HubInv(h) && HubEnabled(h, op)
    ensures HubInv(HubStep(h, op))
  {
    match op
    case NewClientOp(k) => NewClientKeeps(h, k);
    case BindOp(k, id) => BindKeeps(h, k, id);
    case ConnectOp(k, id) => RequestKeepsBooks(h, k, id);
    case ClientSendOp(k, m) => ClientUseKeeps(h, k, m);
    case ClientDisconnectOp(k) => ClientUseKeeps(h, k, []);
    case DestroyClientOp(k) => DestroyClientKeeps(h, k);
    case NewServerOp(v) => NewServerKeeps(h, v);
    case ListenOp(v, id) => ListenKeeps(h, v, id);
    case ServerSendOp(v, id, m) => ServerSendKeeps(h, v, id, m);
    case ServerCloseOp(v, id) => ServerCloseKeeps(h, v, id);
    case ServerDisconnectOp(v, order) => ServerDisconnectKeeps(h, v, order);
    case DestroyServerOp(v, order) => DestroyServerKeeps(h, v, order);
    case ProcessTaskOp(s, c) => ProcessTaskKeeps(h, s, c);
  }

  ghost predicate HubRun<C, K, V>(h: Hub<C, K, V>, ops: seq<HubOp<C, K, V>>, h': Hub<C, K, V>)
    requires HubInv(h)
    decreases |ops|
  {
    if ops == [] then h' == h
    else
      HubEnabled(h, ops[0]) &&
      (HubStepKeeps(h, ops[0]); HubRun(HubStep(h, ops[0]), ops[1..], h'))
  }

  const NOBODY: Hub<nat, nat, nat> := Hub(Net(map[], []), map[], map[], map[], map[], map[])

  lemma {:induction false} HubRunKeeps<C, K, V>(h: Hub<C, K, V>, ops: seq<HubOp<C, K, V>>, h': Hub<C, K, V>)
    requires HubInv(h) && HubRun(h, ops, h')
    ensures HubInv(h')
    decreases |ops|
  {
    if ops != [] {
      HubStepKeeps(h, ops[0]);
      hide HubStep, HubInv, HubEnabled;
      HubRunKeeps(HubStep(h, ops[0]), ops[1..], h');
    }
  }

  lemma ReachableBooks(ops: seq<HubOp<nat, nat, nat>>, h: Hub<nat, nat, nat>)
    requires HubRun(NOBODY, ops, h)
    ensures HubInv(h)
  {
    HubRunKeeps(NOBODY, ops, h);
  }

  // ----- what the books say -----

  // The registries are exactly the relation between the objects and the non-zero ids they hold.
  lemma RegistriesExact<C, K, V>(h: Hub<C, K, V>, id: uint64, k: K, v: V)
    requires HubInv(h)
    ensures id in h.clientIds && h.clientIds[id] == k <==> k in h.clients && h.clients[k].id == id && id != 0
    ensures id in h.serverIds && h.serverIds[id] == v <==> v in h.servers && h.servers[v].id == id && id != 0
  {
  }

  // What a successful bind and the end of a client do to the registry: the client is found under its new
  // id, or under none, and everybody else under the same id as before.
  lemma RegistryFollowsClient<C, K, V>(h: Hub<C, K, V>, k: K, id: uint64, other: uint64)
    requires HubInv(h) && k in h.clients && id != 0 && id !in h.clientIds && h.clients[k].channel.None?
    ensures var ids := Bind(h, k, id).clientIds;
      && id in ids && ids[id] == k
      && (other != id ==> (other in ids <==> other in h.clientIds && h.clientIds[other] != k))
      && (other != id && other in ids ==> ids[other] == h.clientIds[other])
    ensures var ids := DestroyClient(h, k).clientIds;
      && (other in ids <==> other in h.clientIds && h.clientIds[other] != k)
      && (other in ids ==> ids[other] == h.clientIds[other])
  {
    hide Inv, ServersRegistered, ClientsHold, ConnectionsHold, AllHeldBut;
  }

  lemma RegistryFollowsServer<C, K, V>(h: Hub<C, K, V>, v: V, id: uint64, other: uint64)
    requires HubInv(h) && v in h.servers
    ensures h.servers[v].id == 0 && id != 0 && id !in h.serverIds ==>
              var ids := Listen(h, v, id).serverIds;
              id in ids && ids[id] == v && (other != id ==> (other in ids <==> other in h.serverIds)) &&
              (other != id && other in ids ==> ids[other] == h.serverIds[other])
    ensures var ids := ServerDisconnect(h, v, []).serverIds;
      && (other in ids <==> other in h.serverIds && h.serverIds[other] != v)
      && (other in ids ==> ids[other] == h.serverIds[other])
  {
    hide Inv, ClientsRegistered, ClientsHold, ConnectionsHold, AllHeldBut;
  }

  // The handler of a disconnected channel leaves its owner without it, and the channel is gone.
  lemma ForgottenByOwner<C, K, V>(h: Hub<C, K, V>, c: C)
    requires HubInv(h) && Alive(h.net, c)
    ensures c in h.owner && c in Forget(h, c).net.chans && !Forget(h, c).net.chans[c].alive
    ensures forall x :: x in h.net.chans && x != c && h.net.chans[x].alive ==> Alive(Forget(h, c).net, x)
    ensures match h.owner[c]
      case ClientOwner(k) =>
        && k in h.clients && h.clients[k].channel == Some(c)
        && Forget(h, c).clients == h.clients[k := h.clients[k].(channel := None)] && Forget(h, c).servers == h.servers
      case ServerOwner(v) =>
        && v in h.servers && Forget(h, c).clients == h.clients
        && Forget(h, c).servers ==
           h.servers[v := h.servers[v].(connections := h.servers[v].connections - {h.net.chans[c].peerId})]
  {
    assert Held(h, c);
    DestroyKeepsLives(h.net, c);
    hide Destroy, Inv;
  }

  // A live channel has one holder: the client, or the connection under its peer id.
  lemma OneHolder<C, K, V>(h: Hub<C, K, V>, c: C, k: K, v: V, id: uint64)
    requires HubInv(h) && Alive(h.net, c)
    ensures k in h.clients && h.clients[k].channel == Some(c) <==> h.owner[c] == ClientOwner(k)
    ensures v in h.servers && id in h.servers[v].connections && h.servers[v].connections[id] == c <==>
              h.owner[c] == ServerOwner(v) && id == h.net.chans[c].peerId
    ensures c in h.owner
  {
    assert Held(h, c);
  }

  // Throwing a fresh pair away leaves two tasks for channels that are gone, and nothing else.
  lemma FreshPairDiscarded<C>(n: Net<C>, s: C, c: C, i: uint64, j: uint64)
    requires Inv(n) && s !in n.chans && c !in n.chans && s != c
    ensures var n' := Destroy(Destroy(Pair(n, s, c, i, j), s), c);
      && n'.tasks == n.tasks + [DisconnectTask(c), DisconnectTask(s)]
      && n'.chans.Keys == n.chans.Keys + {s, c}
      && !n'.chans[s].alive && !n'.chans[c].alive
      && (forall x :: x in n.chans ==> n'.chans[x] == n.chans[x] && Agenda(n'.tasks, x) == Agenda(n.tasks, x))
  {
    FreshPairHalved(n, s, c, i, j, c, s);
    var q := Destroy(Pair(n, s, c, i, j), s);
    HalfPairPeer(n, s, c, i, j);
    NobodyToClose(q, c);
    hide Agenda, Inv, ClosePeer, Destroy;
  }

  lemma HalfPairPeer<C>(n: Net<C>, s: C, c: C, i: uint64, j: uint64)
    requires s !in n.chans && c !in n.chans && s != c
    ensures var q := Destroy(Pair(n, s, c, i, j), s); c in q.chans && q.chans[c].peer == Some(s)
  {
    ClosePeerShape(Pair(n, s, c, i, j), s);
    hide ClosePeer;
  }

  // Without a living peer a destroyed channel only lets go.
  lemma NobodyToClose<C>(n: Net<C>, c: C)
    requires c in n.chans && LivePeer(n, c) == None
    ensures Destroy(n, c) == LetGo(n, c)
  {
  }

  // A connection request of a client that already has this connection changes no client, no server,
  // no existing channel and nothing queued for one.
  lemma RepeatedConnect<C, K, V>(h: Hub<C, K, V>, i: uint64, j: uint64, s: C, c: C)
    requires HubInv(h) && h.net.tasks != [] && h.net.tasks[0] == ConnectToServerTask(i, j)
    requires i in h.clientIds && j in h.serverIds
    requires h.clients[h.clientIds[i]].channel.Some? && i in h.servers[h.serverIds[j]].connections
    requires s !in h.net.chans && c !in h.net.chans && s != c
    ensures var h' := ProcessTask(h, s, c);
      && h'.(net := h.net) == h
      && h'.net.tasks == h.net.tasks[1..] + [DisconnectTask(c), DisconnectTask(s)]
      && h'.net.chans.Keys == h.net.chans.Keys + {s, c} && !h'.net.chans[s].alive && !h'.net.chans[c].alive
      && (forall x :: x in h.net.chans ==>
            h'.net.chans[x] == h.net.chans[x] && Agenda(h'.net.tasks, x) == Agenda(h.net.tasks, x))
  {
    var n := Process(h.net);
    ProcessKeeps(h.net);
    FreshPairDiscarded(n, s, c, i, j);
    forall x | x in h.net.chans ensures Agenda(n.tasks, x) == Agenda(h.net.tasks, x) {
      HeadOfAgenda(h.net.tasks, x);
    }
    hide Destroy, Inv;
  }

  // Of a fresh pair one end was taken down: the other is disconnected and has nothing but its disconnection
  // to see, and nothing else has changed.
  ghost predicate HalfMade<C>(n: Net<C>, n': Net<C>, kept: C, gone: C) {
    && n'.chans.Keys == n.chans.Keys + {kept, gone}
    && !n'.chans[gone].alive
    && n'.chans[kept].alive && !n'.chans[kept].connected && n'.chans[kept].log == []
    && Agenda(n'.tasks, kept) == [Closed]
    && (forall x :: x in n.chans ==> n'.chans[x] == n.chans[x] && Agenda(n'.tasks, x) == Agenda(n.tasks, x))
  }

  // Destroying one end of a connected pair.
  lemma OneEndDestroyed<C>(n: Net<C>, kept: C, gone: C)
    requires AllPaired(n) && kept in n.chans && gone in n.chans
    requires n.chans[kept].connected && n.chans[kept].peer == Some(gone)
    ensures var n' := Destroy(n, gone);
      && n'.tasks == n.tasks + [DisconnectTask(kept), DisconnectTask(gone)] && n'.chans.Keys == n.chans.Keys
      && (forall x :: x in n.chans && x != kept && x != gone ==> n'.chans[x] == n.chans[x])
      && n'.chans[kept] == n.chans[kept].(connected := false) && !n'.chans[gone].alive && n'.chans[gone].peer == Some(kept)
  {
    CloseTakesBoth(n, kept);
    hide AllPaired, Close, Off;
    assert ClosePeer(n, gone) == Close(n, kept);
  }

  lemma FreshPairHalved<C>(n: Net<C>, s: C, c: C, i: uint64, j: uint64, kept: C, gone: C)
    requires Inv(n) && s !in n.chans && c !in n.chans && s != c && ((gone == s && kept == c) || (gone == c && kept == s))
    ensures gone in Pair(n, s, c, i, j).chans && HalfMade(n, Destroy(Pair(n, s, c, i, j), gone), kept, gone)
    ensures Destroy(Pair(n, s, c, i, j), gone).tasks == n.tasks + [DisconnectTask(kept), DisconnectTask(gone)]
    ensures Destroy(Pair(n, s, c, i, j), gone).chans[gone].peer == Some(kept)
  {
    hide Agenda, Inv, Destroy, AllPaired;
    PairKeeps(n, s, c, i, j);
    var p := Pair(n, s, c, i, j);
    InvPaired(p);
    OneEndDestroyed(p, kept, gone);
    TwoDisconnections(n.tasks, kept, gone);
    StrangerQuiet(n, kept);
  }

  lemma InvPaired<C>(n: Net<C>)
    requires Inv(n)
    ensures AllPaired(n)
  {
  }

  lemma TwoDisconnections<C>(tasks: seq<Task<C>>, c: C, d: C)
    requires c != d
    ensures forall x ::
      Agenda(tasks + [DisconnectTask(c), DisconnectTask(d)], x) == Agenda(tasks, x) + if x == c || x == d then [Closed] else []
  {
    hide Agenda;
    forall x
      ensures Agenda(tasks + [DisconnectTask(c), DisconnectTask(d)], x) ==
              Agenda(tasks, x) + if x == c || x == d then [Closed] else []
    {
      TwoMoreTasks(tasks, DisconnectTask(c), DisconnectTask(d), x);
    }
  }

  lemma TwoMoreTasks<C>(tasks: seq<Task<C>>, t: Task<C>, u: Task<C>, x: C)
    ensures Agenda(tasks + [t, u], x) == Agenda(tasks, x) + (Effect(t, x) + Effect(u, x))
  {
    hide Agenda;
    AgendaSnoc(tasks, t, x);
    AgendaSnoc(tasks + [t], u, x);
    assert tasks + [t] + [u] == tasks + [t, u];
  }

  lemma StrangerQuiet<C>(n: Net<C>, c: C)
    requires Inv(n) && c !in n.chans
    ensures Agenda(n.tasks, c) == []
  {
    AgendaOfStranger(n.tasks, c);
  }

  // A client k that is connected already asks another server v: the server gets a connection whose other end
  // is gone and whose disconnection is queued; clients, existing channels and their events stay as they were.
  lemma ConnectElsewhere<C, K, V>(h: Hub<C, K, V>, i: uint64, k: K, j: uint64, v: V, s: C, c: C)
    requires HubInv(h) && h.net.tasks != [] && h.net.tasks[0] == ConnectToServerTask(i, j)
    requires i in h.clientIds && h.clientIds[i] == k && j in h.serverIds && h.serverIds[j] == v
    requires k in h.clients && h.clients[k].channel.Some? && v in h.servers && i !in h.servers[v].connections
    requires s !in h.net.chans && c !in h.net.chans && s != c
    ensures var h' := ProcessTask(h, s, c);
      && HalfMade(h.net, h'.net, s, c) && h'.clients == h.clients
      && h'.servers == h.servers[v := h.servers[v].(connections := h.servers[v].connections[i := s])]
      && h'.owner == h.owner[s := ServerOwner(v)]
  {
    var n := Process(h.net);
    ProcessKeeps(h.net);
    FreshPairHalved(n, s, c, i, j, s, c);
    RequestUnseen(h.net);
    hide Destroy, Inv, Agenda;
  }

  // A server v still has a connection under the id of a client k without a channel: the client gets a channel
  // whose other end is gone and whose disconnection is queued; servers, existing channels and their events stay.
  lemma ConnectTooEarly<C, K, V>(h: Hub<C, K, V>, i: uint64, k: K, j: uint64, v: V, s: C, c: C)
    requires HubInv(h) && h.net.tasks != [] && h.net.tasks[0] == ConnectToServerTask(i, j)
    requires i in h.clientIds && h.clientIds[i] == k && j in h.serverIds && h.serverIds[j] == v
    requires k in h.clients && h.clients[k].channel.None? && v in h.servers && i in h.servers[v].connections
    requires s !in h.net.chans && c !in h.net.chans && s != c
    ensures var h' := ProcessTask(h, s, c);
      && HalfMade(h.net, h'.net, c, s) && h'.servers == h.servers
      && h'.clients == h.clients[k := h.clients[k].(channel := Some(c))]
      && h'.owner == h.owner[c := ClientOwner(k)]
  {
    var n := Process(h.net);
    ProcessKeeps(h.net);
    FreshPairHalved(n, s, c, i, j, c, s);
    RequestUnseen(h.net);
    hide Destroy, Inv, Agenda;
  }

  lemma RequestUnseen<C>(n: Net<C>)
    requires n.tasks != [] && n.tasks[0].ConnectToServerTask?
    ensures Process(n).chans == n.chans
    ensures forall x :: Agenda(Process(n).tasks, x) == Agenda(n.tasks, x)
  {
    forall x ensures Agenda(Process(n).tasks, x) == Agenda(n.tasks, x) {
      HeadOfAgenda(n.tasks, x);
    }
  }

  // When the queued disconnection comes up, its holder forgets the channel and destroys it: the connection
  // half-made by either of these is gone again.
  lemma DisconnectionForgets<C, K, V>(h: Hub<C, K, V>, x: C, s: C, c: C)
    requires HubInv(h) && h.net.tasks != [] && h.net.tasks[0] == DisconnectTask(x) && Alive(h.net, x)
    ensures var h' := ProcessTask(h, s, c);
      && x in h'.net.chans && !h'.net.chans[x].alive && x in h.owner
      && (forall y :: y in h.net.chans && y != x && h.net.chans[y].alive ==> Alive(h'.net, y))
      && match h.owner[x]
         case ClientOwner(k) =>
           && k in h.clients && h.clients[k].channel == Some(x)
           && h'.clients == h.clients[k := h.clients[k].(channel := None)] && h'.servers == h.servers
         case ServerOwner(v) =>
           && v in h.servers && h'.clients == h.clients
           && h'.servers ==
              h.servers[v := h.servers[v].(connections := h.servers[v].connections - {h.net.chans[x].peerId})]
  {
    var h1 := h.(net := Process(h.net));
    ProcessKeeps(h.net);
    ProcessKeepsLives(h.net);
    SameLivesKeep(h, Process(h.net), {});
    hide HubInvBut, Inv, Process, Forget;
    ForgottenByOwner(h1, x);
  }

  // A first request makes a connection: both ends hold their channels, which are paired and connected.
  lemma FirstConnect<C, K, V>(h: Hub<C, K, V>, i: uint64, j: uint64, s: C, c: C)
    requires HubInv(h) && h.net.tasks != [] && h.net.tasks[0] == ConnectToServerTask(i, j)
    requires i in h.clientIds && j in h.serverIds
    requires h.clients[h.clientIds[i]].channel.None? && i !in h.servers[h.serverIds[j]].connections
    requires s !in h.net.chans && c !in h.net.chans && s != c
    ensures ProcessTask(h, s, c) == ConnectedHub(h, h.clientIds[i], i, h.serverIds[j], j, s, c)
  {
  }

  ghost function ConnectedHub<C, K, V>(h: Hub<C, K, V>, k: K, i: uint64, v: V, j: uint64, s: C, c: C): Hub<C, K, V>
    requires v in h.servers && h.net.tasks != []
  {
    Hub(Net(h.net.chans[s := Chan(i, Some(c), true, true, 2, [], [])][c := Chan(j, Some(s), true, true, 2, [], [])],
            h.net.tasks[1..]),
        h.owner[s := ServerOwner(v)][c := ClientOwner(k)],
        h.clients[k := Client(i, Some(c))], h.clientIds,
        h.servers[v := Server(j, h.servers[v].connections[i := s])], h.serverIds)
  }
}
