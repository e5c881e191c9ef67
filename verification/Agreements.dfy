// Clients and servers agree on their connections: once the queue is empty, everyone who holds a channel
// is connected, and what it is connected to is held by the other side under the same id.
module Agreements {
  import opened CTypes
  import opened Network
  import opened Connections

  // ----- what holds in every state -----

  // A living channel has a peer, has not been told of a disconnection, and if the peer lives, one of the
  // two belongs to a client and the other to the connection a server has under that client's id.
  ghost predicate Matched<C, K, V>(h: Hub<C, K, V>, c: C)
    requires c in h.net.chans
  {
    var ch := h.net.chans[c];
    && ch.peer.Some? && Closed !in ch.log && c in h.owner
    && (h.owner[c].ServerOwner? ==> ch.peerId != 0)
    && (PeerAlive(h.net, c) ==> ch.peer.value in h.owner && Opposite(h, c, ch.peer.value))
  }

  ghost predicate Opposite<C, K, V>(h: Hub<C, K, V>, c: C, e: C)
    requires c in h.owner && e in h.owner && c in h.net.chans && e in h.net.chans
  {
    match h.owner[c]
    case ClientOwner(k) => h.owner[e].ServerOwner? && k in h.clients && h.clients[k].id == h.net.chans[e].peerId
    case ServerOwner(_) =>
      h.owner[e].ClientOwner? && h.owner[e].client in h.clients && h.clients[h.owner[e].client].id == h.net.chans[c].peerId
  }

  ghost predicate AllMatched<C, K, V>(h: Hub<C, K, V>) {
    forall c :: c in h.net.chans && Alive(h.net, c) ==> Matched(h, c)
  }

  // ----- every step keeps it -----

  // The channels that live in n' lived in n and have seen the same.
  ghost predicate Survivors<C>(n: Net<C>, n': Net<C>) {
    && n'.chans.Keys == n.chans.Keys
    && forall c :: c in n'.chans && Alive(n', c) ==>
         && Alive(n, c) && n'.chans[c].peer == n.chans[c].peer
         && n'.chans[c].peerId == n.chans[c].peerId && n'.chans[c].log == n.chans[c].log
  }

  lemma SendSurvivors<C>(n: Net<C>, c: C, m: Bytes)
    requires c in n.chans
    ensures Survivors(n, Send(n, c, m))
  {
  }

  lemma CloseSurvivors<C>(n: Net<C>, c: C)
    requires c in n.chans
    ensures Survivors(n, Close(n, c))
  {
  }

  lemma DestroySurvivors<C>(n: Net<C>, c: C)
    requires c in n.chans
    ensures Survivors(n, Destroy(n, c)) && !Alive(Destroy(n, c), c)
  {
    var p := LivePeer(n, c);
    if p.Some? {
      CloseSurvivors(n, p.value);
    }
    LetGoSurvivors(ClosePeer(n, c), c);
    hide Close, LetGo;
  }

  lemma LetGoSurvivors<C>(n: Net<C>, c: C)
    requires c in n.chans
    ensures Survivors(n, LetGo(n, c)) && !Alive(LetGo(n, c), c)
  {
  }

  lemma {:induction false} CloseAllSurvivors<C>(n: Net<C>, order: seq<C>)
    requires forall i :: 0 <= i < |order| ==> order[i] in n.chans
    ensures Survivors(n, CloseAll(n, order))
    decreases |order|
  {
    if order != [] {
      CloseSurvivors(n, order[0]);
      CloseAllSurvivors(Close(n, order[0]), order[1..]);
      hide Close;
    }
  }

  lemma {:induction false} DestroyAllSurvivors<C>(n: Net<C>, order: seq<C>)
    requires forall i :: 0 <= i < |order| ==> order[i] in n.chans
    ensures Survivors(n, DestroyAll(n, order))
    decreases |order|
  {
    if order != [] {
      DestroySurvivors(n, order[0]);
      DestroyAllSurvivors(Destroy(n, order[0]), order[1..]);
      hide Destroy;
    }
  }

  // The channels that live in h' lived in h, have the same owner and see the same client's id.
  ghost predicate SameEnds<C, K, V>(h: Hub<C, K, V>, h': Hub<C, K, V>) {
    && h'.owner == h.owner
    && forall c :: c in h.owner && Alive(h'.net, c) && h.owner[c].ClientOwner? && h.owner[c].client in h.clients ==>
         h.owner[c].client in h'.clients && h'.clients[h.owner[c].client].id == h.clients[h.owner[c].client].id
  }

  lemma SurvivorsMatched<C, K, V>(h: Hub<C, K, V>, h': Hub<C, K, V>)
    requires AllMatched(h) && Survivors(h.net, h'.net) && SameEnds(h, h')
    ensures AllMatched(h')
  {
    forall c | c in h'.net.chans && Alive(h'.net, c) ensures Matched(h', c) {
      assert Matched(h, c);
      if PeerAlive(h'.net, c) {
        assert Alive(h'.net, h.net.chans[c].peer.value);
      }
    }
  }

  lemma SurvivorsOnNet<C, K, V>(h: Hub<C, K, V>, n: Net<C>)
    requires AllMatched(h) && Survivors(h.net, n)
    ensures AllMatched(h.(net := n))
  {
    hide AllMatched, Survivors;
    SurvivorsMatched(h, h.(net := n));
  }

  lemma ClientUseMatched<C, K, V>(h: Hub<C, K, V>, k: K, m: Bytes)
    requires HubInv(h) && AllMatched(h) && k in h.clients
    ensures ClientUsable(h, k) && AllMatched(ClientSend(h, k, m)) && AllMatched(ClientDisconnect(h, k))
  {
    ClientHasItsOwn(h, k);
    hide AllMatched, HubInvBut, Send, Close, Survivors;
    if h.clients[k].channel.Some? {
      var c := h.clients[k].channel.value;
      SendSurvivors(h.net, c, m);
      CloseSurvivors(h.net, c);
      SurvivorsOnNet(h, Send(h.net, c, m));
      SurvivorsOnNet(h, Close(h.net, c));
    }
  }

  lemma RequestMatched<C, K, V>(h: Hub<C, K, V>, k: K, id: uint64)
    requires AllMatched(h) && k in h.clients
    ensures AllMatched(ConnectToHost(h, k, id))
  {
    SurvivorsOnNet(h, ConnectToHost(h, k, id).net);
  }

  lemma NewClientMatched<C, K, V>(h: Hub<C, K, V>, k: K)
    requires AllMatched(h) && k !in h.clients
    ensures AllMatched(NewClient(h, k))
  {
    SurvivorsMatched(h, NewClient(h, k));
  }

  lemma BindMatched<C, K, V>(h: Hub<C, K, V>, k: K, id: uint64)
    requires HubInv(h) && AllMatched(h) && k in h.clients
    ensures AllMatched(Bind(h, k, id))
  {
    ClientHasItsOwn(h, k);
    hide AllMatched, HubInvBut;
    SurvivorsMatched(h, Bind(h, k, id));
  }

  lemma DestroyClientMatched<C, K, V>(h: Hub<C, K, V>, k: K)
    requires HubInv(h) && AllMatched(h) && k in h.clients
    ensures ClientUsable(h, k) && AllMatched(DestroyClient(h, k))
  {
    ClientHasItsOwn(h, k);
    if h.clients[k].channel.Some? {
      DestroySurvivors(h.net, h.clients[k].channel.value);
    }
    hide AllMatched, HubInvBut, Destroy;
    SurvivorsMatched(h, DestroyClient(h, k));
  }

  lemma ServerUseMatched<C, K, V>(h: Hub<C, K, V>, v: V, id: uint64, m: Bytes)
    requires HubInv(h) && AllMatched(h) && v in h.servers
    ensures ServerUsable(h, v, id) && AllMatched(ServerSend(h, v, id, m)) && AllMatched(ServerClose(h, v, id))
  {
    ServerSendKeeps(h, v, id, m);
    hide AllMatched, HubInvBut, Send, Close, Survivors;
    if id in h.servers[v].connections {
      var c := h.servers[v].connections[id];
      SendSurvivors(h.net, c, m);
      CloseSurvivors(h.net, c);
      SurvivorsOnNet(h, Send(h.net, c, m));
      SurvivorsOnNet(h, Close(h.net, c));
    }
  }

  lemma ServersMatched<C, K, V>(h: Hub<C, K, V>, v: V, id: uint64)
    requires AllMatched(h)
    ensures AllMatched(NewServer(h, v)) && (v in h.servers ==> AllMatched(Listen(h, v, id)))
  {
    hide AllMatched;
    SurvivorsMatched(h, NewServer(h, v));
    if v in h.servers {
      SurvivorsMatched(h, Listen(h, v, id));
    }
  }

  // A living channel whose handlers lead to client k is the channel of k.
  lemma ClientHasItsOwn<C, K, V>(h: Hub<C, K, V>, k: K)
    requires HubInv(h) && k in h.clients
    ensures ClientUsable(h, k)
    ensures forall c :: c in h.owner && Alive(h.net, c) && h.owner[c] == ClientOwner(k) ==> h.clients[k].channel == Some(c)
  {
    forall c | c in h.owner && Alive(h.net, c) && h.owner[c] == ClientOwner(k) ensures h.clients[k].channel == Some(c) {
      assert Held(h, c);
    }
  }

  lemma ServerDisconnectMatched<C, K, V>(h: Hub<C, K, V>, v: V, order: seq<C>)
    requires HubInv(h) && AllMatched(h) && v in h.servers && Enumerates(order, h.servers[v].connections)
    ensures forall i :: 0 <= i < |order| ==> order[i] in h.net.chans
    ensures AllMatched(ServerDisconnect(h, v, order)) && AllMatched(DestroyServer(h, v, order))
  {
    OrderInNet(h, v, order);
    hide AllMatched, HubInvBut, CloseAll, DestroyAll, Enumerates, Survivors;
    CloseAllSurvivors(h.net, order);
    DestroyAllSurvivors(h.net, order);
    SurvivorsMatched(h, ServerDisconnect(h, v, order));
    SurvivorsMatched(h, DestroyServer(h, v, order));
  }

  // A message or a request leaves the queue: nobody is told of a disconnection.
  lemma ProcessMatched<C, K, V>(h: Hub<C, K, V>)
    requires AllMatched(h) && h.net.tasks != [] && AllKnown(h.net) && !h.net.tasks[0].DisconnectTask?
    ensures AllMatched(h.(net := Process(h.net)))
  {
    var h' := h.(net := Process(h.net));
    forall c | c in h'.net.chans && Alive(h'.net, c) ensures Matched(h', c) {
      assert Matched(h, c);
    }
  }

  // The one that is told of its disconnection goes, the others have not been told.
  lemma DisconnectionMatched<C, K, V>(h: Hub<C, K, V>)
    requires HubInv(h) && AllMatched(h) && h.net.tasks != [] && AllKnown(h.net) && h.net.tasks[0].DisconnectTask?
    ensures var x := h.net.tasks[0].channel; var h1 := h.(net := Process(h.net));
      && x in h.net.chans && x in h1.net.chans
      && (h.net.chans[x].alive ==> x in h.owner && AllMatched(Forget(h1, x)))
      && (!h.net.chans[x].alive ==> AllMatched(h1))
  {
    var x := h.net.tasks[0].channel;
    var h1 := h.(net := Process(h.net));
    ProcessTold(h.net);
    if h.net.chans[x].alive {
      ProcessKeeps(h.net);
      ProcessKeepsLives(h.net);
      SameLivesKeep(h, Process(h.net), {});
      hide HubInvBut, AllMatched, Process, Survivors;
      ForgetShape(h1, x);
      SurvivorsWithout(h.net, h1.net, Forget(h1, x).net, x);
      SurvivorsMatched(h, Forget(h1, x));
    } else {
      hide AllMatched, Process;
      SurvivorsOnNet(h, Process(h.net));
    }
  }

  lemma ProcessTold<C>(n: Net<C>)
    requires n.tasks != [] && AllKnown(n) && n.tasks[0].DisconnectTask?
    ensures var x := n.tasks[0].channel;
      && x in n.chans && AliveBut(n, Process(n), x) && (!n.chans[x].alive ==> Survivors(n, Process(n)))
  {
  }

  // The same channels live, and all but x have seen the same.
  ghost predicate AliveBut<C>(n: Net<C>, n': Net<C>, x: C) {
    && n'.chans.Keys == n.chans.Keys
    && forall c :: c in n.chans && c != x ==>
         && n'.chans[c].alive == n.chans[c].alive && n'.chans[c].peer == n.chans[c].peer
         && n'.chans[c].peerId == n.chans[c].peerId && n'.chans[c].log == n.chans[c].log
  }

  lemma SurvivorsWithout<C>(n: Net<C>, n1: Net<C>, n2: Net<C>, x: C)
    requires AliveBut(n, n1, x) && Survivors(n1, n2) && !Alive(n2, x)
    ensures Survivors(n, n2)
  {
  }

  lemma ForgetShape<C, K, V>(h: Hub<C, K, V>, x: C)
    requires HubInv(h) && Alive(h.net, x)
    ensures x in h.owner && Survivors(h.net, Forget(h, x).net) && !Alive(Forget(h, x).net, x) && SameEnds(h, Forget(h, x))
  {
    assert Held(h, x);
    hide HubInvBut;
    HeldForgotten(h, x);
  }

  lemma HeldForgotten<C, K, V>(h: Hub<C, K, V>, x: C)
    requires Alive(h.net, x) && Held(h, x)
    ensures Survivors(h.net, Forget(h, x).net) && !Alive(Forget(h, x).net, x) && SameEnds(h, Forget(h, x))
  {
    hide Destroy, Survivors;
    DestroySurvivors(h.net, x);
  }

  // ----- a new connection -----

  // What comes of a request that finds both ends: of the two new channels those that live belong to them.
  ghost predicate Made<C, K, V>(h: Hub<C, K, V>, h': Hub<C, K, V>, k: K, v: V, i: uint64, j: uint64, s: C, c: C) {
    && Survivors(Pair(h.net, s, c, i, j), h'.net)
    && (forall x :: x in h.owner && x !in {s, c} ==> x in h'.owner && h'.owner[x] == h.owner[x])
    && (Alive(h'.net, s) ==> s in h'.owner && h'.owner[s] == ServerOwner(v))
    && (Alive(h'.net, c) ==> c in h'.owner && h'.owner[c] == ClientOwner(k))
    && h'.clients.Keys == h.clients.Keys && forall x :: x in h.clients ==> h'.clients[x].id == h.clients[x].id
  }

  lemma AddChannelEnds<C, K, V>(h: Hub<C, K, V>, v: V, s: C)
    requires v in h.servers && s in h.net.chans
    ensures var h' := AddChannel(h, v, s);
      && Survivors(h.net, h'.net) && h'.clients == h.clients
      && ((h'.owner == h.owner && !Alive(h'.net, s)) || h'.owner == h.owner[s := ServerOwner(v)])
  {
    hide Destroy;
    DestroySurvivors(h.net, s);
  }

  lemma SetChannelEnds<C, K, V>(h: Hub<C, K, V>, k: K, c: C)
    requires k in h.clients && c in h.net.chans
    ensures var h' := SetChannel(h, k, c);
      && Survivors(h.net, h'.net)
      && ((h'.owner == h.owner && !Alive(h'.net, c)) || h'.owner == h.owner[c := ClientOwner(k)])
      && h'.clients.Keys == h.clients.Keys && forall x :: x in h.clients ==> h'.clients[x].id == h.clients[x].id
  {
    hide Destroy;
    DestroySurvivors(h.net, c);
  }

  lemma EstablishMakes<C, K, V>(h: Hub<C, K, V>, i: uint64, j: uint64, s: C, c: C)
    requires i in h.clientIds && h.clientIds[i] in h.clients && j in h.serverIds && h.serverIds[j] in h.servers
    requires s !in h.net.chans && c !in h.net.chans && s != c
    ensures Made(h, Establish(h, i, j, s, c), h.clientIds[i], h.serverIds[j], i, j, s, c)
  {
    hide Pair, AddChannel, SetChannel, Survivors;
    var h1 := h.(net := Pair(h.net, s, c, i, j));
    PairAdds(h.net, s, c, i, j);
    AddChannelEnds(h1, h.serverIds[j], s);
    var h2 := AddChannel(h1, h.serverIds[j], s);
    SurvivorsKeys(h1.net, h2.net);
    SetChannelEnds(h2, h.clientIds[i], c);
    SurvivorsOfSurvivors(h1.net, h2.net, SetChannel(h2, h.clientIds[i], c).net);
  }

  lemma SurvivorsKeys<C>(n: Net<C>, n': Net<C>)
    requires Survivors(n, n')
    ensures n'.chans.Keys == n.chans.Keys
  {
  }

  lemma SurvivorsOfSurvivors<C>(n: Net<C>, n1: Net<C>, n2: Net<C>)
    requires Survivors(n, n1) && Survivors(n1, n2)
    ensures Survivors(n, n2) && forall c :: c in n2.chans && Alive(n2, c) ==> Alive(n1, c)
  {
  }

  lemma PairAdds<C>(n: Net<C>, s: C, c: C, i: uint64, j: uint64)
    ensures Pair(n, s, c, i, j).chans.Keys == n.chans.Keys + {s, c}
  {
  }

  lemma MadeMatched<C, K, V>(h: Hub<C, K, V>, h': Hub<C, K, V>, k: K, v: V, i: uint64, j: uint64, s: C, c: C)
    requires AllPaired(h.net) && AllMatched(h) && Made(h, h', k, v, i, j, s, c)
    requires s !in h.net.chans && c !in h.net.chans && s != c && i != 0 && k in h.clients && h.clients[k].id == i
    ensures AllMatched(h')
  {
    forall x | x in h'.net.chans && Alive(h'.net, x) ensures Matched(h', x) {
      if x !in {s, c} {
        assert Matched(h, x) && Paired(h.net, x);
      }
    }
  }

  lemma EstablishMatched<C, K, V>(h: Hub<C, K, V>, i: uint64, j: uint64, s: C, c: C)
    requires HubInv(h) && AllMatched(h) && s !in h.net.chans && c !in h.net.chans && s != c
    ensures i in h.clientIds ==> h.clientIds[i] in h.clients
    ensures j in h.serverIds ==> h.serverIds[j] in h.servers
    ensures AllMatched(Establish(h, i, j, s, c))
  {
    RegisteredExist(h, i, j);
    if i in h.clientIds && j in h.serverIds {
      var k, v := h.clientIds[i], h.serverIds[j];
      EstablishMakes(h, i, j, s, c);
      hide AllMatched, Made, Establish;
      MadeMatched(h, Establish(h, i, j, s, c), k, v, i, j, s, c);
    }
  }

  lemma ProcessTaskMatched<C, K, V>(h: Hub<C, K, V>, s: C, c: C)
    requires HubInv(h) && AllMatched(h) && h.net.tasks != [] && s !in h.net.chans && c !in h.net.chans && s != c
    ensures AllMatched(ProcessTask(h, s, c))
  {
    var h1 := h.(net := Process(h.net));
    ProcessKeeps(h.net);
    ProcessKeepsLives(h.net);
    SameLivesKeep(h, Process(h.net), {});
    hide Process, AllMatched, Establish, Forget;
    match h.net.tasks[0]
    case SendMessageTask(_, _) => ProcessMatched(h);
    case DisconnectTask(x) => DisconnectionMatched(h);
    case ConnectToServerTask(i, j) =>
      ProcessMatched(h);
      EstablishMatched(h1, i, j, s, c);
  }

  // ----- runs -----

  lemma HubStepMatched<C, K, V>(h: Hub<C, K, V>, op: HubOp<C, K, V>)
    requires HubInv(h) && AllMatched(h) && HubEnabled(h, op)
    ensures AllMatched(HubStep(h, op))
  {
    hide HubInvBut, AllMatched, Enumerates;
    match op
    case NewClientOp(k) => NewClientMatched(h, k);
    case BindOp(k, id) => BindMatched(h, k, id);
    case ConnectOp(k, id) => RequestMatched(h, k, id);
    case ClientSendOp(k, m) => ClientUseMatched(h, k, m);
    case ClientDisconnectOp(k) => ClientUseMatched(h, k, []);
    case DestroyClientOp(k) => DestroyClientMatched(h, k);
    case NewServerOp(v) => ServersMatched(h, v, 0);
    case ListenOp(v, id) => ServersMatched(h, v, id);
    case ServerSendOp(v, id, m) => ServerUseMatched(h, v, id, m);
    case ServerCloseOp(v, id) => ServerUseMatched(h, v, id, []);
    case ServerDisconnectOp(v, order) => ServerDisconnectMatched(h, v, order);
    case DestroyServerOp(v, order) => ServerDisconnectMatched(h, v, order);
    case ProcessTaskOp(s, c) => ProcessTaskMatched(h, s, c);
  }

  lemma {:induction false} HubRunMatched<C, K, V>(h: Hub<C, K, V>, ops: seq<HubOp<C, K, V>>, h': Hub<C, K, V>)
    requires HubInv(h) && AllMatched(h) && HubRun(h, ops, h')
    ensures HubInv(h') && AllMatched(h')
    decreases |ops|
  {
    if ops != [] {
      HubStepKeeps(h, ops[0]);
      HubStepMatched(h, ops[0]);
      hide HubStep, HubInv, HubEnabled, AllMatched;
      HubRunMatched(HubStep(h, ops[0]), ops[1..], h');
    }
  }

  // ----- once the queue is empty -----

  // Client k is connected, and the other end is the connection some server has under the id of k.
  ghost predicate ClientConnected<C, K, V>(h: Hub<C, K, V>, k: K)
    requires k in h.clients && h.clients[k].channel.Some?
  {
    var c, id := h.clients[k].channel.value, h.clients[k].id;
    && c in h.net.chans && h.net.chans[c].connected
    && exists v :: v in h.servers && id in h.servers[v].connections && h.net.chans[c].peer == Some(h.servers[v].connections[id])
  }

  // The connection of server v under id is connected, and the other end is the channel of the client bound to id.
  ghost predicate ServerConnected<C, K, V>(h: Hub<C, K, V>, v: V, id: uint64)
    requires v in h.servers && id in h.servers[v].connections
  {
    var e := h.servers[v].connections[id];
    && e in h.net.chans && h.net.chans[e].connected
    && id in h.clientIds && h.clientIds[id] in h.clients && h.net.chans[e].peer == h.clients[h.clientIds[id]].channel
  }

  lemma ClosedInScript<C>(ch: Chan<C>)
    ensures ch.peer.Some? && !ch.connected ==> Closed in Script(ch)
  {
    if ch.peer.Some? && !ch.connected {
      assert Script(ch)[|ch.accepted|] == Closed;
    }
  }

  // A living channel that nothing is queued for is connected, and its peer lives and is connected too.
  lemma QuietConnected<C, K, V>(h: Hub<C, K, V>, c: C)
    requires HubInv(h) && AllMatched(h) && h.net.tasks == [] && Alive(h.net, c)
    ensures h.net.chans[c].connected && PeerAlive(h.net, c)
  {
    var ch := h.net.chans[c];
    ClosedInScript(ch);
    assert Matched(h, c) && Paired(h.net, c) && InOrder(ch, Agenda(h.net.tasks, c));
    assert Script(ch) == ch.log + [] == ch.log;
    assert Paired(h.net, ch.peer.value);
  }

  lemma QuietAgreement<C, K, V>(h: Hub<C, K, V>)
    requires HubInv(h) && AllMatched(h) && h.net.tasks == []
    ensures forall k :: k in h.clients && h.clients[k].channel.Some? ==> ClientConnected(h, k)
    ensures forall v, id :: v in h.servers && id in h.servers[v].connections ==> ServerConnected(h, v, id)
  {
    forall k | k in h.clients && h.clients[k].channel.Some? ensures ClientConnected(h, k) {
      var c := h.clients[k].channel.value;
      QuietConnected(h, c);
      assert Matched(h, c) && Held(h, h.net.chans[c].peer.value);
    }
    forall v, id | v in h.servers && id in h.servers[v].connections ensures ServerConnected(h, v, id) {
      var e := h.servers[v].connections[id];
      QuietConnected(h, e);
      assert Matched(h, e) && Held(h, h.net.chans[e].peer.value);
    }
  }

  // After any run of clients and servers from nothing: when the queue has been worked off, clients and
  // servers agree on who is connected to whom, and nobody is left with a channel that is not connected.
  lemma ReachableAgreement(ops: seq<HubOp<nat, nat, nat>>, h: Hub<nat, nat, nat>)
    requires HubRun(NOBODY, ops, h) && h.net.tasks == []
    ensures forall k :: k in h.clients && h.clients[k].channel.Some? ==> ClientConnected(h, k)
    ensures forall v, id :: v in h.servers && id in h.servers[v].connections ==> ServerConnected(h, v, id)
  {
    HubRunMatched(NOBODY, ops, h);
    QuietAgreement(h);
  }
}
