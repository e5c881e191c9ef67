// What the operations of the channels, the clients and the servers do, told in the rows and the tasks
// themselves, for every state that keeps the books.
module Effects {
  import opened CTypes
  import opened Network
  import opened Connections

  // Of all the rows those of x alone may have changed, and in these no more than the flags, the counter
  // and what was accepted.
  ghost predicate OnlyAt<C>(n: Net<C>, n': Net<C>, x: set<C>) {
    && n'.chans.Keys == n.chans.Keys
    && (forall c :: c in n.chans && c !in x ==> n'.chans[c] == n.chans[c])
    && (forall c :: c in n.chans ==>
          n'.chans[c].peerId == n.chans[c].peerId && n'.chans[c].peer == n.chans[c].peer && n'.chans[c].log == n.chans[c].log)
  }

  // Channel c and its peer go off and are told, in this order; one that is not connected stays as it is.
  ghost predicate BothOff<C>(n: Net<C>, c: C, n': Net<C>)
    requires c in n.chans
  {
    if n.chans[c].connected then
      && n.chans[c].peer.Some? && n.chans[c].peer.value in n.chans && var p := n.chans[c].peer.value;
      && p != c && n.chans[p].connected && OnlyAt(n, n', {c, p})
      && !n'.chans[c].connected && !n'.chans[p].connected
      && n'.tasks == n.tasks + [DisconnectTask(c), DisconnectTask(p)]
      && forall x :: x in n.chans ==> n'.chans[x].alive == n.chans[x].alive && n'.chans[x].accepted == n.chans[x].accepted
    else n' == n
  }

  // Channel c is gone; if it was connected both ends go off, with a task for the peer first.
  ghost predicate Gone<C>(n: Net<C>, c: C, n': Net<C>)
    requires c in n.chans
  {
    && OnlyAt(n, n', {c} + if n.chans[c].peer.Some? then {n.chans[c].peer.value} else {})
    && (forall x :: x in n.chans ==>
          n'.chans[x].alive == (n.chans[x].alive && x != c) && n'.chans[x].accepted == n.chans[x].accepted)
    && if n.chans[c].connected then
         && n.chans[c].peer.Some? && n.chans[c].peer.value in n.chans && var p := n.chans[c].peer.value;
         && p != c && n.chans[p].connected
         && !n'.chans[c].connected && !n'.chans[p].connected
         && n'.tasks == n.tasks + [DisconnectTask(p), DisconnectTask(c)]
       else
         n'.tasks == n.tasks && forall x :: x in n.chans ==> n'.chans[x].connected == n.chans[x].connected
  }

  // ----- channels -----

  // A message is queued for the peer of a connected channel, behind those accepted before; from a
  // channel that is not connected it is lost.
  lemma SendSays<C>(n: Net<C>, c: C, m: Bytes)
    requires Inv(n) && c in n.chans
    ensures !n.chans[c].connected ==> Send(n, c, m) == n
    ensures n.chans[c].connected ==>
              n.chans[c].peer.Some? && n.chans[c].peer.value in n.chans && n.chans[c].peer.value != c
    ensures n.chans[c].connected ==>
              var n', p := Send(n, c, m), n.chans[c].peer.value;
              && n'.tasks == n.tasks + [SendMessageTask(m, p)] && OnlyAt(n, n', {p})
              && n'.chans[p] == n.chans[p].(accepted := n.chans[p].accepted + [m], refs := n.chans[p].refs + 1)
  {
    assert Paired(n, c);
    if n.chans[c].connected {
      assert Paired(n, n.chans[c].peer.value);
    }
  }

  lemma CloseSays<C>(n: Net<C>, c: C)
    requires Inv(n) && c in n.chans
    ensures BothOff(n, c, Close(n, c))
  {
    if n.chans[c].connected {
      CloseTakesBoth(n, c);
    }
  }

  lemma ClosePeerIsClose<C>(n: Net<C>, c: C)
    requires Inv(n) && c in n.chans
    ensures !n.chans[c].connected ==> ClosePeer(n, c) == n
    ensures n.chans[c].connected ==>
              n.chans[c].peer.Some? && n.chans[c].peer.value in n.chans && n.chans[c].peer.value != c
    ensures n.chans[c].connected ==>
              var p := n.chans[c].peer.value;
              && n.chans[p].alive && n.chans[p].connected && n.chans[p].peer == Some(c)
              && ClosePeer(n, c) == Close(n, p)
  {
    hide InOrder, Counted;
    assert Paired(n, c);
    if LivePeer(n, c).Some? {
      assert Paired(n, LivePeer(n, c).value);
    }
  }

  lemma LetGoSays<C>(n: Net<C>, c: C)
    requires c in n.chans
    ensures var n' := LetGo(n, c);
      && n'.tasks == n.tasks
      && OnlyAt(n, n', {c} + if n.chans[c].peer.Some? then {n.chans[c].peer.value} else {})
      && forall x :: x in n.chans ==>
           n'.chans[x].alive == (n.chans[x].alive && x != c) && n'.chans[x].accepted == n.chans[x].accepted &&
           n'.chans[x].connected == n.chans[x].connected
  {
  }

  lemma DestroySays<C>(n: Net<C>, c: C)
    requires Inv(n) && c in n.chans
    ensures Gone(n, c, Destroy(n, c))
  {
    hide Inv, Close, ClosePeer, LetGo;
    ClosePeerIsClose(n, c);
    if n.chans[c].connected {
      CloseSays(n, n.chans[c].peer.value);
    }
    LetGoSays(ClosePeer(n, c), c);
  }

  // The first task leaves the queue, and a living channel sees its event.
  lemma ProcessSays<C>(n: Net<C>)
    requires Inv(n) && n.tasks != []
    ensures n.tasks == [n.tasks[0]] + Process(n).tasks && Process(n).chans.Keys == n.chans.Keys
    ensures forall x :: x in n.chans ==>
              var t, ch, ch' := n.tasks[0], n.chans[x], Process(n).chans[x];
              && ch' == ch.(refs := ch'.refs, log := ch'.log)
              && ch'.log == ch.log + if ch.alive && t == DisconnectTask(x) then [Closed]
                                     else if ch.alive && t.SendMessageTask? && t.channel == x then [Got(t.message)]
                                     else []
  {
    hide InOrder, Counted, Paired;
    forall x | x in n.chans
      ensures var t, ch, ch' := n.tasks[0], n.chans[x], Process(n).chans[x];
        && ch' == ch.(refs := ch'.refs, log := ch'.log)
        && ch'.log == ch.log + if ch.alive && t == DisconnectTask(x) then [Closed]
                               else if ch.alive && t.SendMessageTask? && t.channel == x then [Got(t.message)]
                               else []
    {
      ProcessedRow(n, x);
      hide Process;
    }
  }

  // ----- clients -----

  // A bind succeeds for an id that is not 0 and not taken, as long as there is no channel: the client is
  // found under that id, no longer under the one before, and nothing else changes.
  lemma BindSays<C, K, V>(h: Hub<C, K, V>, k: K, id: uint64)
    requires HubInv(h) && k in h.clients
    ensures id == 0 || id in h.clientIds || h.clients[k].channel.Some? ==> Bind(h, k, id) == h
    ensures id != 0 && id !in h.clientIds && h.clients[k].channel.None? ==>
              var h' := Bind(h, k, id);
              && h' == h.(clients := h'.clients, clientIds := h'.clientIds)
              && h'.clients == h.clients[k := Client(id, None)]
              && (forall i :: i in h'.clientIds <==> i == id || (i in h.clientIds && h.clientIds[i] != k))
              && (forall i :: i in h'.clientIds ==> h'.clientIds[i] == if i == id then k else h.clientIds[i])
  {
    hide Inv, ServersRegistered, ClientsHold, ConnectionsHold, AllHeldBut;
  }

  // A request is queued if both the client and the request have an id.
  lemma ConnectToHostSays<C, K, V>(h: Hub<C, K, V>, k: K, serverId: uint64)
    requires k in h.clients
    ensures var h' := ConnectToHost(h, k, serverId);
      if h.clients[k].id == 0 || serverId == 0 then h' == h
      else h' == h.(net := Net(h.net.chans, h.net.tasks + [ConnectToServerTask(h.clients[k].id, serverId)]))
  {
  }

  // What a client sends goes to the channel of its peer.
  lemma ClientSendSays<C, K, V>(h: Hub<C, K, V>, k: K, m: Bytes)
    requires HubInv(h) && k in h.clients
    ensures ClientUsable(h, k) && ClientSend(h, k, m) == h.(net := ClientSend(h, k, m).net)
    ensures match h.clients[k].channel
      case None => ClientSend(h, k, m).net == h.net
      case Some(c) =>
        var n, n' := h.net, ClientSend(h, k, m).net;
        if n.chans[c].connected then
          && n.chans[c].peer.Some? && n.chans[c].peer.value in n.chans && var p := n.chans[c].peer.value;
          && n'.tasks == n.tasks + [SendMessageTask(m, p)] && OnlyAt(n, n', {p})
          && n'.chans[p].accepted == n.chans[p].accepted + [m]
        else n' == n
  {
    ClientChannel(h, k);
    hide HubInvBut, Inv, Send, Paired;
    if h.clients[k].channel.Some? {
      SendSays(h.net, h.clients[k].channel.value, m);
    }
  }

  // The client's channel and its peer go off, and both are told.
  lemma ClientDisconnectSays<C, K, V>(h: Hub<C, K, V>, k: K)
    requires HubInv(h) && k in h.clients
    ensures ClientUsable(h, k) && ClientDisconnect(h, k) == h.(net := ClientDisconnect(h, k).net)
    ensures match h.clients[k].channel
      case None => ClientDisconnect(h, k).net == h.net
      case Some(c) => BothOff(h.net, c, ClientDisconnect(h, k).net)
  {
    ClientChannel(h, k);
    hide HubInvBut, Inv, Close, BothOff;
    if h.clients[k].channel.Some? {
      CloseSays(h.net, h.clients[k].channel.value);
    }
  }

  lemma ClientChannel<C, K, V>(h: Hub<C, K, V>, k: K)
    requires HubInv(h) && k in h.clients
    ensures Inv(h.net) && (h.clients[k].channel.Some? ==> h.clients[k].channel.value in h.net.chans)
  {
    hide Inv, AllHeldBut, ConnectionsHold;
    assert h.clients[k].channel.Some? ==> Alive(h.net, h.clients[k].channel.value);
  }

  // With a client goes its id and its channel; a connected peer goes off and is told.
  lemma DestroyClientSays<C, K, V>(h: Hub<C, K, V>, k: K)
    requires HubInv(h) && k in h.clients
    ensures ClientUsable(h, k)
    ensures var h' := DestroyClient(h, k);
      && h' == h.(net := h'.net, clients := h.clients - {k}, clientIds := h'.clientIds)
      && (forall i :: i in h'.clientIds <==> i in h.clientIds && h.clientIds[i] != k)
      && (forall i :: i in h'.clientIds ==> h'.clientIds[i] == h.clientIds[i])
      && match h.clients[k].channel
         case None => h'.net == h.net
         case Some(c) => Gone(h.net, c, h'.net)
  {
    ClientChannel(h, k);
    IdOfClient(h, k);
    hide HubInvBut, Inv, Destroy, Gone;
    if h.clients[k].channel.Some? {
      DestroySays(h.net, h.clients[k].channel.value);
    }
  }

  lemma IdOfClient<C, K, V>(h: Hub<C, K, V>, k: K)
    requires HubInv(h) && k in h.clients
    ensures forall i :: i in h.clientIds ==> (h.clientIds[i] == k <==> i == h.clients[k].id)
  {
    hide Inv, AllHeldBut, ConnectionsHold, ClientsHold;
  }

  // ----- servers -----

  // A server that is not listening listens on an id that is not 0 and not taken, and nothing else changes.
  lemma ListenSays<C, K, V>(h: Hub<C, K, V>, v: V, id: uint64)
    requires v in h.servers
    ensures var h' := Listen(h, v, id);
      if id == 0 || id in h.serverIds || h.servers[v].id != 0 then h' == h
      else h' == h.(servers := h.servers[v := Server(id, h.servers[v].connections)], serverIds := h.serverIds[id := v])
  {
  }

  lemma ConnectionChannel<C, K, V>(h: Hub<C, K, V>, v: V, id: uint64)
    requires HubInv(h) && v in h.servers && id in h.servers[v].connections
    ensures Inv(h.net) && h.servers[v].connections[id] in h.net.chans
  {
    hide Inv, AllHeldBut, ClientsHold;
    assert Alive(h.net, h.servers[v].connections[id]);
  }

  // What a server sends over the connection of a client goes to the channel of its peer.
  lemma ServerSendSays<C, K, V>(h: Hub<C, K, V>, v: V, id: uint64, m: Bytes)
    requires HubInv(h) && v in h.servers
    ensures ServerUsable(h, v, id) && ServerSend(h, v, id, m) == h.(net := ServerSend(h, v, id, m).net)
    ensures id !in h.servers[v].connections ==> ServerSend(h, v, id, m).net == h.net
    ensures id in h.servers[v].connections ==>
              var n, n', c := h.net, ServerSend(h, v, id, m).net, h.servers[v].connections[id];
              if n.chans[c].connected then
                && n.chans[c].peer.Some? && n.chans[c].peer.value in n.chans && var p := n.chans[c].peer.value;
                && n'.tasks == n.tasks + [SendMessageTask(m, p)] && OnlyAt(n, n', {p})
                && n'.chans[p].accepted == n.chans[p].accepted + [m]
              else n' == n
  {
    hide HubInvBut, Inv, Send, Paired;
    if id in h.servers[v].connections {
      ConnectionChannel(h, v, id);
      SendSays(h.net, h.servers[v].connections[id], m);
    }
  }

  // The channel of the client's connection and its peer go off, and both are told.
  lemma ServerCloseSays<C, K, V>(h: Hub<C, K, V>, v: V, id: uint64)
    requires HubInv(h) && v in h.servers
    ensures ServerUsable(h, v, id) && ServerClose(h, v, id) == h.(net := ServerClose(h, v, id).net)
    ensures id !in h.servers[v].connections ==> ServerClose(h, v, id).net == h.net
    ensures id in h.servers[v].connections ==> BothOff(h.net, h.servers[v].connections[id], ServerClose(h, v, id).net)
  {
    hide HubInvBut, Inv, Close, BothOff;
    if id in h.servers[v].connections {
      ConnectionChannel(h, v, id);
      CloseSays(h.net, h.servers[v].connections[id]);
    }
  }

  lemma IdOfServer<C, K, V>(h: Hub<C, K, V>, v: V)
    requires HubInv(h) && v in h.servers
    ensures forall i :: i in h.serverIds ==> (h.serverIds[i] == v <==> i == h.servers[v].id)
  {
    hide Inv, AllHeldBut, ConnectionsHold, ClientsHold;
  }

  // x is connected and it or its peer is among these channels.
  ghost predicate Struck<C>(n: Net<C>, order: seq<C>, x: C)
    requires x in n.chans
  {
    n.chans[x].connected && (x in order || (n.chans[x].peer.Some? && n.chans[x].peer.value in order))
  }

  // All these channels and their peers go off, and each that was connected is told once; those of dead are gone.
  ghost predicate AllOff<C>(n: Net<C>, order: seq<C>, n': Net<C>, dead: set<C>) {
    && n'.chans.Keys == n.chans.Keys && n.tasks <= n'.tasks
    && (forall i :: |n.tasks| <= i < |n'.tasks| ==> n'.tasks[i].DisconnectTask?)
    && forall x :: x in n.chans ==>
         var ch, ch' := n.chans[x], n'.chans[x];
         && ch' == ch.(connected := ch'.connected, alive := ch'.alive, refs := ch'.refs)
         && ch'.connected == (ch.connected && !Struck(n, order, x))
         && ch'.alive == (ch.alive && x !in dead)
         && multiset(n'.tasks[|n.tasks|..])[DisconnectTask(x)] == One(Struck(n, order, x))
  }

  lemma StruckPair<C>(n: Net<C>, c: C)
    requires Inv(n) && c in n.chans
    ensures n.chans[c].connected ==> n.chans[c].peer.Some?
    ensures forall x :: x in n.chans ==>
              (Struck(n, [c], x) <==> n.chans[c].connected && (x == c || x == n.chans[c].peer.value))
  {
    hide InOrder, Counted;
    assert Paired(n, c);
    forall x | x in n.chans
      ensures Struck(n, [c], x) <==> n.chans[c].connected && (x == c || x == n.chans[c].peer.value)
    {
      assert Paired(n, x);
    }
  }

  lemma TwoTasks<C>(tasks: seq<Task<C>>, c: C, d: C, tasks': seq<Task<C>>)
    requires tasks' == tasks + [DisconnectTask(c), DisconnectTask(d)] && c != d
    ensures tasks <= tasks' && forall i :: |tasks| <= i < |tasks'| ==> tasks'[i].DisconnectTask?
    ensures forall x :: multiset(tasks'[|tasks|..])[DisconnectTask(x)] == One(x == c || x == d)
  {
    assert tasks'[|tasks|..] == [DisconnectTask(c), DisconnectTask(d)];
  }

  lemma CloseStrikes<C>(n: Net<C>, c: C)
    requires Inv(n) && c in n.chans
    ensures AllOff(n, [c], Close(n, c), {})
  {
    hide Close, Inv, Struck;
    CloseSays(n, c);
    StruckPair(n, c);
    if n.chans[c].connected {
      TwoTasks(n.tasks, c, n.chans[c].peer.value, Close(n, c).tasks);
    } else {
      assert n.tasks[|n.tasks|..] == [];
    }
  }

  lemma DestroyStrikes<C>(n: Net<C>, c: C)
    requires Inv(n) && c in n.chans
    ensures AllOff(n, [c], Destroy(n, c), {c})
  {
    hide Destroy, Inv, Struck;
    DestroySays(n, c);
    StruckPair(n, c);
    if n.chans[c].connected {
      TwoTasks(n.tasks, n.chans[c].peer.value, c, Destroy(n, c).tasks);
    } else {
      assert n.tasks[|n.tasks|..] == [];
    }
  }

  lemma OneMoreStruck<C>(n: Net<C>, c: C, n1: Net<C>, order: seq<C>, n': Net<C>, dead: set<C>, more: set<C>)
    requires AllOff(n, [c], n1, dead) && AllOff(n1, order, n', more)
    ensures AllOff(n, [c] + order, n', dead + more)
  {
    var d, e := n1.tasks[|n.tasks|..], n'.tasks[|n1.tasks|..];
    assert n'.tasks[|n.tasks|..] == d + e;
    forall x | x in n.chans ensures Struck(n, [c] + order, x) <==> Struck(n, [c], x) || Struck(n1, order, x) {
    }
  }

  lemma {:induction false} CloseAllSays<C>(n: Net<C>, order: seq<C>)
    requires Inv(n) && forall i :: 0 <= i < |order| ==> order[i] in n.chans
    ensures AllOff(n, order, CloseAll(n, order), {})
    decreases |order|
  {
    hide Inv, Close;
    if order == [] {
      assert n.tasks[|n.tasks|..] == [];
    } else {
      var c := order[0];
      CloseKeeps(n, c);
      CloseStrikes(n, c);
      CloseAllSays(Close(n, c), order[1..]);
      OneMoreStruck(n, c, Close(n, c), order[1..], CloseAll(n, order), {}, {});
      assert [c] + order[1..] == order;
    }
  }

  lemma {:induction false} DestroyAllSays<C>(n: Net<C>, order: seq<C>)
    requires Inv(n) && forall i :: 0 <= i < |order| ==> order[i] in n.chans && n.chans[order[i]].alive
    requires forall i, j :: 0 <= i < j < |order| ==> order[i] != order[j]
    ensures AllOff(n, order, DestroyAll(n, order), Elements(order))
    decreases |order|
  {
    hide Inv, Destroy;
    if order == [] {
      assert n.tasks[|n.tasks|..] == [];
    } else {
      var c := order[0];
      DestroyKeeps(n, c);
      DestroyStrikes(n, c);
      DestroyAllSays(Destroy(n, c), order[1..]);
      OneMoreStruck(n, c, Destroy(n, c), order[1..], DestroyAll(n, order), {c}, Elements(order[1..]));
      assert [c] + order[1..] == order;
      assert {c} + Elements(order[1..]) == Elements(order);
    }
  }

  // Every connection of the server goes off with its peer, and both are told; the server listens no more.
  lemma ServerDisconnectSays<C, K, V>(h: Hub<C, K, V>, v: V, order: seq<C>, id: uint64)
    requires HubInv(h) && v in h.servers && Enumerates(order, h.servers[v].connections)
    ensures forall i :: 0 <= i < |order| ==> order[i] in h.net.chans
    ensures var h' := ServerDisconnect(h, v, order);
      && h' == h.(net := h'.net, servers := h.servers[v := Server(0, h.servers[v].connections)], serverIds := h'.serverIds)
      && (forall i :: i in h'.serverIds <==> i in h.serverIds && h.serverIds[i] != v)
      && (forall i :: i in h'.serverIds ==> h'.serverIds[i] == h.serverIds[i])
      && AllOff(h.net, order, h'.net, {})
    ensures id in h.servers[v].connections ==> Told(h.net, h.servers[v].connections[id], ServerDisconnect(h, v, order).net)
  {
    ServerOrder(h, v, order);
    IdOfServer(h, v);
    hide HubInvBut, Inv, CloseAll, AllOff, Enumerates, Told;
    CloseAllSays(h.net, order);
    if id in h.servers[v].connections {
      StruckIsTold(h.net, order, CloseAll(h.net, order), {}, h.servers[v].connections[id]);
    }
  }

  // With a server go its id, its connections and their channels; the peers go off and are told.
  lemma DestroyServerSays<C, K, V>(h: Hub<C, K, V>, v: V, order: seq<C>, id: uint64)
    requires HubInv(h) && v in h.servers && Enumerates(order, h.servers[v].connections)
    ensures forall i :: 0 <= i < |order| ==> order[i] in h.net.chans
    ensures var h' := DestroyServer(h, v, order);
      && h' == h.(net := h'.net, servers := h.servers - {v}, serverIds := h'.serverIds)
      && (forall i :: i in h'.serverIds <==> i in h.serverIds && h.serverIds[i] != v)
      && (forall i :: i in h'.serverIds ==> h'.serverIds[i] == h.serverIds[i])
      && AllOff(h.net, order, h'.net, Elements(order))
    ensures id in h.servers[v].connections ==>
              var c, n' := h.servers[v].connections[id], DestroyServer(h, v, order).net;
              Told(h.net, c, n') && c in n'.chans && !n'.chans[c].alive
  {
    ServerOrder(h, v, order);
    IdOfServer(h, v);
    hide HubInvBut, Inv, DestroyAll, AllOff, Enumerates, Told;
    DestroyAllSays(h.net, order);
    if id in h.servers[v].connections {
      StruckIsTold(h.net, order, DestroyAll(h.net, order), Elements(order), h.servers[v].connections[id]);
    }
  }

  lemma ServerOrder<C, K, V>(h: Hub<C, K, V>, v: V, order: seq<C>)
    requires HubInv(h) && v in h.servers && Enumerates(order, h.servers[v].connections)
    ensures Inv(h.net)
    ensures forall i :: 0 <= i < |order| ==> order[i] in h.net.chans && h.net.chans[order[i]].alive
    ensures forall i, j :: 0 <= i < j < |order| ==> order[i] != order[j]
    ensures forall id :: id in h.servers[v].connections ==> h.servers[v].connections[id] in order
  {
    OrderInNet(h, v, order);
    hide Inv, AllHeldBut, ConnectionsHold, ClientsHold;
  }

  // Channel c is off; if it was connected, its peer is off too and each of them is told among the new tasks.
  ghost predicate Told<C>(n: Net<C>, c: C, n': Net<C>)
    requires c in n.chans
  {
    && c in n'.chans && !n'.chans[c].connected
    && (n.chans[c].connected ==>
          && n.chans[c].peer.Some? && n.chans[c].peer.value in n'.chans && !n'.chans[n.chans[c].peer.value].connected
          && n.tasks <= n'.tasks && DisconnectTask(c) in n'.tasks[|n.tasks|..]
          && DisconnectTask(n.chans[c].peer.value) in n'.tasks[|n.tasks|..])
  }

  lemma StruckIsTold<C>(n: Net<C>, order: seq<C>, n': Net<C>, dead: set<C>, c: C)
    requires Inv(n) && c in n.chans && c in order && AllOff(n, order, n', dead)
    ensures Told(n, c, n') && (c in dead ==> !n'.chans[c].alive)
  {
    hide InOrder, Counted;
    if n.chans[c].connected {
      assert Paired(n, c);
      var p := n.chans[c].peer.value;
      assert Paired(n, p);
      assert Struck(n, order, c) && Struck(n, order, p);
      assert multiset(n'.tasks[|n.tasks|..])[DisconnectTask(c)] == 1;
      assert multiset(n'.tasks[|n.tasks|..])[DisconnectTask(p)] == 1;
    }
  }
}
