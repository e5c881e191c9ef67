// From bound devices and a listening server to the connections the end-to-end results start from.
module Setup {
  import opened CTypes
  import opened Network
  import opened Connections
  import opened Monitoring

  // A pending request of a client, with the two channels its task will make.
  datatype Request<C, K> = Request(client: K, id: uint64, serverSide: C, clientSide: C)

  ghost predicate Requested<C, K, V>(h: Hub<C, K, V>, j: uint64, rs: seq<Request<C, K>>) {
    && |h.net.tasks| == |rs|
    && forall i :: 0 <= i < |rs| ==> h.net.tasks[i] == ConnectToServerTask(rs[i].id, j)
  }

  // A client bound to its id, not connected and unknown to the server, and two new channels.
  ghost predicate Connectable<C, K, V>(h: Hub<C, K, V>, v: V, r: Request<C, K>) {
    && v in h.servers && r.id !in h.servers[v].connections
    && r.id in h.clientIds && h.clientIds[r.id] == r.client
    && r.client in h.clients && h.clients[r.client].channel.None?
    && r.serverSide !in h.net.chans && r.clientSide !in h.net.chans && r.serverSide != r.clientSide
  }

  ghost predicate Apart<C, K>(q: Request<C, K>, r: Request<C, K>) {
    && q.id != r.id && q.client != r.client
    && {q.serverSide, q.clientSide} !! {r.serverSide, r.clientSide}
  }

  ghost predicate AllConnectable<C, K, V>(h: Hub<C, K, V>, v: V, rs: seq<Request<C, K>>) {
    && (forall i :: 0 <= i < |rs| ==> Connectable(h, v, rs[i]))
    && (forall i, j :: 0 <= i < j < |rs| ==> Apart(rs[i], rs[j]))
  }

  ghost predicate WiredBy<C, K, V>(h: Hub<C, K, V>, v: V, r: Request<C, K>) {
    WiredTo(h, v, r.client, r.id, r.clientSide, r.serverSide)
  }

  ghost function After<C, K, V>(h: Hub<C, K, V>, v: V, j: uint64, r: Request<C, K>): Hub<C, K, V>
    requires v in h.servers && h.net.tasks != []
  {
    ConnectedHub(h, r.client, r.id, v, j, r.serverSide, r.clientSide)
  }

  lemma NowWired<C, K, V>(h: Hub<C, K, V>, v: V, j: uint64, r: Request<C, K>)
    requires Connectable(h, v, r) && h.net.tasks != []
    ensures WiredBy(After(h, v, j, r), v, r)
  {
  }

  lemma StillWired<C, K, V>(h: Hub<C, K, V>, v: V, j: uint64, r: Request<C, K>, q: Request<C, K>)
    requires Connectable(h, v, r) && h.net.tasks != [] && WiredBy(h, v, q) && q.client != r.client
    ensures WiredBy(After(h, v, j, r), v, q)
  {
  }

  lemma StillConnectable<C, K, V>(h: Hub<C, K, V>, v: V, j: uint64, r: Request<C, K>, q: Request<C, K>)
    requires h.net.tasks != [] && Connectable(h, v, q) && Apart(r, q)
    ensures Connectable(After(h, v, j, r), v, q)
  {
  }

  // Processing the tasks of the requests one after the other.
  ghost function ProcessAll<C, K, V>(h: Hub<C, K, V>, v: V, j: uint64, rs: seq<Request<C, K>>): Hub<C, K, V>
    requires HubInv(h) && Requested(h, j, rs) && AllConnectable(h, v, rs) && j in h.serverIds && h.serverIds[j] == v
    decreases |rs|
  {
    if rs == [] then h
    else
      OneConnects(h, v, j, rs);
      ProcessAll(ProcessTask(h, rs[0].serverSide, rs[0].clientSide), v, j, rs[1..])
  }

  lemma OneConnects<C, K, V>(h: Hub<C, K, V>, v: V, j: uint64, rs: seq<Request<C, K>>)
    requires HubInv(h) && Requested(h, j, rs) && AllConnectable(h, v, rs) && j in h.serverIds && h.serverIds[j] == v
    requires rs != []
    ensures v in h.servers && h.net.tasks != []
    ensures var h' := ProcessTask(h, rs[0].serverSide, rs[0].clientSide);
      && h'.serverIds == h.serverIds
      && h' == After(h, v, j, rs[0]) && HubInv(h') && Requested(h', j, rs[1..]) && AllConnectable(h', v, rs[1..])
  {
    ProcessTaskKeeps(h, rs[0].serverSide, rs[0].clientSide);
    FirstConnect(h, rs[0].id, j, rs[0].serverSide, rs[0].clientSide);
    hide HubInv, ProcessTask, Connectable, Apart;
    var h' := After(h, v, j, rs[0]);
    forall i | 0 <= i < |rs[1..]| ensures Connectable(h', v, rs[1..][i]) {
      StillConnectable(h, v, j, rs[0], rs[1 + i]);
    }
  }

  lemma {:induction false} KeepsWired<C, K, V>(h: Hub<C, K, V>, v: V, j: uint64, rs: seq<Request<C, K>>, q: Request<C, K>)
    requires HubInv(h) && Requested(h, j, rs) && AllConnectable(h, v, rs) && j in h.serverIds && h.serverIds[j] == v
    requires WiredBy(h, v, q) && forall i :: 0 <= i < |rs| ==> q.client != rs[i].client
    ensures WiredBy(ProcessAll(h, v, j, rs), v, q)
    decreases |rs|
  {
    if rs != [] {
      OneConnects(h, v, j, rs);
      StillWired(h, v, j, rs[0], q);
      hide HubInv, Requested, AllConnectable, WiredBy, ProcessTask;
      KeepsWired(After(h, v, j, rs[0]), v, j, rs[1..], q);
    }
  }

  // When the requests of all the clients have been processed the queue is empty and they are all connected.
  lemma {:induction false} AllConnect<C, K, V>(h: Hub<C, K, V>, v: V, j: uint64, rs: seq<Request<C, K>>)
    requires HubInv(h) && Requested(h, j, rs) && AllConnectable(h, v, rs) && j in h.serverIds && h.serverIds[j] == v
    ensures var h' := ProcessAll(h, v, j, rs);
      && HubInv(h') && h'.net.tasks == [] && forall i :: 0 <= i < |rs| ==> WiredBy(h', v, rs[i])
    decreases |rs|
  {
    hide HubInv, ProcessTask, WiredBy, Connectable, ConnectedHub;
    if rs != [] {
      OneConnects(h, v, j, rs);
      NowWired(h, v, j, rs[0]);
      assert forall i :: 0 < i < |rs| ==> Apart(rs[0], rs[i]);
      var h1 := After(h, v, j, rs[0]);
      KeepsWired(h1, v, j, rs[1..], rs[0]);
      AllConnect(h1, v, j, rs[1..]);
      forall i | 0 <= i < |rs| ensures WiredBy(ProcessAll(h, v, j, rs), v, rs[i]) {
        assert i > 0 ==> rs[i] == rs[1..][i - 1];
      }
    }
  }

  // The wiring made by the requests.
  ghost predicate WiringOf<C, K>(w: Wiring<C, K>, rs: seq<Request<C, K>>) {
    && (forall i :: 0 <= i < |rs| ==>
          && rs[i].client in w.id && w.id[rs[i].client] == rs[i].id
          && rs[i].client in w.client && w.client[rs[i].client] == rs[i].clientSide
          && rs[i].client in w.server && w.server[rs[i].client] == rs[i].serverSide)
    && w.id.Keys == w.client.Keys == w.server.Keys
    && forall k :: k in w.id ==> exists i :: 0 <= i < |rs| && rs[i].client == k
  }

  // Any number of bound devices that asked a listening server for a connection end up wired, with an
  // empty queue: the starting point of the end-to-end results.
  lemma ConnectedSystem<C, K, V>(h: Hub<C, K, V>, j: uint64, rs: seq<Request<C, K>>, w: Wiring<C, K>, s: Sys<C, K, V>)
    requires HubInv(h) && j in h.serverIds && h.serverIds[j] == s.server
    requires Requested(h, j, rs) && AllConnectable(h, s.server, rs)
    requires WiringOf(w, rs) && s.devices.Keys == w.id.Keys && s.hub == ProcessAll(h, s.server, j, rs)
    ensures Wired(s, w) && s.hub.net.tasks == [] && HubInv(s.hub)
  {
    AllConnect(h, s.server, j, rs);
    hide HubInv, Requested, Connectable, ProcessAll, WiredTo;
    forall k | k in s.devices ensures WiredTo(s.hub, s.server, k, w.id[k], w.client[k], w.server[k]) {
      var i :| 0 <= i < |rs| && rs[i].client == k;
      assert WiredBy(s.hub, s.server, rs[i]);
    }
  }

  // ----- one device after the other, each connected before the next one asks -----

  ghost predicate AllWired<C, K, V>(h: Hub<C, K, V>, v: V, w: Wiring<C, K>) {
    && w.id.Keys == w.client.Keys == w.server.Keys
    && forall k :: k in w.id ==> WiredTo(h, v, k, w.id[k], w.client[k], w.server[k])
  }

  // Server v listens under j, nothing is queued, and the bound clients are those of w, all connected to v.
  ghost predicate Standing<C, K, V>(h: Hub<C, K, V>, v: V, j: uint64, w: Wiring<C, K>) {
    && h.net.tasks == [] && Serves(h, v, j) && AllWired(h, v, w) && BoundAs(h.clientIds, w)
    && h.servers[v].connections.Keys == h.clientIds.Keys
  }

  // The ids of w are those that clients are bound to.
  ghost predicate BoundAs<C, K>(ids: map<uint64, K>, w: Wiring<C, K>) {
    && (forall k :: k in w.id ==> w.id[k] in ids && ids[w.id[k]] == k)
    && (forall d :: d in ids ==> ids[d] in w.id && w.id[ids[d]] == d)
  }

  ghost predicate Serves<C, K, V>(h: Hub<C, K, V>, v: V, j: uint64) {
    j in h.serverIds && h.serverIds[j] == v && v in h.servers
  }

  // A new client binds to d and asks server j for a connection.
  ghost function Asked<C, K, V>(h: Hub<C, K, V>, k: K, d: uint64, j: uint64): Hub<C, K, V> {
    ConnectToHost(Bind(NewClient(h, k), k, d), k, j)
  }

  lemma AskedShape<C, K, V>(h: Hub<C, K, V>, k: K, d: uint64, j: uint64)
    requires HubInv(h) && d !in h.clientIds && d != 0 && j != 0
    ensures Asked(h, k, d, j) ==
            h.(clients := h.clients[k := Client(d, None)], clientIds := h.clientIds[d := k],
               net := h.net.(tasks := h.net.tasks + [ConnectToServerTask(d, j)]))
  {
    assert h.clientIds - {0} == h.clientIds;
    assert h.clients[k := Client(0, None)][k := Client(d, None)] == h.clients[k := Client(d, None)];
  }

  lemma AskedKeeps<C, K, V>(h: Hub<C, K, V>, k: K, d: uint64, j: uint64)
    requires HubInv(h) && k !in h.clients
    ensures HubInv(Asked(h, k, d, j))
  {
    NewClientKeeps(h, k);
    hide HubInvBut;
    BindKeeps(NewClient(h, k), k, d);
    RequestKeepsBooks(Bind(NewClient(h, k), k, d), k, j);
  }

  ghost function Extended<C, K>(w: Wiring<C, K>, r: Request<C, K>): Wiring<C, K> {
    Wiring(w.id[r.client := r.id], w.client[r.client := r.clientSide], w.server[r.client := r.serverSide])
  }

  // A request of a new client under a new id.
  ghost predicate NewRequest<C, K, V>(h: Hub<C, K, V>, r: Request<C, K>) {
    && r.client !in h.clients && r.id != 0 && r.id !in h.clientIds
    && r.serverSide !in h.net.chans && r.clientSide !in h.net.chans && r.serverSide != r.clientSide
  }

  lemma AskedConnectable<C, K, V>(h: Hub<C, K, V>, v: V, j: uint64, w: Wiring<C, K>, r: Request<C, K>)
    requires HubInv(h) && Standing(h, v, j, w) && NewRequest(h, r) && j != 0
    ensures var a := Asked(h, r.client, r.id, j);
      && a.net.tasks == [ConnectToServerTask(r.id, j)] && Connectable(a, v, r)
      && Serves(a, v, j) && a.servers == h.servers && a.clientIds == h.clientIds[r.id := r.client]
  {
    hide Asked, AllWired, HubInvBut, BoundAs;
    AskedShape(h, r.client, r.id, j);
  }

  lemma AskedWired<C, K, V>(h: Hub<C, K, V>, v: V, j: uint64, w: Wiring<C, K>, r: Request<C, K>)
    requires HubInv(h) && AllWired(h, v, w) && NewRequest(h, r) && j != 0
    ensures AllWired(Asked(h, r.client, r.id, j), v, w) && r.client !in w.id
  {
    hide Asked, HubInvBut, WiredTo;
    AskedShape(h, r.client, r.id, j);
    forall k | k in w.id ensures k != r.client && WiredTo(Asked(h, r.client, r.id, j), v, k, w.id[k], w.client[k], w.server[k]) {
      SameEnds(h, Asked(h, r.client, r.id, j), v, k, w.id[k], w.client[k], w.server[k]);
    }
  }

  lemma SameEnds<C, K, V>(h: Hub<C, K, V>, a: Hub<C, K, V>, v: V, k: K, d: uint64, c: C, e: C)
    requires WiredTo(h, v, k, d, c, e) && a.net.chans == h.net.chans && a.owner == h.owner && a.servers == h.servers
    ensures k in h.clients
    ensures k in a.clients && a.clients[k] == h.clients[k] ==> WiredTo(a, v, k, d, c, e)
  {
  }

  lemma OneMoreWired<C, K, V>(a: Hub<C, K, V>, v: V, j: uint64, w: Wiring<C, K>, r: Request<C, K>)
    requires AllWired(a, v, w) && Connectable(a, v, r) && v in a.servers && a.net.tasks != [] && r.client !in w.id
    ensures AllWired(After(a, v, j, r), v, Extended(w, r))
  {
    hide Connectable, WiredTo, After;
    NowWired(a, v, j, r);
    forall k | k in w.id ensures WiredTo(After(a, v, j, r), v, k, w.id[k], w.client[k], w.server[k]) {
      StillWired(a, v, j, r, Request(k, w.id[k], w.server[k], w.client[k]));
    }
  }

  lemma ListeningNonZero<C, K, V>(h: Hub<C, K, V>, v: V, j: uint64)
    requires HubInv(h) && Serves(h, v, j)
    ensures j != 0 && h.servers[v].id == j
  {
  }

  // The request of one more client, processed: the new client joins the connected ones.
  lemma OneMoreStanding<C, K, V>(h: Hub<C, K, V>, v: V, j: uint64, w: Wiring<C, K>, r: Request<C, K>)
    requires HubInv(h) && Standing(h, v, j, w) && NewRequest(h, r)
    ensures var a := Asked(h, r.client, r.id, j);
      && Requested(a, j, [r]) && AllConnectable(a, v, [r]) && HubInv(a) && Serves(a, v, j)
      && ProcessTask(a, r.serverSide, r.clientSide) == After(a, v, j, r)
      && HubInv(After(a, v, j, r)) && Standing(After(a, v, j, r), v, j, Extended(w, r))
  {
    hide Asked, HubInvBut, AllWired, Connectable, ProcessTask, Extended, BoundAs;
    ListeningNonZero(h, v, j);
    AskedConnectable(h, v, j, w, r);
    AskedWired(h, v, j, w, r);
    AskedKeeps(h, r.client, r.id, j);
    var a := Asked(h, r.client, r.id, j);
    OneConnects(a, v, j, [r]);
    OneMoreWired(a, v, j, w, r);
    BoundAsExtended(h.clientIds, w, r);
  }

  lemma BoundAsExtended<C, K>(ids: map<uint64, K>, w: Wiring<C, K>, r: Request<C, K>)
    requires BoundAs(ids, w) && r.client !in w.id && r.id !in ids
    ensures BoundAs(ids[r.id := r.client], Extended(w, r))
  {
  }
}
