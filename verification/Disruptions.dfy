// Runs in which connections are closed, clients and servers go and new connections are made at any
// point: a device may get fewer answers than it is due, but never another one.
module Disruptions {
  import opened CTypes
  import opened Messages
  import opened Histories
  import opened Network
  import opened Connections
  import opened Agreements
  import opened Conversations
  import opened Monitoring
  import opened EndToEnd

  // ----- the messages queued for a channel -----

  function Mail<C(==)>(tasks: seq<Task<C>>, c: C): seq<Bytes> {
    Network.Messages(Agenda(tasks, c))
  }

  function Letter<C(==)>(t: Task<C>, c: C): seq<Bytes> {
    if t.SendMessageTask? && t.channel == c then [t.message] else []
  }

  lemma LetterOfEffect<C>(t: Task<C>, c: C)
    ensures Network.Messages(Effect(t, c)) == Letter(t, c)
  {
  }

  lemma MailSnoc<C>(tasks: seq<Task<C>>, t: Task<C>, c: C)
    ensures Mail(tasks + [t], c) == Mail(tasks, c) + Letter(t, c)
  {
    AgendaSnoc(tasks, t, c);
    MessagesConcat(Agenda(tasks, c), Effect(t, c));
    LetterOfEffect(t, c);
  }

  lemma MailHead<C>(tasks: seq<Task<C>>, c: C)
    requires tasks != []
    ensures Mail(tasks, c) == Letter(tasks[0], c) + Mail(tasks[1..], c)
  {
    MessagesConcat(Effect(tasks[0], c), Agenda(tasks[1..], c));
    LetterOfEffect(tasks[0], c);
  }

  lemma NoMailForStrangers<C>(n: Net<C>, c: C)
    requires AllKnown(n) && c !in n.chans
    ensures Mail(n.tasks, c) == []
  {
    AgendaOfStranger(n.tasks, c);
  }

  ghost predicate SameMail<C>(n: Net<C>, n': Net<C>) {
    n'.chans.Keys == n.chans.Keys && forall c :: c in n.chans ==> Mail(n'.tasks, c) == Mail(n.tasks, c)
  }

  lemma OffMail<C>(n: Net<C>, c: C)
    requires c in n.chans
    ensures SameMail(n, Off(n, c))
  {
    hide Mail;
    forall x | x in n.chans ensures Mail(Off(n, c).tasks, x) == Mail(n.tasks, x) {
      MailSnoc(n.tasks, DisconnectTask(c), x);
    }
  }

  lemma CloseMail<C>(n: Net<C>, c: C)
    requires c in n.chans
    ensures SameMail(n, Close(n, c))
  {
    hide Mail, Off;
    OffMail(n, c);
    var p := LivePeer(n, c);
    if p.Some? {
      OffMail(Off(n, c), p.value);
    }
  }

  lemma DestroyMail<C>(n: Net<C>, c: C)
    requires c in n.chans
    ensures SameMail(n, Destroy(n, c))
  {
    hide Mail, Close;
    var p := LivePeer(n, c);
    if p.Some? {
      CloseMail(n, p.value);
    }
  }

  lemma {:induction false} CloseAllMail<C>(n: Net<C>, order: seq<C>)
    requires forall i :: 0 <= i < |order| ==> order[i] in n.chans
    ensures SameMail(n, CloseAll(n, order))
    decreases |order|
  {
    hide Mail, Close;
    if order != [] {
      CloseMail(n, order[0]);
      CloseAllMail(Close(n, order[0]), order[1..]);
    }
  }

  lemma {:induction false} DestroyAllMail<C>(n: Net<C>, order: seq<C>)
    requires forall i :: 0 <= i < |order| ==> order[i] in n.chans
    ensures SameMail(n, DestroyAll(n, order))
    decreases |order|
  {
    hide Mail, Destroy;
    if order != [] {
      DestroyMail(n, order[0]);
      DestroyAllMail(Destroy(n, order[0]), order[1..]);
    }
  }

  lemma ProcessMail<C>(n: Net<C>)
    requires n.tasks != [] && AllKnown(n) && !n.tasks[0].SendMessageTask?
    ensures SameMail(n, Process(n))
  {
    forall c | c in n.chans ensures Mail(Process(n).tasks, c) == Mail(n.tasks, c) {
      MailHead(n.tasks, c);
    }
  }

  // A message goes to the living peer or nowhere.
  lemma SendMail<C>(n: Net<C>, c: C, m: Bytes)
    requires c in n.chans
    ensures Send(n, c, m).chans.Keys == n.chans.Keys
    ensures forall x :: x in n.chans ==>
              || Mail(Send(n, c, m).tasks, x) == Mail(n.tasks, x)
              || (Mail(Send(n, c, m).tasks, x) == Mail(n.tasks, x) + [m] && LivePeer(n, c) == Some(x))
  {
    var p := LivePeer(n, c);
    hide Mail;
    if p.Some? {
      forall x | x in n.chans ensures Mail(n.tasks + [SendMessageTask(m, p.value)], x) ==
                                      Mail(n.tasks, x) + Letter(SendMessageTask(m, p.value), x) {
        MailSnoc(n.tasks, SendMessageTask(m, p.value), x);
      }
    }
  }

  // What is on its way from device d to server v, and to client k.
  function Up<C(==), K, V(==)>(h: Hub<C, K, V>, v: V, d: uint64): seq<Bytes> {
    if v in h.servers && d in h.servers[v].connections then Mail(h.net.tasks, h.servers[v].connections[d]) else []
  }

  function Down<C(==), K(==), V>(h: Hub<C, K, V>, k: K): seq<Bytes> {
    if k in h.clients && h.clients[k].channel.Some? then Mail(h.net.tasks, h.clients[k].channel.value) else []
  }

  // ----- what is not about the applications only loses messages -----

  ghost predicate Quieter<C, K, V>(h: Hub<C, K, V>, h': Hub<C, K, V>) {
    && (forall v, d: uint64 :: v in h'.servers ==> Up(h', v, d) == Up(h, v, d) || Up(h', v, d) == [])
    && (forall k :: k in h'.clients ==> Down(h', k) == Down(h, k) || Down(h', k) == [])
  }

  // What anyone holds has been made.
  ghost predicate HoldsKnown<C, K, V>(h: Hub<C, K, V>) {
    && (forall v, d :: v in h.servers && d in h.servers[v].connections ==> h.servers[v].connections[d] in h.net.chans)
    && (forall k :: k in h.clients && h.clients[k].channel.Some? ==> h.clients[k].channel.value in h.net.chans)
  }

  lemma BooksKnown<C, K, V>(h: Hub<C, K, V>)
    requires HubInv(h)
    ensures HoldsKnown(h)
  {
  }

  lemma QuieterOnNet<C, K, V>(h: Hub<C, K, V>, n: Net<C>)
    requires HoldsKnown(h) && SameMail(h.net, n)
    ensures Quieter(h, h.(net := n)) && HoldsKnown(h.(net := n))
  {
    hide Mail;
  }

  lemma QuieterTwice<C, K, V>(h: Hub<C, K, V>, h1: Hub<C, K, V>, h2: Hub<C, K, V>)
    requires Quieter(h, h1) && Quieter(h1, h2)
    ensures Quieter(h, h2)
  {
    hide Mail;
  }

  // No connection and no channel is held that was not held before.
  ghost predicate FewerConnections<C, V>(servers: map<V, Server<C>>, servers': map<V, Server<C>>) {
    forall v, d :: v in servers' && d in servers'[v].connections ==>
      v in servers && d in servers[v].connections && servers'[v].connections[d] == servers[v].connections[d]
  }

  ghost predicate FewerChannels<C, K>(clients: map<K, Client<C>>, clients': map<K, Client<C>>) {
    forall k :: k in clients' && clients'[k].channel.Some? ==> k in clients && clients[k].channel == clients'[k].channel
  }

  lemma NoFewer<C, K, V>(h: Hub<C, K, V>)
    ensures FewerConnections(h.servers, h.servers) && FewerChannels(h.clients, h.clients)
  {
  }

  lemma EntryQuieter<C, K, V>(h: Hub<C, K, V>, h': Hub<C, K, V>)
    requires HoldsKnown(h) && h'.net == h.net
    requires FewerConnections(h.servers, h'.servers) && FewerChannels(h.clients, h'.clients)
    ensures Quieter(h, h') && HoldsKnown(h')
  {
    hide Mail;
  }

  lemma ClientUseQuieter<C, K, V>(h: Hub<C, K, V>, k: K, id: uint64)
    requires HubInv(h) && k in h.clients
    ensures ClientUsable(h, k) && Quieter(h, ConnectToHost(h, k, id)) && Quieter(h, ClientDisconnect(h, k))
  {
    BooksKnown(h);
    RequestMail(h.net, h.clients[k].id, id);
    if h.clients[k].channel.Some? {
      CloseMail(h.net, h.clients[k].channel.value);
    }
    hide HubInvBut, Mail, Quieter, Close, Up, Down;
    QuieterOnNet(h, ConnectToHost(h, k, id).net);
    QuieterOnNet(h, ClientDisconnect(h, k).net);
  }

  lemma RequestMail<C>(n: Net<C>, i: uint64, j: uint64)
    ensures SameMail(n, n) && SameMail(n, Schedule(n, ConnectToServerTask(i, j)))
  {
    hide Mail;
    forall x | x in n.chans ensures Mail(n.tasks + [ConnectToServerTask(i, j)], x) == Mail(n.tasks, x) {
      MailSnoc(n.tasks, ConnectToServerTask(i, j), x);
    }
  }

  lemma ClientEntryQuieter<C, K, V>(h: Hub<C, K, V>, k: K, id: uint64)
    requires HubInv(h)
    ensures k !in h.clients ==> Quieter(h, NewClient(h, k))
    ensures k in h.clients ==> Quieter(h, Bind(h, k, id))
  {
    hide HubInvBut, Quieter, HoldsKnown, FewerConnections;
    BooksKnown(h);
    NoFewer(h);
    if k in h.clients {
      EntryQuieter(h, Bind(h, k, id));
    } else {
      EntryQuieter(h, NewClient(h, k));
    }
  }

  lemma ClientEndQuieter<C, K, V>(h: Hub<C, K, V>, k: K)
    requires HubInv(h) && k in h.clients
    ensures ClientUsable(h, k) && Quieter(h, DestroyClient(h, k))
  {
    BooksKnown(h);
    RequestMail(h.net, 0, 0);
    if h.clients[k].channel.Some? {
      DestroyMail(h.net, h.clients[k].channel.value);
    }
    NoFewer(h);
    hide HubInvBut, Quieter, HoldsKnown, Destroy, SameMail, FewerConnections;
    var h1 := h.(clientIds := h.clientIds - {h.clients[k].id}, clients := h.clients - {k});
    EntryQuieter(h, h1);
    QuieterOnNet(h1, DestroyClient(h, k).net);
    QuieterTwice(h, h1, DestroyClient(h, k));
  }

  lemma ServerEntryQuieter<C, K, V>(h: Hub<C, K, V>, v: V, id: uint64)
    requires HubInv(h)
    ensures v !in h.servers ==> Quieter(h, NewServer(h, v))
    ensures v in h.servers ==> Quieter(h, Listen(h, v, id))
  {
    hide HubInvBut, Quieter, HoldsKnown, FewerChannels;
    BooksKnown(h);
    NoFewer(h);
    if v in h.servers {
      EntryQuieter(h, Listen(h, v, id));
    } else {
      EntryQuieter(h, NewServer(h, v));
    }
  }

  lemma ServerCloseQuieter<C, K, V>(h: Hub<C, K, V>, v: V, id: uint64)
    requires HubInv(h) && v in h.servers
    ensures ServerUsable(h, v, id) && Quieter(h, ServerClose(h, v, id))
  {
    BooksKnown(h);
    RequestMail(h.net, 0, 0);
    if id in h.servers[v].connections {
      CloseMail(h.net, h.servers[v].connections[id]);
    }
    hide HubInvBut, Quieter, Close, SameMail, HoldsKnown;
    QuieterOnNet(h, ServerClose(h, v, id).net);
  }

  lemma ServerEndsQuieter<C, K, V>(h: Hub<C, K, V>, v: V, order: seq<C>)
    requires HubInv(h) && v in h.servers && Enumerates(order, h.servers[v].connections)
    ensures forall i :: 0 <= i < |order| ==> order[i] in h.net.chans
    ensures Quieter(h, ServerDisconnect(h, v, order)) && Quieter(h, DestroyServer(h, v, order))
  {
    OrderInNet(h, v, order);
    BooksKnown(h);
    CloseAllMail(h.net, order);
    DestroyAllMail(h.net, order);
    NoFewer(h);
    hide HubInvBut, Quieter, CloseAll, DestroyAll, Enumerates, SameMail, HoldsKnown, FewerChannels;
    var h1 := h.(serverIds := h.serverIds - {h.servers[v].id}, servers := h.servers[v := h.servers[v].(id := 0)]);
    EntryQuieter(h, h1);
    QuieterOnNet(h1, CloseAll(h.net, order));
    QuieterTwice(h, h1, ServerDisconnect(h, v, order));
    var h2 := h.(serverIds := h.serverIds - {h.servers[v].id}, servers := h.servers - {v});
    EntryQuieter(h, h2);
    QuieterOnNet(h2, DestroyAll(h.net, order));
    QuieterTwice(h, h2, DestroyServer(h, v, order));
  }

  lemma ForgetQuieter<C, K, V>(h: Hub<C, K, V>, x: C)
    requires HubInv(h) && Alive(h.net, x)
    ensures x in h.owner && Quieter(h, Forget(h, x))
  {
    assert Held(h, x);
    BooksKnown(h);
    hide HubInvBut, HoldsKnown;
    HeldQuieter(h, x);
  }

  lemma ForgetFewer<C, K, V>(h: Hub<C, K, V>, x: C)
    requires x in h.net.chans && x in h.owner
    ensures FewerConnections(h.servers, Forget(h, x).servers) && FewerChannels(h.clients, Forget(h, x).clients)
  {
    hide Destroy;
  }

  lemma HeldQuieter<C, K, V>(h: Hub<C, K, V>, x: C)
    requires HoldsKnown(h) && x in h.net.chans && Held(h, x)
    ensures Quieter(h, Forget(h, x))
  {
    DestroyMail(h.net, x);
    ForgetFewer(h, x);
    hide Quieter, Destroy, SameMail, HoldsKnown, FewerChannels, FewerConnections;
    var h1 := h.(clients := Forget(h, x).clients, servers := Forget(h, x).servers);
    EntryQuieter(h, h1);
    QuieterOnNet(h1, Destroy(h.net, x));
    QuieterTwice(h, h1, Forget(h, x));
  }

  // A channel nothing is queued for is taken.
  lemma ClientTakes<C, K, V>(h: Hub<C, K, V>, k: K, x: C)
    requires HoldsKnown(h) && k in h.clients && x in h.net.chans && Mail(h.net.tasks, x) == []
    ensures Quieter(h, SetChannel(h, k, x)) && HoldsKnown(SetChannel(h, k, x))
  {
    hide Mail, Destroy, SameMail;
    if h.clients[k].channel.Some? {
      hide Quieter, HoldsKnown;
      DestroyMail(h.net, x);
      QuieterOnNet(h, Destroy(h.net, x));
    }
  }

  lemma ServerTakes<C, K, V>(h: Hub<C, K, V>, v: V, x: C)
    requires HoldsKnown(h) && v in h.servers && x in h.net.chans && Mail(h.net.tasks, x) == []
    ensures Quieter(h, AddChannel(h, v, x)) && HoldsKnown(AddChannel(h, v, x))
  {
    hide Mail, Destroy, SameMail;
    if h.net.chans[x].peerId in h.servers[v].connections {
      hide Quieter, HoldsKnown;
      DestroyMail(h.net, x);
      QuieterOnNet(h, Destroy(h.net, x));
    }
  }

  lemma EstablishQuieter<C, K, V>(h: Hub<C, K, V>, i: uint64, j: uint64, s: C, c: C)
    requires HubInv(h) && s !in h.net.chans && c !in h.net.chans && s != c
    ensures i in h.clientIds ==> h.clientIds[i] in h.clients
    ensures j in h.serverIds ==> h.serverIds[j] in h.servers
    ensures Quieter(h, Establish(h, i, j, s, c))
  {
    RegisteredExist(h, i, j);
    BooksKnown(h);
    NoMailForStrangers(h.net, s);
    NoMailForStrangers(h.net, c);
    hide HubInvBut, Quieter, HoldsKnown, AddChannel, SetChannel, Pair, Mail;
    if i in h.clientIds && j in h.serverIds {
      var k, v := h.clientIds[i], h.serverIds[j];
      var h1 := h.(net := Pair(h.net, s, c, i, j));
      PairQuieter(h, s, c, i, j);
      ServerTakes(h1, v, s);
      var h2 := AddChannel(h1, v, s);
      StillNoMail(h1, v, s, c);
      ClientTakes(h2, k, c);
      QuieterTwice(h, h1, h2);
      QuieterTwice(h, h2, SetChannel(h2, k, c));
    } else {
      NoFewer(h);
      EntryQuieter(h, h);
    }
  }

  lemma PairQuieter<C, K, V>(h: Hub<C, K, V>, s: C, c: C, i: uint64, j: uint64)
    requires HoldsKnown(h)
    ensures var h1 := h.(net := Pair(h.net, s, c, i, j));
      Quieter(h, h1) && HoldsKnown(h1) && h1.net.tasks == h.net.tasks && {s, c} <= h1.net.chans.Keys
  {
    hide Mail;
  }

  lemma StillNoMail<C, K, V>(h: Hub<C, K, V>, v: V, s: C, c: C)
    requires v in h.servers && s in h.net.chans && c in h.net.chans && Mail(h.net.tasks, c) == []
    ensures var h' := AddChannel(h, v, s); c in h'.net.chans && Mail(h'.net.tasks, c) == [] && h'.clients == h.clients
  {
    DestroyMail(h.net, s);
    hide Mail, Destroy;
  }

  // A task that is not about a message.
  lemma ProcessTaskQuieter<C, K, V>(h: Hub<C, K, V>, s: C, c: C)
    requires HubInv(h) && h.net.tasks != [] && s !in h.net.chans && c !in h.net.chans && s != c
    requires !h.net.tasks[0].SendMessageTask?
    ensures Quieter(h, ProcessTask(h, s, c))
  {
    var h1 := h.(net := Process(h.net));
    ProcessKeeps(h.net);
    ProcessKeepsLives(h.net);
    SameLivesKeep(h, Process(h.net), {});
    BooksKnown(h);
    ProcessMail(h.net);
    hide HubInvBut, Quieter, HoldsKnown, SameMail, Process, Forget, Establish;
    QuieterOnNet(h, Process(h.net));
    match h.net.tasks[0]
    case DisconnectTask(x) =>
      if h.net.chans[x].alive {
        ForgetQuieter(h1, x);
        QuieterTwice(h, h1, Forget(h1, x));
      }
    case ConnectToServerTask(i, j) =>
      EstablishQuieter(h1, i, j, s, c);
      QuieterTwice(h, h1, Establish(h1, i, j, s, c));
  }

  // Steps of clients and servers in which no application sends or gets a message.
  ghost predicate Silent<C, K, V>(h: Hub<C, K, V>, op: HubOp<C, K, V>) {
    !op.ClientSendOp? && !op.ServerSendOp? &&
    (op.ProcessTaskOp? ==> h.net.tasks != [] && !h.net.tasks[0].SendMessageTask?)
  }

  lemma SilentQuieter<C, K, V>(h: Hub<C, K, V>, op: HubOp<C, K, V>)
    requires HubInv(h) && HubEnabled(h, op) && Silent(h, op)
    ensures Quieter(h, HubStep(h, op))
  {
    hide HubInvBut, Quieter, Enumerates;
    match op
    case NewClientOp(k) => ClientEntryQuieter(h, k, 0);
    case BindOp(k, id) => ClientEntryQuieter(h, k, id);
    case ConnectOp(k, id) => ClientUseQuieter(h, k, id);
    case ClientDisconnectOp(k) => ClientUseQuieter(h, k, 0);
    case DestroyClientOp(k) => ClientEndQuieter(h, k);
    case NewServerOp(v) => ServerEntryQuieter(h, v, 0);
    case ListenOp(v, id) => ServerEntryQuieter(h, v, id);
    case ServerCloseOp(v, id) => ServerCloseQuieter(h, v, id);
    case ServerDisconnectOp(v, order) => ServerEndsQuieter(h, v, order);
    case DestroyServerOp(v, order) => ServerEndsQuieter(h, v, order);
    case ProcessTaskOp(s, c) => ProcessTaskQuieter(h, s, c);
  }

  // ----- the conversation of one device -----

  // The device has got the first j answers, and its first m meterages have been processed.
  ghost predicate GotSome(b: Base, d: uint64, dev: Device, own: History, j: int, m: int) {
    && 0 <= j <= m <= |b.meterages|
    && dev.messages == b.messages + Answers(b.own, d, b.meterages, j) && own == b.own + Measurements(d, b.meterages, m)
  }

  ghost predicate Stalled(b: Base, d: uint64, dev: Device, own: History) {
    exists j, m :: GotSome(b, d, dev, own, j, m)
  }

  // The conversation goes on, or a message has been lost and it stands still.
  ghost predicate Phase(codec: Codec, b: Base, d: uint64, started: bool, dev: Device, own: History,
                        up: seq<Bytes>, down: seq<Bytes>) {
    || Talking(codec, b, d, started, dev, own, Gots(up), Gots(down))
    || (started && up == [] && down == [] && Stalled(b, d, dev, own))
  }

  lemma TalkingStalled(codec: Codec, b: Base, d: uint64, dev: Device, own: History,
                       toServer: seq<Signal>, toDevice: seq<Signal>)
    requires Talking(codec, b, d, true, dev, own, toServer, toDevice)
    ensures Stalled(b, d, dev, own)
  {
    hide Answers, Measurements;
    var n := dev.timeStamp;
    assert if toServer != [] then GotSome(b, d, dev, own, n - 1, n - 1)
           else if toDevice != [] then GotSome(b, d, dev, own, n - 1, n) else GotSome(b, d, dev, own, n, n);
  }

  lemma PhaseStalled(codec: Codec, b: Base, d: uint64, dev: Device, own: History, up: seq<Bytes>, down: seq<Bytes>)
    requires Phase(codec, b, d, true, dev, own, up, down)
    ensures Stalled(b, d, dev, own)
  {
    hide Talking, Stalled;
    if Talking(codec, b, d, true, dev, own, Gots(up), Gots(down)) {
      TalkingStalled(codec, b, d, dev, own, Gots(up), Gots(down));
    }
  }

  lemma OneLetter(codec: Codec, b: Base, d: uint64, started: bool, dev: Device, own: History, up: seq<Bytes>, down: seq<Bytes>)
    requires Phase(codec, b, d, started, dev, own, up, down)
    ensures |up| + |down| <= 1 && (up != [] || down != [] ==> started)
    ensures up != [] || down != [] ==> Talking(codec, b, d, true, dev, own, Gots(up), Gots(down))
    ensures !started ==> up == [] && down == [] && Talking(codec, b, d, false, dev, own, [], [])
  {
    hide Answers, Measurements, Sealed;
    assert |Gots(up)| == |up| && |Gots(down)| == |down|;
  }

  // Losing what is on its way.
  lemma PhaseQuieter(codec: Codec, b: Base, d: uint64, started: bool, dev: Device, own: History,
                     up: seq<Bytes>, down: seq<Bytes>, up': seq<Bytes>, down': seq<Bytes>)
    requires Phase(codec, b, d, started, dev, own, up, down)
    requires (up' == up || up' == []) && (down' == down || down' == [])
    ensures Phase(codec, b, d, started, dev, own, up', down')
  {
    OneLetter(codec, b, d, started, dev, own, up, down);
    hide Talking, Stalled;
    if started {
      PhaseStalled(codec, b, d, dev, own, up, down);
    }
  }

  // What sendNextMeterage sends.
  function NextMail(codec: Codec, dev: Device): seq<Bytes> {
    if dev.timeStamp >= |dev.meterages| then []
    else [Sealed(codec, MessageMeterage(dev.timeStamp, dev.meterages[dev.timeStamp]))]
  }

  lemma PhaseBegins(codec: Codec, b: Base, d: uint64, dev: Device, own: History, up: seq<Bytes>)
    requires Phase(codec, b, d, false, dev, own, [], [])
    requires var dev' := dev.(meterages := b.meterages, timeStamp := 0); up == NextMail(codec, dev') || up == []
    ensures Phase(codec, b, d, true, Advanced(dev.(meterages := b.meterages, timeStamp := 0)), own, up, [])
  {
    var dev' := dev.(meterages := b.meterages, timeStamp := 0);
    Begins(codec, b, d, dev, own);
    assert Gots([]) == [] && Gots(NextMail(codec, dev')) == NextUp(codec, dev');
    hide Talking, Stalled, Sealed;
    PhaseQuieter(codec, b, d, true, Advanced(dev'), own, NextMail(codec, dev'), [], up, []);
  }

  lemma PhaseAtServer(codec: Codec, b: Base, d: uint64, started: bool, dev: Device, own: History, x: Bytes,
                      up: seq<Bytes>, down: seq<Bytes>)
    requires Faithful(codec) && Phase(codec, b, d, started, dev, own, [x] + up, down)
    ensures started && up == [] && down == [] && 0 < dev.timeStamp <= |b.meterages|
    ensures var i := dev.timeStamp - 1; var v := b.meterages[i]; var r := Sealed(codec, Reply(own, d, i, v));
      && Opened(codec, x) == Some(MessageMeterage(i, v))
      && Phase(codec, b, d, true, dev, own + [Measured(d, i, v)], [], [r])
      && Phase(codec, b, d, true, dev, own + [Measured(d, i, v)], [], [])
  {
    hide Sealed, Opened, Reply;
    OneLetter(codec, b, d, started, dev, own, [x] + up, down);
    hide Talking, Stalled;
    assert [x] + up == [x] && Gots([x]) == [Got(x)] && Gots([]) == [];
    MeterageArrives(codec, b, d, dev, own, x);
    var i := dev.timeStamp - 1;
    var r := Sealed(codec, Reply(own, d, i, b.meterages[i]));
    assert Gots([r]) == [Got(r)];
    PhaseQuieter(codec, b, d, true, dev, own + [Measured(d, i, b.meterages[i])], [], [r], [], []);
  }

  lemma PhaseAtDevice(codec: Codec, b: Base, d: uint64, started: bool, dev: Device, own: History, x: Bytes,
                      up: seq<Bytes>, down: seq<Bytes>)
    requires Faithful(codec) && Phase(codec, b, d, started, dev, own, up, [x] + down)
    ensures started && up == [] && down == [] && DeviceAccepts(codec, x)
    ensures var dev' := Noting(codec, dev, x);
      && Phase(codec, b, d, true, Advanced(dev'), own, NextMail(codec, dev'), [])
      && Phase(codec, b, d, true, Advanced(dev'), own, [], [])
  {
    hide Sealed, Opened, Reply;
    OneLetter(codec, b, d, started, dev, own, up, [x] + down);
    hide Talking, Stalled;
    assert [x] + down == [x] && Gots([x]) == [Got(x)] && Gots([]) == [];
    AnswerArrives(codec, b, d, dev, own, x);
    var dev' := Noting(codec, dev, x);
    assert Gots(NextMail(codec, dev')) == NextUp(codec, dev');
    PhaseQuieter(codec, b, d, true, Advanced(dev'), own, NextMail(codec, dev'), [], [], []);
  }

  // ----- what the messages of one device and its server do to the others -----

  // Of all ends only connections kept under id are channel p; or only channels of clients with that id.
  ghost predicate OnlyUnder<C, K, V>(h: Hub<C, K, V>, p: C, id: uint64) {
    && (forall x :: x in h.clients ==> h.clients[x].channel != Some(p))
    && (forall v, d :: v in h.servers && d in h.servers[v].connections && h.servers[v].connections[d] == p ==> d == id)
  }

  ghost predicate OnlyOf<C, K, V>(h: Hub<C, K, V>, p: C, id: uint64) {
    && (forall x :: x in h.clients && h.clients[x].channel == Some(p) ==> h.clients[x].id == id)
    && (forall v, d :: v in h.servers && d in h.servers[v].connections ==> h.servers[v].connections[d] != p)
  }

  lemma ClientsPeer<C, K, V>(h: Hub<C, K, V>, k: K)
    requires HubInv(h) && AllMatched(h) && k in h.clients && h.clients[k].channel.Some?
    ensures var c := h.clients[k].channel.value;
      c in h.net.chans && (LivePeer(h.net, c).Some? ==> OnlyUnder(h, LivePeer(h.net, c).value, h.clients[k].id))
  {
    var c := h.clients[k].channel.value;
    assert Alive(h.net, c);
    assert Matched(h, c);
  }

  lemma ServersPeer<C, K, V>(h: Hub<C, K, V>, v: V, id: uint64)
    requires HubInv(h) && AllMatched(h) && v in h.servers && id in h.servers[v].connections
    ensures var e := h.servers[v].connections[id];
      e in h.net.chans && (LivePeer(h.net, e).Some? ==> OnlyOf(h, LivePeer(h.net, e).value, id))
  {
    var e := h.servers[v].connections[id];
    assert Alive(h.net, e);
    assert Matched(h, e);
  }

  // A message that goes up, or down.
  ghost predicate OneUp<C, K, V>(h: Hub<C, K, V>, h': Hub<C, K, V>, v: V, id: uint64, m: Bytes) {
    && (Up(h', v, id) == Up(h, v, id) || Up(h', v, id) == Up(h, v, id) + [m])
    && (forall d: uint64 :: d != id ==> Up(h', v, d) == Up(h, v, d))
    && forall x :: x in h.clients ==> Down(h', x) == Down(h, x)
  }

  ghost predicate OneDown<C, K, V>(h: Hub<C, K, V>, h': Hub<C, K, V>, v: V, id: uint64, m: Bytes) {
    && (forall d: uint64 :: Up(h', v, d) == Up(h, v, d))
    && forall x :: x in h.clients ==>
         || Down(h', x) == Down(h, x)
         || (h.clients[x].id == id && Down(h', x) == Down(h, x) + [m])
  }

  lemma GoesUp<C, K, V>(h: Hub<C, K, V>, v: V, c: C, id: uint64, m: Bytes)
    requires HoldsKnown(h) && c in h.net.chans
    requires LivePeer(h.net, c).Some? ==> OnlyUnder(h, LivePeer(h.net, c).value, id)
    ensures OneUp(h, h.(net := Send(h.net, c, m)), v, id, m)
  {
    SendMail(h.net, c, m);
    hide Mail, Send, LivePeer;
  }

  lemma GoesDown<C, K, V>(h: Hub<C, K, V>, v: V, c: C, id: uint64, m: Bytes)
    requires HoldsKnown(h) && c in h.net.chans
    requires LivePeer(h.net, c).Some? ==> OnlyOf(h, LivePeer(h.net, c).value, id)
    ensures OneDown(h, h.(net := Send(h.net, c, m)), v, id, m)
  {
    SendMail(h.net, c, m);
    hide Mail, Send, LivePeer;
  }

  lemma ClientSendEffect<C, K, V>(h: Hub<C, K, V>, v: V, k: K, m: Bytes)
    requires HubInv(h) && AllMatched(h) && k in h.clients
    ensures ClientUsable(h, k)
    ensures var h' := ClientSend(h, k, m);
      HubInv(h') && AllMatched(h') && h'.clients == h.clients && OneUp(h, h', v, h.clients[k].id, m)
  {
    hide HubInvBut, AllMatched, Mail, Send, LivePeer, HoldsKnown, OnlyUnder;
    ClientUseKeeps(h, k, m);
    ClientUseMatched(h, k, m);
    BooksKnown(h);
    if h.clients[k].channel.Some? {
      hide OneUp;
      ClientsPeer(h, k);
      GoesUp(h, v, h.clients[k].channel.value, h.clients[k].id, m);
    }
  }

  lemma ServerSendEffect<C, K, V>(h: Hub<C, K, V>, v: V, id: uint64, m: Bytes)
    requires HubInv(h) && AllMatched(h) && v in h.servers
    ensures ServerUsable(h, v, id)
    ensures var h' := ServerSend(h, v, id, m);
      HubInv(h') && AllMatched(h') && h'.clients == h.clients && OneDown(h, h', v, id, m)
  {
    hide HubInvBut, AllMatched, Mail, Send, LivePeer, HoldsKnown, OnlyOf;
    ServerSendKeeps(h, v, id, m);
    ServerUseMatched(h, v, id, m);
    BooksKnown(h);
    if id in h.servers[v].connections {
      hide OneDown;
      ServersPeer(h, v, id);
      GoesDown(h, v, h.servers[v].connections[id], id, m);
    }
  }

  // The letter m at the head of the queue, taken out of it; h1 is h after that.
  ghost predicate OneOut<C, K, V>(h: Hub<C, K, V>, h1: Hub<C, K, V>, v: V, x: C, m: Bytes) {
    && (forall d: uint64 :: Up(h, v, d) == (if HoldsAt(h, v, d, x) then [m] else []) + Up(h1, v, d))
    && forall k :: k in h.clients ==> Down(h, k) == (if h.clients[k].channel == Some(x) then [m] else []) + Down(h1, k)
  }

  lemma TakenOut<C, K, V>(h: Hub<C, K, V>, v: V)
    requires HubInv(h) && AllMatched(h) && h.net.tasks != [] && h.net.tasks[0].SendMessageTask? && AllKnown(h.net)
    ensures var x := h.net.tasks[0].channel; var h1 := h.(net := Process(h.net));
      && HubInv(h1) && AllMatched(h1) && x in h.net.chans && SameLives(h.net, h1.net, None)
      && OneOut(h, h1, v, x, h.net.tasks[0].message)
  {
    ProcessKeeps(h.net);
    ProcessKeepsLives(h.net);
    hide HubInvBut, AllMatched, Process, SameLives, OneOut;
    SameLivesKeep(h, Process(h.net), {});
    ProcessMatched(h);
    OutOfMail(h, v);
  }

  lemma OutOfMail<C, K, V>(h: Hub<C, K, V>, v: V)
    requires h.net.tasks != [] && h.net.tasks[0].SendMessageTask? && AllKnown(h.net)
    ensures OneOut(h, h.(net := Process(h.net)), v, h.net.tasks[0].channel, h.net.tasks[0].message)
  {
    LettersTaken(h.net);
    hide Mail, Process;
  }

  ghost predicate HoldsAt<C, K, V>(h: Hub<C, K, V>, v: V, d: uint64, x: C) {
    v in h.servers && d in h.servers[v].connections && h.servers[v].connections[d] == x
  }

  lemma LettersTaken<C>(n: Net<C>)
    requires n.tasks != [] && n.tasks[0].SendMessageTask? && AllKnown(n)
    ensures Process(n).tasks == n.tasks[1..]
    ensures forall c ::
              Mail(n.tasks, c) == (if c == n.tasks[0].channel then [n.tasks[0].message] else []) + Mail(n.tasks[1..], c)
  {
    forall c ensures Mail(n.tasks, c) == Letter(n.tasks[0], c) + Mail(n.tasks[1..], c) {
      MailHead(n.tasks, c);
    }
  }

  // ----- the system -----

  ghost predicate InPhase<C, K, V>(codec: Codec, s: Sys<C, K, V>, b: Base, d: uint64, k: K, started: bool)
    requires k in s.devices
  {
    Phase(codec, b, d, started, s.devices[k], OwnCalls(s.history, d), Up(s.hub, s.server, d), Down(s.hub, k))
  }

  // The clients of the devices are bound to their ids.
  ghost predicate Identified<C, K, V>(h: Hub<C, K, V>, devices: set<K>, ids: map<K, uint64>) {
    devices <= ids.Keys && forall k :: k in devices ==> k in h.clients && ids[k] != 0 && h.clients[k].id == ids[k]
  }

  ghost predicate Orderly<C, K, V>(codec: Codec, s: Sys<C, K, V>, ids: map<K, uint64>, bases: map<K, Base>, started: set<K>) {
    && Faithful(codec) && HubInv(s.hub) && AllMatched(s.hub)
    && Identified(s.hub, s.devices.Keys, ids) && s.devices.Keys <= bases.Keys
    && forall k :: k in s.devices ==> InPhase(codec, s, bases[k], ids[k], k, k in started)
  }

  lemma IdsDiffer<C, K, V>(h: Hub<C, K, V>, devices: set<K>, ids: map<K, uint64>)
    requires HubInv(h) && Identified(h, devices, ids)
    ensures forall k, x :: k in devices && x in devices && k != x ==> ids[k] != ids[x]
  {
    hide Inv, ServersRegistered, ClientsHold, ConnectionsHold, AllHeldBut;
  }

  // Nothing has happened to device k.
  ghost predicate Untouched<C, K, V>(s: Sys<C, K, V>, s': Sys<C, K, V>, k: K, d: uint64) {
    && k in s.devices && k in s'.devices && s'.devices[k] == s.devices[k] && OwnCalls(s'.history, d) == OwnCalls(s.history, d)
    && Up(s'.hub, s'.server, d) == Up(s.hub, s.server, d) && Down(s'.hub, k) == Down(s.hub, k)
  }

  lemma UntouchedInPhase<C, K, V>(codec: Codec, s: Sys<C, K, V>, s': Sys<C, K, V>, b: Base, d: uint64, k: K, started: bool)
    requires Untouched(s, s', k, d) && InPhase(codec, s, b, d, k, started)
    ensures InPhase(codec, s', b, d, k, started)
  {
    hide Phase, Up, Down, OwnCalls;
  }

  // sendNextMeterage
  lemma MeterageEffect<C, K, V>(codec: Codec, h: Hub<C, K, V>, v: V, k: K, dev: Device)
    requires HubInv(h) && AllMatched(h) && k in h.clients
    ensures ClientUsable(h, k)
    ensures var h' := MeterageSent(codec, h, k, dev); var id := h.clients[k].id;
      && HubInv(h') && AllMatched(h') && h'.clients == h.clients
      && (Up(h', v, id) == Up(h, v, id) || Up(h', v, id) == Up(h, v, id) + NextMail(codec, dev))
      && (forall d: uint64 :: d != id ==> Up(h', v, d) == Up(h, v, d))
      && forall x :: x in h.clients ==> Down(h', x) == Down(h, x)
  {
    hide HubInvBut, AllMatched, Up, Down, ClientSend, Sealed;
    var m := if dev.timeStamp < |dev.meterages| then NextMail(codec, dev)[0] else [];
    ClientSendEffect(h, v, k, m);
  }

  // What a device sends after a change of its own reaches nobody else.
  lemma SendNextOrderly<C, K, V>(codec: Codec, s: Sys<C, K, V>, ids: map<K, uint64>, bases: map<K, Base>,
                                 started: set<K>, k: K, dev: Device)
    requires Faithful(codec) && HubInv(s.hub) && AllMatched(s.hub)
    requires Identified(s.hub, s.devices.Keys, ids) && s.devices.Keys <= bases.Keys && k in s.devices
    requires forall x :: x in s.devices && x != k ==> InPhase(codec, s, bases[x], ids[x], x, x in started)
    requires Up(s.hub, s.server, ids[k]) == [] && Down(s.hub, k) == []
    requires forall up :: up == NextMail(codec, dev) || up == [] ==>
               Phase(codec, bases[k], ids[k], k in started, Advanced(dev), OwnCalls(s.history, ids[k]), up, [])
    ensures ClientExists(s.(devices := s.devices[k := dev]), k)
    ensures Orderly(codec, SendNext(codec, s.(devices := s.devices[k := dev]), k), ids, bases, started)
  {
    hide Faithful, HubInvBut, AllMatched, Phase, Up, Down, OwnCalls, MeterageSent, NextMail, Advanced, ClientUsable;
    MeterageEffect(codec, s.hub, s.server, k, dev);
    IdsDiffer(s.hub, s.devices.Keys, ids);
    var s' := SendNext(codec, s.(devices := s.devices[k := dev]), k);
    forall x | x in s'.devices ensures InPhase(codec, s', bases[x], ids[x], x, x in started) {
      if x == k {
        assert [] + NextMail(codec, dev) == NextMail(codec, dev);
      } else {
        UntouchedInPhase(codec, s, s', bases[x], ids[x], x, x in started);
      }
    }
  }

  lemma StartOrderly<C, K, V>(codec: Codec, s: Sys<C, K, V>, ids: map<K, uint64>, bases: map<K, Base>, started: set<K>, k: K)
    requires Orderly(codec, s, ids, bases, started) && k in s.devices && k !in started
    ensures ClientExists(s, k)
    ensures Orderly(codec, StartSending(codec, s, k, bases[k].meterages), ids, bases, started + {k})
  {
    hide Faithful, HubInvBut, AllMatched, Phase, Up, Down, OwnCalls, MeterageSent, NextMail, Advanced, ClientUsable;
    var dev := s.devices[k].(meterages := bases[k].meterages, timeStamp := 0);
    var own := OwnCalls(s.history, ids[k]);
    assert InPhase(codec, s, bases[k], ids[k], k, false);
    OneLetter(codec, bases[k], ids[k], false, s.devices[k], own, Up(s.hub, s.server, ids[k]), Down(s.hub, k));
    forall up | up == NextMail(codec, dev) || up == []
      ensures Phase(codec, bases[k], ids[k], true, Advanced(dev), own, up, [])
    {
      PhaseBegins(codec, bases[k], ids[k], s.devices[k], own, up);
    }
    SendNextOrderly(codec, s, ids, bases, started + {k}, k, dev);
  }

  // ----- a message comes out of the queue -----

  // s with the letter m for channel x taken out of its queue.
  ghost predicate Opening<C, K, V>(s: Sys<C, K, V>, s1: Sys<C, K, V>, x: C, m: Bytes) {
    && s.hub.net.tasks != [] && s.hub.net.tasks[0] == SendMessageTask(m, x) && AllKnown(s.hub.net)
    && s1 == s.(hub := s.hub.(net := Process(s.hub.net)))
  }

  // A device whose letter it is not, going up or down, is untouched.
  lemma NotItsLetter<C, K, V>(s: Sys<C, K, V>, s1: Sys<C, K, V>, x: C, m: Bytes, k: K, d: uint64)
    requires Opening(s, s1, x, m) && k in s.devices && k in s.hub.clients
    requires OneOut(s.hub, s1.hub, s.server, x, m) && s.hub.clients[k].channel != Some(x) && !HoldsAt(s.hub, s.server, d, x)
    ensures Untouched(s, s1, k, d)
  {
    hide Up, Down, OwnCalls, Process, HoldsAt;
    assert [] + Up(s1.hub, s.server, d) == Up(s1.hub, s.server, d);
    assert [] + Down(s1.hub, k) == Down(s1.hub, k);
  }

  // Who holds the living channel x.
  lemma HolderOf<C, K, V>(h: Hub<C, K, V>, x: C)
    requires HubInv(h) && Alive(h.net, x)
    ensures x in h.owner
    ensures match h.owner[x]
      case ClientOwner(k) =>
        && k in h.clients && h.clients[k].channel == Some(x)
        && (forall y :: y in h.clients && y != k ==> h.clients[y].channel != Some(x))
        && (forall v, d :: v in h.servers && d in h.servers[v].connections ==> h.servers[v].connections[d] != x)
      case ServerOwner(v) =>
        && HoldsAt(h, v, h.net.chans[x].peerId, x)
        && (forall y :: y in h.clients ==> h.clients[y].channel != Some(x))
        && (forall y, d :: y in h.servers && d in h.servers[y].connections && h.servers[y].connections[d] == x ==>
              y == v && d == h.net.chans[x].peerId)
  {
    assert Held(h, x);
    hide Inv, ClientsRegistered, ServersRegistered;
  }

  lemma DeadHeldByNobody<C, K, V>(h: Hub<C, K, V>, x: C)
    requires HubInv(h) && x in h.net.chans && !h.net.chans[x].alive
    ensures forall y :: y in h.clients ==> h.clients[y].channel != Some(x)
    ensures forall v, d :: v in h.servers && d in h.servers[v].connections ==> h.servers[v].connections[d] != x
  {
    hide Inv, ClientsRegistered, ServersRegistered, AllHeldBut;
  }

  lemma NobodysLetter<C, K, V>(codec: Codec, s: Sys<C, K, V>, s1: Sys<C, K, V>, ids: map<K, uint64>, bases: map<K, Base>,
                               started: set<K>, x: C, m: Bytes)
    requires Orderly(codec, s, ids, bases, started) && Opening(s, s1, x, m)
    requires HubInv(s1.hub) && AllMatched(s1.hub) && OneOut(s.hub, s1.hub, s.server, x, m)
    requires forall k :: k in s.devices ==> s.hub.clients[k].channel != Some(x) && !HoldsAt(s.hub, s.server, ids[k], x)
    ensures Orderly(codec, s1, ids, bases, started)
  {
    hide Faithful, HubInvBut, AllMatched, OneOut, HoldsAt, Process, Phase, Up, Down;
    forall k | k in s1.devices ensures InPhase(codec, s1, bases[k], ids[k], k, k in started) {
      NotItsLetter(s, s1, x, m, k, ids[k]);
      UntouchedInPhase(codec, s, s1, bases[k], ids[k], k, k in started);
    }
  }

  lemma DevicesLetter<C, K, V>(codec: Codec, s: Sys<C, K, V>, s1: Sys<C, K, V>, ids: map<K, uint64>, bases: map<K, Base>,
                               started: set<K>, x: C, m: Bytes, k: K)
    requires Orderly(codec, s, ids, bases, started) && Opening(s, s1, x, m)
    requires HubInv(s1.hub) && AllMatched(s1.hub) && OneOut(s.hub, s1.hub, s.server, x, m)
    requires k in s.devices && s.hub.clients[k].channel == Some(x)
    requires forall y :: y in s.hub.clients && y != k ==> s.hub.clients[y].channel != Some(x)
    requires forall d: uint64 :: !HoldsAt(s.hub, s.server, d, x)
    ensures ClientExists(s1, k) && DeviceAccepts(codec, m)
    ensures Orderly(codec, DeviceReceives(codec, s1, k, m), ids, bases, started)
  {
    hide Faithful, HubInvBut, AllMatched, HoldsAt, Process, Phase, Up, Down, NextMail, DeviceAccepts, Noting, Advanced;
    var d, own := ids[k], OwnCalls(s.history, ids[k]);
    assert InPhase(codec, s, bases[k], d, k, k in started);
    assert Up(s.hub, s.server, d) == [] + Up(s1.hub, s.server, d) == Up(s1.hub, s.server, d);
    PhaseAtDevice(codec, bases[k], d, k in started, s.devices[k], own, m, Up(s1.hub, s.server, d), Down(s1.hub, k));
    forall y | y in s1.devices && y != k ensures InPhase(codec, s1, bases[y], ids[y], y, y in started) {
      NotItsLetter(s, s1, x, m, y, ids[y]);
      UntouchedInPhase(codec, s, s1, bases[y], ids[y], y, y in started);
    }
    SendNextOrderly(codec, s1, ids, bases, started, k, Noting(codec, s.devices[k], m));
  }

  // What the server sends in reaction to a message with peer id id.
  ghost function Answered(codec: Codec, history: History, id: uint64, m: Bytes): seq<Bytes> {
    match Opened(codec, m)
    case Some(MessageMeterage(t, value)) => [Sealed(codec, Reply(history, id, t, value))]
    case _ => []
  }

  lemma AnswerEffect<C, K, V>(codec: Codec, h: Hub<C, K, V>, v: V, history: History, id: uint64, m: Bytes)
    requires HubInv(h) && AllMatched(h) && v in h.servers
    ensures ServerUsable(h, v, id)
    ensures var h' := AnswerSent(codec, h, v, history, id, m);
      && HubInv(h') && AllMatched(h') && h'.clients == h.clients
      && (forall d: uint64 :: Up(h', v, d) == Up(h, v, d))
      && forall x :: x in h.clients ==>
           || Down(h', x) == Down(h, x)
           || (h.clients[x].id == id && Down(h', x) == Down(h, x) + Answered(codec, history, id, m))
  {
    hide HubInvBut, AllMatched, Up, Down, ServerSend, Sealed, Opened, Reply;
    var a := Answered(codec, history, id, m);
    ServerSendEffect(h, v, id, if a == [] then [] else a[0]);
  }

  lemma CallsOfOthers(codec: Codec, history: History, id: uint64, m: Bytes, d: uint64)
    requires d != id
    ensures OwnCalls(history + Calls(codec, id, m), d) == OwnCalls(history, d)
  {
    hide Opened, OwnCalls;
    match Opened(codec, m)
    case Some(MessageMeterage(t, value)) => OtherCalls(history, Measured(id, t, value));
    case _ => assert history + [] == history;
  }

  // What the server does about a message under id does not touch a device with another id.
  lemma NotItsAnswer<C, K, V>(codec: Codec, s: Sys<C, K, V>, s1: Sys<C, K, V>, x: C, m: Bytes, id: uint64, k: K, d: uint64)
    requires Opening(s, s1, x, m) && k in s.devices && k in s.hub.clients && s.hub.clients[k].id == d && d != id
    requires HubInv(s1.hub) && AllMatched(s1.hub) && s.server in s1.hub.servers && s1.hub.clients == s.hub.clients
    requires OneOut(s.hub, s1.hub, s.server, x, m) && s.hub.clients[k].channel != Some(x) && !HoldsAt(s.hub, s.server, d, x)
    ensures ServerExists(s1, id) && Untouched(s, ServerReceives(codec, s1, id, m), k, d)
  {
    hide HubInvBut, AllMatched, OneOut, HoldsAt, Up, Down, OwnCalls, Process, Opened, AnswerSent, ServerUsable;
    NotItsLetter(s, s1, x, m, k, d);
    AnswerEffect(codec, s1.hub, s.server, s.history, id, m);
    CallsOfOthers(codec, s.history, id, m, d);
  }

  lemma OwnAnswer<C, K, V>(codec: Codec, s: Sys<C, K, V>, s1: Sys<C, K, V>, b: Base, d: uint64, x: C, m: Bytes, k: K, st: bool)
    requires Opening(s, s1, x, m) && k in s.devices && k in s.hub.clients && s.hub.clients[k].id == d
    requires HubInv(s1.hub) && AllMatched(s1.hub) && s.server in s1.hub.servers && s1.hub.clients == s.hub.clients
    requires OneOut(s.hub, s1.hub, s.server, x, m) && s.hub.clients[k].channel != Some(x) && HoldsAt(s.hub, s.server, d, x)
    requires Faithful(codec) && InPhase(codec, s, b, d, k, st)
    ensures ServerExists(s1, d) && InPhase(codec, ServerReceives(codec, s1, d, m), b, d, k, st)
  {
    hide HubInvBut, AllMatched, HoldsAt, Up, Down, OwnCalls, Process, Opened, AnswerSent, ServerUsable, Faithful, Phase;
    hide Reply, Sealed;
    var own := OwnCalls(s.history, d);
    assert Down(s.hub, k) == [] + Down(s1.hub, k) == Down(s1.hub, k);
    PhaseAtServer(codec, b, d, st, s.devices[k], own, m, Up(s1.hub, s.server, d), Down(s1.hub, k));
    var i := s.devices[k].timeStamp - 1;
    ReplyToOwn(s.history, d, i, b.meterages[i]);
    OtherCalls(s.history, Measured(d, i, b.meterages[i]));
    AnswerEffect(codec, s1.hub, s.server, s.history, d, m);
    assert [] + Answered(codec, s.history, d, m) == [Sealed(codec, Reply(own, d, i, b.meterages[i]))];
  }

  lemma HoldingServer<C, K, V>(h: Hub<C, K, V>, v: V, id: uint64, x: C)
    requires HoldsAt(h, v, id, x)
    ensures v in h.servers
  {
  }

  lemma ServersLetter<C, K, V>(codec: Codec, s: Sys<C, K, V>, s1: Sys<C, K, V>, ids: map<K, uint64>, bases: map<K, Base>,
                               started: set<K>, x: C, m: Bytes, id: uint64)
    requires Orderly(codec, s, ids, bases, started) && Opening(s, s1, x, m)
    requires HubInv(s1.hub) && AllMatched(s1.hub) && OneOut(s.hub, s1.hub, s.server, x, m)
    requires forall y :: y in s.hub.clients ==> s.hub.clients[y].channel != Some(x)
    requires forall d: uint64 :: HoldsAt(s.hub, s.server, d, x) <==> d == id
    ensures ServerExists(s1, id) && Orderly(codec, ServerReceives(codec, s1, id, m), ids, bases, started)
  {
    hide Faithful, HubInvBut, AllMatched, OneOut, HoldsAt, Process, AnswerSent, Calls, ServerUsable, InPhase, Up, Down;
    hide Untouched;
    HoldingServer(s.hub, s.server, id, x);
    AnswerEffect(codec, s1.hub, s.server, s.history, id, m);
    var s' := ServerReceives(codec, s1, id, m);
    forall k | k in s'.devices ensures InPhase(codec, s', bases[k], ids[k], k, k in started) {
      if ids[k] == id {
        OwnAnswer(codec, s, s1, bases[k], id, x, m, k, k in started);
      } else {
        NotItsAnswer(codec, s, s1, x, m, id, k, ids[k]);
        UntouchedInPhase(codec, s, s', bases[k], ids[k], k, k in started);
      }
    }
  }

  // The next message reaches the device or the server that holds its channel, or nobody.
  lemma MessageOrderly<C, K, V>(codec: Codec, s: Sys<C, K, V>, ids: map<K, uint64>, bases: map<K, Base>, started: set<K>)
    requires Orderly(codec, s, ids, bases, started)
    requires s.hub.net.tasks != [] && s.hub.net.tasks[0].SendMessageTask? && AllKnown(s.hub.net)
    ensures Orderly(codec, Deliver(codec, s), ids, bases, started)
    ensures forall k :: k in s.devices && s.hub.clients[k].channel == Some(s.hub.net.tasks[0].channel) ==>
              DeviceAccepts(codec, s.hub.net.tasks[0].message)
  {
    var x, m := s.hub.net.tasks[0].channel, s.hub.net.tasks[0].message;
    var s1 := s.(hub := s.hub.(net := Process(s.hub.net)));
    hide Faithful, HubInvBut, AllMatched, OneOut, Process, InPhase, DeviceReceives, ServerReceives, DeviceAccepts;
    TakenOut(s.hub, s.server);
    if s.hub.net.chans[x].alive {
      HolderOf(s.hub, x);
      match s.hub.owner[x]
      case ClientOwner(k) =>
        if k in s.devices {
          DevicesLetter(codec, s, s1, ids, bases, started, x, m, k);
        } else {
          NobodysLetter(codec, s, s1, ids, bases, started, x, m);
        }
      case ServerOwner(v) =>
        if v == s.server {
          ServersLetter(codec, s, s1, ids, bases, started, x, m, s.hub.net.chans[x].peerId);
        } else {
          NobodysLetter(codec, s, s1, ids, bases, started, x, m);
        }
    } else {
      DeadHeldByNobody(s.hub, x);
      NobodysLetter(codec, s, s1, ids, bases, started, x, m);
    }
  }

  // ----- everything else -----

  // A step of clients and servers; a device goes with its client.
  ghost function Disturbed<C, K, V>(s: Sys<C, K, V>, op: HubOp<C, K, V>): Sys<C, K, V>
    requires HubInv(s.hub) && HubEnabled(s.hub, op)
  {
    s.(hub := HubStep(s.hub, op), devices := if op.DestroyClientOp? then s.devices - {op.client} else s.devices)
  }

  // A device keeps its id.
  ghost predicate Allowed<C, K, V>(s: Sys<C, K, V>, op: HubOp<C, K, V>) {
    HubEnabled(s.hub, op) && Silent(s.hub, op) && !(op.BindOp? && op.client in s.devices)
  }

  lemma ProcessTaskKeepsIds<C, K, V>(h: Hub<C, K, V>, s: C, c: C, k: K)
    requires HubInv(h) && h.net.tasks != [] && s !in h.net.chans && c !in h.net.chans && s != c && k in h.clients
    ensures k in ProcessTask(h, s, c).clients && ProcessTask(h, s, c).clients[k].id == h.clients[k].id
  {
    ProcessKeeps(h.net);
    ProcessKeepsLives(h.net);
    SameLivesKeep(h, Process(h.net), {});
    hide HubInvBut, Process, Establish, Forget;
    var h1 := h.(net := Process(h.net));
    match h.net.tasks[0]
    case SendMessageTask(_, _) =>
    case DisconnectTask(x) =>
      if h.net.chans[x].alive && x in h.owner {
        ForgetKeepsIds(h1, x, k);
      }
    case ConnectToServerTask(i, j) => EstablishKeepsIds(h1, i, j, s, c, k);
  }

  lemma ForgetKeepsIds<C, K, V>(h: Hub<C, K, V>, x: C, k: K)
    requires x in h.net.chans && x in h.owner && k in h.clients
    ensures k in Forget(h, x).clients && Forget(h, x).clients[k].id == h.clients[k].id
  {
    hide Destroy;
  }

  lemma EstablishKeepsIds<C, K, V>(h: Hub<C, K, V>, i: uint64, j: uint64, s: C, c: C, k: K)
    requires HubInv(h) && s !in h.net.chans && c !in h.net.chans && s != c && k in h.clients
    ensures i in h.clientIds ==> h.clientIds[i] in h.clients
    ensures j in h.serverIds ==> h.serverIds[j] in h.servers
    ensures k in Establish(h, i, j, s, c).clients && Establish(h, i, j, s, c).clients[k].id == h.clients[k].id
  {
    RegisteredExist(h, i, j);
    hide HubInvBut, Survivors, Pair, AddChannel, SetChannel;
    if i in h.clientIds && j in h.serverIds {
      EstablishMakes(h, i, j, s, c);
    }
  }

  lemma StepKeepsIds<C, K, V>(h: Hub<C, K, V>, op: HubOp<C, K, V>, k: K)
    requires HubInv(h) && HubEnabled(h, op) && k in h.clients && !((op.BindOp? || op.DestroyClientOp?) && op.client == k)
    ensures k in HubStep(h, op).clients && HubStep(h, op).clients[k].id == h.clients[k].id
  {
    hide HubInvBut, Enumerates, ProcessTask, Send, Close, CloseAll, Destroy, DestroyAll;
    match op
    case ProcessTaskOp(s, c) => ProcessTaskKeepsIds(h, s, c, k);
    case _ =>
  }

  lemma DisturbedOrderly<C, K, V>(codec: Codec, s: Sys<C, K, V>, ids: map<K, uint64>, bases: map<K, Base>,
                                  started: set<K>, op: HubOp<C, K, V>)
    requires Orderly(codec, s, ids, bases, started) && Allowed(s, op)
    ensures Orderly(codec, Disturbed(s, op), ids, bases, started)
  {
    hide Faithful, HubInvBut, AllMatched, HubStep, HubEnabled, Silent, Phase, Up, Down, OwnCalls;
    HubStepKeeps(s.hub, op);
    HubStepMatched(s.hub, op);
    SilentQuieter(s.hub, op);
    var s' := Disturbed(s, op);
    forall k | k in s'.devices
      ensures k in s'.hub.clients && s'.hub.clients[k].id == ids[k] && InPhase(codec, s', bases[k], ids[k], k, k in started)
    {
      StepKeepsIds(s.hub, op, k);
      QuieterFor(s.hub, s'.hub, s.server, ids[k], k);
      PhaseQuieter(codec, bases[k], ids[k], k in started, s.devices[k], OwnCalls(s.history, ids[k]),
                   Up(s.hub, s.server, ids[k]), Down(s.hub, k), Up(s'.hub, s.server, ids[k]), Down(s'.hub, k));
    }
  }

  lemma QuieterFor<C, K, V>(h: Hub<C, K, V>, h': Hub<C, K, V>, v: V, d: uint64, k: K)
    requires Quieter(h, h')
    ensures Up(h', v, d) == Up(h, v, d) || Up(h', v, d) == []
    ensures Down(h', k) == Down(h, k) || Down(h', k) == []
  {
    hide Mail;
  }

  // ----- runs -----

  // A device sets its meterages and starts, the next message is delivered, or clients and servers do
  // whatever they do besides sending messages.
  datatype Act<C, K, V> = StartAct(device: K) | MessageAct | HubAct(op: HubOp<C, K, V>)

  ghost predicate Unfolds<C, K, V>(codec: Codec, s: Sys<C, K, V>, ms: map<K, Meterages>, started: set<K>,
                                   acts: seq<Act<C, K, V>>, s': Sys<C, K, V>, started': set<K>)
    decreases |acts|
  {
    if acts == [] then s' == s && started' == started
    else match acts[0]
      case StartAct(k) =>
        && k in ms && k !in started && ClientExists(s, k)
        && Unfolds(codec, StartSending(codec, s, k, ms[k]), ms, started + {k}, acts[1..], s', started')
      case MessageAct =>
        && s.hub.net.tasks != [] && s.hub.net.tasks[0].SendMessageTask? && AllKnown(s.hub.net)
        && Unfolds(codec, Deliver(codec, s), ms, started, acts[1..], s', started')
      case HubAct(op) =>
        && HubInv(s.hub) && Allowed(s, op)
        && Unfolds(codec, Disturbed(s, op), ms, started, acts[1..], s', started')
  }

  lemma {:induction false} UnfoldsOrderly<C, K, V>(codec: Codec, s: Sys<C, K, V>, ids: map<K, uint64>, bases: map<K, Base>,
                                                   ms: map<K, Meterages>, started: set<K>, acts: seq<Act<C, K, V>>,
                                                   s': Sys<C, K, V>, started': set<K>)
    requires Orderly(codec, s, ids, bases, started) && Sent(bases, ms)
    requires Unfolds(codec, s, ms, started, acts, s', started')
    ensures Orderly(codec, s', ids, bases, started')
    decreases |acts|
  {
    hide Orderly, Deliver, StartSending, Disturbed, HubEnabled, HubInv, AllKnown, ClientUsable;
    if acts != [] {
      match acts[0]
      case StartAct(k) =>
        StartOrderly(codec, s, ids, bases, started, k);
        UnfoldsOrderly(codec, StartSending(codec, s, k, ms[k]), ids, bases, ms, started + {k}, acts[1..], s', started');
      case MessageAct =>
        MessageOrderly(codec, s, ids, bases, started);
        UnfoldsOrderly(codec, Deliver(codec, s), ids, bases, ms, started, acts[1..], s', started');
      case HubAct(op) =>
        DisturbedOrderly(codec, s, ids, bases, started, op);
        UnfoldsOrderly(codec, Disturbed(s, op), ids, bases, ms, started, acts[1..], s', started');
    }
  }

  // Nothing is on its way to or from a device.
  ghost predicate Idle<C, K, V>(s: Sys<C, K, V>, ids: map<K, uint64>) {
    forall k :: k in s.devices && k in ids ==> Up(s.hub, s.server, ids[k]) == [] && Down(s.hub, k) == []
  }

  ghost function Origins<C, K, V>(s: Sys<C, K, V>, ids: map<K, uint64>, ms: map<K, Meterages>): map<K, Base>
    requires ms.Keys == s.devices.Keys == ids.Keys
  {
    map k | k in ms :: Base(ms[k], OwnCalls(s.history, ids[k]), s.devices[k].messages)
  }

  lemma IdleOrderly<C, K, V>(codec: Codec, s: Sys<C, K, V>, ids: map<K, uint64>, ms: map<K, Meterages>)
    requires Faithful(codec) && HubInv(s.hub) && AllMatched(s.hub) && ms.Keys == s.devices.Keys == ids.Keys
    requires Identified(s.hub, s.devices.Keys, ids) && Idle(s, ids)
    ensures Orderly(codec, s, ids, Origins(s, ids, ms), {})
  {
    hide Faithful, HubInvBut, AllMatched, Up, Down, OwnCalls;
    assert Gots([]) == [];
  }

  lemma SomeOfExpected(h: History, d: uint64, ms: Meterages, j: nat)
    requires j <= |ms|
    ensures Answers(OwnCalls(h, d), d, ms, j) == Expected(h, d, ms)[..j]
  {
    AnswersExpected(h, d, ms);
    hide AnswerTo, Reply, OwnCalls;
    assert Answers(OwnCalls(h, d), d, ms, j) == Answers(OwnCalls(h, d), d, ms, |ms|)[..j];
  }

  // The next task is a message for client k.
  ghost predicate NextIsFor<C, K, V>(h: Hub<C, K, V>, k: K) {
    && h.net.tasks != [] && h.net.tasks[0].SendMessageTask? && AllKnown(h.net)
    && k in h.clients && h.clients[k].channel == Some(h.net.tasks[0].channel)
  }

  // Whatever happens to the connections, the clients and the servers, and whenever the devices start: what
  // a device that is still there has received is a part, from the first on, of what it would have received
  // had nothing happened; so is what the command center has been told by it; and no device throws.
  lemma DisturbedReplies<C, K, V>(codec: Codec, s: Sys<C, K, V>, ids: map<K, uint64>, ms: map<K, Meterages>,
                                  acts: seq<Act<C, K, V>>, s': Sys<C, K, V>, started: set<K>, k: K)
    requires Faithful(codec) && HubInv(s.hub) && AllMatched(s.hub) && ms.Keys == s.devices.Keys == ids.Keys
    requires Identified(s.hub, s.devices.Keys, ids) && Idle(s, ids)
    requires Unfolds(codec, s, ms, {}, acts, s', started) && k in s'.devices
    ensures k in ids && k in ms && k in s.devices
    ensures exists j, m :: 0 <= j <= m <= |ms[k]| &&
              s'.devices[k].messages == s.devices[k].messages + Expected(s.history, ids[k], ms[k])[..j] &&
              OwnCalls(s'.history, ids[k]) == OwnCalls(s.history, ids[k]) + Measurements(ids[k], ms[k], m)
    ensures NextIsFor(s'.hub, k) ==> DeviceAccepts(codec, s'.hub.net.tasks[0].message)
  {
    var bases := Origins(s, ids, ms);
    IdleOrderly(codec, s, ids, ms);
    UnfoldsOrderly(codec, s, ids, bases, ms, {}, acts, s', started);
    if NextIsFor(s'.hub, k) {
      MessageOrderly(codec, s', ids, bases, started);
    }
    SomeReceived(codec, s', bases[k], ids[k], k, k in started);
    hide Orderly, Unfolds, Expected, Answers, Measurements, OwnCalls, DeviceAccepts;
    var j, m :| GotSome(bases[k], ids[k], s'.devices[k], OwnCalls(s'.history, ids[k]), j, m);
    SomeOfExpected(s.history, ids[k], ms[k], j);
  }

  // Any state that clients and servers can reach from nothing and come to rest in is one to begin from.
  lemma QuietStart(ops: seq<HubOp<nat, nat, nat>>, s: Sys<nat, nat, nat>, ids: map<nat, uint64>)
    requires HubRun(NOBODY, ops, s.hub) && s.hub.net.tasks == []
    ensures HubInv(s.hub) && AllMatched(s.hub) && Idle(s, ids)
  {
    HubRunMatched(NOBODY, ops, s.hub);
  }

  lemma SomeReceived<C, K, V>(codec: Codec, s: Sys<C, K, V>, b: Base, d: uint64, k: K, started: bool)
    requires k in s.devices && InPhase(codec, s, b, d, k, started)
    ensures Stalled(b, d, s.devices[k], OwnCalls(s.history, d))
  {
    hide Talking, Up, Down, OwnCalls;
    var own := OwnCalls(s.history, d);
    if started {
      PhaseStalled(codec, b, d, s.devices[k], own, Up(s.hub, s.server, d), Down(s.hub, k));
    } else {
      OneLetter(codec, b, d, false, s.devices[k], own, Up(s.hub, s.server, d), Down(s.hub, k));
      NotBegun(codec, b, d, s.devices[k], own);
    }
  }

  lemma NotBegun(codec: Codec, b: Base, d: uint64, dev: Device, own: History)
    requires Talking(codec, b, d, false, dev, own, [], [])
    ensures Stalled(b, d, dev, own)
  {
    assert Answers(b.own, d, b.meterages, 0) == [] && Measurements(d, b.meterages, 0) == [];
    assert b.messages + [] == b.messages && b.own + [] == b.own;
    assert GotSome(b, d, dev, own, 0, 0);
  }

  // The documentation has a device begin when it is connected; a device that begins before that loses its
  // first meterage, and its clock goes on: the meterage is sent exactly if the client's channel is connected.
  lemma StartHeardIff<C, K, V>(codec: Codec, s: Sys<C, K, V>, k: K, meterages: Meterages)
    requires HubInv(s.hub) && ClientExists(s, k) && meterages != []
    ensures var s' := StartSending(codec, s, k, meterages); var row := s.hub.clients[k];
      && k in s'.devices && s'.devices[k].timeStamp == 1
      && (s'.hub != s.hub <==> row.channel.Some? && s.hub.net.chans[row.channel.value].connected)
    ensures var s' := StartSending(codec, s, k, meterages); var row := s.hub.clients[k];
      s'.hub != s.hub ==>
        && s.hub.net.chans[row.channel.value].peer.Some?
        && var p := s.hub.net.chans[row.channel.value].peer.value;
           s'.hub.net.tasks == s.hub.net.tasks + [SendMessageTask(Sealed(codec, MessageMeterage(0, meterages[0])), p)]
  {
    if s.hub.clients[k].channel.Some? {
      var c := s.hub.clients[k].channel.value;
      assert Paired(s.hub.net, c);
      if s.hub.net.chans[c].connected {
        assert Paired(s.hub.net, s.hub.net.chans[c].peer.value);
      }
    }
    hide Sealed, HubInvBut;
  }

  // A bound client without a connection: the first meterage is gone and the next one is the second.
  lemma LostStartExample(codec: Codec, v: nat)
    ensures var h: Hub<nat, nat, nat> := Hub(Net(map[], []), map[], map[0 := Client(7, None)], map[7 := 0], map[], map[]);
      var s := Sys(h, v, map[0 := Device([], 0, [])], []);
      && HubInv(h) && ClientExists(s, 0)
      && StartSending(codec, s, 0, [5, 6]) == s.(devices := map[0 := Device([5, 6], 1, [])])
  {
    var h: Hub<nat, nat, nat> := Hub(Net(map[], []), map[], map[0 := Client(7, None)], map[7 := 0], map[], map[]);
    var s := Sys(h, v, map[0 := Device([], 0, [])], []);
    assert s.devices[0 := Device([5, 6], 0, [])][0 := Device([5, 6], 1, [])] == map[0 := Device([5, 6], 1, [])];
  }
}
