// The mock transport as a value: channels in pairs, and one queue of tasks. C is the identity of a channel.
module Network {
  import opened CTypes

  // What a channel's owner sees: messages, and at the end the disconnection.
  datatype Signal = Got(message: Bytes) | Closed

  datatype Task<C> =
    | SendMessageTask(message: Bytes, channel: C)
    | DisconnectTask(channel: C)
    | ConnectToServerTask(clientId: uint64, serverId: uint64)

  // refs counts the holders of the channel's shared block: the channel itself, its peer's pointer
  // to it and the tasks in the queue. accepted are the messages the peer's sendMessage queued for it.
  datatype Chan<C> = Chan(peerId: uint64, peer: Option<C>, connected: bool, alive: bool, refs: int,
                          accepted: seq<Bytes>, log: seq<Signal>)

  datatype Net<C> = Net(chans: map<C, Chan<C>>, tasks: seq<Task<C>>)

  // ----- the operations -----

  function Target<C>(t: Task<C>): Option<C> {
    match t
    case SendMessageTask(_, c) => Some(c)
    case DisconnectTask(c) => Some(c)
    case ConnectToServerTask(_, _) => None
  }

  // scheduleTask; a task for a channel holds a pointer to it.
  function Schedule<C(==)>(n: Net<C>, t: Task<C>): Net<C>
    requires Target(t).Some? ==> Target(t).value in n.chans
  {
    match Target(t)
    case None => n.(tasks := n.tasks + [t])
    case Some(c) => Net(n.chans[c := n.chans[c].(refs := n.chans[c].refs + 1)], n.tasks + [t])
  }

  // m_peerChannel.data()
  function LivePeer<C(==)>(n: Net<C>, c: C): (p: Option<C>)
    requires c in n.chans
    ensures p.Some? ==> p.value in n.chans && n.chans[p.value].alive && n.chans[c].peer == p
  {
    var peer := n.chans[c].peer;
    if peer.Some? && peer.value in n.chans && n.chans[peer.value].alive then peer else None
  }

  function Send<C(==)>(n: Net<C>, c: C, m: Bytes): Net<C>
    requires c in n.chans
  {
    var p := LivePeer(n, c);
    if n.chans[c].connected && p.Some? && n.chans[p.value].connected
    then
      var q := n.chans[p.value];
      Schedule(n.(chans := n.chans[p.value := q.(accepted := q.accepted + [m])]), SendMessageTask(m, p.value))
    else n
  }

  function Off<C(==)>(n: Net<C>, c: C): Net<C>
    requires c in n.chans
  {
    Schedule(n.(chans := n.chans[c := n.chans[c].(connected := false)]), DisconnectTask(c))
  }

  // disconnect: what the mutual recursion with disconnectPeer comes to.
  function Close<C(==)>(n: Net<C>, c: C): Net<C>
    requires c in n.chans
  {
    if !n.chans[c].connected then n
    else
      var p := LivePeer(n, c);
      if p.Some? && p.value != c && n.chans[p.value].connected then Off(Off(n, c), p.value) else Off(n, c)
  }

  function ClosePeer<C(==)>(n: Net<C>, c: C): Net<C>
    requires c in n.chans
  {
    match LivePeer(n, c)
    case None => n
    case Some(p) => Close(n, p)
  }

  // The pointer to the peer and the channel itself let go of their blocks.
  function LetGo<C(==)>(n: Net<C>, c: C): Net<C>
    requires c in n.chans
  {
    var peer := n.chans[c].peer;
    var chans := n.chans[c := n.chans[c].(alive := false, refs := n.chans[c].refs - 1)];
    n.(chans := if peer.Some? && peer.value in chans
                then chans[peer.value := chans[peer.value].(refs := chans[peer.value].refs - 1)]
                else chans)
  }

  // The destructors of a channel and of its parts.
  function Destroy<C(==)>(n: Net<C>, c: C): Net<C>
    requires c in n.chans
  {
    LetGo(ClosePeer(n, c), c)
  }

  // connect, on one side.
  function Joined<C(==)>(n: Net<C>, c: C, peer: C): Net<C>
    requires c in n.chans && peer in n.chans
  {
    var chans := n.chans[c := n.chans[c].(peer := Some(peer), connected := true)];
    n.(chans := chans[peer := chans[peer].(refs := chans[peer].refs + 1)])
  }

  // Two new channels connected to each other.
  function Pair<C(==)>(n: Net<C>, s: C, c: C, clientId: uint64, serverId: uint64): Net<C> {
    n.(chans := n.chans[s := Chan(clientId, Some(c), true, true, 2, [], [])]
                       [c := Chan(serverId, Some(s), true, true, 2, [], [])])
  }

  function Effect<C(==)>(t: Task<C>, c: C): seq<Signal> {
    match t
    case SendMessageTask(m, x) => if x == c then [Got(m)] else []
    case DisconnectTask(x) => if x == c then [Closed] else []
    case ConnectToServerTask(_, _) => []
  }

  // processTask for the tasks of channels: the event reaches the channel if it still exists, then the task is deleted.
  function Process<C(==)>(n: Net<C>): Net<C>
    requires n.tasks != []
    requires Target(n.tasks[0]).Some? ==> Target(n.tasks[0]).value in n.chans
  {
    var rest := n.(tasks := n.tasks[1..]);
    match Target(n.tasks[0])
    case None => rest
    case Some(c) =>
      var ch := n.chans[c];
      rest.(chans := n.chans[c := ch.(refs := ch.refs - 1,
                                      log := if ch.alive then ch.log + Effect(n.tasks[0], c) else ch.log)])
  }

  // The destructor of the queue drops its tasks unprocessed, and the pointers in them.
  function DropAll<C(==)>(n: Net<C>): Net<C> {
    Net(map c | c in n.chans :: n.chans[c].(refs := n.chans[c].refs - |Agenda(n.tasks, c)|), [])
  }

  // ----- the invariant -----

  // The events still queued for a channel.
  function Agenda<C(==)>(tasks: seq<Task<C>>, c: C): seq<Signal> {
    if tasks == [] then [] else Effect(tasks[0], c) + Agenda(tasks[1..], c)
  }

  function Gots(messages: seq<Bytes>): (events: seq<Signal>)
    ensures |events| == |messages|
    ensures forall i :: 0 <= i < |events| ==> events[i] == Got(messages[i])
  {
    seq(|messages|, i requires 0 <= i < |messages| => Got(messages[i]))
  }

  // All the events a channel is ever to see, as far as its fate is decided.
  function Script<C>(ch: Chan<C>): seq<Signal> {
    Gots(ch.accepted) + if ch.peer.Some? && !ch.connected then [Closed] else []
  }

  function One(b: bool): int {
    if b then 1 else 0
  }

  ghost predicate Paired<C>(n: Net<C>, c: C)
    requires c in n.chans
  {
    var ch := n.chans[c];
    && (ch.peer.Some? ==> ch.peer.value in n.chans && ch.peer.value != c && n.chans[ch.peer.value].peer == Some(c))
    && (ch.connected ==> ch.alive && ch.peer.Some? && n.chans[ch.peer.value].connected)
  }

  // What was seen and what is queued make up the script; a destroyed channel has seen a part of it.
  ghost predicate InOrder<C>(ch: Chan<C>, agenda: seq<Signal>) {
    && (ch.alive ==> ch.log + agenda == Script(ch))
    && (!ch.alive ==> ch.log <= Script(ch))
  }

  ghost predicate Counted<C>(ch: Chan<C>, peerAlive: bool, agenda: seq<Signal>) {
    ch.refs == One(ch.alive) + One(peerAlive) + |agenda|
  }

  predicate PeerAlive<C(==)>(n: Net<C>, c: C)
    requires c in n.chans
  {
    var p := n.chans[c].peer;
    p.Some? && p.value in n.chans && n.chans[p.value].alive
  }

  // Every task is for a known channel.
  ghost predicate AllKnown<C>(n: Net<C>) {
    forall i :: 0 <= i < |n.tasks| && Target(n.tasks[i]).Some? ==> Target(n.tasks[i]).value in n.chans
  }

  ghost predicate AllPaired<C>(n: Net<C>) {
    forall c :: c in n.chans ==> Paired(n, c)
  }

  ghost predicate AllInOrder<C>(n: Net<C>) {
    forall c :: c in n.chans ==> InOrder(n.chans[c], Agenda(n.tasks, c))
  }

  ghost predicate AllCounted<C>(n: Net<C>) {
    forall c :: c in n.chans ==> Counted(n.chans[c], PeerAlive(n, c), Agenda(n.tasks, c))
  }

  ghost predicate Inv<C>(n: Net<C>) {
    AllKnown(n) && AllPaired(n) && AllInOrder(n) && AllCounted(n)
  }

  // ----- every operation keeps it -----

  lemma {:induction false} AgendaSnoc<C>(tasks: seq<Task<C>>, t: Task<C>, c: C)
    ensures Agenda(tasks + [t], c) == Agenda(tasks, c) + Effect(t, c)
  {
    hide Effect;
    if tasks == [] {
      assert tasks + [t] == [t] && Agenda([t][1..], c) == [];
    } else {
      AgendaSnoc(tasks[1..], t, c);
      assert (tasks + [t])[1..] == tasks[1..] + [t];
    }
  }

  lemma {:induction false} AgendaOfStranger<C>(tasks: seq<Task<C>>, c: C)
    requires forall i :: 0 <= i < |tasks| ==> Target(tasks[i]) != Some(c)
    ensures Agenda(tasks, c) == []
  {
    if tasks != [] {
      AgendaOfStranger(tasks[1..], c);
    }
  }

  lemma EffectOn<C>(t: Task<C>, c: C)
    ensures Target(t) != Some(c) ==> Effect(t, c) == []
    ensures t.SendMessageTask? && t.channel == c ==> Effect(t, c) == [Got(t.message)]
    ensures t.DisconnectTask? && t.channel == c ==> Effect(t, c) == [Closed]
  {
  }

  // A task scheduled for c, with a new entry for c that accounts for it.
  ghost predicate Appended<C>(n: Net<C>, n': Net<C>, c: C, t: Task<C>) {
    && c in n.chans && c in n'.chans
    && n' == Net(n.chans[c := n'.chans[c]], n.tasks + [t])
    && Target(t) == Some(c)
    && n'.chans[c].refs == n.chans[c].refs + 1
    && n'.chans[c].alive == n.chans[c].alive && n'.chans[c].peer == n.chans[c].peer
    && InOrder(n'.chans[c], Agenda(n.tasks, c) + Effect(t, c))
  }

  lemma AppendedKeeps<C>(n: Net<C>, n': Net<C>, c: C, t: Task<C>)
    requires AllKnown(n) && AllInOrder(n) && AllCounted(n) && Appended(n, n', c, t)
    ensures AllKnown(n') && AllInOrder(n') && AllCounted(n')
  {
    hide Agenda, InOrder, Effect;
    forall x | x in n'.chans
      ensures InOrder(n'.chans[x], Agenda(n'.tasks, x)) && Counted(n'.chans[x], PeerAlive(n', x), Agenda(n'.tasks, x))
    {
      AgendaSnoc(n.tasks, t, x);
      EffectOn(t, x);
      assert Agenda(n.tasks, x) + [] == Agenda(n.tasks, x);
      assert InOrder(n.chans[x], Agenda(n.tasks, x)) && Counted(n.chans[x], PeerAlive(n, x), Agenda(n.tasks, x));
      assert PeerAlive(n', x) == PeerAlive(n, x);
    }
  }

  lemma SendAppends<C>(n: Net<C>, c: C, m: Bytes)
    requires Inv(n) && c in n.chans && Send(n, c, m) != n
    ensures n.chans[c].peer.Some?
    ensures Appended(n, Send(n, c, m), n.chans[c].peer.value, SendMessageTask(m, n.chans[c].peer.value))
  {
    var p := n.chans[c].peer.value;
    assert Paired(n, c) && Paired(n, p);
    var ch, ch', agenda := n.chans[p], Send(n, c, m).chans[p], Agenda(n.tasks, p);
    var more := n.chans[p := ch.(accepted := ch.accepted + [m])];
    assert more[p := ch'] == n.chans[p := ch'];
    assert InOrder(ch, agenda);
    assert ch.log + (agenda + [Got(m)]) == ch.log + agenda + [Got(m)];
    assert Gots(ch.accepted + [m]) == Gots(ch.accepted) + [Got(m)];
  }

  lemma SendKeeps<C>(n: Net<C>, c: C, m: Bytes)
    requires Inv(n) && c in n.chans
    ensures Inv(Send(n, c, m))
  {
    var n' := Send(n, c, m);
    if n' != n {
      var p := n.chans[c].peer.value;
      SendAppends(n, c, m);
      AppendedKeeps(n, n', p, SendMessageTask(m, p));
      hide AllKnown, AllInOrder, AllCounted, Appended;
      forall x | x in n'.chans ensures Paired(n', x) {
        assert Paired(n, x);
      }
    }
  }

  // Both ends of a connection go off together, each with its task.
  lemma CloseTakesBoth<C>(n: Net<C>, c: C)
    requires AllPaired(n) && c in n.chans && n.chans[c].connected
    ensures n.chans[c].peer.Some? && var p := n.chans[c].peer.value;
      && p in n.chans && p != c && n.chans[p].alive && n.chans[p].connected && n.chans[p].peer == Some(c)
      && Close(n, c) == Off(Off(n, c), p)
      && Close(n, c) == Net(
           n.chans[c := n.chans[c].(connected := false, refs := n.chans[c].refs + 1)]
                  [p := n.chans[p].(connected := false, refs := n.chans[p].refs + 1)],
           n.tasks + [DisconnectTask(c), DisconnectTask(p)])
  {
    assert Paired(n, c);
    var p := n.chans[c].peer.value;
    assert Paired(n, p);
    var off := n.chans[c].(connected := false);
    assert n.chans[c := off][c := off.(refs := off.refs + 1)] == n.chans[c := off.(refs := off.refs + 1)];
    assert Off(n, c).tasks + [DisconnectTask(p)] == n.tasks + [DisconnectTask(c), DisconnectTask(p)];
  }

  lemma OffAppends<C>(n: Net<C>, c: C)
    requires AllInOrder(n) && c in n.chans && n.chans[c].connected && n.chans[c].alive && n.chans[c].peer.Some?
    ensures Appended(n, Off(n, c), c, DisconnectTask(c))
  {
    var ch, ch', agenda := n.chans[c], Off(n, c).chans[c], Agenda(n.tasks, c);
    assert n.chans[c := ch.(connected := false)][c := ch'] == n.chans[c := ch'];
    assert InOrder(ch, agenda);
    assert ch.log + (agenda + [Closed]) == ch.log + agenda + [Closed];
  }

  lemma ClosePaired<C>(n: Net<C>, c: C)
    requires AllPaired(n) && c in n.chans
    ensures AllPaired(Close(n, c)) && !Close(n, c).chans[c].connected
  {
    if n.chans[c].connected {
      CloseTakesBoth(n, c);
      hide Off, Close;
      forall x | x in Close(n, c).chans ensures Paired(Close(n, c), x) {
        assert Paired(n, x) && Paired(n, c);
      }
    }
  }

  lemma CloseKeeps<C>(n: Net<C>, c: C)
    requires Inv(n) && c in n.chans
    ensures Inv(Close(n, c)) && !Close(n, c).chans[c].connected
  {
    ClosePaired(n, c);
    if n.chans[c].connected {
      CloseTakesBoth(n, c);
      var p := n.chans[c].peer.value;
      assert Paired(n, c);
      OffAppends(n, c);
      AppendedKeeps(n, Off(n, c), c, DisconnectTask(c));
      OffAppends(Off(n, c), p);
      AppendedKeeps(Off(n, c), Close(n, c), p, DisconnectTask(p));
    }
  }

  lemma ClosePeerKeeps<C>(n: Net<C>, c: C)
    requires Inv(n) && c in n.chans
    ensures Inv(ClosePeer(n, c))
    ensures c in ClosePeer(n, c).chans && !ClosePeer(n, c).chans[c].connected
    ensures ClosePeer(n, c).chans[c].alive == n.chans[c].alive && ClosePeer(n, c).chans[c].peer == n.chans[c].peer
  {
    assert Paired(n, c);
    if LivePeer(n, c).Some? {
      var p := LivePeer(n, c).value;
      assert Paired(n, p);
      CloseKeeps(n, p);
      if n.chans[p].connected {
        CloseTakesBoth(n, p);
      }
    }
  }

  lemma DestroyKeeps<C>(n: Net<C>, c: C)
    requires Inv(n) && c in n.chans && n.chans[c].alive
    ensures Inv(Destroy(n, c))
  {
    ClosePeerKeeps(n, c);
    hide ClosePeer, Inv;
    LetGoKeeps(ClosePeer(n, c), c, Destroy(n, c));
  }

  lemma LetGoKeeps<C>(n: Net<C>, c: C, n': Net<C>)
    requires Inv(n) && c in n.chans && n.chans[c].alive && !n.chans[c].connected
    requires n'.tasks == n.tasks && n'.chans.Keys == n.chans.Keys
    requires forall x :: x in n'.chans ==> n'.chans[x] == n.chans[x].(
               alive := n.chans[x].alive && x != c,
               refs := n.chans[x].refs - One(x == c) - One(Some(x) == n.chans[c].peer))
    ensures Inv(n')
  {
    hide Agenda, Gots;
    forall x | x in n'.chans
      ensures Paired(n', x) && InOrder(n'.chans[x], Agenda(n'.tasks, x))
      ensures Counted(n'.chans[x], PeerAlive(n', x), Agenda(n'.tasks, x))
    {
      assert Paired(n, x) && Paired(n, c);
      assert InOrder(n.chans[x], Agenda(n.tasks, x)) && Counted(n.chans[x], PeerAlive(n, x), Agenda(n.tasks, x));
    }
  }

  lemma PairKeeps<C>(n: Net<C>, s: C, c: C, clientId: uint64, serverId: uint64)
    requires Inv(n) && s !in n.chans && c !in n.chans && s != c
    ensures Inv(Pair(n, s, c, clientId, serverId))
  {
    hide Agenda, InOrder, Counted;
    var n' := Pair(n, s, c, clientId, serverId);
    AgendaOfStranger(n.tasks, s);
    AgendaOfStranger(n.tasks, c);
    NewInOrder(n'.chans[s]);
    NewInOrder(n'.chans[c]);
    forall x | x in n'.chans
      ensures Paired(n', x) && InOrder(n'.chans[x], Agenda(n'.tasks, x))
      ensures Counted(n'.chans[x], PeerAlive(n', x), Agenda(n'.tasks, x))
    {
      if x in n.chans {
        assert Paired(n, x);
        assert InOrder(n.chans[x], Agenda(n.tasks, x)) && Counted(n.chans[x], PeerAlive(n, x), Agenda(n.tasks, x));
        assert PeerAlive(n', x) == PeerAlive(n, x);
      } else {
        assert PeerAlive(n', x);
      }
    }
  }

  lemma NewInOrder<C>(ch: Chan<C>)
    requires ch.connected && ch.alive && ch.refs == 2 && ch.accepted == [] && ch.log == []
    ensures InOrder(ch, []) && Counted(ch, true, [])
  {
  }

  lemma HeadOfAgenda<C>(tasks: seq<Task<C>>, c: C)
    requires tasks != []
    ensures Agenda(tasks, c) == Effect(tasks[0], c) + Agenda(tasks[1..], c)
  {
  }

  lemma OneMoreSeen<C>(ch: Chan<C>, e: Signal, agenda: seq<Signal>)
    requires InOrder(ch, [e] + agenda)
    ensures ch.alive ==> InOrder(ch.(refs := ch.refs - 1, log := ch.log + [e]), agenda)
    ensures !ch.alive ==> InOrder(ch.(refs := ch.refs - 1), agenda)
  {
    assert ch.log + [e] + agenda == ch.log + ([e] + agenda);
  }

  // What processing the first task does to the row of channel x.
  lemma ProcessedRow<C>(n: Net<C>, x: C)
    requires n.tasks != [] && AllKnown(n) && x in n.chans
    ensures Process(n).chans.Keys == n.chans.Keys && Process(n).tasks == n.tasks[1..]
    ensures var ch, t := n.chans[x], n.tasks[0];
      Process(n).chans[x] ==
      if Target(t) != Some(x) then ch
      else ch.(refs := ch.refs - 1, log := if ch.alive then ch.log + Effect(t, x) else ch.log)
  {
    hide Effect;
  }

  lemma ProcessKeepsOrder<C>(n: Net<C>, x: C)
    requires n.tasks != [] && AllKnown(n) && x in n.chans && InOrder(n.chans[x], Agenda(n.tasks, x))
    ensures InOrder(Process(n).chans[x], Agenda(Process(n).tasks, x))
  {
    hide Agenda, InOrder, Effect, Process, AllKnown;
    var t := n.tasks[0];
    ProcessedRow(n, x);
    HeadOfAgenda(n.tasks, x);
    EffectOn(t, x);
    if Target(t) == Some(x) {
      OneMoreSeen(n.chans[x], if t.SendMessageTask? then Got(t.message) else Closed, Agenda(n.tasks[1..], x));
    } else {
      assert [] + Agenda(n.tasks[1..], x) == Agenda(n.tasks[1..], x);
    }
  }

  lemma ProcessKeeps<C>(n: Net<C>)
    requires Inv(n) && n.tasks != []
    ensures Inv(Process(n))
  {
    hide Agenda, InOrder, Effect, Counted, Paired;
    forall x | x in Process(n).chans ensures InOrder(Process(n).chans[x], Agenda(Process(n).tasks, x)) {
      ProcessKeepsOrder(n, x);
    }
    ProcessKeepsCounts(n);
  }

  lemma ProcessKeepsCounts<C>(n: Net<C>)
    requires Inv(n) && n.tasks != []
    ensures AllCounted(Process(n)) && AllPaired(Process(n))
  {
    var n', t := Process(n), n.tasks[0];
    hide Agenda, InOrder, Effect, AllInOrder;
    forall x | x in n'.chans ensures Paired(n', x) && Counted(n'.chans[x], PeerAlive(n', x), Agenda(n'.tasks, x)) {
      assert Paired(n, x) && Counted(n.chans[x], PeerAlive(n, x), Agenda(n.tasks, x));
      HeadOfAgenda(n.tasks, x);
      EffectOn(t, x);
    }
  }

  // After the end of the queue the counts are still exact, and no channel sees anything any more.
  lemma DropAllKeepsCounts<C>(n: Net<C>)
    requires Inv(n)
    ensures AllCounted(DropAll(n)) && AllPaired(DropAll(n)) && AllKnown(DropAll(n))
    ensures DropAll(n).tasks == [] && DropAll(n).chans.Keys == n.chans.Keys
    ensures forall c :: c in n.chans ==> Agenda(DropAll(n).tasks, c) == []
    ensures forall c :: c in n.chans ==> DropAll(n).chans[c] == n.chans[c].(refs := DropAll(n).chans[c].refs)
  {
    var n' := DropAll(n);
    forall c | c in n'.chans ensures Paired(n', c) && Counted(n'.chans[c], PeerAlive(n', c), Agenda(n'.tasks, c)) {
      assert Paired(n, c) && Counted(n.chans[c], PeerAlive(n, c), Agenda(n.tasks, c));
    }
  }

  // Peers point at each other, also while a connection is being taken down.
  ghost predicate Symmetric<C>(n: Net<C>) {
    forall c :: c in n.chans && n.chans[c].peer.Some? ==>
      var p := n.chans[c].peer.value;
      p in n.chans && p != c && n.chans[p].peer == Some(c)
  }

  // Closing touches no more than the connected flags and the counts.
  lemma ClosePeerShape<C>(n: Net<C>, c: C)
    requires c in n.chans
    ensures ClosePeer(n, c).chans.Keys == n.chans.Keys
    ensures forall x :: x in n.chans ==>
              var row := ClosePeer(n, c).chans[x];
              row == n.chans[x].(connected := row.connected, refs := row.refs)
  {
  }

  ghost function Connected<C>(n: Net<C>): set<C> {
    set c | c in n.chans && n.chans[c].connected
  }

  // One step of the recursion: disconnect switches its channel off and turns to the peer.
  lemma CloseUnfolds<C>(n: Net<C>, c: C)
    requires Symmetric(n) && c in n.chans && n.chans[c].connected
    ensures Close(n, c) == ClosePeer(Off(n, c), c)
  {
    var off := Off(n, c);
    if LivePeer(off, c).Some? {
      var p := LivePeer(off, c).value;
      assert LivePeer(off, p).Some? ==> LivePeer(off, p).value == c;
    }
  }

  lemma OffSymmetric<C>(n: Net<C>, c: C)
    requires Symmetric(n) && c in n.chans && n.chans[c].connected
    ensures Symmetric(Off(n, c)) && Connected(Off(n, c)) < Connected(n)
  {
    assert c in Connected(n);
    assert c !in Connected(Off(n, c));
  }

  lemma SymmetricPeer<C>(n: Net<C>, c: C)
    requires Symmetric(n) && c in n.chans && n.chans[c].peer.Some?
    ensures n.chans[c].peer.value in n.chans && n.chans[c].peer.value != c
  {
  }

  lemma JoinedKnown<C>(n: Net<C>, c: C, peer: C)
    requires AllKnown(n) && c in n.chans && peer in n.chans
    ensures AllKnown(Joined(n, c, peer))
  {
  }

  lemma LetGoKnown<C>(n: Net<C>, c: C)
    requires AllKnown(n) && c in n.chans
    ensures AllKnown(LetGo(n, c))
  {
  }

  lemma PairedSymmetric<C>(n: Net<C>)
    requires AllPaired(n)
    ensures Symmetric(n)
  {
    forall c | c in n.chans && n.chans[c].peer.Some?
      ensures var p := n.chans[c].peer.value; p in n.chans && p != c && n.chans[p].peer == Some(c)
    {
      assert Paired(n, c);
    }
  }

  // ----- runs -----

  datatype Op<C> =
    | SendOp(channel: C, message: Bytes)
    | CloseOp(channel: C)
    | DestroyOp(channel: C)
    | PairOp(serverSide: C, clientSide: C, clientId: uint64, serverId: uint64)
    | RequestOp(clientId: uint64, serverId: uint64)
    | ProcessOp

  const EMPTY: Net<nat> := Net(map[], [])

  // Only existing channels are used, and new ones are new.
  ghost predicate Enabled<C>(n: Net<C>, op: Op<C>) {
    match op
    case SendOp(c, _) => c in n.chans && n.chans[c].alive
    case CloseOp(c) => c in n.chans && n.chans[c].alive
    case DestroyOp(c) => c in n.chans && n.chans[c].alive
    case PairOp(s, c, _, _) => s !in n.chans && c !in n.chans && s != c
    case RequestOp(_, _) => true
    case ProcessOp => n.tasks != [] && AllKnown(n)
  }

  ghost function Step<C>(n: Net<C>, op: Op<C>): Net<C>
    requires Enabled(n, op)
  {
    match op
    case SendOp(c, m) => Send(n, c, m)
    case CloseOp(c) => Close(n, c)
    case DestroyOp(c) => Destroy(n, c)
    case PairOp(s, c, i, j) => Pair(n, s, c, i, j)
    case RequestOp(i, j) => Schedule(n, ConnectToServerTask(i, j))
    case ProcessOp => Process(n)
  }

  // n' can be reached from n by the operations of ops, any of them in any state that allows it.
  ghost predicate Run<C>(n: Net<C>, ops: seq<Op<C>>, n': Net<C>)
    decreases |ops|
  {
    if ops == [] then n' == n
    else Enabled(n, ops[0]) && Run(Step(n, ops[0]), ops[1..], n')
  }

  lemma RequestKeeps<C>(n: Net<C>, i: uint64, j: uint64)
    requires Inv(n)
    ensures Inv(Schedule(n, ConnectToServerTask(i, j)))
  {
    hide Agenda;
    var t := ConnectToServerTask(i, j);
    forall c | c in n.chans ensures Agenda(n.tasks + [t], c) == Agenda(n.tasks, c) {
      AgendaSnoc(n.tasks, t, c);
      assert Agenda(n.tasks, c) + [] == Agenda(n.tasks, c);
    }
    forall c | c in n.chans ensures Paired(Schedule(n, t), c) {
      assert Paired(n, c);
    }
  }

  lemma StepKeeps<C>(n: Net<C>, op: Op<C>)
    requires Inv(n) && Enabled(n, op)
    ensures Inv(Step(n, op))
  {
    match op
    case SendOp(c, m) => SendKeeps(n, c, m);
    case CloseOp(c) => CloseKeeps(n, c);
    case DestroyOp(c) => DestroyKeeps(n, c);
    case PairOp(s, c, i, j) => PairKeeps(n, s, c, i, j);
    case RequestOp(i, j) => RequestKeeps(n, i, j);
    case ProcessOp => ProcessKeeps(n);
  }

  lemma {:induction false} RunKeeps<C>(n: Net<C>, ops: seq<Op<C>>, n': Net<C>)
    requires Inv(n) && Run(n, ops, n')
    ensures Inv(n')
    decreases |ops|
  {
    if ops != [] {
      StepKeeps(n, ops[0]);
      hide Step, Enabled, Inv;
      RunKeeps(Step(n, ops[0]), ops[1..], n');
    }
  }

  // ----- what the invariant says in any reachable state -----

  function Messages(events: seq<Signal>): seq<Bytes> {
    if events == [] then []
    else if events[0].Got? then [events[0].message] + Messages(events[1..])
    else Messages(events[1..])
  }

  lemma {:induction false} MessagesConcat(a: seq<Signal>, b: seq<Signal>)
    ensures Messages(a + b) == Messages(a) + Messages(b)
    decreases |a|
  {
    if a == [] {
      assert a + b == b;
    } else {
      MessagesConcat(a[1..], b);
      assert (a + b)[1..] == a[1..] + b;
    }
  }

  lemma {:induction false} MessagesOfGots(m: seq<Bytes>)
    ensures Messages(Gots(m)) == m
  {
    if m != [] {
      assert Gots(m)[1..] == Gots(m[1..]);
      MessagesOfGots(m[1..]);
    }
  }

  // The messages accepted for a channel are those delivered to it, then those queued for it, in order.
  lemma ConservationFifo<C>(n: Net<C>, c: C)
    requires Inv(n) && c in n.chans && n.chans[c].alive
    ensures Messages(n.chans[c].log) + Messages(Agenda(n.tasks, c)) == n.chans[c].accepted
  {
    var ch := n.chans[c];
    assert InOrder(ch, Agenda(n.tasks, c));
    MessagesConcat(ch.log, Agenda(n.tasks, c));
    MessagesConcat(Gots(ch.accepted), if ch.peer.Some? && !ch.connected then [Closed] else []);
    MessagesOfGots(ch.accepted);
  }

  // A channel, destroyed or not, is told of its disconnection at most once and of nothing after it;
  // while connected it has not been told.
  lemma CleanClose<C>(n: Net<C>, c: C, i: nat)
    requires Inv(n) && c in n.chans && i < |n.chans[c].log| && n.chans[c].log[i] == Closed
    ensures i == |n.chans[c].log| - 1 && !n.chans[c].connected
    ensures n.chans[c].alive ==> Agenda(n.tasks, c) == []
  {
    var ch := n.chans[c];
    assert InOrder(ch, Agenda(n.tasks, c)) && Paired(n, c);
    assert Script(ch)[i] == Closed;
  }

  // Nor is anything queued for it behind a disconnection.
  lemma CloseQueuedLast<C>(n: Net<C>, c: C, i: nat)
    requires Inv(n) && c in n.chans && n.chans[c].alive && i < |Agenda(n.tasks, c)| && Agenda(n.tasks, c)[i] == Closed
    ensures i == |Agenda(n.tasks, c)| - 1 && !n.chans[c].connected
    ensures forall j :: 0 <= j < |n.chans[c].log| ==> n.chans[c].log[j] != Closed
  {
    hide Agenda;
    var ch, agenda := n.chans[c], Agenda(n.tasks, c);
    assert InOrder(ch, agenda) && Paired(n, c);
    assert Script(ch)[|ch.log| + i] == Closed;
    forall j | 0 <= j < |ch.log| ensures ch.log[j] != Closed {
      assert Script(ch)[j] == ch.log[j];
    }
  }

  // Once disconnected, a channel is never connected again, and no operation queues another message for it.
  lemma NothingAcceptedAfterClose<C>(n: Net<C>, op: Op<C>, c: C)
    requires Inv(n) && Enabled(n, op) && c in n.chans && n.chans[c].peer.Some? && !n.chans[c].connected
    ensures c in Step(n, op).chans
    ensures var ch := Step(n, op).chans[c];
      !ch.connected && ch.peer == n.chans[c].peer && ch.accepted == n.chans[c].accepted
  {
    hide Agenda, Gots;
    match op
    case DestroyOp(x) => ClosePeerAccepts(n, x, c);
    case _ =>
  }

  lemma {:induction false} ClosedForever<C>(n: Net<C>, ops: seq<Op<C>>, n': Net<C>, c: C)
    requires Inv(n) && Run(n, ops, n') && c in n.chans && n.chans[c].peer.Some? && !n.chans[c].connected
    ensures c in n'.chans && !n'.chans[c].connected && n'.chans[c].accepted == n.chans[c].accepted
    decreases |ops|
  {
    hide Step, Enabled, Inv;
    if ops != [] {
      NothingAcceptedAfterClose(n, ops[0], c);
      StepKeeps(n, ops[0]);
      ClosedForever(Step(n, ops[0]), ops[1..], n', c);
    }
  }

  lemma ClosePeerAccepts<C>(n: Net<C>, x: C, c: C)
    requires x in n.chans && c in n.chans && !n.chans[c].connected
    ensures Destroy(n, x).chans.Keys == n.chans.Keys
    ensures var ch := Destroy(n, x).chans[c];
      !ch.connected && ch.peer == n.chans[c].peer && ch.accepted == n.chans[c].accepted
  {
  }

  // With the queue empty a live channel has seen everything: all the messages, and the disconnection
  // exactly if it was disconnected.
  lemma DrainedChannel<C>(n: Net<C>, c: C)
    requires Inv(n) && c in n.chans && n.chans[c].alive && n.tasks == []
    ensures n.chans[c].log == Gots(n.chans[c].accepted) + if n.chans[c].peer.Some? && !n.chans[c].connected then [Closed] else []
  {
    assert InOrder(n.chans[c], Agenda(n.tasks, c));
  }

  lemma PeersAgree<C>(n: Net<C>, c: C)
    requires Inv(n) && c in n.chans && n.chans[c].alive && LivePeer(n, c).Some?
    ensures n.chans[c].connected == n.chans[LivePeer(n, c).value].connected
  {
    assert Paired(n, c) && Paired(n, LivePeer(n, c).value);
  }

  // Those who hold the shared block of a channel: the channel itself, the peer's pointer to it and the
  // pointer in each of the tasks for it.
  datatype Holder<C> = Itself(channel: C) | PeersPointer(peer: C) | TasksPointer(task: nat)

  ghost function Targeting<C>(tasks: seq<Task<C>>, c: C): set<nat> {
    set i: nat | i < |tasks| && Target(tasks[i]) == Some(c)
  }

  ghost function HoldersOf<C>(n: Net<C>, c: C): set<Holder<C>>
    requires c in n.chans
  {
    (if n.chans[c].alive then {Itself(c)} else {}) +
    (if PeerAlive(n, c) then {PeersPointer(n.chans[c].peer.value)} else {}) +
    (set i | i in Targeting(n.tasks, c) :: TasksPointer(i))
  }

  lemma {:induction false} TargetingCounted<C>(tasks: seq<Task<C>>, c: C)
    ensures |Targeting(tasks, c)| == |Agenda(tasks, c)|
  {
    if tasks == [] {
      assert Targeting(tasks, c) == {};
    } else {
      var k := |tasks| - 1;
      TargetingCounted(tasks[..k], c);
      AgendaSnoc(tasks[..k], tasks[k], c);
      assert tasks == tasks[..k] + [tasks[k]];
      assert Targeting(tasks, c) == Targeting(tasks[..k], c) + if Target(tasks[k]) == Some(c) then {k} else {};
    }
  }

  lemma {:induction false} PointersCounted<C>(s: set<nat>)
    ensures var p: set<Holder<C>> := set i | i in s :: TasksPointer(i); |p| == |s|
  {
    var p: set<Holder<C>> := set i | i in s :: TasksPointer(i);
    if s == {} {
      assert p == {};
    } else {
      var k :| k in s;
      PointersCounted<C>(s - {k});
      var q: set<Holder<C>> := set i | i in s - {k} :: TasksPointer(i);
      assert p == q + {TasksPointer(k)};
    }
  }

  // In every reachable state the counter of a channel's block is the number of its holders.
  lemma CounterIsHolders<C>(n: Net<C>, c: C)
    requires Inv(n) && c in n.chans
    ensures n.chans[c].refs == |HoldersOf(n, c)|
  {
    assert Counted(n.chans[c], PeerAlive(n, c), Agenda(n.tasks, c));
    TargetingCounted(n.tasks, c);
    PointersCounted<C>(Targeting(n.tasks, c));
    hide Agenda, Targeting;
  }

  // No holder is left with a released block: a block is released when its count falls to 0, and the
  // count of a channel that lives, has a live peer or is the target of a task is positive.
  lemma NoDanglingPointer<C>(n: Net<C>, c: C)
    requires Inv(n) && c in n.chans
    ensures n.chans[c].refs == 0 <==>
            !n.chans[c].alive && !PeerAlive(n, c) && forall i :: 0 <= i < |n.tasks| ==> Target(n.tasks[i]) != Some(c)
  {
    assert Counted(n.chans[c], PeerAlive(n, c), Agenda(n.tasks, c));
    if forall i :: 0 <= i < |n.tasks| ==> Target(n.tasks[i]) != Some(c) {
      AgendaOfStranger(n.tasks, c);
    } else {
      var i :| 0 <= i < |n.tasks| && Target(n.tasks[i]) == Some(c);
      AgendaOfTarget(n.tasks, i, c);
    }
  }

  lemma {:induction false} AgendaOfTarget<C>(tasks: seq<Task<C>>, i: nat, c: C)
    requires i < |tasks| && Target(tasks[i]) == Some(c)
    ensures Agenda(tasks, c) != []
    decreases |tasks|
  {
    if i > 0 {
      AgendaOfTarget(tasks[1..], i - 1, c);
    }
  }

  // All of this for any run from the start.
  lemma ReachableStates(ops: seq<Op<nat>>, n: Net<nat>)
    requires Run(EMPTY, ops, n)
    ensures Inv(n)
  {
    RunKeeps(EMPTY, ops, n);
  }
}
