// The task queue and the channels as objects; every method is the operation of Network it names.
module Channels {
  import opened CTypes
  import opened Network

  class TaskQueue {
    var tasks: seq<Task<ConnectionChannel>>

    // The queue and the channels ever constructed on it, with what went through them.
    ghost var net: Net<ConnectionChannel>

    ghost predicate Valid()
      reads this, net.chans.Keys
    {
      && tasks == net.tasks
      && AllKnown(net)
      && (forall c :: c in net.chans ==> c.taskQueue == this && c.Matches(net.chans[c]))
    }

    constructor ()
      ensures Valid() && net == Net(map[], [])
    {
      tasks := [];
      net := Net(map[], []);
    }

    // The pointer inside a task joins its channel's block.
    method ScheduleTask(t: Task<ConnectionChannel>)
      requires Valid() && (Target(t).Some? ==> Target(t).value in net.chans)
      modifies this, (if Target(t).Some? then {Target(t).value} else {})`refCounter
      ensures Valid() && net == Schedule(old(net), t)
    {
      tasks := tasks + [t];
      net := Schedule(net, t);
      match Target(t) {
        case None =>
        case Some(c) => c.refCounter := c.refCounter + 1;
      }
    }

    // Takes the first task off the queue, lets it reach its channel and deletes it. The channel's
    // handler runs after this, if the task and its channel call for one.
    method ProcessTask() returns (task: Option<Task<ConnectionChannel>>)
      requires Valid()
      modifies this, net.chans.Keys`refCounter
      ensures Valid()
      ensures task == if old(tasks) == [] then None else Some(old(tasks)[0])
      ensures net == if old(tasks) == [] then old(net) else Process(old(net))
    {
      if |tasks| == 0 {
        return None;
      }
      var t := tasks[0];
      tasks := tasks[1..];
      net := Process(net);
      match Target(t) {
        case None =>
        case Some(c) => c.refCounter := c.refCounter - 1;
      }
      return Some(t);
    }

    // The destructor.
    method Delete()
      requires Valid()
      modifies this, net.chans.Keys`refCounter
      ensures Valid() && net == DropAll(old(net))
    {
      hide Agenda, AllKnown;
      ghost var n := net;
      while |tasks| > 0
        invariant Valid() && Dropping(n, net)
      {
        DroppingOne(n, net);
        DeleteFirst();
      }
      AllDropped(n, net);
    }

    // delete m_tasks.front() and pop
    method DeleteFirst()
      requires Valid() && tasks != []
      modifies this, net.chans.Keys`refCounter
      ensures Valid() && net == Dropped(old(net))
    {
      var t := tasks[0];
      tasks := tasks[1..];
      net := Dropped(net);
      match Target(t) {
        case None =>
        case Some(c) => c.refCounter := c.refCounter - 1;
      }
    }
  }

  // The first task of n without its effect.
  ghost function Dropped<C>(n: Net<C>): Net<C>
    requires n.tasks != [] && AllKnown(n)
  {
    match Target(n.tasks[0])
    case None => n.(tasks := n.tasks[1..])
    case Some(c) => Net(n.chans[c := n.chans[c].(refs := n.chans[c].refs - 1)], n.tasks[1..])
  }

  // n' is n without its first tasks.
  ghost predicate Dropping<C>(n: Net<C>, n': Net<C>) {
    && n'.chans.Keys == n.chans.Keys
    && forall c :: c in n.chans ==>
         n'.chans[c] == n.chans[c].(refs := n.chans[c].refs - |Agenda(n.tasks, c)| + |Agenda(n'.tasks, c)|)
  }

  lemma AllDropped<C>(n: Net<C>, n': Net<C>)
    requires Dropping(n, n') && n'.tasks == []
    ensures n' == DropAll(n)
  {
    assert forall c :: c in n.chans ==> Agenda(n'.tasks, c) == [];
  }

  lemma DroppingOne<C>(n: Net<C>, n': Net<C>)
    requires Dropping(n, n') && n'.tasks != [] && AllKnown(n')
    ensures Dropping(n, Dropped(n')) && AllKnown(Dropped(n'))
  {
    hide Agenda;
    forall c | c in n.chans ensures |Agenda(n'.tasks, c)| == |Effect(n'.tasks[0], c)| + |Agenda(n'.tasks[1..], c)| {
      HeadOfAgenda(n'.tasks, c);
    }
  }

  class ConnectionChannel {
    const taskQueue: TaskQueue
    const peerId: uint64
    var peerChannel: ConnectionChannel?
    var connected: bool

    // The block shared with the weak pointers to this channel: whether its object still exists, and its holders.
    var alive: bool
    var refCounter: int

    ghost predicate Matches(row: Chan<ConnectionChannel>)
      reads this
    {
      && row.peerId == peerId && row.connected == connected
      && row.alive == alive && row.refs == refCounter
      && (row.peer.None? <==> peerChannel == null)
      && (row.peer.Some? ==> row.peer.value == peerChannel)
    }

    ghost predicate Known()
      reads this, taskQueue, taskQueue.net.chans.Keys
    {
      taskQueue.Valid() && this in taskQueue.net.chans
    }

    // m_peerChannel.data()
    function PeerData(): ConnectionChannel?
      reads this, peerChannel
    {
      if peerChannel != null && peerChannel.alive then peerChannel else null
    }

    constructor (taskQueue: TaskQueue, peerId: uint64)
      requires taskQueue.Valid()
      modifies taskQueue`net
      ensures Known() && fresh(this) && this.taskQueue == taskQueue && peerChannel == null
      ensures taskQueue.net == old(taskQueue.net).(
                chans := old(taskQueue.net.chans)[this := Chan(peerId, None, false, true, 1, [], [])])
    {
      this.taskQueue := taskQueue;
      this.peerId := peerId;
      peerChannel := null;
      connected := false;
      alive := true;
      refCounter := 1;
      new;
      taskQueue.net := taskQueue.net.(chans := taskQueue.net.chans[this := Chan(peerId, None, false, true, 1, [], [])]);
    }

    method SendMessage(message: Bytes)
      requires Known() && Symmetric(taskQueue.net)
      modifies taskQueue, taskQueue.net.chans.Keys`refCounter
      ensures taskQueue.Valid() && taskQueue.net == Send(old(taskQueue.net), this, message)
    {
      if !connected {
        return;
      }
      var peer := PeerData();
      if peer != null && peer.connected {
        taskQueue.net := taskQueue.net.(chans := taskQueue.net.chans[peer :=
          taskQueue.net.chans[peer].(accepted := taskQueue.net.chans[peer].accepted + [message])]);
        taskQueue.ScheduleTask(SendMessageTask(message, peer));
      }
    }

    method Connect(peer: ConnectionChannel)
      requires Known() && peer in taskQueue.net.chans
      requires peerChannel == null && this != peer
      modifies taskQueue`net, this`peerChannel, this`connected, peer`refCounter
      ensures taskQueue.Valid() && peer.peerChannel == old(peer.peerChannel)
      ensures taskQueue.net == Joined(old(taskQueue.net), this, peer)
    {
      hide AllKnown;
      JoinedKnown(taskQueue.net, this, peer);
      peerChannel := peer;
      peer.refCounter := peer.refCounter + 1;
      connected := true;
      taskQueue.net := Joined(taskQueue.net, this, peer);
    }

    // The recursion through the peers ends because every round has one connected channel less.
    method Disconnect()
      requires Known() && Symmetric(taskQueue.net)
      modifies taskQueue, taskQueue.net.chans.Keys`connected, taskQueue.net.chans.Keys`refCounter
      ensures taskQueue.Valid() && taskQueue.net == Close(old(taskQueue.net), this)
      decreases Connected(taskQueue.net), 0
    {
      if !connected {
        return;
      }
      CloseUnfolds(taskQueue.net, this);
      OffSymmetric(taskQueue.net, this);
      connected := false;
      taskQueue.net := taskQueue.net.(chans := taskQueue.net.chans[this := taskQueue.net.chans[this].(connected := false)]);
      taskQueue.ScheduleTask(DisconnectTask(this));
      DisconnectPeer();
    }

    method DisconnectPeer()
      requires Known() && Symmetric(taskQueue.net)
      modifies taskQueue, taskQueue.net.chans.Keys`connected, taskQueue.net.chans.Keys`refCounter
      ensures taskQueue.Valid() && taskQueue.net == ClosePeer(old(taskQueue.net), this)
      decreases Connected(taskQueue.net), 1
    {
      var peer := PeerData();
      if peer != null {
        peer.Disconnect();
      }
    }

    // The destructor, with those of m_peerChannel and of the Object base.
    method Delete()
      requires Known() && alive && Symmetric(taskQueue.net)
      modifies taskQueue, taskQueue.net.chans.Keys`connected, taskQueue.net.chans.Keys`refCounter, this`alive
      ensures taskQueue.Valid() && taskQueue.net == Destroy(old(taskQueue.net), this)
    {
      hide ClosePeer, Symmetric, AllKnown, LetGo;
      ClosePeerShape(taskQueue.net, this);
      if peerChannel != null {
        SymmetricPeer(taskQueue.net, this);
      }
      DisconnectPeer();
      DetachAll();
    }

    method DetachAll()
      requires Known() && alive
      requires peerChannel != null ==> peerChannel in taskQueue.net.chans && peerChannel != this
      modifies taskQueue`net, taskQueue.net.chans.Keys`refCounter, this`alive
      ensures taskQueue.Valid() && taskQueue.net == LetGo(old(taskQueue.net), this)
    {
      LetGoKnown(taskQueue.net, this);
      hide AllKnown;
      if peerChannel != null {
        peerChannel.refCounter := peerChannel.refCounter - 1;
      }
      alive := false;
      refCounter := refCounter - 1;
      taskQueue.net := LetGo(taskQueue.net, this);
    }
  }

  // The pair of channels ConnectToServerTask makes.
  method ConnectChannels(taskQueue: TaskQueue, clientId: uint64, serverId: uint64)
    returns (serverChannel: ConnectionChannel, clientChannel: ConnectionChannel)
    requires taskQueue.Valid()
    modifies taskQueue`net
    ensures taskQueue.Valid() && fresh(serverChannel) && fresh(clientChannel) && serverChannel != clientChannel
    ensures serverChannel.taskQueue == taskQueue && clientChannel.taskQueue == taskQueue
    ensures taskQueue.net == Pair(old(taskQueue.net), serverChannel, clientChannel, clientId, serverId)
  {
    hide TaskQueue.Valid, ConnectionChannel.Matches;
    serverChannel := new ConnectionChannel(taskQueue, clientId);
    clientChannel := new ConnectionChannel(taskQueue, serverId);
    serverChannel.Connect(clientChannel);
    clientChannel.Connect(serverChannel);
  }
}
