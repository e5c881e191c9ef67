// The device and the monitoring server as objects.
module Devices {
  import opened CTypes
  import opened Messages
  import opened Plans
  import opened Histories
  import opened Serializer
  import opened MessageEncoders
  import opened CommandCenters
  import opened Channels
  import opened Connections
  import opened ConnectionMocks
  import opened Conversations
  import opened Monitoring

  // What an encoder does at the moment; without an executor it gives the empty string.
  ghost function CodecOf(e: MessageEncoder): Codec
    reads e
  {
    if e.currentExecutor == null then Codec(s => [], s => [])
    else Codec(e.currentExecutor.encode, e.currentExecutor.decode)
  }

  class DeviceMock {
    const clientConnection: ClientConnectionMock
    const encoder: MessageEncoder
    var messages: seq<Message>
    var meterages: Meterages
    var timeStamp: uint64

    ghost function Contents(): Device
      reads this
    {
      Device(meterages, timeStamp, messages)
    }

    ghost predicate Ready()
      reads encoder, clientConnection, clientConnection.registries, clientConnection.registries.taskQueue
      reads clientConnection.registries.taskQueue.net.chans.Keys
      reads clientConnection.registries.hub.clients.Keys, clientConnection.registries.hub.servers.Keys
    {
      encoder.Valid() && clientConnection.Known()
    }

    constructor (clientConnection: ClientConnectionMock)
      ensures fresh(this) && this.clientConnection == clientConnection && fresh(encoder) && encoder.Valid()
      ensures Defaults(encoder.executors) && encoder.currentExecutor == null
      ensures Contents() == Device([], 0, [])
    {
      this.clientConnection := clientConnection;
      encoder := new MessageEncoder();
      messages, meterages, timeStamp := [], [], 0;
    }

    method SendMessage(message: Bytes)
      requires clientConnection.Known()
      modifies clientConnection.registries`hub, clientConnection.registries.taskQueue
      modifies clientConnection.registries.taskQueue.net.chans.Keys`refCounter
      ensures clientConnection.registries.Valid() && ClientUsable(old(clientConnection.registries.hub), clientConnection)
      ensures clientConnection.registries.hub == ClientSend(old(clientConnection.registries.hub), clientConnection, message)
    {
      clientConnection.SendMessage(message);
    }

    method Bind(deviceId: uint64) returns (ok: bool)
      requires clientConnection.Known()
      modifies clientConnection.registries`hub, clientConnection.registries`clientsMap, clientConnection`clientId
      ensures clientConnection.registries.Valid()
      ensures clientConnection.registries.hub == Connections.Bind(old(clientConnection.registries.hub), clientConnection, deviceId)
      ensures ok <==>
              old(!(deviceId in clientConnection.registries.clientsMap || clientConnection.channel != null || deviceId == 0))
    {
      ok := clientConnection.Bind(deviceId);
    }

    method ConnectToServer(serverId: uint64) returns (ok: bool)
      requires clientConnection.Known()
      modifies clientConnection.registries`hub, clientConnection.registries.taskQueue
      ensures clientConnection.registries.Valid()
      ensures clientConnection.registries.hub ==
              Connections.ConnectToHost(old(clientConnection.registries.hub), clientConnection, serverId)
      ensures ok <==> old(clientConnection.clientId) != 0 && serverId != 0
    {
      ok := clientConnection.ConnectToHost(serverId);
    }

    method SetMeterages(meterages: Meterages)
      modifies `meterages, `timeStamp
      ensures Contents() == old(Contents()).(meterages := meterages, timeStamp := 0)
    {
      this.meterages := meterages;
      timeStamp := 0;
    }

    method StartMeterageSending()
      requires Ready()
      modifies `timeStamp, clientConnection.registries`hub, clientConnection.registries.taskQueue
      modifies clientConnection.registries.taskQueue.net.chans.Keys`refCounter
      ensures clientConnection.registries.Valid() && Contents() == Advanced(old(Contents()))
      ensures ClientUsable(old(clientConnection.registries.hub), clientConnection)
      ensures clientConnection.registries.hub ==
              MeterageSent(CodecOf(encoder), old(clientConnection.registries.hub), clientConnection, old(Contents()))
    {
      SendNextMeterage();
    }

    method SendNextMeterage()
      requires Ready()
      modifies `timeStamp, clientConnection.registries`hub, clientConnection.registries.taskQueue
      modifies clientConnection.registries.taskQueue.net.chans.Keys`refCounter
      ensures clientConnection.registries.Valid() && Contents() == Advanced(old(Contents()))
      ensures ClientUsable(old(clientConnection.registries.hub), clientConnection)
      ensures clientConnection.registries.hub ==
              MeterageSent(CodecOf(encoder), old(clientConnection.registries.hub), clientConnection, old(Contents()))
    {
      hide ClientsMatch, ServersMatch, HubInvBut, TaskQueue.Valid, Serialized, ClientSend;
      if timeStamp >= |meterages| {
        KnownUsable(clientConnection);
        return;
      }
      var meterage := meterages[timeStamp];
      var s := Serialize(MessageMeterage(timeStamp, meterage));
      var x := encoder.Encode(s);
      SendMessage(x);
      timeStamp := timeStamp + 1;
    }

    // True if it throws: the message cannot be decoded, or is neither a command nor an error.
    method OnMessageReceived(message: Bytes) returns (thrown: bool)
      requires Ready()
      modifies `messages, `timeStamp, clientConnection.registries`hub, clientConnection.registries.taskQueue
      modifies clientConnection.registries.taskQueue.net.chans.Keys`refCounter
      ensures clientConnection.registries.Valid()
      ensures thrown <==> !DeviceAccepts(CodecOf(encoder), message)
      ensures thrown ==>
                Contents() == old(Contents()) && clientConnection.registries.hub == old(clientConnection.registries.hub)
      ensures !thrown ==>
                && ClientUsable(old(clientConnection.registries.hub), clientConnection)
                && var noting := Noting(CodecOf(encoder), old(Contents()), message);
                && Contents() == Advanced(noting)
                && clientConnection.registries.hub ==
                   MeterageSent(CodecOf(encoder), old(clientConnection.registries.hub), clientConnection, noting)
    {
      hide ClientsMatch, ServersMatch, HubInvBut, TaskQueue.Valid, MeterageSent, Advanced, Parsed;
      var decoded := encoder.Decode(message);
      var m := Deserialize(decoded);
      if m.None? || m.value.MessageMeterage? {
        return true;
      }
      messages := messages + [m.value];
      SendNextMeterage();
      return false;
    }
  }

  class DeviceMonitoringServer {
    const connectionServer: ConnectionServerMock
    const commandCenter: CommandCenter
    const encoder: MessageEncoder

    ghost predicate Ready()
      reads encoder, commandCenter, connectionServer, connectionServer.registries, connectionServer.registries.taskQueue
      reads connectionServer.registries.taskQueue.net.chans.Keys
      reads connectionServer.registries.hub.clients.Keys, connectionServer.registries.hub.servers.Keys
    {
      encoder.Valid() && commandCenter.Valid() && connectionServer.Known()
    }

    constructor (connectionServer: ConnectionServerMock)
      ensures fresh(this) && this.connectionServer == connectionServer
      ensures fresh(encoder) && encoder.Valid() && fresh(commandCenter) && commandCenter.Valid() && commandCenter.history == []
      ensures Defaults(encoder.executors) && encoder.currentExecutor == null
    {
      this.connectionServer := connectionServer;
      commandCenter := new CommandCenter();
      encoder := new MessageEncoder();
    }

    method SetDeviceWorkSchedule(deviceId: uint64, schedule: seq<Phase>)
      requires commandCenter.Valid()
      modifies commandCenter
      ensures commandCenter.Valid() && deviceId in commandCenter.scheduleInfo
      ensures commandCenter.history ==
              old(commandCenter.history) + [Planned(deviceId, schedule, commandCenter.scheduleInfo[deviceId].phases)]
    {
      commandCenter.SetSchedule(deviceId, schedule);
    }

    method Listen(serverId: uint64) returns (ok: bool)
      requires connectionServer.Known()
      modifies connectionServer.registries`hub, connectionServer.registries`serversMap, connectionServer`serverId
      ensures connectionServer.registries.Valid()
      ensures connectionServer.registries.hub == Connections.Listen(old(connectionServer.registries.hub), connectionServer, serverId)
      ensures ok <==>
              old(!(serverId in connectionServer.registries.serversMap || connectionServer.serverId != 0 || serverId == 0))
    {
      ok := connectionServer.Listen(serverId);
    }

    method DeviationStats(deviceId: uint64) returns (stats: seq<DeviationStats>)
      requires commandCenter.Valid()
      modifies commandCenter`statsInfo
      ensures commandCenter.Valid() && stats == Stats(commandCenter.history, deviceId)
    {
      stats := commandCenter.Statistics(deviceId);
    }

    method SendMessage(deviceId: uint64, message: Bytes)
      requires connectionServer.Known()
      modifies connectionServer.registries`hub, connectionServer.registries.taskQueue
      modifies connectionServer.registries.taskQueue.net.chans.Keys`refCounter
      ensures connectionServer.registries.Valid()
      ensures ServerUsable(old(connectionServer.registries.hub), connectionServer, deviceId)
      ensures connectionServer.registries.hub ==
              ServerSend(old(connectionServer.registries.hub), connectionServer, deviceId, message)
    {
      hide ClientsMatch, ServersMatch, HubInvBut, TaskQueue.Valid;
      ChannelOfConnection(connectionServer.registries.hub, connectionServer, deviceId);
      var conn := connectionServer.Connection(deviceId);
      if conn != null {
        conn.SendMessage(message);
      }
    }

    method SendAnswer(deviceId: uint64, message: Message)
      requires connectionServer.Known() && encoder.Valid()
      modifies connectionServer.registries`hub, connectionServer.registries.taskQueue
      modifies connectionServer.registries.taskQueue.net.chans.Keys`refCounter
      ensures connectionServer.registries.Valid()
      ensures ServerUsable(old(connectionServer.registries.hub), connectionServer, deviceId)
      ensures connectionServer.registries.hub ==
              ServerSend(old(connectionServer.registries.hub), connectionServer, deviceId, Sealed(CodecOf(encoder), message))
    {
      hide ClientsMatch, ServersMatch, HubInvBut, TaskQueue.Valid, Serialized, ServerSend;
      var s := Serialize(message);
      var x := encoder.Encode(s);
      SendMessage(deviceId, x);
    }

    // The message handler of the connection with peer id deviceId.
    method OnMessageReceived(deviceId: uint64, message: Bytes)
      requires Ready()
      modifies commandCenter, connectionServer.registries`hub, connectionServer.registries.taskQueue
      modifies connectionServer.registries.taskQueue.net.chans.Keys`refCounter
      ensures connectionServer.registries.Valid() && commandCenter.Valid()
      ensures ServerUsable(old(connectionServer.registries.hub), connectionServer, deviceId)
      ensures commandCenter.history == old(commandCenter.history) + Calls(CodecOf(encoder), deviceId, message)
      ensures connectionServer.registries.hub ==
              AnswerSent(CodecOf(encoder), old(connectionServer.registries.hub), connectionServer,
                         old(commandCenter.history), deviceId, message)
    {
      hide ClientsMatch, ServersMatch, HubInvBut, TaskQueue.Valid, Parsed, ServerSend, Sealed, Reply, CommandCenter.Valid;
      ChannelOfConnection(connectionServer.registries.hub, connectionServer, deviceId);
      var decoded := encoder.Decode(message);
      var m := Deserialize(decoded);
      if m.Some? && m.value.MessageMeterage? {
        var reply := commandCenter.ProcessMeterage(deviceId, m.value.timeStamp, m.value.meterage);
        SendAnswer(deviceId, reply);
      }
    }
  }

  lemma KnownUsable(c: ClientConnectionMock)
    requires c.Known()
    ensures ClientUsable(c.registries.hub, c)
  {
    ChannelOfClient(c.registries.hub, c, {});
  }
}
