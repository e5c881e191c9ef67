# Device monitoring server: a verified model

The program is a monitoring server that compares the meterages of devices with their plans and answers
each with a correction or an error, together with the mock transport its tests run on. This project models
both in Dafny and proves what they are for.

* **Command center.** `Plans` has the phases of a plan, the order an unstable sort may leave them in and the
  phase in force at a time. `Histories` defines, by the calls made so far and nothing else, the reply to a
  meterage and the statistics of a device. `CommandCenters` is the class with its three maps, its cursor into
  the plan and its running statistics, proved to give exactly those replies and statistics.
* **Codecs.** `Positional` (digits of numbers to base 10 and 256), `Streams` (byte streams, big endian
  integers), `Serializer` (the tagged binary form of messages), `Framing` and `Executors` (Mirror, Multiply41,
  ROT3) and `MessageEncoders` (the registry with its selected executor).
* **Transport.** `SafePointers` has the reference-counted weak pointers. `Network` is the transport as a state
  machine over values: channels in pairs, one queue of tasks, ghost logs of what was accepted for a channel and
  what it saw. `Channels` has the task queue and the channel as classes whose every method is proved to be the
  operation of `Network` it names. `Connections` adds the client and server mocks with their registries,
  `Effects` tells what each operation does in the channels' rows and the tasks themselves, `Agreements` proves that
  the two sides agree on their connections once the queue is empty, and `ConnectionMocks` has clients and servers as
  classes, again proved operation by operation.
* **The whole.** `Conversations` is the stop-and-wait exchange of one device with the server. `Monitoring` puts
  any number of them on one transport, `EndToEnd` proves what any run leads to, and `Setup` leads from bound
  devices and a listening server to the state the runs start from. `Devices` has the device and the server as
  classes, and `Simulations` runs them all on one queue: `Simulation.Run` is the program's main loop, and its
  contract is the end-to-end statement. `Disruptions` has the runs in which anything else happens as well:
  connections are closed and made again, clients and servers come and go.
* **From nothing.** `Programs` is the fixture of the integration tests as a class: it makes the queue, the
  registries, the server and its devices, connects them one by one and runs them, as often as one likes.
  `Monitor` is the closed program over it. It asks for non-zero identifiers and for a pause for each device with
  meterages, and it ensures what every device has received and what statistics the server has of it, as functions
  of the calls that set the plans and of the device's own meterages; `Scenarios` tells them in the submitted plans.

In four points the code departs from the repository's documentation, and the model follows the code. Each has
a lemma at an input where they differ and a theorem that says exactly when they do.

* The documentation has plans with strictly increasing time stamps; the code accepts any list of phases and sorts
  it with a sort that is not stable. This leaves the phase in force, and the reply, open exactly if two phases of
  the plan that started last differ (`CurrentDeterminedIff`, `ReplyDeterminedIff`, `TiedPlanExample`).
* The documentation calls a meterage obsolete if one with a larger time stamp was accepted before; the code does
  so already for an equal one. Code and documentation give the same answer exactly if the time stamp is not the
  device's last time stamp (`ObsoleteAsDocumentedIff`, `LatestIsLastTimeStamp`, `RepeatedTimeStampExample`).
* A correction is sent as a signed octet. The device gets the whole correction exactly if it lies between -128
  and 127 (`CommandIsCorrectionIff`, `WrappedCommandExample`); in the documented range of values, from 0 to 100,
  it always does (`DocumentedRangeFits`).
* The documentation has a device begin to send when it is connected; in the code nothing happens then, and the
  device begins when it is told to. The first meterage is sent exactly if the client's channel is connected at that
  time; otherwise it is lost, and the time goes on (`StartHeardIff`, `LostStartExample`).

A copy of a `SafeObjectPointer` reads through the pointer it copies, so `SafeObjectPointer.Copy` and `Assign`
require that to lead to a living object, as the code does. Time stamps, identifiers and characters have the
widths of the program (`CTypes`); conversions to narrower types are written out.

## Main results

The table below also has the operations and the steps. What it all comes to:

* Command center: `ProcessMeterage` with `ReplySays`, `DeviceIsolation`, `CallsCommute`, `PlanOrderIrrelevant`;
  `Statistics` with `StatsGrow`, `StatsEntry` and `MaximalRunsUnique`; the first three of the points above.
* Codecs: `SerializedStands` and `ParsedStands` with `ParsedSerialized` and `SerializedParsed`; `MirrorRoundTrip` with
  `MirroredDigits`; `Multiply41RoundTrip`; `Rot3Encode` with `Rot3RoundTrip`; `SelectionFollowsName`.
* Transport: `CounterIsExact`, `RunKeeps` with `ConservationFifo`, `CleanClose` and `ClosedForever`, `HubRunKeeps`,
  `ClientDisconnectSays` and `ServerDisconnectSays`, `ReachableAgreement`.
* The whole: `DrainedReplies` and `RunsEnd` for undisturbed runs, `DisturbedReplies` for any others, `Simulation.Run`
  and `Monitor` on objects, with `FirstReplies`.

## Model

| member | source | states |
|---|---|---|
| Plans.SortPhases | devicemonitoringserver/command_center.cpp:23-25 | the installed plan is some permutation of the submitted one in the order of time stamps; no more may be relied on |
| Plans.InstalledOrderUnique | devicemonitoringserver/command_center.cpp:23-25 | with pairwise distinct time stamps there is only one installed order of a set of phases |
| Plans.LastStarted | devicemonitoringserver/command_center.cpp:48-56 | the phase found is the last one that has started, every later one is still to start |
| Plans.AnyOfTheLastCanWin | devicemonitoringserver/command_center.cpp:23-25 | each of the phases that started last is put in force by some legal outcome of the sort |
| Plans.CurrentDeterminedIff | devicemonitoringserver/command_center.cpp:23-54 | the phase in force is the same for all outcomes of the sort exactly if the submitted phases that started last are equal |
| Plans.DistinctTimesNoConflict | devicemonitoringserver/deviceworkschedule.h:9-22 | a plan as the documentation wants it, without repeated time stamps, never leaves it open |
| Histories.ReplyDeterminedIff | devicemonitoringserver/command_center.cpp:23-78 | so is the reply: fixed by the submitted plan exactly if those phases are equal |
| Histories.TiedPlanExample | devicemonitoringserver/command_center.cpp:23-78 | a plan with two phases at one time stamp and two legal outcomes of the sort with different replies |
| Histories.CommandIsCorrectionIff | devicemonitoringserver/command_center.cpp:62-78 | the command equals planned minus measured value exactly if that lies between -128 and 127 |
| Histories.WrappedCommandExample | devicemonitoringserver/command_center.cpp:62-78 | a planned 255 against a measured 0 is answered with the command -1 |
| Histories.DocumentedRangeFits | README.md:15-15 | with planned and measured values from 0 to 100 the command is the correction |
| Histories.ObsoleteAsDocumentedIff | devicemonitoringserver/command_center.cpp:32-38 | a meterage is obsolete, and answered, as README.md:63 says exactly if its time stamp is not the largest one seen from the device |
| Histories.RepeatedTimeStampExample | devicemonitoringserver/command_center.cpp:33-36 | the same time stamp twice is answered with Obsolete where the documentation has NoSchedule |
| Histories.DeviceIsolation | devicemonitoringserver/command_center.cpp:20-41 | a device's plan, obsolescence, replies and samples in an interleaved history are those of its own calls alone |
| Histories.IsolatedRepliesAndStats | devicemonitoringserver/command_center.cpp:28-84 | histories with the same own calls of a device give it the same replies and statistics, now and for any next meterage |
| Histories.CallsCommute | devicemonitoringserver/command_center.cpp:28-84 | two neighbouring calls for different devices can change places without effect on any reply or statistic |
| Histories.PlanOrderIrrelevant | devicemonitoringserver/command_center.cpp:18-26 | plans with distinct time stamps may list their phases in any order, at every call of a history, without effect on anything seen |
| Histories.ResubmissionIrrelevant | devicemonitoringserver/command_center.cpp:18-26 | setting the plan in force once more, in any order, changes no later reply and no statistic although the cursor starts again |
| Histories.RunsAreMaximal | devicemonitoringserver/command_center.cpp:64-76 | the grouping one sample at a time cuts the samples into maximal consecutive runs of one phase |
| Histories.MaximalRunsUnique | devicemonitoringserver/command_center.cpp:64-76 | and there is no other such grouping |
| Histories.FirstTimeStampsIncrease | devicemonitoringserver/command_center.cpp:64-71 | the first time stamps of the statistics entries strictly increase |
| Histories.ErrorsAndPlansKeepStats | devicemonitoringserver/command_center.cpp:28-60 | a meterage answered with an error and a new plan leave the statistics of every device as they were |
| Histories.ReplySays | devicemonitoringserver/command_center.cpp:28-79 | the reply told in the calls alone: Obsolete exactly if the device sent that time stamp or a larger one, NoSchedule exactly if its last submitted plan is empty or missing, NoTimestamp exactly if all phases of it are later, else the octet of planned minus measured for a phase that started last |
| Histories.TotalConcat | devicemonitoringserver/command_center.cpp:74-74 | the sum of two buffers is the sum of their sums |
| Histories.StatsGrow | devicemonitoringserver/command_center.cpp:64-76 | a meterage answered toward a phase adds its squared deviation to the sum and 1 to the number of the last entry, if that is of the same phase, and else makes an entry of them |
| Histories.StatsEntry | devicemonitoringserver/command_center.cpp:64-76 | entry i has the phase and the time stamp of the first sample of maximal run i, the length of that run, and a sum that grows by the square of each sample of it |
| CommandCenters.CommandCenter.SetSchedule | devicemonitoringserver/command_center.cpp:18-26 | the call joins the history with a legally sorted plan, and the maps go on representing the history |
| CommandCenters.CommandCenter.ProcessMeterage | devicemonitoringserver/command_center.cpp:28-79 | the one answer is the stateless function of the whole history of calls: Obsolete, NoSchedule, NoTimestamp or the command toward the last started phase |
| CommandCenters.CommandCenter.AdvanceCursor | devicemonitoringserver/command_center.cpp:48-54 | from a cursor that is 0 or on a started phase the loop stops before the first phase that has not started |
| CommandCenters.CursorIsLastStarted | devicemonitoringserver/command_center.cpp:48-60 | in a sorted plan such a cursor is the last started phase, or 0 if there is none |
| CommandCenters.CursorCost | devicemonitoringserver/command_center.cpp:48-54 | between two plans of a device the loop runs at most number of phases minus 1 times in all |
| CommandCenters.LatestIsLastTimeStamp | devicemonitoringserver/command_center.cpp:32-38 | the largest time stamp seen from a device is its entry in the map of last time stamps |
| CommandCenters.RecordedTracksRuns | devicemonitoringserver/command_center.cpp:64-76 | appending to the buffer or starting a new one keeps the entries equal to the statistics of the maximal runs |
| CommandCenters.CommandCenter.RecordDeviation | devicemonitoringserver/command_center.cpp:64-76 | the update in place gives a new entry or recomputes the last one from the longer buffer |
| CommandCenters.CommandCenter.Statistics | devicemonitoringserver/command_center.cpp:81-84 | the statistics are those of the maximal runs of the history, for an unknown device none |
| CommandCenters.DeviationExample | devicemonitoringserver/tests.cpp:760-782 | the phases 50 and 90 against the meterages 100, 0, 100, 0, 50, 100: the six commands, and deviations of the roots of 7500 / 3 and 9800 / 3 |
| CommandCenters.Accumulate | devicemonitoringserver/command_center.cpp:74-74 | the loop adds all the squares of the buffer up, by TotalConcat from the first to the last |
| Positional.MirroredInvolution | devicemonitoringserver/mirror_encoder_executor.cpp:31-44 | reversing the last d digits is an involution on the numbers below 10 to the d, for all d |
| Positional.DigitAt | devicemonitoringserver/mirror_encoder_executor.cpp:37-41 | digit i of n is the value divided by the base to the n - 1 - i, modulo the base |
| Positional.MirroredDigits | devicemonitoringserver/mirror_encoder_executor.cpp:31-44 | of the mirrored number, for every value, digit i is digit n - 1 - i of the value |
| Streams.ToBigEndian | devicemonitoringserver/big_endian.h:18-35 | the stream grows by the octets of the value, of either signedness, highest first |
| Streams.BigEndianAt | devicemonitoringserver/big_endian.h:18-35 | octet i of n is the value divided by 256 to the n - 1 - i, modulo 256 |
| Streams.FromBigEndian | devicemonitoringserver/big_endian.h:41-52 | reads the value of the next octets; if the stream runs out all bits of the result are set and the stream has failed |
| Streams.BigEndianRoundTrip | devicemonitoringserver/big_endian.h:18-52 | a value that fits is read back from its octets |
| Streams.BigEndianUnique | devicemonitoringserver/big_endian.h:18-52 | octets are given back by writing the value read from them |
| Serializer.Serialize | devicemonitoringserver/message_serializer.cpp:18-64 | writes the form of the message that SerializedStands spells out |
| Serializer.Deserialize | devicemonitoringserver/message_serializer.cpp:66-110 | calls back once with the message that stands at the start of the string by ParsedStands, or not at all |
| Serializer.SerializedStands | devicemonitoringserver/message_serializer.cpp:18-64 | a string is the form of a message exactly if it is the characters es, et or eo for the three errors, c and the octet of the command, or m, the eight octets of the time stamp weighed by powers of 256, and the meterage |
| Serializer.ParsedStands | devicemonitoringserver/message_serializer.cpp:66-110 | a message is read from a string exactly if it stands at the start of it in this form |
| Serializer.ParsedSerialized | devicemonitoringserver/message_serializer.cpp:18-110 | whatever follows a serialized message, for all commands and time stamps, the parser gives that message |
| Serializer.SerializedParsed | devicemonitoringserver/message_serializer.cpp:66-110 | a string is accepted only if it starts with the serialized form of the message it gives |
| Serializer.SerializedInjective | devicemonitoringserver/message_serializer.cpp:18-64 | no message's form is a proper prefix of another's: form and rest of a string are determined |
| Executors.CountDigits | devicemonitoringserver/mirror_encoder_executor.cpp:16-28 | the number of decimal digits |
| Executors.Mirror | devicemonitoringserver/mirror_encoder_executor.cpp:31-44 | the reversed digits modulo 2 to the 16, for any value and any digit count a message can name |
| Executors.MirrorFits | devicemonitoringserver/mirror_encoder_executor.cpp:31-44 | up to four digits nothing is lost in 16 bits and mirroring twice gives the value |
| Executors.MirrorEncode | devicemonitoringserver/mirror_encoder_executor.cpp:47-63 | one frame of three octets for every character |
| Executors.MirrorEncodedAt | devicemonitoringserver/mirror_encoder_executor.cpp:47-63 | octets 3i to 3i + 2 of the code are the number of decimal digits of character i and its digits spelled backwards, in two octets |
| Executors.MirrorFrameSays | devicemonitoringserver/mirror_encoder_executor.cpp:16-63 | this frame in arithmetic: no digits for 0, else one, two or three, and ones, tens and hundreds in the opposite order |
| Executors.MirrorDecode | devicemonitoringserver/mirror_encoder_executor.cpp:66-93 | one character for every full frame of any input, a shorter tail is dropped |
| Executors.MirrorDecodedAt | devicemonitoringserver/mirror_encoder_executor.cpp:66-93 | character i is that of octets 3i to 3i + 2, for any input |
| Executors.MirrorCharSays | devicemonitoringserver/mirror_encoder_executor.cpp:66-93 | that character is, modulo 256, the number in the last two octets with as many digits mirrored as the first one says |
| Executors.MirrorRoundTrip | devicemonitoringserver/mirror_encoder_executor.cpp:47-93 | every string is decoded from its code, also with a tail of one or two octets behind it |
| Executors.MirrorDecodedLength | devicemonitoringserver/mirror_encoder_executor.cpp:66-93 | any input of n octets decodes to n / 3 characters |
| Framing.FramedConcat | devicemonitoringserver/mirror_encoder_executor.cpp:52-60 | codes by frames, Mirror and Multiply41, distribute over concatenation |
| Executors.Multiply41Encode | devicemonitoringserver/multiply41_encoder_executor.cpp:15-27 | one frame of two octets for every character |
| Executors.Multiply41EncodedAt | devicemonitoringserver/multiply41_encoder_executor.cpp:15-27 | octets 2i and 2i + 1 of the code are those of 41 times character i, the higher one first |
| Executors.Multiply41Decode | devicemonitoringserver/multiply41_encoder_executor.cpp:30-50 | one character for every full frame of any input |
| Executors.Multiply41DecodedAt | devicemonitoringserver/multiply41_encoder_executor.cpp:30-50 | character i is the number in octets 2i and 2i + 1 divided by 41, modulo 256, for any input |
| Executors.Multiply41CharOfFrame | devicemonitoringserver/multiply41_encoder_executor.cpp:20-24 | the product never exceeds 16 bits and the character comes back |
| Executors.Multiply41RoundTrip | devicemonitoringserver/multiply41_encoder_executor.cpp:15-50 | every string is decoded from its code, also with one octet behind it |
| Executors.Rot3Encode | devicemonitoringserver/rot3_encoder_executor.cpp:17-41 | in place, for either signedness of char: every char grows by 3, or by 3 - 256 where that leaves its range |
| Executors.Rot3Decode | devicemonitoringserver/rot3_encoder_executor.cpp:44-68 | in place, for either signedness of char: every char falls by 3, or by 3 - 256 where that leaves its range |
| Executors.RotatedBy | devicemonitoringserver/rot3_encoder_executor.cpp:17-68 | the rotation by k adds k to each octet modulo 256 |
| Executors.Rot3RoundTrip | devicemonitoringserver/rot3_encoder_executor.cpp:17-68 | the two are inverse to each other on both sides |
| Executors.RotatedConcat | devicemonitoringserver/rot3_encoder_executor.cpp:17-41 | rotation distributes over concatenation |
| MessageEncoders.MessageEncoder.constructor | devicemonitoringserver/message_encoder.cpp:15-20 | the three default executors under their names with their algorithms, each round-tripping, none selected |
| MessageEncoders.MessageEncoder.Encode | devicemonitoringserver/message_encoder.cpp:32-40 | the selected executor's code; never a deleted executor's |
| MessageEncoders.MessageEncoder.SelectExecutor | devicemonitoringserver/message_encoder.cpp:54-67 | succeeds exactly for a registered name and selects the executor under it |
| MessageEncoders.MessageEncoder.AddExecutor | devicemonitoringserver/message_encoder.cpp:70-96 | an executor replaces the one of its name, which is deleted, also as the selected one, or joins the others |
| MessageEncoders.RunConsistent | devicemonitoringserver/message_encoder.cpp:54-96 | over any calls names stay pairwise distinct and the selected executor is none or a registered one |
| MessageEncoders.UnderIsLastAdded | devicemonitoringserver/message_encoder.cpp:70-96 | after any calls the executor under a name is the one added last under it |
| MessageEncoders.CallKeepsCurrentName | devicemonitoringserver/message_encoder.cpp:54-96 | the selected name changes only by a successful selection, to the name asked for |
| MessageEncoders.SelectionFollowsName | devicemonitoringserver/message_encoder.cpp:54-96 | however the registry grows after a selection, the executor in use is the one added last under the selected name |
| MessageEncoders.DefaultExample | devicemonitoringserver/tests.cpp:317-540 | a new encoder gives nothing for any string; ROT3 makes D of A, Mirror makes 3, 0, 231 of 132, Multiply41 makes 1, 31 of 7 |
| SafePointers.SharedDataHolder.Join | devicemonitoringserver/servermock/object.cpp:5-11 | the holder joins the block and is counted; without a block nothing happens |
| SafePointers.SharedDataHolder.Detach | devicemonitoringserver/servermock/object.cpp:13-22 | the holder lets go, and the block is released if it was the last |
| SafePointers.Object.constructor | devicemonitoringserver/servermock/object.cpp:24-29 | a new object holds a new block that leads to it, with count 1; all counts stay exact |
| SafePointers.Object.Delete | devicemonitoringserver/servermock/object.cpp:31-36 | the block no longer leads to the object, the count falls by 1, the block is released exactly at 0; all counts stay exact |
| SafePointers.SafeObjectPointer.constructor | devicemonitoringserver/servermock/object.cpp:38-42 | a pointer to an object joins its block, a pointer to nothing holds none |
| SafePointers.SafeObjectPointer.Copy | devicemonitoringserver/servermock/object.cpp:44-48 | a copy of a pointer to a living object has the same target and is counted |
| SafePointers.SafeObjectPointer.Delete | devicemonitoringserver/servermock/object.cpp:50-53 | the target's block has one holder less and is released exactly at 0 |
| SafePointers.SafeObjectPointer.Data | devicemonitoringserver/servermock/object.cpp:55-58 | gives the target exactly as long as it has not been destroyed |
| SafePointers.SafeObjectPointer.Assign | devicemonitoringserver/servermock/object.cpp:60-69 | by copy and swap the pointer takes the other's target: the new target's block has one holder more, the old one's one less and is released exactly at 0; no object and no other pointer changes |
| SafePointers.CounterIsExact | devicemonitoringserver/servermock/object.cpp:5-22 | the counter of a block is the number of holders joined to it, and it is released exactly if there is none |
| SafePointers.Lifetime | devicemonitoringserver/servermock/servertests.cpp:57-77 | two pointers, one made for nothing and assigned, lead to an object until it is destroyed; the block goes with the last of the three |
| SafePointers.NoReleasedBlockInUse | devicemonitoringserver/servermock/object.cpp:24-58 | no living object and no pointer in use holds a released block |
| Channels.TaskQueue.ScheduleTask | devicemonitoringserver/servermock/taskqueue.cpp:13-16 | the task comes last, its pointer counted in the channel's block |
| Channels.TaskQueue.ProcessTask | devicemonitoringserver/servermock/taskqueue.cpp:18-27 | the first task reaches its channel if that still exists and is deleted |
| Channels.TaskQueue.Delete | devicemonitoringserver/servermock/taskqueue.cpp:3-11 | the loop drops all tasks with their pointers, unprocessed |
| Network.DropAllKeepsCounts | devicemonitoringserver/servermock/taskqueue.cpp:3-11 | after that the queue is empty, all counts are still exact, and nothing else of the channels has changed |
| Effects.ProcessSays | devicemonitoringserver/servermock/connectionchannel.cpp:16-37 | a processed task leaves the queue; of all the channels its own alone, if it lives, has seen one event more, and that is the message or the disconnection |
| Channels.ConnectionChannel.SendMessage | devicemonitoringserver/servermock/connectionchannel.cpp:56-63 | queues a message for the living peer if both ends are connected, else does nothing |
| Effects.SendSays | devicemonitoringserver/servermock/connectionchannel.cpp:56-63 | in every reachable state: from a connected channel one task with the message comes last, for its peer, and is accepted there last; from any other nothing happens |
| Channels.ConnectionChannel.Connect | devicemonitoringserver/servermock/connectionchannel.cpp:65-70 | one end of a new pair points at its peer and is connected |
| Channels.ConnectionChannel.Disconnect | devicemonitoringserver/servermock/connectionchannel.cpp:72-81 | the mutual recursion ends and leaves both ends disconnected with one disconnect task each |
| Channels.ConnectionChannel.DisconnectPeer | devicemonitoringserver/servermock/connectionchannel.cpp:83-88 | the same started from the other end, also from a destructor |
| Channels.ConnectionChannel.Delete | devicemonitoringserver/servermock/connectionchannel.cpp:51-54 | the destructor disconnects the peer and lets go of both blocks |
| Network.CloseTakesBoth | devicemonitoringserver/servermock/connectionchannel.cpp:72-88 | of a connected pair both ends go off together and each gets its disconnect task, this end's first |
| Effects.DestroySays | devicemonitoringserver/servermock/connectionchannel.cpp:51-54 | the channel is gone, no other is; if it was connected both ends are off, with the disconnect tasks of the peer and then its own, and else nothing is queued |
| Network.RunKeeps | devicemonitoringserver/servermock/connectionchannel.cpp:11-110 | every run of connect, send, disconnect, destroy, request and process steps keeps the invariant |
| Network.ConservationFifo | devicemonitoringserver/servermock/connectionchannel.cpp:11-26 | the messages accepted for a living channel are those it saw followed by those queued for it, in order |
| Network.CleanClose | devicemonitoringserver/servermock/connectionchannel.cpp:28-42 | a channel is told of its disconnection at most once, of nothing after it, and only when it is disconnected |
| Network.CloseQueuedLast | devicemonitoringserver/servermock/connectionchannel.cpp:72-81 | a queued disconnection is the last thing queued for its channel, which is no longer connected and has not been told before |
| Network.NothingAcceptedAfterClose | devicemonitoringserver/servermock/connectionchannel.cpp:56-88 | no step connects a disconnected channel again or queues another message for it |
| Network.ClosedForever | devicemonitoringserver/servermock/connectionchannel.cpp:56-88 | so it stays through every run |
| Network.DrainedChannel | devicemonitoringserver/servermock/connectionchannel.cpp:72-110 | with the queue empty a living channel has seen all its messages, and its disconnection exactly if it was disconnected |
| Network.PeersAgree | devicemonitoringserver/servermock/connectionchannel.cpp:65-88 | two living peers always agree on being connected |
| Network.OffSymmetric | devicemonitoringserver/servermock/connectionchannel.cpp:72-88 | each round of the recursion has fewer connected channels |
| Network.NoDanglingPointer | devicemonitoringserver/servermock/object.cpp:5-58 | in every reachable state a channel's count is 0 exactly if it is destroyed, has no living peer and is the target of no task |
| Network.CounterIsHolders | devicemonitoringserver/servermock/object.cpp:5-22 | in every reachable state a channel's count is the number of its holders: itself, its living peer and the tasks for it |
| Network.ReachableStates | devicemonitoringserver/servermock/taskqueue.cpp:13-27 | all of this holds in every state that can be reached from an empty transport |
| ConnectionMocks.ClientConnectionMock.Bind | devicemonitoringserver/servermock/clientconnectionmock.cpp:81-89 | succeeds exactly for a free non-zero id of an unconnected client, which moves from its old id to the new one |
| Effects.BindSays | devicemonitoringserver/servermock/clientconnectionmock.cpp:81-89 | told in the registry: the client is found under the new id and no longer under an old one, all others as before; if the id is 0 or taken, or there is a channel, nothing changes |
| ConnectionMocks.ClientConnectionMock.ConnectToHost | devicemonitoringserver/servermock/clientconnectionmock.cpp:91-98 | a bound client queues a connection request |
| Effects.ConnectToHostSays | devicemonitoringserver/servermock/clientconnectionmock.cpp:91-98 | one request with the two ids comes last in the queue, and none if one of them is 0 |
| ConnectionMocks.ClientConnectionMock.SendMessage | devicemonitoringserver/servermock/clientconnectionmock.cpp:116-120 | sends over the client's channel, if it has one |
| Effects.ClientSendSays | devicemonitoringserver/servermock/clientconnectionmock.cpp:116-120 | one task for the peer of the client's connected channel, or nothing |
| ConnectionMocks.ClientConnectionMock.Disconnect | devicemonitoringserver/servermock/clientconnectionmock.cpp:100-104 | disconnects the client's channel, if it has one |
| Effects.ClientDisconnectSays | devicemonitoringserver/servermock/clientconnectionmock.cpp:100-104 | the client's connected channel and its peer are off, with the disconnect tasks of the two behind the tasks before, and nothing else has changed; an unconnected client changes nothing |
| ConnectionMocks.ClientConnectionMock.SetChannel | devicemonitoringserver/servermock/clientconnectionmock.cpp:141-153 | the first channel is taken and the connected handler runs, a second one is deleted |
| ConnectionMocks.ClientConnectionMock.OnDisconnected | devicemonitoringserver/servermock/clientconnectionmock.cpp:155-159 | the client deletes and forgets its channel |
| ConnectionMocks.ClientConnectionMock.Delete | devicemonitoringserver/servermock/clientconnectionmock.cpp:73-79 | unregisters the client and deletes its channel |
| Effects.DestroyClientSays | devicemonitoringserver/servermock/clientconnectionmock.cpp:73-79 | the client, its id and its channel are gone; a connected peer is off and told |
| ConnectionMocks.ConnectionMock.SendMessage | devicemonitoringserver/servermock/connectionmock.cpp:45-49 | sends over the connection's channel, to the client it is kept under |
| Effects.ServerSendSays | devicemonitoringserver/servermock/connectionmock.cpp:45-49 | one task for the peer of that client's connected channel, or nothing |
| ConnectionMocks.ConnectionMock.Disconnect | devicemonitoringserver/servermock/connectionmock.cpp:39-43 | the server closes one of its connections: both ends go off, and the books are kept |
| Effects.ServerCloseSays | devicemonitoringserver/servermock/connectionmock.cpp:39-43 | the connection's channel and its peer are off, with the disconnect tasks of the two behind the tasks before, and nothing else has changed |
| ConnectionMocks.ConnectionMock.Delete | devicemonitoringserver/servermock/connectionmock.cpp:11-15 | a connection goes with its channel |
| ConnectionMocks.ConnectionServerMock.Listen | devicemonitoringserver/servermock/connectionservermock.cpp:72-79 | succeeds exactly for a free non-zero id of a server that does not listen yet |
| Effects.ListenSays | devicemonitoringserver/servermock/connectionservermock.cpp:72-79 | the server is found under the id, and nothing else changes; if the id is 0 or taken, or the server listens, nothing changes |
| ConnectionMocks.ConnectionServerMock.Connection | devicemonitoringserver/servermock/connectionservermock.cpp:99-103 | the connection under a client id, whose channel has that peer id |
| ConnectionMocks.ConnectionServerMock.AddConnection | devicemonitoringserver/servermock/connectionservermock.cpp:59-70 | the first connection of a client is kept under its peer id and announced to the new connection handler, a second one is deleted with its channel |
| ConnectionMocks.ConnectionServerMock.OnDisconnected | devicemonitoringserver/servermock/connectionservermock.cpp:89-97 | the connection under the disconnected channel's peer id is deleted and forgotten |
| ConnectionMocks.ConnectionServerMock.Disconnect | devicemonitoringserver/servermock/connectionservermock.cpp:81-87 | the loop disconnects every connection once, in some order, and the server no longer listens |
| Effects.ServerDisconnectSays | devicemonitoringserver/servermock/connectionservermock.cpp:81-87 | of every connection the channel and its peer are off, each that was connected with exactly one disconnect task among the new ones, no other channel has changed, and the server's id is free |
| ConnectionMocks.ConnectionServerMock.Delete | devicemonitoringserver/servermock/connectionservermock.cpp:44-50 | the loop deletes every connection with its channel once, in some order, and the server is unregistered |
| Effects.DestroyServerSays | devicemonitoringserver/servermock/connectionservermock.cpp:44-50 | the same with every connection's channel, the server and its id gone |
| ConnectionMocks.Registries.ConnectToServer | devicemonitoringserver/servermock/clientconnectionmock.cpp:38-51 | if both ends are registered two fresh channels are connected to each other and handed over, else nothing happens |
| ConnectionMocks.Registries.ProcessTask | devicemonitoringserver/servermock/taskqueue.cpp:18-27 | the queue's first task has its effect on channels, clients and servers |
| ConnectionMocks.TaskDoneIsProcessTask | devicemonitoringserver/servermock/taskqueue.cpp:18-27 | that effect is the step of Connections the results below are about |
| Connections.HubRunKeeps | devicemonitoringserver/servermock/clientconnectionmock.cpp:33-159 | every run of client, server, connection and task steps keeps the books of clients, servers and channels |
| Connections.ReachableBooks | devicemonitoringserver/servermock/connectionservermock.cpp:44-97 | so they hold in every state reachable from nothing |
| Connections.RegistriesExact | devicemonitoringserver/servermock/clientconnectionmock.cpp:12-31 | an id is registered for a client or a server exactly if that object exists and holds the id, and the id is not 0 |
| Connections.RegistryFollowsClient | devicemonitoringserver/servermock/clientconnectionmock.cpp:73-89 | a bind and the end of a client move or remove its own entry and leave all others alone |
| Connections.RegistryFollowsServer | devicemonitoringserver/servermock/connectionservermock.cpp:72-87 | listening and the end of listening do the same for servers |
| Connections.OneHolder | devicemonitoringserver/servermock/connectionservermock.cpp:59-70 | every living channel has exactly one holder: the client its handlers lead to, or the connection kept under its peer id |
| Connections.ForgottenByOwner | devicemonitoringserver/servermock/connectionmock.cpp:70-75 | after its disconnection a channel is gone from its owner and destroyed, and no other channel is |
| Connections.RepeatedConnect | devicemonitoringserver/servermock/clientconnectionmock.cpp:38-51 | a repeated request for an established pair changes no client, no server, no existing channel and nothing queued for one |
| Connections.ConnectElsewhere | devicemonitoringserver/servermock/clientconnectionmock.cpp:38-51 | a connected client that asks another server keeps its connection; the server has a half-made one whose disconnection is queued |
| Connections.ConnectTooEarly | devicemonitoringserver/servermock/connectionservermock.cpp:59-70 | a client that comes back while the server still holds its old connection gets a half-made one; the old one is untouched |
| Connections.DisconnectionForgets | devicemonitoringserver/servermock/clientconnectionmock.cpp:155-159 | when a queued disconnection comes up, the holder of the channel forgets it and it is destroyed, so what is half-made goes again |
| Agreements.HubRunMatched | devicemonitoringserver/servermock/clientconnectionmock.cpp:38-51 | in every reachable state a living channel has not been told of a disconnection, and of two living peers one belongs to a client and the other to the connection kept under that client's id |
| Agreements.ReachableAgreement | devicemonitoringserver/servermock/connectionservermock.cpp:59-103 | whatever clients and servers did: with the queue empty every client that has a channel is connected to the connection some server has under its id, and every connection of a server to the client registered under that id |
| Connections.FirstConnect | devicemonitoringserver/servermock/clientconnectionmock.cpp:38-51 | a first request gives both ends their channels, paired and connected, and changes nothing else |
| Setup.AllConnect | devicemonitoringserver/servermock/clientconnectionmock.cpp:33-57 | when the requests of any number of bound clients have been processed, all of them are connected and the queue is empty |
| Setup.ConnectedSystem | devicemonitoringserver/devicemock.cpp:64-72 | that is a starting point for the runs below, as a statement about values |
| Setup.OneMoreStanding | devicemonitoringserver/tests.cpp:54-63 | a new client that binds and asks joins the connected ones, with the queue empty again and none of them disturbed |
| Conversations.OpenedSealed | devicemonitoringserver/devicemock.cpp:81-81 | with a round-tripping executor at both ends every message is received as it was sent |
| Conversations.MeterageArrives | devicemonitoringserver/devicemonitoringserver.cpp:62-70 | the server reads the device's next meterage and answers it; the conversation has one unit of work less |
| Conversations.AnswerArrives | devicemonitoringserver/devicemock.cpp:79-110 | the device accepts the answer, keeps it and sends its next meterage; the conversation has one unit of work less |
| Conversations.DeviceReads | devicemonitoringserver/devicemock.cpp:79-107 | a device adds to its messages the command or error whose characters stand at the start of the decoded string, and throws exactly if there is none |
| Conversations.ServerReads | devicemonitoringserver/devicemonitoringserver.cpp:62-70 | the command center hears of a meterage exactly if its characters stand at the start of the decoded string, with its time stamp and value and under the id of the device |
| Monitoring.DeliverKeeps | devicemonitoringserver/servermock/taskqueue.cpp:18-27 | a processed task moves exactly one conversation on by one unit, disturbs no other, and no device throws |
| Monitoring.StartKeeps | devicemonitoringserver/devicemock.cpp:122-131 | a device that starts disturbs no conversation and adds no work beyond its meterages |
| EndToEnd.AnswerFromBefore | devicemonitoringserver/command_center.cpp:32-38 | the answer to a meterage of a batch does not depend on the earlier meterages of the batch |
| EndToEnd.StartedOver | devicemonitoringserver/devicemock.cpp:122-126 | a device that starts over gets Obsolete for exactly those meterages whose number it had reached before |
| EndToEnd.ReachesKeeps | devicemonitoringserver/devicemock.cpp:143-161 | along any run the invariant holds and work left plus tasks processed is constant |
| EndToEnd.DrainedReplies | devicemonitoringserver/devicemock.cpp:79-161 | however starts and tasks were interleaved, with an empty queue a started device's messages have grown by exactly the replies due to its own meterages in order, and its statistics are those of its own calls |
| EndToEnd.RunsEnd | devicemonitoringserver/devicemonitoringserver.cpp:62-70 | no run processes more than two tasks for each meterage, and a finished one exactly as many |
| EndToEnd.EveryState | devicemonitoringserver/devicemock.cpp:109-109 | in every state of a run the next task can be processed, a device accepts what it gets, and no device has more than one message under way |
| Disruptions.SilentQuieter | devicemonitoringserver/servermock/connectionmock.cpp:39-43 | no step of clients, servers or tasks other than a message makes anything arrive that was not on its way: what is on its way stays or is lost |
| Disruptions.MessageOrderly | devicemonitoringserver/servermock/connectionchannel.cpp:11-26 | whatever has been disrupted, a delivered message moves at most the conversation it belongs to, and a device accepts what it gets |
| Disruptions.UnfoldsOrderly | devicemonitoringserver/devicemock.cpp:79-161 | along any run, with any disconnections, new connections and ends of clients and servers, every conversation goes on or stands still |
| Disruptions.DisturbedReplies | devicemonitoringserver/devicemock.cpp:79-161 | so what a device receives is a prefix of the predicted replies, what the command center hears of it a prefix of its meterages, at least as long, and no device throws |
| Disruptions.QuietStart | devicemonitoringserver/servermock/taskqueue.cpp:18-27 | every state that clients and servers can come to rest in is one such runs can begin from |
| Disruptions.StartHeardIff | devicemonitoringserver/devicemock.cpp:112-131 | the first meterage is sent exactly if the client is connected when the device starts; the time goes on either way |
| Disruptions.LostStartExample | devicemonitoringserver/devicemock.cpp:112-161 | a bound client without a connection: the first meterage is lost |
| Devices.DeviceMock.SetMeterages | devicemonitoringserver/devicemock.cpp:122-126 | the device has the new meterages and starts again at time 0 |
| Devices.DeviceMock.SendNextMeterage | devicemonitoringserver/devicemock.cpp:143-161 | sends the encoded next meterage and advances, or does nothing at the end |
| Devices.DeviceMock.OnMessageReceived | devicemonitoringserver/devicemock.cpp:79-110 | throws exactly on what is not a command or an error, and then changes nothing; else keeps the message and sends the next meterage |
| Devices.DeviceMonitoringServer.SetDeviceWorkSchedule | devicemonitoringserver/devicemonitoringserver.cpp:35-38 | the plan is set in the command center |
| Devices.DeviceMonitoringServer.DeviationStats | devicemonitoringserver/devicemonitoringserver.cpp:45-48 | the statistics of the device by the calls so far |
| Devices.DeviceMonitoringServer.SendMessage | devicemonitoringserver/devicemonitoringserver.cpp:55-60 | sends over the connection of that device, if there is one |
| Devices.DeviceMonitoringServer.SendAnswer | devicemonitoringserver/devicemonitoringserver.cpp:125-128 | sends the encoded serialized message |
| Devices.DeviceMonitoringServer.OnMessageReceived | devicemonitoringserver/devicemonitoringserver.cpp:62-70 | a meterage is processed and its reply sent back to the device; anything else is ignored |
| Simulations.Simulation.constructor | devicemonitoringserver/tests.cpp:65-68 | registered devices and a registered server with executors that do the same form a valid system |
| Simulations.Simulation.HandleMessage | devicemonitoringserver/servermock/connectionchannel.cpp:100-104 | a message to a living channel reaches the device or the server its handlers lead to |
| Simulations.Simulation.ProcessTask | devicemonitoringserver/servermock/taskqueue.cpp:18-27 | the objects together do what one step of the system does |
| Simulations.Simulation.Drain | devicemonitoringserver/servermock/taskqueue.cpp:18-27 | the loop over the queue ends with an empty queue, after exactly as many tasks as there was work |
| Simulations.Simulation.Run | devicemonitoringserver/devicemock.cpp:79-161 | the program on objects: devices started in any order with any number of tasks between, then a drain; every device has exactly its predicted answers and statistics, after exactly two tasks per meterage, and is connected as before |
| Simulations.TurnKeeps | devicemonitoringserver/servermock/taskqueue.cpp:18-27 | one step of the system keeps the invariant, takes one unit of work and makes no device throw |
| Programs.Equip | devicemonitoringserver/tests.cpp:42-43 | the encoder does what the selected executor does, by its name |
| Programs.NamedFaithful | devicemonitoringserver/message_encoder.cpp:15-20 | every executor that can be selected in the test program round-trips |
| Programs.DrainRequest | devicemonitoringserver/tests.cpp:61-62 | the loop over the queue with one request ends with the connection made |
| Programs.MonitoringServerTest.constructor | devicemonitoringserver/tests.cpp:38-45 | a listening server on a new queue, without devices |
| Programs.MonitoringServerTest.ConnectDevice | devicemonitoringserver/tests.cpp:54-63 | a new device is connected, nothing on the way is refused, and the devices before it stay connected and as they were |
| Programs.MonitoringServerTest.Run | devicemonitoringserver/tests.cpp:111-122 | every device sets its meterages and starts, the queue is worked off: each has received in addition exactly the replies due by the calls before, and the fixture is ready for another run |
| Programs.Monitor | devicemonitoringserver/tests.cpp:161-199 | the closed program: from nothing to the messages and statistics of every device, which are functions of the plans set and its own meterages, with exactly two tasks for each meterage |
| Scenarios.FirstReplies | devicemonitoringserver/tests.cpp:161-199 | these messages told in the last plan submitted for a device: NoSchedule exactly without phases, NoTimestamp exactly before the first one, else the correction toward a phase that has started last; never Obsolete |
| Scenarios.FirstCommand | devicemonitoringserver/tests.cpp:135-159 | with distinct time stamps that phase is one, and the command its value minus the meterage, as an octet |
| Scenarios.TwoDevices | devicemonitoringserver/tests.cpp:161-199 | the two devices of the test, with any executor, from nothing: 0, -1, 1 for the one and NoTimestamp, 100, 0, -100 for the other |

## Left out

- Floating point: the deviation is kept as the exact fraction sum of squares / number of samples instead of the rounded square root of it.
- The internals of the standard streams, of `std::sort` and of the hash maps: a stream is a byte sequence with a position and a fail flag, the sort any sorted permutation, a map a map, and a loop over one takes any order.
- CommandCenters.CommandCenter.RecordDeviation: keeps the sum of the squares and their number; the square root of their quotient and its rounding are not modelled.
- SafePointers.SharedDataHolder.Join: does not model the wrap-around of the 32-bit counter, which takes 2 to the 32 holders of one block.
- Channels.ConnectionChannel.Connect: has the weak pointer to the peer and the one in every task inlined, as a flag and a counter in the channel; their own code is in SafePointers.
- ConnectionMocks.ConnectionMock.Delete: a connection is made with its channel and has no other, so the branches for a connection without one and for a second call of setChannel are not there.
- The custom handlers for connected and disconnected events, which are empty in both applications, and replacing handlers after the connection is made; the message handlers are the two applications', chosen by the owner of a channel.
- Simulations.Simulation.Run: requires round-tripping executors that do the same at all ends, plans that do not change during the run, and one start of each device; the server and the devices are not destroyed or disconnected during it, which is the subject of Disruptions, on values.
- Disruptions.DisturbedReplies: a device keeps its id and starts once, the plans do not change, and only the devices and the monitoring server send messages.
- Executors with state: an executor is a pair of functions. An executor object that is added again, or added after it was deleted, is excluded as in the code, which would delete it while in use.
- Exceptions after a device throws: the result says that it throws and that nothing has changed.
- Programs.MonitoringServerTest.ConnectDevice: requires a new non-zero device id; for any other the test program's own assertion fails.
- Programs.Monitor: the fixture's destructor is not called; the destructors of clients and servers are modelled one by one in ConnectionMocks.
- Printing and comparing messages, the abstract interfaces, the build files, and the test programs except their fixture.
