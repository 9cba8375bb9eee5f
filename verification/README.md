# Pretzel, verified

A Dafny model of the parts of Pretzel that carry its messages, its configuration and its handshakes, with proofs.
`dafny verify dfyconfig.toml` checks all of it. The C++ files are cited by path and line.

Code that changes objects is modelled as classes whose methods are proved against step functions on values; the theorems
about runs are lemmas about those step functions. Results of system calls, clocks, random bytes and foreign libraries are
parameters, so every theorem holds for all of them.

| part | files |
|---|---|
| byte stream between two daemons | `Bytes`, `RingBuffer`, `Codec`, `Connection`, `Framing`, `Handler`, `Pipeline`, `Client` |
| the broker ipcd | `BrokerState` (steps), `BrokerInvariants` (what every step keeps), `BrokerEvents` (what each event does), `BrokerRuns` and `BrokerReadiness` (theorems), `BrokerStream` (from the drain to the frames), `Broker` (the object) |
| ICMP frames | `Icmp` |
| base64 and secrets at rest | `SixBits`, `Base64`, `Secret` |
| daemon handshake and executor | `Handshake` (steps and theorems), `HandshakeTiming` (batches and due moments), `HandshakeTicks` (the process loop), `Bootstrap` (the object) |
| configuration store | `ConfigDocs` (documents), `ConfigStore` (tables and object) |
| assistant transport in mgmtd | `GrpcCalls` (interleavings and theorems), `Grpc` (the object) |

## Where the code does less, or more, than expected

- Delivery at close is not promised. With a kernel that only delivers, a receive hands on every complete admitted frame if
  and only if it leaves the ring a free byte (`Pipeline.DeliveredUnlessFull`); a legal frame of maximum size that arrives
  in one burst is lost (`Pipeline.LegalFrameLostAtFullRing`).
- A broadcast is queued once for each daemon of its audience that the connection carries, as often as there is room: more
  than once exactly when it carries at least two and has room for two copies (`BrokerRuns.BroadcastCopies`); such a run is
  `BrokerRuns.BroadcastQueuedTwice`.
- Ready implies bound throughout a run if and only if no RuntimeReady is served after its daemon has lost its connection
  (`BrokerReadiness.ReadyMeansBoundIff`); the services run after all events of a poll, so that happens
  (`BrokerReadiness.LateReport`). A daemon that comes back before they run is ready by what it reported on its earlier
  connection (`BrokerReadiness.StaleReport`); every ready daemon reported on the connection it is bound to if and only if
  no RuntimeReady is served after its daemon lost or changed its connection (`BrokerReadiness.ReadyByOwnReportIff`).
- Encoded ICMP frames check at every length, although beyond 131074 bytes the sum may wrap and then need not be the
  Internet checksum; the exact condition is `Icmp.WrappedSumFollowsRfc1071Iff`.
- A bare ICMP frame decodes back if and only if the high half of its type is not 4 (`Icmp.BareRoundTrip`); every type the
  program names is safe.
- A daemon may reach Running without having sent a RuntimeReady: events outrank actions, so a RuntimeStart in the same
  batch as the ServerHello makes the pending RuntimeReady be dropped. `Handshake.BatchSendsReadyIff` gives the exact
  condition, `Handshake.RunningWithoutReady` a run.
- The process transmits at most one ClientHello and one RuntimeReady in a tick (`HandshakeTicks.OneSendPerTick`), and with
  the clock of their ticks the transmissions keep the rate counted from the first of them
  (`HandshakeTicks.TransmissionRate`). With the executor's own clock they need not: `HandshakeTicks.LateHello` and
  `HandshakeTicks.LateReady` are runs in which the executor is late with one and not with the next. Counted from such a
  transmission every continuation keeps the rate if and only if it was made at the moment at which it fell due
  (`HandshakeTicks.LagDecides`).
- A caller that schedules more often than it executes may find ClientHellos in one batch: two leave together if and only
  if two were pending and no answer came with them (`HandshakeTiming.HellosBunchIff`, a run in
  `HandshakeTiming.HellosBunch`).
- The comment in `shared/config/Config.cpp:302-305` says that absent sections are added as they are. An absent scope whose
  startup value is no object is stored as an array behind an empty object (`ConfigDocs.AbsentScopeAddedAsIsIff`), and an
  absent scope is added with its comment keys.
- A stream message counts as final when `"final"` is followed by `true` anywhere, even if that belongs to another key
  (`GrpcCalls.FinalExactly`, an input in `GrpcCalls.FinalOfAnotherKey`).
- A commit whose acknowledgement is lost counts as failed although it took effect; a cache that was current is stale then,
  and only then (`ConfigStore.Config.CommitThenRead`).

## Model

| member | source | states |
|---|---|---|
| `Bytes.StoreNetwork16` | shared/ipc/IpcProtocol.cpp:26-27 | storing after the swap to network order gives the big-endian bytes, on either kind of host |
| `Bytes.StoreNetwork32` | shared/ipc/IpcProtocol.cpp:28-29 | the same for 32 bits |
| `Bytes.LoadNetwork16` | shared/ipc/IpcProtocol.cpp:36-37 | loading and swapping from network order reads two bytes big-endian, on either kind of host |
| `Bytes.LoadNetwork32` | shared/ipc/IpcProtocol.cpp:38-39 | the same for 32 bits |
| `Bytes.NetworkOrderSpells` | shared/ipc/IpcProtocol.cpp:23-41 | the bytes of a number in network order spell it, the most significant first |
| `Bytes.ReadBack16` | shared/ipc/IpcProtocol.cpp:23-41 | a value is read exactly from its own big-endian bytes and from no others |
| `Bytes.ReadBack32` | shared/ipc/IpcProtocol.cpp:23-41 | the same for 32 bits |
| `RingBuffer.ViewExtends` | shared/algorithm/ByteRingBuffer.cpp:44-48 | bytes stored at the tail without wrapping extend the queue the ring stands for, wrapped or not |
| `RingBuffer.ViewDrops` | shared/algorithm/ByteRingBuffer.cpp:80-84 | moving the head modulo the capacity drops exactly the oldest bytes, on either side of the wrap |
| `RingBuffer.Peeked` | shared/algorithm/ByteRingBuffer.cpp:99-110 | the two copies of `peek` leave the oldest bytes in the target and the rest of the target alone |
| `RingBuffer.ByteRingBuffer.constructor` | shared/algorithm/ByteRingBuffer.cpp:8-10 | an empty queue of the given capacity |
| `RingBuffer.ByteRingBuffer.Produce` | shared/algorithm/ByteRingBuffer.cpp:44-48 | the queue grows by the chunk stored at the write pointer; tail stays head plus size modulo capacity |
| `RingBuffer.ByteRingBuffer.FirstRun` | shared/algorithm/ByteRingBuffer.cpp:63-78 | what lies at the read pointer, up to the read length, is the front of the queue |
| `RingBuffer.ByteRingBuffer.Consume` | shared/algorithm/ByteRingBuffer.cpp:80-84 | the queue loses its oldest `n` bytes |
| `RingBuffer.ByteRingBuffer.Write` | shared/algorithm/ByteRingBuffer.cpp:50-61 | appends the longest prefix that fits, no more and no less, in at most two copies |
| `RingBuffer.ByteRingBuffer.Read` | shared/algorithm/ByteRingBuffer.cpp:86-97 | moves the longest available prefix into the target in at most two copies, leaves the rest of the target and of the queue |
| `RingBuffer.ByteRingBuffer.Peek` | shared/algorithm/ByteRingBuffer.cpp:99-110 | gives the bytes `Read` would give and changes nothing in the ring |
| `RingBuffer.ByteRingBuffer.Clear` | shared/algorithm/ByteRingBuffer.cpp:112-117 | an empty queue |
| `Codec.Encode` | shared/ipc/IpcCodec.cpp:8-36 | empty for no message or an oversized payload, otherwise header and payload in network order on any host |
| `Codec.ReadIsHostIndependent` | shared/ipc/IpcProtocol.cpp:33-41 | sixteen bytes read as the same header on hosts of either byte order |
| `Codec.ReadBackHeader` | shared/ipc/IpcProtocol.cpp:23-41 | a header is read exactly from its own sixteen bytes and from no others |
| `Codec.FrameLayout` | shared/ipc/IpcProtocol.h:187-199 | which bytes of a frame hold which field |
| `Codec.RejectedBecause` | shared/ipc/IpcCodec.cpp:38-92 | of any bytes, exactly when decoding gives which of its errors, by length, version, reserved bytes and announced length |
| `Codec.DecodeIsInverse` | shared/ipc/IpcCodec.cpp:38-92 | decoding gives message `m` if and only if the bytes are the frame of `m` and `m` is of version 2 and fits: both round trips at once |
| `Codec.RoundTrip` | shared/ipc/IpcCodec.cpp:8-92 | what one host encodes any host decodes back, exactly for the messages of the current version that fit |
| `Codec.ReencodeIsIdentity` | shared/ipc/IpcCodec.cpp:8-92 | re-encoding a decoded frame gives the same bytes |
| `Codec.HeaderIsInjective` | shared/ipc/IpcCodec.cpp:25-28 | equal header bytes mean equal headers |
| `Codec.PrefixFree` | shared/ipc/IpcCodec.cpp:8-36 | no frame is a proper prefix of another; two frames with anything behind them are equal only if both parts are |
| `Codec.PeekIsExact` | shared/ipc/IpcCodec.cpp:94-120 | `peekFrameSize` promises `n` if and only if the first `n` bytes decode, and it looks at the header alone |
| `Codec.PeekAnnouncesFrame` | shared/ipc/IpcCodec.cpp:94-120 | the header of a message announces the length of its frame |
| `Codec.PeekedHeaderStartsAFrame` | shared/ipc/IpcCodec.cpp:94-120 | any accepted header, followed by any payload of the announced length, is the frame of a message |
| `Connection.IpcConnection.constructor` | shared/ipc/IpcConnection.cpp:14-17 | both rings hold at least one frame of maximum size |
| `Connection.IpcConnection.Recv` | shared/ipc/IpcConnection.cpp:19-51 | the ring gains a prefix of what arrived, byte for byte; BufferFull exactly when the ring ends full; WouldBlock and PeerClosed leave nothing behind; a failure is reported and an interrupted call repeated: the outcome is that of the script |
| `Connection.IpcConnection.Send` | shared/ipc/IpcConnection.cpp:53-88 | what the kernel took and what is still queued make up what was queued; Ok exactly when nothing is left; with bytes queued the first call that is not interrupted decides: a failure is reported as such, an end as PeerClosed, a full socket as WouldBlock |
| `Connection.SendDecided` | shared/ipc/IpcConnection.cpp:57-85 | for any script: interrupted calls are repeated, then a failure, an end or a full socket is the result with nothing sent; a short grant ends with WouldBlock, a whole one goes on behind the wrap with the calls left |
| `Connection.SendBounds` | shared/ipc/IpcConnection.cpp:57-87 | Ok exactly if everything was sent; an error or an end only if the script has it |
| `Connection.GenerousSends` | shared/ipc/IpcConnection.cpp:57-87 | two whole grants send everything, wrapped or not |
| `Connection.RecvDecided` | shared/ipc/IpcConnection.cpp:23-50 | for any script: interrupted calls are repeated, then a failure is the result even if bytes are there; without bytes an end is PeerClosed and anything else WouldBlock; otherwise bytes are taken and the calls left go on |
| `Connection.RecvBounds` | shared/ipc/IpcConnection.cpp:23-50 | the ring ends full, or a call failed, or everything that was there was taken |
| `Connection.UnfailingRecv` | shared/ipc/IpcConnection.cpp:23-50 | without a failure everything is taken if that leaves a free byte, and otherwise the ring ends full |
| `Connection.IpcConnection.Write` | shared/ipc/IpcConnection.cpp:90-108 | the bytes are queued whole or not at all, by room |
| `Framing.UniquelyDecodable` | shared/ipc/IpcCodec.cpp:8-36 | a stream of frames that begins with the frames of `a` is a stream of messages that begins with `a` |
| `Framing.FrameInFront` | shared/ipc/IpcHandler.cpp:122-163 | a complete frame in front excludes both states in which draining stops for want of one |
| `Framing.DrainedIsUnique` | shared/ipc/IpcHandler.cpp:90-164 | the delivered messages, the remaining bytes and the result of a drain are determined by the bytes |
| `Framing.DrainDeliversEverything` | shared/ipc/IpcHandler.cpp:90-164 | every complete leading frame is delivered and an unfinished one is kept |
| `Framing.LeftoverIsShort` | shared/ipc/IpcHandler.cpp:122-126 | what a drain leaves is less than one frame |
| `Framing.OutcomesExclude` | shared/ipc/IpcHandler.cpp:106-126 | an unfinished frame is neither a broken header nor a refused message |
| `Handler.IpcHandler.Ingress` | shared/ipc/IpcClientHandler.cpp:66-106 | a frame is taken exactly when it decodes and is admitted, and is then logged |
| `Handler.IpcHandler.DrainRxFrames` | shared/ipc/IpcHandler.cpp:81-165 | the loop on the ring has the one outcome that the parser of the byte queue has, wrapped or not; it ends, leaves less than one frame, and never enters its short-peek, need-more-data, size-check or decode-failure branches |
| `Handler.IpcHandler.DrainTurn` | shared/ipc/IpcHandler.cpp:90-164 | one turn delivers and consumes exactly the frame in front, or stops with the ring untouched and the reason true of its bytes |
| `Handler.IpcHandler.FetchFrame` | shared/ipc/IpcHandler.cpp:128-161 | in place or copied from both ends of the ring, the frame handed on is the same bytes |
| `Handler.IpcHandler.PeekVerdict` | shared/ipc/IpcHandler.cpp:103-126 | what a peeked header says is true of every way the bytes could go on |
| `Handler.IpcHandler.FrameCut` | shared/ipc/IpcHandler.cpp:128-161 | a peeked frame that is all there decodes, and is the frame of what it decodes to |
| `Handler.IpcHandler.HandleRecv` | shared/ipc/IpcHandler.cpp:13-40 | a drain after WouldBlock only; a full ring, a closed peer or an error, as the script has it, closes with what was received undelivered |
| `Handler.IpcHandler.HandleSend` | shared/ipc/IpcHandler.cpp:42-79 | EPOLLOUT stays armed exactly while bytes are queued; no byte is lost or duplicated; with bytes queued the connection is given up if the first call that is not interrupted fails or finds the peer gone, and kept if it would block |
| `Pipeline.NextConserves` | shared/ipc/IpcHandler.cpp:13-165 | every step keeps: delivered frames, receive ring, bytes in flight and transmit ring concatenate to the frames written |
| `Pipeline.RunKeepsInv` | shared/ipc/IpcHandler.cpp:13-165 | that law, and what an open receiver may hold, at every moment of every run |
| `Pipeline.DeliveryIsAPrefix` | shared/ipc/IpcHandler.cpp:81-165 | for every chunking and interleaving, at every moment the delivered messages are a prefix of the written ones, and the bytes on the way are exactly the frames of the rest |
| `Pipeline.NothingIsHeldBack` | shared/ipc/IpcHandler.cpp:81-165 | when the sender and the kernel are empty an open receiver has delivered everything |
| `Pipeline.ReceiverNeverJams` | shared/ipc/IpcHandler.cpp:122-126 | an open receiver always has a free byte |
| `Pipeline.CutsAreNotHopeless` | shared/ipc/IpcHandler.cpp:109-113 | no cut of a stream of current-version frames looks like a broken header |
| `Pipeline.FramingNeverFails` | shared/ipc/IpcHandler.cpp:109-120 | fed current-version messages, a receiver that turns nothing down is never closed by draining |
| `Pipeline.DeliveredUnlessFull` | shared/ipc/IpcHandler.cpp:20-39 | with a kernel that only delivers, a receive hands on every complete admitted frame if and only if it leaves the ring a free byte |
| `Pipeline.LegalFrameLostAtFullRing` | shared/ipc/IpcHandler.cpp:30-32 | a run in which a legal frame as large as the ring fills it in one burst and is lost |
| `Pipeline.Link.Egress` | shared/ipc/IpcConnection.cpp:90-108 | encoding and queueing on the real objects is the Egress step |
| `Pipeline.Link.Flush` | shared/ipc/IpcConnection.cpp:53-88 | sending on the real objects is a Flush step |
| `Pipeline.Link.Receive` | shared/ipc/IpcHandler.cpp:13-40 | receiving on the real objects is a receive step; with a kernel that only delivers it drains exactly if the bytes leave room |
| `BrokerInvariants.BindKeepsInv` | ipcd/ipc/IpcServerHandler.cpp:281-323 | binding keeps every clause of the broker invariant |
| `BrokerInvariants.AcquiringStartsAfresh` | ipcd/ipc/IpcServerHandler.cpp:286-322 | a daemon that acquires a connection starts unready at version 0, and its generation counts the acquisitions |
| `BrokerInvariants.CloseKeepsInv` | ipcd/ipc/IpcServerHandler.cpp:110-126 | closing clears every route on the descriptor and keeps the invariant |
| `BrokerInvariants.BroadcastKeepsInv` | ipcd/ipc/IpcServerHandler.cpp:212-249 | a broadcast keeps order, byte identity and arming on every connection |
| `BrokerInvariants.EgressKeepsInv` | ipcd/ipc/IpcServerHandler.cpp:171-210 | so does a message that ipcd sends |
| `BrokerInvariants.IngressKeepsInv` | ipcd/ipc/IpcServerHandler.cpp:128-169 | so does a message that is received and forwarded |
| `BrokerInvariants.ReceiveKeepsInv` | ipcd/ipc/IpcServerHandler.cpp:74-90 | so does a whole receive event, whether it ends in a close or not |
| `BrokerInvariants.WritableKeepsInv` | ipcd/ipc/IpcServerHandler.cpp:92-108 | so does a send event |
| `BrokerInvariants.AcceptKeepsInv` | ipcd/ipc/IpcServerHandler.cpp:21-72 | so does accepting, which never exceeds the maximum number of connections |
| `BrokerInvariants.ServeKeepsInv` | ipcd/service/bootstrap/BootstrapService.cpp:70-99 | so does serving a posted message, which leaves every connection and route alone but for readiness and version |
| `BrokerInvariants.RunKeepsInv` | ipcd/ipc/IpcServer.cpp:140-185 | over every sequence of events: bound routes lead to live connections, generations count acquisitions (which are the changes of the live descriptor, `BrokerRuns.AcquisitionIsAChange`), EPOLLOUT is armed exactly where bytes are queued, traffic is faithful and in order, connections stay within the maximum |
| `BrokerEvents.HangUpVanishes` | ipcd/ipc/IpcServer.cpp:173-177 | in any run a connection that hangs up is neither connected nor registered any more, the daemons bound to it are bound to nothing, unready and at version 0, and everything else is as before |
| `BrokerEvents.FlushTakesOrVanishes` | ipcd/ipc/IpcServerHandler.cpp:92-108 | in any run a failed send that takes fewer bytes than are queued ends the connection in the same way; any other send takes exactly what the kernel grants and stays armed exactly if bytes are left |
| `BrokerEvents.AcceptAdmits` | ipcd/ipc/IpcServerHandler.cpp:21-72 | in any run everybody waiting is let in, with nothing queued and EPOLLOUT unarmed, unless the maximum is reached; who was there stays as he was |
| `BrokerEvents.MessageBinds` | ipcd/ipc/IpcServerHandler.cpp:128-169 | in any run a message from a daemon bound elsewhere ends its connection; any other binds its source, which keeps readiness, version and generation if it was bound there already, and is recorded |
| `BrokerEvents.GarbageVanishes` | ipcd/ipc/IpcServerHandler.cpp:128-145 | a frame that is the frame of no message ends the connection |
| `BrokerEvents.BoundAgain` | ipcd/ipc/IpcServerHandler.cpp:308-322 | a daemon whose connection hung up is bound by its next message on another one, unready, at version 0 and a generation later |
| `BrokerEvents.MessageIsPassedOn` | ipcd/router/IpcdRxRouter.cpp:14-50 | in any run a message that is taken goes to the services exactly if it is a ClientHello, SyncRequest or RuntimeReady, and otherwise to all daemons it is for: a copy for each other daemon of a connection as far as they fit, or last on the connection of its destination |
| `BrokerEvents.SentIsPassedOn` | ipcd/ipc/IpcServerHandler.cpp:171-210 | so does a message that ipcd sends by itself, which changes nothing else |
| `BrokerEvents.BroadcastFlagIsBitThree` | shared/ipc/IpcProtocol.cpp:18-21 | bit 3 of the flags, with any other bits, makes a message a broadcast, and without it no other bit does |
| `BrokerEvents.ServingMarks` | ipcd/ipc/IpcServerHandler.cpp:360-384 | serving a RuntimeReady of a known daemon makes it ready and records a positive version; nothing else that is served changes a route |
| `BrokerRuns.RouteChangesOnlyByClosing` | ipcd/ipc/IpcServerHandler.cpp:298-358 | in every run a bound daemon keeps its connection until that is gone, and then no daemon is bound to it |
| `BrokerRuns.AcquisitionIsAChange` | ipcd/ipc/IpcServerHandler.cpp:281-323 | a message that is taken counts one acquisition for a daemon if it changes the live descriptor of that daemon, and none otherwise |
| `BrokerRuns.NothingElseAcquires` | ipcd/ipc/IpcServer.cpp:140-185 | no close and no event but a receive counts an acquisition |
| `BrokerRuns.ForwardedIsItsInput` | ipcd/ipc/IpcServerHandler.cpp:128-279 | in every run each frame queued on behalf of an input is that input byte for byte, no handshake, and for this connection |
| `BrokerRuns.ForwardingIsInOrder` | ipcd/ipc/IpcServerHandler.cpp:128-279 | forwarded frames keep the order of their inputs; none is repeated where no two daemons share the connection |
| `BrokerRuns.InputsAreReceived` | ipcd/ipc/IpcServerHandler.cpp:128-169 | in every run only a receive records inputs: a prefix of its frames, in order, from sources that are bound to that connection as long as it is open |
| `BrokerRuns.NothingIsStranded` | ipcd/ipc/IpcServer.cpp:71-102 | in every run interest in EPOLLOUT holds if and only if bytes are queued; sent and queued bytes are the concatenation of the queued frames |
| `BrokerRuns.ReceiveRecordsInOrder` | shared/ipc/IpcHandler.cpp:128-164 | the inputs a receive adds are its frames, in order, up to the first one not taken |
| `BrokerRuns.UnicastReachesItsRoute` | ipcd/ipc/IpcServerHandler.cpp:195-210 | a unicast, forwarded or sent by ipcd, with a route and room is queued last on exactly that connection and arms it; otherwise nothing changes |
| `BrokerInvariants.PushManyIsGreedy` | ipcd/ipc/IpcServer.cpp:86-92 | as many copies as fit are queued, and no fewer |
| `BrokerRuns.BroadcastCopies` | ipcd/ipc/IpcServerHandler.cpp:229-248 | a connection gets one copy for each daemon of the audience it carries, as often as there is room; at most one exactly when it carries at most one or has no room for two |
| `BrokerRuns.Greeting` | ipcd/ipc/IpcServerHandler.cpp:281-296 | the handshake of an unknown daemon binds it to the connection it came on with generation 1, and goes to the services alone |
| `BrokerRuns.TwoDaemonsOnOneConnection` | ipcd/ipc/IpcServerHandler.cpp:281-296 | whoever else is connected, one peer can hold two daemons: descriptors do not determine daemons |
| `BrokerRuns.BroadcastQueuedTwice` | ipcd/ipc/IpcServerHandler.cpp:229-248 | a run from the start that queues one input twice on one connection |
| `BrokerReadiness.StrayAfter` | ipcd/ipc/IpcServerHandler.cpp:360-384 | a step leaves a daemon ready without a connection exactly if it serves that daemon's late RuntimeReady, or the daemon was so and acquired no connection |
| `BrokerReadiness.ReadyBoundAfterEvent` | ipcd/service/bootstrap/BootstrapService.cpp:70-99 | in any run an event keeps ready-implies-bound exactly if it serves no late RuntimeReady |
| `BrokerReadiness.ReadyMeansBoundIff` | ipcd/service/bootstrap/BootstrapService.cpp:70-99 | ready implies bound throughout a run if and only if no RuntimeReady is served after its daemon lost its connection |
| `BrokerReadiness.LateReport` | ipcd/router/IpcdRxRouter.cpp:34-43 | a run from the start in which it fails: the drain that hands on the RuntimeReady fails behind it, say at a broken header, which closes the connection, and the message is served afterwards |
| `BrokerReadiness.OwnReportsAfterEvent` | ipcd/service/bootstrap/BootstrapService.cpp:70-99 | in any run an event keeps every ready daemon ready by a report from the connection it is bound to, exactly if it serves no RuntimeReady whose daemon lost or changed its connection since |
| `BrokerReadiness.ReadyByOwnReportIff` | ipcd/service/bootstrap/BootstrapService.cpp:70-99 | throughout a run every ready daemon is bound to the connection on which it reported, if and only if no such RuntimeReady is served |
| `BrokerReadiness.StaleReport` | ipcd/router/IpcdRxRouter.cpp:34-43 | a run from the start in which a daemon becomes ready on its second connection by what it reported on its first |
| `BrokerStream.EveryDrainIsCut` | shared/ipc/IpcHandler.cpp:90-164 | every drain with the binding answer as admission amounts to frames and a result |
| `BrokerStream.DrainIsReceive` | ipcd/ipc/IpcServerHandler.cpp:74-90 | draining the bytes of a connection, with the binding answer from the current route table, is receiving the frames it cuts: the delivered messages are recorded in order; a broken header, and nothing else, makes the result false; the connection stays open exactly if the drain went well |
| `BrokerStream.FailedDrainVanishes` | ipcd/ipc/IpcServerHandler.cpp:74-90 | a drain that ends in a broken header or a refused message ends the connection, after what it delivered |
| `BrokerStream.BytesAreForwarded` | ipcd/ipc/IpcServerHandler.cpp:128-279 | in any run, whatever receiving some bytes queues on any connection on behalf of an input is one of the frames those bytes begin with, byte for byte |
| `Broker.IpcServer.constructor` | ipcd/ipc/IpcServer.cpp:12-15 | an empty broker, in which the invariant holds |
| `Broker.IpcServer.BindRoute` | ipcd/ipc/IpcServerHandler.cpp:281-323 | the four branches: new, unchanged, hijack refused, re-bound |
| `Broker.IpcServer.FindRoute` | ipcd/ipc/IpcServerHandler.cpp:325-341 | the live descriptor of a daemon or -1 |
| `Broker.IpcServer.RemoveRoute` | ipcd/ipc/IpcServerHandler.cpp:343-358 | every route on the descriptor is cleared and no other, in any order of the table |
| `Broker.IpcServer.CloseConnection` | ipcd/ipc/IpcServerHandler.cpp:110-126 | routes, interest and connection are gone together |
| `Broker.IpcServer.MarkRuntimeReady` | ipcd/ipc/IpcServerHandler.cpp:360-384 | readiness is set for a known daemon, the version only if positive |
| `Broker.IpcServer.EnqueueFrame` | ipcd/ipc/IpcServer.cpp:71-102 | a frame is queued whole and arms EPOLLOUT, or nothing changes |
| `Broker.IpcServer.SendFrame` | ipcd/ipc/IpcServerHandler.cpp:251-279 | the encoded message is enqueued if it fits a frame |
| `Broker.IpcServer.UnicastMessage` | ipcd/ipc/IpcServerHandler.cpp:195-210 | the message goes to the connection of its destination |
| `Broker.IpcServer.BroadcastMessage` | ipcd/ipc/IpcServerHandler.cpp:212-249 | whatever the order of the table, every connection ends with its copies |
| `Broker.IpcServer.CopyToAudience` | ipcd/ipc/IpcServerHandler.cpp:229-248 | the loop leaves every connection with one copy for each daemon of the audience on it |
| `Broker.IpcServer.OneVisit` | ipcd/ipc/IpcServerHandler.cpp:229-248 | a visit of the loop adds one copy on its target, as far as it fits, and nothing elsewhere |
| `Broker.IpcServer.EgressMessage` | ipcd/ipc/IpcServerHandler.cpp:171-193 | broadcast by destination or by flag, otherwise unicast |
| `Broker.IpcServer.HandleIpcMessage` | ipcd/router/IpcdRxRouter.cpp:14-50 | the three handshake commands go to the services, everything else straight to the transmit side |
| `Broker.IpcServer.IngressFrame` | ipcd/ipc/IpcServerHandler.cpp:128-169 | a frame is taken if it decodes and its source may be bound here |
| `Broker.IpcServer.HandleRecv` | ipcd/ipc/IpcServerHandler.cpp:74-90 | the frames of a receive, up to the first not taken, which closes; which frames those are is `BrokerStream.DrainIsReceive` |
| `Broker.IpcServer.HandleSend` | ipcd/ipc/IpcServerHandler.cpp:92-108 | a prefix of the queue leaves, the rest stays armed; an error closes |
| `Broker.IpcServer.HandleAccept` | ipcd/ipc/IpcServerHandler.cpp:21-72 | accepting keeps the limit and registers without EPOLLOUT |
| `Broker.EventOutcome` | ipcd/ipc/IpcServer.cpp:140-185 | an event for an unknown descriptor does nothing; a close ends the connection whatever else is signalled; else what is signalled is done, receiving before sending |
| `Broker.IpcServer.HandleEvent` | ipcd/ipc/IpcServer.cpp:140-185 | closing comes first and ends the connection with its routes; a send follows a receive only on a connection still open; the invariant is kept |
| `Broker.IpcServer.ServePosted` | ipcd/service/IpcdServiceManager.cpp:42-59 | the message posted first is taken; only a RuntimeReady touches the routes |
| `Client.IpcClient.ConnectServer` | shared/ipc/IpcClient.cpp:181-226 | connected, connecting or disconnected; the new descriptor is registered with EPOLLOUT exactly if connecting |
| `Client.IpcClient.CloseConnection` | shared/ipc/IpcClient.cpp:228-239 | nothing queued, nothing registered |
| `Client.IpcClient.EnqueueFrame` | shared/ipc/IpcClient.cpp:110-138 | a frame is queued whole and armed, exactly when connected and there is room; otherwise nothing changes |
| `Client.IpcClient.HandleEvent` | shared/ipc/IpcClient.cpp:241-306 | another descriptor changes nothing; while connecting, any flag completes the connection with EPOLLOUT unarmed or, on a socket error, drops it; once connected a close drops it, else the event is an Exchange |
| `Client.IpcClient.Exchange` | shared/ipc/IpcClient.cpp:289-306 | what a receive delivers and leaves is what draining the ring and the arrived bytes gives, and it drops the connection exactly if that or the receive fails; a send follows only then, takes a prefix, keeps EPOLLOUT armed exactly while bytes are left, and drops the connection exactly if it fails |
| `Icmp.FoldKeepsOnesSum` | probed/icmp/IcmpCodec.cpp:99-100 | folding the carry keeps the one's-complement value |
| `Icmp.Accumulate` | probed/icmp/IcmpCodec.cpp:83-97 | the 32-bit accumulator holds the sum of the big-endian words modulo 2^32 |
| `Icmp.CalculateChecksum` | probed/icmp/IcmpCodec.cpp:81-103 | the complement of the one's-complement sum, after at most two folds |
| `Icmp.Encode` | probed/icmp/IcmpCodec.cpp:14-42 | the frame of the packet with the checksum of its zero-checksum form |
| `Icmp.EncodedFrameChecks` | probed/icmp/IcmpCodec.cpp:22-42 | every encoded frame of every length, odd or even, checksums to zero when summed again |
| `Icmp.ShortFramesFollowRfc1071` | probed/icmp/IcmpCodec.cpp:81-103 | up to 131074 bytes the sum does not wrap and is the Internet checksum |
| `Icmp.WrappedSumFollowsRfc1071Iff` | probed/icmp/IcmpCodec.cpp:81-103 | for any length, the exact condition under which the wrapped sum is the Internet checksum |
| `Icmp.BoundIsTight` | probed/icmp/IcmpCodec.cpp:81-103 | 131075 bytes of ones get a different checksum |
| `Icmp.SumAfterChange` | probed/icmp/IcmpCodec.cpp:85-97 | a changed byte moves the sum by the difference in its half of the word |
| `Icmp.CorruptionDetected` | probed/icmp/IcmpCodec.cpp:81-103 | one corrupted byte of a frame that checks is noticed whenever the accumulator wraps as often as before |
| `Icmp.SingleByteCorruptionDetected` | probed/icmp/IcmpCodec.cpp:81-103 | so up to 131074 bytes it is always noticed |
| `Icmp.FrameLayout` | probed/icmp/IcmpCodec.cpp:22-42 | which bytes of a frame hold which field |
| `Icmp.DecodesWhenThereIsAHeader` | probed/icmp/IcmpCodec.cpp:118-148 | of any bytes, exactly which decode and where their ICMP header starts |
| `Icmp.DecodeIsExact` | probed/icmp/IcmpCodec.cpp:44-79 | on arbitrary input, decoding gives a packet if and only if the bytes from the ICMP offset on are its frame |
| `Icmp.BareRoundTrip` | probed/icmp/IcmpCodec.cpp:118-148 | a bare frame decodes to its packet if and only if the high half of its type is not 4 |
| `Icmp.NamedTypesRoundTrip` | probed/icmp/IcmpProtocol.h:8-15 | all five types the program names decode back; type 0x45 does not |
| `Icmp.RoundTripBehindIpv4` | probed/icmp/IcmpCodec.cpp:118-148 | behind any IPv4 header of 20 to 60 bytes every packet decodes back |
| `SixBits.Fields24` | shared/util/Secret.cpp:53-57 | the four six-bit fields of three joined bytes are their four digits |
| `SixBits.WrapKeepsLowBits` | collectord/service/api/ApiUtil.cpp:31 | an accumulator that overflows 32 bits keeps its low bits |
| `SixBits.PushByte` | collectord/service/api/ApiUtil.cpp:31-37 | whatever the accumulator has lost, the digits a byte completes depend on the byte before it only |
| `SixBits.PushDigit` | shared/util/Secret.cpp:98-104 | whatever the accumulator has lost, the byte a digit completes depends on the digit before it only |
| `Base64.CharIsTableEntry` | shared/util/Secret.cpp:44 | the character of a digit is the entry at its position in the literal table of its alphabet |
| `Base64.ValueIsPosition` | authd/service/auth/OktaClient.cpp:74-90 | a character has a value exactly if it stands in the table, and the value is its position |
| `Base64.TableIsInverted` | shared/util/Secret.cpp:74-87 | decoding a table character gives its position, in both alphabets, and none of them is padding or white space |
| `Base64.DigitsAreTheBitStream` | shared/util/Secret.cpp:46-70 | every digit is six consecutive bits of the input as one stream, zeros after its end, and there are just enough of them |
| `Base64.BlockEncode` | shared/util/Secret.cpp:46-70 | the block encoder writes the text of those digits, padded to four characters if asked |
| `Base64.BlockTurn` | authd/service/auth/SamlClient.cpp:63-88 | three bytes add the four characters of their digits |
| `Base64.StreamTurn` | collectord/service/api/ApiUtil.cpp:29-38 | a byte adds the digits it completes, overflow or not |
| `Base64.StreamEncode` | collectord/service/api/ApiUtil.cpp:24-44 | the streaming encoder writes the same text as the padded block encoder for every input |
| `Base64.Pad` | collectord/service/api/ApiUtil.cpp:41-42 | padding up to the next length divisible by four |
| `Base64.PaddedLength` | shared/util/Secret.cpp:46-70 | a padded text has four characters for each three bytes begun |
| `Base64.DecodeTurn` | authd/service/auth/OktaClient.cpp:98-104 | a digit adds the byte it completes, overflow or not |
| `Base64.Decode` | authd/service/auth/SamlClient.cpp:90-126 | each decoder fails exactly if a character before the first "=" is neither in its table nor passed over, and otherwise yields the bytes of the digits |
| `Base64.CleanedExactly` | authd/service/auth/SamlClient.cpp:110-117 | for every text: decoding fails if and only if a character before the first "=" is neither in the table nor one that this decoder passes over (none, white space, or any); otherwise its digits are those that spell the table characters before it, in order, and no others |
| `Base64.DecodedReencodes` | authd/service/auth/OktaClient.cpp:98-104 | for every sequence of digits, canonical or not: encoding what it decodes to gives all digits of whole groups back, and all but the last of an unfinished one |
| `Base64.HalfDecodedNext` | shared/util/Secret.cpp:98-104 | one more byte encoded is one more byte decoded, but for bits still missing |
| `Base64.UndigitsInvertsDigits` | shared/util/Secret.cpp:46-108 | the digits of any byte sequence decode to it |
| `Base64.RoundTrip` | authd/service/auth/OktaClient.cpp:46-107 | every decoder inverts every encoder of its alphabet, padded or not, on every input |
| `Base64.RoundTripThroughNoise` | authd/service/auth/SamlClient.cpp:104-112 | characters that a decoder skips, anywhere in the text, change nothing |
| `Secret.Encrypt` | shared/util/Secret.cpp:122-167 | a text exactly when key, nonce and library are there: the base64 of nonce, tag and ciphertext |
| `Secret.Decrypt` | shared/util/Secret.cpp:169-212 | gives `p` if and only if the text stands for a sealing of `p` under this key; everything else is rejected |
| `Secret.OpensExactly` | shared/util/Secret.cpp:178-200 | cut at 12 and 28 bytes, a blob opens to exactly the text it is the sealing of |
| `Secret.DecryptInvertsEncrypt` | shared/util/Secret.cpp:122-212 | what was encrypted, even with foreign characters mixed in, is genuine for its text and for no other |
| `Secret.SealedIsClean` | shared/util/Secret.cpp:158-166 | an encrypted text itself contains nothing that decoding skips |
| `Secret.LawsAreConsistent` | shared/util/Secret.cpp:122-212 | the laws asked of the cipher can be met |
| `Handshake.StepKeepsOrder` | authd/service/AuthdServiceManager.cpp:42-79 | events and actions leave in the order they came, each once |
| `Handshake.EventsOutrankActions` | authd/service/AuthdServiceManager.cpp:64-78 | in every run, whenever an action ran no event was waiting |
| `Handshake.DispatchedOnceInOrder` | authd/service/AuthdServiceManager.cpp:42-79 | over every run what was taken is a prefix of what was posted, and all of it once the queues are empty |
| `Handshake.PhaseClimbs` | authd/service/bootstrap/BootstrapService.cpp:61-134 | every step keeps the phase or moves it up by one; Failed is never reached |
| `Handshake.HandshakeShape` | authd/service/bootstrap/BootstrapService.cpp:141-273 | over every run the transmitted sequence is ClientHello* RuntimeReady*, and Running comes after exactly one accepted ServerHello, then one accepted RuntimeStart |
| `Handshake.SilentAfterReady` | authd/service/bootstrap/BootstrapService.cpp:201-237 | from Ready onward nothing is transmitted, whatever is queued |
| `Handshake.OtherDomainsAreServed` | authd/service/AuthdServiceManager.cpp:42-79 | in every run all that is received is posted in order, and each event of another domain that was taken has had its action queued, once and in order |
| `Handshake.StepKeepsBudget` | authd/service/bootstrap/BootstrapService.cpp:151-258 | messages sent or pending never outnumber the moments at which they fell due |
| `Handshake.StepKeepsPace` | authd/service/bootstrap/BootstrapService.cpp:71-119 | the moments lie an interval apart, the immediate first RuntimeReady included |
| `HandshakeTiming.ClientHelloRate` | authd/service/bootstrap/BootstrapService.cpp:71-101 | whatever the order of polling, timer and executor: by time t at most 1 + (t - first due) / interval ClientHellos were sent; the first falls due as the timer leaves Init |
| `HandshakeTiming.BatchSendsPending` | authd/service/bootstrap/BootstrapService.cpp:201-237 | a drained batch transmits exactly the ClientHellos that were pending, and none if it holds the ServerHello |
| `HandshakeTiming.HellosBunchIff` | authd/service/bootstrap/BootstrapService.cpp:201-237 | two leave in one batch if and only if two were pending and no answer came with them |
| `HandshakeTiming.HellosBunch` | authd/service/bootstrap/BootstrapService.cpp:71-101 | a run in which two that fell due an interval apart leave at the same time |
| `HandshakeTiming.RuntimeReadyRate` | authd/service/bootstrap/BootstrapService.cpp:103-119 | likewise for RuntimeReady, whose first falls due as the ServerHello is accepted |
| `Handshake.BatchAfterHello` | authd/service/bootstrap/BootstrapService.cpp:219-229 | waiting for the RuntimeStart, a drained batch sends a RuntimeReady exactly if one is pending and no answer waits |
| `Handshake.BatchSendsReadyIff` | authd/service/AuthdServiceManager.cpp:62-79 | a batch with the ServerHello transmits a RuntimeReady if and only if no RuntimeStart stands behind the ServerHello in it |
| `Handshake.NoReadyBeforeHello` | authd/service/bootstrap/BootstrapService.cpp:239-258 | until the ServerHello is accepted nothing of RuntimeReady is queued |
| `Handshake.BothAnswersInOneBatch` | authd/service/bootstrap/BootstrapService.cpp:239-273 | a run from the start that leaves both answers in one batch |
| `Handshake.RunningWithoutReady` | authd/service/bootstrap/BootstrapService.cpp:239-273 | that run goes on to Running without having sent a RuntimeReady |
| `HandshakeTicks.TickMoves` | authd/process/AuthdProcess.cpp:33-40 | a tick makes a message due at most once, an interval after the last time if there was one |
| `HandshakeTicks.OneSendPerTick` | authd/process/AuthdProcess.cpp:33-40 | a tick that starts with nothing waiting transmits at most one ClientHello and at most one RuntimeReady |
| `HandshakeTicks.TransmissionRate` | authd/process/AuthdProcess.cpp:33-40 | in every run of the process, transmissions stamped with the clock of their tick: by time t at most 1 + (t - first transmission) / interval, for ClientHello and for RuntimeReady |
| `HandshakeTicks.LateHello` | authd/service/bootstrap/BootstrapService.cpp:201-218 | stamped with the executor's clock, two ClientHellos one unit of the clock apart, whatever the interval of two units or more |
| `HandshakeTicks.LateReady` | authd/service/bootstrap/BootstrapService.cpp:219-229 | likewise two RuntimeReadys |
| `HandshakeTicks.LagDecides` | authd/service/bootstrap/BootstrapService.cpp:71-119 | from a transmission stamped with the executor's clock, every continuation keeps the rate if and only if it was made at the moment at which it fell due |
| `Bootstrap.AuthdServiceManager.Start` | authd/service/bootstrap/BootstrapService.cpp:50-59 | the handshake begins anew, what is queued stays |
| `Bootstrap.AuthdServiceManager.Schedule` | authd/service/AuthdServiceManager.cpp:31-40 | the timer is the Schedule step |
| `Bootstrap.AuthdServiceManager.PostEvent` | authd/service/AuthdServiceManager.cpp:42-50 | an absent event is ignored, another is queued last |
| `Bootstrap.AuthdServiceManager.BootstrapSchedule` | authd/service/bootstrap/BootstrapService.cpp:61-134 | phase, moments and the event to post follow the step function |
| `Bootstrap.AuthdServiceManager.OnServerHello` | authd/service/bootstrap/BootstrapService.cpp:239-258 | accepted only while waiting: the phase moves, the clock is read, the RuntimeReady action is queued |
| `Bootstrap.AuthdServiceManager.OnRuntimeStart` | authd/service/bootstrap/BootstrapService.cpp:260-273 | accepted only while waiting for it |
| `Bootstrap.AuthdServiceManager.HandleEvent` | authd/service/bootstrap/BootstrapService.cpp:141-199 | dispatch of an event is the step function |
| `Bootstrap.AuthdServiceManager.HandleAction` | authd/service/bootstrap/BootstrapService.cpp:201-237 | a message is transmitted only in its own phase |
| `Bootstrap.AuthdServiceManager.Turn` | authd/service/AuthdServiceManager.cpp:64-78 | one turn is the Execute step and lowers 2 * events + actions |
| `Bootstrap.AuthdServiceManager.Execute` | authd/service/AuthdServiceManager.cpp:62-79 | ends with both queues empty, having run exactly the turns of the machine |
| `ConfigDocs.WithoutExactly` | shared/config/Config.cpp:125-141 | removing a path removes what lies below it, nothing beside it, and keeps its containers |
| `ConfigDocs.RedactIsWithout` | shared/config/Config.cpp:125-141 | redaction removes the two secret paths and that is all it does |
| `ConfigDocs.RedactExactly` | shared/config/Config.cpp:125-141 | nothing at or below `pretzel.database.password` or `pretzel.console.admin` remains; every path clear of both reads as before |
| `ConfigDocs.BackFillScope` | shared/config/Config.cpp:311-369 | for every scope: which exist afterwards (a missing one exactly if its key does not begin with two slashes), which are untouched, and what an absent one becomes |
| `ConfigDocs.BackFillDomain` | shared/config/Config.cpp:330-369 | in a scope both hold as an object: existing domains unchanged, exactly the missing ones whose key does not begin with two slashes added |
| `ConfigDocs.BackFillKeepsDomains` | shared/config/Config.cpp:330-369 | every domain the active document has reads as before |
| `ConfigDocs.BackFillIsIdempotent` | shared/config/Config.cpp:311-369 | a second back-fill finds nothing to add, for all documents |
| `ConfigDocs.AbsentScopeAddedAsIsIff` | shared/config/Config.cpp:324-369 | an absent scope is added as the startup document has it if and only if it is an object there |
| `ConfigDocs.BackFillKeepsSecretsOut` | shared/config/Config.cpp:311-369 | no secret comes in with a back-fill from a redacted document |
| `ConfigStore.LatestIsLast` | shared/config/Config.cpp:102-123 | the query for the latest active row finds the last one |
| `ConfigStore.CommitKeepsInv` | shared/config/Config.cpp:400-437 | a commit, failing or not, leaves one active row with the greatest version and no secrets |
| `ConfigStore.SeedKeepsInv` | shared/config/Config.cpp:258-398 | so does a seed with its back-fill |
| `ConfigStore.RunKeepsInv` | shared/config/Config.cpp:258-437 | so does every run of seeds and commits with any failures |
| `ConfigStore.OneActiveRow` | shared/config/Config.cpp:258-437 | from empty tables: no row, or exactly one active row, of maximum version, and it is the one read |
| `ConfigStore.NoStoredSecrets` | shared/config/Config.cpp:125-141 | from empty tables: no stored document holds either secret |
| `ConfigStore.HistoryIsKept` | shared/config/Config.cpp:258-437 | no version disappears and a superseded one never changes |
| `ConfigStore.CommittedIsRead` | shared/config/Config.cpp:400-437 | a commit that takes effect, acknowledged or not, is read back redacted, one version up; any other changes nothing |
| `ConfigStore.SeedKeepsDomains` | shared/config/Config.cpp:293-378 | a seed on a table with rows adds no version and changes no domain |
| `ConfigStore.RestartsKeepDomains` | shared/config/Config.cpp:293-378 | nor does any number of restarts with any startup files |
| `ConfigStore.SeedFillsIn` | shared/config/Config.cpp:293-378 | a seed on a table with rows brings into the active document every scope and domain of the redacted startup file that is missing there and whose key does not begin with two slashes, and nothing else; versions and older rows stay |
| `ConfigStore.FirstSeed` | shared/config/Config.cpp:275-291 | the first seed of an empty table, acknowledged or not, makes the redacted startup document version 1; the back-fill then adds nothing |
| `ConfigStore.SeedIsIdempotent` | shared/config/Config.cpp:258-398 | once a seed has gone through, seeding again from the same file changes nothing, whatever fails |
| `ConfigStore.Config.LoadRunningConfigRoot` | shared/config/Config.cpp:158-190 | the latest document and version, or the startup file with version 0 |
| `ConfigStore.Config.CachedRunningConfig` | shared/config/Config.cpp:204-212 | loads once, then answers from the cache |
| `ConfigStore.Config.MissingDomains` | shared/config/Config.cpp:337-344 | the loop over domains, in any order, collects exactly the missing ones |
| `ConfigStore.Config.CollectAdditions` | shared/config/Config.cpp:314-348 | the loop over scopes, in any order, collects exactly the additions |
| `ConfigStore.Config.SeedStore` | shared/config/Config.cpp:258-398 | the statements of a seed, with any of them failing or its acknowledgement lost, are the Seed step |
| `ConfigStore.Config.CommitConfig` | shared/config/Config.cpp:400-437 | the transaction is the Commit step, with a lost acknowledgement of COMMIT answered as failure; the cache is invalidated exactly after success |
| `ConfigStore.Config.CommitThenRead` | shared/config/Config.cpp:400-449 | reading after an acknowledged commit gives the committed document, redacted, and its version; a cache that was current is stale afterwards exactly if the commit took effect unacknowledged |
| `GrpcCalls.WorkerStepKeepsInv` | mgmtd/grpc/GrpcClientHandler.cpp:404-432 | a step of one worker keeps every clause, for every other call and worker |
| `GrpcCalls.GatherKeepsInv` | mgmtd/grpc/GrpcClientHandler.cpp:197-215 | gathered text and reported text always make up all that was said |
| `GrpcCalls.ComeBackKeepsInv` | mgmtd/grpc/GrpcClientHandler.cpp:283-314 | the forced flush reports what is left, and the document then held is the one that the service's result demands |
| `GrpcCalls.ConcludeKeepsInv` | mgmtd/grpc/GrpcClientHandler.cpp:283-314 | exactly one answer, after all partial reports: the service's own document or the one in its place |
| `GrpcCalls.PopKeepsInv` | mgmtd/grpc/GrpcClientHandler.cpp:120-129 | a popped task is in one worker's hands and nowhere else |
| `GrpcCalls.ExitKeepsInv` | mgmtd/grpc/GrpcClientHandler.cpp:124-125 | a worker leaves only when stopping and the queue is empty |
| `GrpcCalls.StreamStepKeepsInv` | mgmtd/grpc/GrpcClientHandler.cpp:320-402 | a step of the stream thread keeps the flag and every clause |
| `GrpcCalls.NewCallKeepsInv` | mgmtd/grpc/GrpcClientHandler.cpp:550-595 | a call handed in is queued, refused, spawned or made to wait, and nothing else moves |
| `GrpcCalls.JoinKeepsInv` | mgmtd/grpc/GrpcClientHandler.cpp:583-590 | spawning after the join keeps at most one stream inside `runStream` |
| `GrpcCalls.DeliveryKeepsInv` | mgmtd/grpc/GrpcClientHandler.cpp:597-618 | taking and delivering keep the order of reports |
| `GrpcCalls.RunKeepsInv` | mgmtd/grpc/GrpcClientHandler.cpp:91-490 | all of it in every interleaving of loop, workers and stream threads |
| `GrpcCalls.OnePlaceOneAnswer` | mgmtd/grpc/GrpcClientHandler.cpp:103-130 | in every interleaving each unary call is queued once, held by one worker, or answered once, and never two of these |
| `GrpcCalls.TakenInOrder` | mgmtd/grpc/GrpcClientHandler.cpp:110-129 | unary calls are taken up in the order in which they were handed over |
| `GrpcCalls.NoneLeftBehind` | mgmtd/grpc/GrpcClientHandler.cpp:404-432 | a worker that left saw the stop and an empty queue; once all have left every unary call has its one answer |
| `GrpcCalls.DeliveredInOrder` | mgmtd/grpc/GrpcClientHandler.cpp:597-618 | reports reach the sink once each, in the order of reporting, with the command and ticket of their call |
| `GrpcCalls.StepRecords` | mgmtd/grpc/GrpcClientHandler.cpp:197-432 | every piece of text, every stream message and the result of every call is in the history of its call and of no other, as it came |
| `GrpcCalls.AnswerIsTheServices` | mgmtd/grpc/GrpcClientHandler.cpp:283-314 | in every interleaving the answer of a unary call is the service's document if it is not empty, else one that names its error, or the fixed text if that is empty; for a call that threw one that names what was thrown; before it come only partial texts of at least 24 characters, the last of which may be shorter |
| `GrpcCalls.CallIsPlaced` | mgmtd/grpc/GrpcClientHandler.cpp:550-595 | a cancellation leaves everything as it is; a stream is refused if and only if one is inside `runStream`; every other call is queued last |
| `GrpcCalls.CancelExactly` | mgmtd/grpc/GrpcClientHandler.cpp:381-384 | an error counts as a cancellation if and only if one of the two words occurs in it |
| `GrpcCalls.ChatIsTold` | mgmtd/grpc/GrpcClientHandler.cpp:197-215 | the partial reports of an answered call, concatenated, are all it said (a prefix if it threw), and its one answer comes last |
| `GrpcCalls.OneStreamAtATime` | mgmtd/grpc/GrpcClientHandler.cpp:571-591 | at most one stream thread is unfinished; `streaming` is up exactly from admission until `runStream` is left |
| `GrpcCalls.StreamsAreTold` | mgmtd/grpc/GrpcClientHandler.cpp:340-402 | a refused stream has exactly one report; otherwise every message of the service is reported as it came, in order, and behind them nothing if one was final, else exactly one closing report: cancelled if the error says so, else naming the error or that the stream closed; one that threw ends with one report of what was thrown |
| `GrpcCalls.FinalOfAnotherKey` | mgmtd/grpc/GrpcClientHandler.cpp:358-365 | a message whose `final` is false counts as final because of a `true` behind it |
| `GrpcCalls.FinalExactly` | mgmtd/grpc/GrpcClientHandler.cpp:358-365 | a message counts as final if and only if "final" occurs in it with a "true" anywhere behind, whatever lies between |
| `Grpc.GrpcClientHandler.constructor` | mgmtd/grpc/GrpcClientHandler.cpp:492-499 | an idle pool of at least one worker |
| `Grpc.GrpcClientHandler.Egress` | mgmtd/grpc/GrpcClientHandler.cpp:550-595 | cancel, refuse, admit, spawn or queue: the Egress step |
| `Grpc.GrpcClientHandler.JoinThenSpawn` | mgmtd/grpc/GrpcClientHandler.cpp:583-590 | the Join step |
| `Grpc.GrpcClientHandler.Poll` | mgmtd/grpc/GrpcClientHandler.cpp:597-618 | whatever the other threads do between its steps, also between the test and the take: what was done at the take, which extends what was done at the start, is delivered in order, by the Take and Deliver steps |
| `Grpc.GrpcClientHandler.PopTask` | mgmtd/grpc/GrpcClientHandler.cpp:120-129 | the next task, or the order to leave: the Pop and Exit steps |
| `Grpc.GrpcClientHandler.Flush` | mgmtd/grpc/GrpcClientHandler.cpp:200-207 | reports the gathered text if forced or if there is a batch of it |
| `Grpc.GrpcClientHandler.OnDelta` | mgmtd/grpc/GrpcClientHandler.cpp:209-211 | the Delta step |
| `Grpc.GrpcClientHandler.ClientReturns` | mgmtd/grpc/GrpcClientHandler.cpp:209-214 | the Return step, whose document `GrpcCalls.AnswerIsTheServices` pins |
| `Grpc.GrpcClientHandler.ReportAnswer` | mgmtd/grpc/GrpcClientHandler.cpp:313-314 | the Answer step |
| `Grpc.GrpcClientHandler.CatchCall` | mgmtd/grpc/GrpcClientHandler.cpp:415-430 | the Throw step |
| `Grpc.GrpcClientHandler.StopWorkers` | mgmtd/grpc/GrpcClientHandler.cpp:522-527 | the Stop step |
| `Grpc.GrpcClientHandler.RunChat` | mgmtd/grpc/GrpcClientHandler.cpp:197-215 | whatever the other threads do in between, a chat call is its Delta steps, then Return and Answer |
| `Grpc.GrpcClientHandler.OnProgress` | mgmtd/grpc/GrpcClientHandler.cpp:358-365 | the Progress step |
| `Grpc.GrpcClientHandler.EndStream` | mgmtd/grpc/GrpcClientHandler.cpp:374-402 | the StreamReturn step |
| `Grpc.GrpcClientHandler.ClearStreaming` | mgmtd/grpc/GrpcClientHandler.cpp:346-350 | the flag falls on either way out: the StreamLeave and StreamThrow steps |
| `Grpc.GrpcClientHandler.CatchStream` | mgmtd/grpc/GrpcClientHandler.cpp:328-337 | the StreamCatch step |

## Left out

- System calls: sockets, epoll, eventfd and signals are scripts of results. A receive or send script is finite, so an
  endless storm of interrupted calls is not modelled; past its end the kernel has nothing more to give or take.
- `epoll.mod` fails on unregistered descriptors only, so the branches that close a connection because re-arming failed are
  never taken; whether closing a connection releases its descriptor is not stated.
- The broker's server and handler are one object. Its events carry the frames that a drain cuts, which `BrokerStream` ties
  to the bytes; the receive ring is the `Handler` part, what lies in it between receives is not part of the broker's
  state, and its transmit rings are byte sequences.
- Of ipcd's own services the queue of posted messages and the effect of a RuntimeReady are modelled; the version its
  payload states is a parameter, and the services' answers are messages that ipcd sends at any time.
- Retries and delays of connecting (`IpcClient::init`), accept errors and allocation failures.
- Sizes are unbounded integers, except where the code relies on a width: checksum and base64 accumulators, header fields
  and generations wrap as in the code; applied versions and table versions do not.
- The commands of the wire protocol are numbers: names, categories and the warn-only routing check are not modelled.
- Lengths beyond a 32-bit int in encrypt and decrypt are not modelled.
- AES-GCM is a pair of functions that invert each other exactly; nothing is claimed about secrecy. A library call that
  fails is one flag. Loading the master key is left out.
- The handshake is authd's; the copies in other daemons are the same logic. Events of other domains post at most one
  action, and actions post nothing. The warning about a slow start only logs.
- The database keeps documents as they are given (no loss in text form), statements are atomic, and a transaction that
  does not reach its COMMIT restores the rows. The wait of a process that does not seed, other processes' commits, the
  schema's own migrations and the default administrator account are not modelled.
- Channel watch and reconnect flag of the assistant transport, the contents of its requests, and the end of its
  destructor: the stop flag is stored outside the queue's lock, so no claim is made that workers wake up.
- The sink of the assistant transport is taken as set before the first report.
- Heartbeats, reloads, HTTP, factories and the remaining routers: plumbing around the parts above.
