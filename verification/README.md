# A verified model of the lmc MQTT client

lmc is an asynchronous MQTT 3.1.1 client. A background task, the transceiver, owns the
connection: it cuts the incoming byte stream into packets, answers them, repeats what has not
been acknowledged, dispatches messages to subscriptions and writes a queue of outgoing packets.
Client handles talk to it through a command queue and a handful of locked maps, and wait for it
with futures. This project models that core and proves what its documentation promises.

The layers, from the bytes up:

- `ByteIo`, `Packets`, `RoundTrips`, `WireFormat`, `Codec`: the wire format as functions, the layout the
  standard prescribes, the cursors and encoders as the methods that fill and read buffers, and the proof
  that all of them agree.
- `Transports`, `PacketReaders`, `Outgoing`: a transport that may accept or yield any amount of
  bytes at any time, the incremental reader above it and the outgoing queue with its partially
  written packet.
- `Subscriptions`, `Topics`, `SubscriptionSets`: a subscription leaf, the matching rule, and the
  tree as an index over a flat table of patterns.
- `Protocol`, `ProtocolProofs`, `Exchange`: one incoming packet, one command and one alarm tick as functions
  on the transceiver's state, with two histories: `sent`, every packet handed to the outgoing
  queue, and `log`, every message dispatched with those who took it, every release and every
  acknowledgement that counted. `Exchange` gives the answers and effects a second time, as tables.
- `Systems`, `SystemProofs`, `FutureProofs`, `SubscribeProofs`, `SubscribeRuns`, `Owners`, `Histories`,
  `Completion`, `Answers`, `Deliveries`, `Origins`, `IdReuse`: the task together with any number of publish
  and subscribe calls; every locked section is a step, steps interleave freely, the peer sends anything,
  and the transport may fail in the middle of a step.
  The invariants hold in every reachable state.
- `EndToEnd`, `CompletedRuns`, `LostMessages`, `Channels`: two clients joined by a channel; exactly-once and
  at-least-once delivery, and why a byte stream between two transports is such a channel.
- `ClientFutures`, `Transceivers`: the classes. Each method is proved equal to the function of
  `Protocol` or the step of `Systems` it carries out, on success and on failure, so the theorems
  over runs speak about them.

Main results:

- Exactly once: in every interleaving of two clients, whatever is delayed, repeated or cut short by
  an I/O error, a QoS 2 message is dispatched at most once (`EndToEnd.AtMostOnce`). When
  `publish_qos_2` reports success, the message with the arguments of that call has been handed to its
  subscribers exactly once, if and only if no step of the receiver was cut short while it answered the
  first transmission of that message (`EndToEnd.ExactlyOnce`; `EndToEnd.AtLeastOnce` for
  `publish_qos_1`). `CompletedRuns.CompletesEndToEnd` is such a run from the subscription to the success.
- Subscribers: those who take a message are exactly those that can take it and have subscribed with a
  pattern that matches its topic and not left since (`Deliveries.TakersExactly`), where joining is a granted
  SUBACK or a shared subscription, and leaving is a closed queue found by a message, an unsubscription
  or the removal of the callback (`Deliveries.HeldExactly`).
- Answers: every packet has exactly the effect that the tables of section 4.3 of MQTT 3.1.1 give it
  (`Exchange.PacketExact`), and over a whole run PUBACK and PUBCOMP go out exactly as often as they are
  asked for (`Answers.EveryAnswerOnce`).
- The bytes on the wire are the only ones the layout of MQTT 3.1.1 allows (`WireFormat.WireLayout`,
  `WireFormat.ImageUnique`).
- Conservation on the way out: bytes accepted, then the rest of the packet in transmission, then
  the queue are always the concatenated images of everything enqueued (`Outgoing.TxQueue`), and
  the reader at the other end recovers exactly those packets (`Channels.ChannelIsFaithful`).
- The subscription tree delivers what testing every stored pattern would deliver
  (`SubscriptionSets.DispatchRefinesLinearScan`).
- A publish call that awaits PUBACK or PUBREC reports success only if that packet was processed after
  the call registered and while the call's own message was in flight (`Completion.SuccessIsEarned`).
  For PUBCOMP that is not so. Before it a PUBREC found the call's own message in flight if and only if
  the message was handed over, is no longer in flight, and was not taken out by a PUBACK
  (`Completion.CompletionIsEarned`).
- Wake-ups: the waker of a pending publish future is in its map or taken for waking
  (`FutureProofs.EveryRunFutures`). That of a subscribe future that waits in its own slot is in the slot
  while the list is there and taken for waking when it is gone, except if the slot was stolen or the
  list thrown away; then it is lost for good (`SubscribeProofs.EveryRunWaits`,
  `SubscribeProofs.LostForever`).
- After an I/O error half-way through a packet, and the DISCONNECT behind it, the peer still reads the
  first packets sent and then at most DISCONNECT (`Channels.FailureIsFaithful`).
- Any two allocations of packet identifiers, in a run of any length, give the same identifier exactly
  if their distance is a multiple of 65536 (`SystemProofs.AllocationsDistinct`).

Where the code does not do what one would expect, the model follows the code and says exactly when:

- `get` on the tree is documented to fail for invalid patterns. It fails exactly when the nodes
  before the first misplaced `#` exist; `a/#/b` in an empty tree is not reported
  (`SubscriptionSets.ErrExactly`, `SubscriptionSets.InvalidYetNotReported`).
- The single-level wildcard is `*`, and `a/#` does not match `a`; section 4.7.1 of MQTT 3.1.1
  differs on both (`Topics.MatchesPositionwise`).
- Four length bytes that all have the continuation bit leave the reader without progress, and the
  read loop around it without end (`PacketReaders.StuckExactly`, `PacketReaders.ContinuationSticks`,
  `PacketReaders.DrainReads`); no well-formed stream leads there (`PacketReaders.EmitsTheStream`).
- A publish is answered before it is dispatched. If the answer's bytes are out and the flush behind them
  fails, the message is lost and its sender reports success (`LostMessages.SucceedsThoughLost`). The
  transport's trait allows that; the TCP transport's flush never fails, and the TLS one's is that of
  its library.
- A PUBREC that answers nothing is answered with a PUBREL all the same, and a PUBCOMP for it completes the
  call that waits (`Completion.ReleaseCompletes`). So a call can be completed whose message was never
  sent, is still in flight, or was taken out by a PUBACK (`Completion.NeverSentYetComplete`,
  `Completion.InFlightYetComplete`, `Completion.AckedYetComplete`).
- A send that fails leaves none of the packet out, or all of it if only the flush failed, or the altered
  first byte alone if it carries DUP (`Outgoing.TxQueue.TrySendPacket`). The task still writes DISCONNECT
  behind that. What the peer sees then is a prefix of the stream exactly if no byte of DISCONNECT was
  taken, or nothing else was due before it, or the packet happens to go on like DISCONNECT
  (`Outgoing.TxQueue.SendDisconnect`).
- The shutdown fails every waiting publish future, except when the connection was closed by the
  peer or the future was registered after its map had been failed; those wait forever
  (`FutureProofs.ShutdownExactly`, with runs that reach both cases).
- It also wakes every subscribe future that still has its waker, except those the peer's closing leaves
  behind and those whose list was made after the map had been drained
  (`SubscribeProofs.SubscribersAtEnd`, with runs that reach both cases); they wait forever
  (`SubscribeProofs.VainStays`).
- A subscribe future remembers a slot in a list of wakers. After a refusal and a new attempt for the
  same topic the list is another one and the slot is stale. If it is outside the new list, polling or
  dropping the old future indexes out of bounds (`SubscribeRuns.SlotGoesStale`, and never otherwise:
  `SubscribeProofs.PanicsOnlyIfStale`). If it is within, it is the slot of another future, and polling or
  dropping loses that one's waker (`SubscribeProofs.TheftLosesWaker`, `SubscribeRuns.SlotIsStolen`).
- An immediate unsubscription removes the entry of its topic whatever it holds. It throws away a list of
  wakers exactly if the tree has the topic as subscribed and the map has it as awaited
  (`SubscribeProofs.DiscardsExactly`), and the wakers are lost (`SubscribeProofs.DiscardLosesWakers`,
  `SubscribeRuns.ListIsThrownAway`).
- Packet identifiers come from a wrapping 16-bit counter without regard to what is in flight.
  Theorems that need distinct identifiers are about runs with at most 65536 allocations; a command
  that meets its own identifier in flight displaces that packet (`ProtocolProofs.PublishKeepsFlight`,
  `IdReuse.FlightIsDisplaced`).

## Model

| member | source | states |
|---|---|---|
| `ByteIo.TakeU16Inverts` | src/transceiver/byte_io.rs:69-72 | reading a 16-bit word at the front undoes writing it, for every continuation |
| `ByteIo.TakeByteArrayInverts` | src/transceiver/byte_io.rs:79-91 | the same for a length-prefixed array |
| `ByteIo.TakeUtf8Inverts` | src/transceiver/byte_io.rs:98-102 | the same for a length-prefixed string of valid UTF-8 |
| `ByteIo.ByteReader.ReadU8` | src/transceiver/byte_io.rs:52-62 | takes one byte off the slice or reports that none is left, leaving the slice alone |
| `ByteIo.ByteReader.ReadU16` | src/transceiver/byte_io.rs:69-72 | takes a big-endian word; what is consumed when only one byte is left |
| `ByteIo.ByteReader.ReadByteArray` | src/transceiver/byte_io.rs:79-91 | takes a length and that many bytes, or the error of the first part that is missing; a length without its array has been consumed |
| `ByteIo.ByteReader.ReadUtf8` | src/transceiver/byte_io.rs:98-102 | as above, with the error for bytes that are not UTF-8, which have been consumed then |
| `ByteIo.ByteReader.ReadRemaining` | src/transceiver/byte_io.rs:138-141 | returns everything left and leaves nothing |
| `ByteIo.ByteWriter.WriteU8` | src/transceiver/byte_io.rs:218-226 | the bytes written so far grow by this byte, the rest of the buffer is untouched |
| `ByteIo.ByteWriter.WriteU16` | src/transceiver/byte_io.rs:230-233 | they grow by the big-endian word, the rest is untouched |
| `ByteIo.ByteWriter.WriteBytes` | src/transceiver/byte_io.rs:240-264 | they grow by the length prefix and the bytes, the rest is untouched |
| `ByteIo.ByteWriter.WriteBytesNoLen` | src/transceiver/byte_io.rs:274-291 | they grow by the bytes, the rest is untouched |
| `RoundTrips.ParseInvertsLength` | src/transceiver/packets.rs:145-159 | parsing the length field gives back every size, wherever it stands in a buffer |
| `RoundTrips.ProperPrefixIncomplete` | src/transceiver/packet_reader.rs:88-117 | every proper prefix of a length field asks for more |
| `RoundTrips.LengthFieldSize` | src/transceiver/packets.rs:145-159 | sizes below 2^28 take at most four bytes |
| `RoundTrips.PublishRoundTrip` | src/transceiver/packets.rs:784-813 | decoding the body and flags of a publish gives back the message with no bytes left |
| `RoundTrips.PublishDecodeSound` | src/transceiver/packets.rs:784-813 | conversely, whatever decodes is the image of the message it decodes to |
| `RoundTrips.ConnectRoundTrip` | src/transceiver/packets.rs:454-494 | the same round trip for CONNECT with every combination of optional fields |
| `RoundTrips.SubscribeRoundTrip` | src/transceiver/packets.rs:977-1002 | for SUBSCRIBE with any list of filters |
| `RoundTrips.UnsubscribeRoundTrip` | src/transceiver/packets.rs:1186-1203 | for UNSUBSCRIBE with any list of topics |
| `RoundTrips.SubAckRoundTrip` | src/transceiver/packets.rs:1079-1107 | for SUBACK with any result list, inline or in a vector |
| `RoundTrips.ReplyRoundTrip` | src/transceiver/packets.rs:513-554 | for CONNACK with every reply |
| `RoundTrips.IdRoundTrip` | src/transceiver/packets.rs:871-922 | for the packets that carry an identifier only |
| `RoundTrips.ClientRoundTrip` | src/transceiver/packets.rs:69-75 | the control byte selects the decoder that inverts the encoder, for every packet a broker may send |
| `RoundTrips.BrokerRoundTrip` | src/transceiver/packets.rs:116-143 | and for every packet a client may send |
| `RoundTrips.DupImage` | src/transceiver/mod.rs:437-461 | or-ing DUP into the first byte gives the image of the same message with its dup flag set |
| `WireFormat.WireLayout` | src/transceiver/packets.rs:241-262 | the image of every packet, byte by byte: the control byte of tables 2.1 and 2.2 of MQTT 3.1.1 as a literal (for PUBLISH bit by bit), the remaining length, and the variable header and payload of chapter 3 |
| `WireFormat.ImageUnique` | src/transceiver/packets.rs:241-262 | no other bytes have that layout |
| `WireFormat.LengthIsBase128` | src/transceiver/packets.rs:145-159 | the length field is the size in base 128, least significant digit first, with the continuation bit on every byte but the last and no byte too many |
| `WireFormat.ConnectLayout` | src/transceiver/packets.rs:369-421 | protocol name and level, each flag bit at its place, keep-alive, then identifier, will, user name and password in this order |
| `WireFormat.IdImage` | src/transceiver/packets.rs:903-922 | the four bytes of PUBACK, PUBREC, PUBREL, PUBCOMP and UNSUBACK in full |
| `Codec.EncodePacketSize` | src/transceiver/packets.rs:145-159 | the loop writes the length field at the given place and returns its size |
| `Codec.ComputeSize` | src/transceiver/packets.rs:218-224 | the computed size is the length of the encoded body, for every packet type |
| `Codec.SubscribeSize` | src/transceiver/packets.rs:939-949 | its summing loop for SUBSCRIBE |
| `Codec.UnsubscribeSize` | src/transceiver/packets.rs:1149-1158 | its summing loop for UNSUBSCRIBE |
| `Codec.ConnectSize` | src/transceiver/packets.rs:349-367 | its sum over the optional fields of CONNECT |
| `Codec.EncodeConnect` | src/transceiver/packets.rs:369-422 | writes the body of CONNECT and nothing else |
| `Codec.EncodePublish` | src/transceiver/packets.rs:678-688 | writes the body of PUBLISH |
| `Codec.EncodeSubscribe` | src/transceiver/packets.rs:951-961 | its loop writes the body of SUBSCRIBE |
| `Codec.EncodeUnsubscribe` | src/transceiver/packets.rs:1160-1170 | its loop writes the body of UNSUBSCRIBE |
| `Codec.EncodeSubAck` | src/transceiver/packets.rs:1119-1131 | its loop writes the body of SUBACK |
| `Codec.Encode` | src/transceiver/packets.rs:226-234 | for every packet the writer grows by exactly the body, and the flags are returned: 2 for PUBREL, SUBSCRIBE and UNSUBSCRIBE, those of the message for PUBLISH, 0 for any other |
| `Codec.MakePacket` | src/transceiver/packets.rs:241-265 | the finished buffer is the wire image: size, header and body agree, so no writer assertion fires and no byte stays unwritten |
| `Codec.FromBytes` | src/transceiver/packets.rs:69-75 | the cursor-driven decoder returns what the decoding function returns, errors included |
| `Codec.ReadPublish` | src/transceiver/packets.rs:784-813 | the same for PUBLISH |
| `Codec.ParseStatic` | src/transceiver/packets.rs:1086-1093 | few results fill a fixed array and leave its rest refused |
| `Codec.ParseDynamic` | src/transceiver/packets.rs:1094-1101 | many results fill a vector |
| `Codec.ReadSubAck` | src/transceiver/packets.rs:1081-1105 | the cursor-driven SUBACK decoder agrees with the decoding function |
| `Codec.ReadFilters` | src/transceiver/packets.rs:979-1001 | the filter loop of a SUBSCRIBE decoder agrees with it |
| `Codec.ReadTopics` | src/transceiver/packets.rs:1188-1202 | the topic loop of an UNSUBSCRIBE decoder agrees with it |
| `Transports.Transport.Write` | src/transport.rs:69-77 | accepts any prefix, or fails without accepting anything; with the flag set it does not block |
| `Transports.Transport.Read` | src/transport.rs:57-62 | yields any non-empty prefix of what is there, nothing when closed, or fails without taking anything |
| `PacketReaders.ParsePacketSize` | src/transceiver/packet_reader.rs:88-117 | the loop computes the packet size the length field stands for |
| `PacketReaders.ParseSizeStable` | src/transceiver/packet_reader.rs:88-117 | once readable, the size does not depend on the bytes that follow |
| `PacketReaders.FrameIsLocal` | src/transceiver/packet_reader.rs:121-183 | cutting a whole packet off a buffer keeps its size |
| `PacketReaders.SizeLimitUnreachable` | src/transceiver/packet_reader.rs:111-114 | with the at most five bytes the reader holds when it parses, the maximum-size error cannot occur |
| `PacketReaders.SplitInvertsFlatten` | src/transceiver/packet_reader.rs:121-183 | splitting a concatenation of packets gives back those packets |
| `PacketReaders.WireIsFrame` | src/transceiver/packet_reader.rs:121-183 | every wire image is one packet of the stream and decodes to what was encoded |
| `PacketReaders.PacketReader.RecvN` | src/transceiver/packet_reader.rs:57-77 | appends what the transport yields to the buffer; which outcome means what |
| `PacketReaders.PacketReader.Recv` | src/transceiver/packet_reader.rs:121-183 | bytes read are the packets emitted and then the buffer; a packet handed over is the decoding of the one cut off; every other outcome leaves no whole packet waiting; what progress each outcome makes |
| `PacketReaders.ReaderRefinesSplit` | src/transceiver/packet_reader.rs:121-183 | the incremental reader has cut out what splitting the whole stream at once gives |
| `PacketReaders.ChunkingIndependence` | src/transceiver/packet_reader.rs:121-183 | two readers that saw the same bytes in different portions have the same packets and buffer |
| `PacketReaders.EmitsTheStream` | src/transceiver/packet_reader.rs:121-183 | on a stream of well-formed packets the reader emits a prefix of them, all of them in the end, and never gets stuck |
| `PacketReaders.EmitsBefore` | src/transceiver/packet_reader.rs:121-183 | with bytes behind them that are no packet, it emits those packets and no others |
| `PacketReaders.StuckExactly` | src/transceiver/packet_reader.rs:168-183 | the reader makes no progress exactly when its five-byte buffer is all continuation bytes |
| `PacketReaders.ContinuationSticks` | src/transceiver/packet_reader.rs:168-183 | five such bytes after any packets lead every reader there, however they were cut |
| `PacketReaders.ReadContinuation` | src/transceiver/packet_reader.rs:168-183 | a new reader that has taken them is there |
| `PacketReaders.DrainReads` | src/transceiver/mod.rs:552-559 | the inner read loop on any stream: it ends and hands over the packets cut out, in order, or it comes to the state without progress; on well-formed packets it never does |
| `Outgoing.TxQueue.WriteFirst` | src/transceiver/mod.rs:437-450 | what the transport takes is a prefix of the image, with the altered first byte sent on its own; a failure leaves nothing out, or that byte alone |
| `Outgoing.TxQueue.TrySendPacket` | src/transceiver/mod.rs:437-461 | accepted bytes and the kept rest make up the image; a failure leaves none, all, or with DUP one byte of it out, and keeps nothing |
| `Outgoing.TxQueue.QueueInternalPacket` | src/transceiver/mod.rs:466-478 | keeps the account of packets and bytes, their order, and that nothing is queued behind an empty slot; a failure leaves the slot and the queue empty and says how much of this packet is out |
| `Outgoing.TxQueue.AccountedMeansConserved` | src/transceiver/mod.rs:437-528 | accepted bytes, then the rest of the current packet, then the queue are the stream of everything enqueued |
| `Outgoing.TxQueue.SendDisconnect` | src/transceiver/mod.rs:658-665 | DISCONNECT in any state a failure leaves: behind a failed packet it goes out at once, and the stream is still a prefix exactly in the stated case; behind a packet in transmission it waits |
| `Outgoing.TxQueue.ClearTxPacket` | src/transceiver/mod.rs:483-496 | goes through the queue until a packet stays; the account is kept, or a packet has failed as above |
| `Outgoing.TxQueue.WriteNext` | src/transceiver/mod.rs:501-513 | continues at the right byte, with DUP only on the first |
| `Outgoing.TxQueue.ContinueWritingPacket` | src/transceiver/mod.rs:501-528 | the loop ends; "nothing left" means that everything enqueued has been accepted; after an error the state is good, stalled behind a flush, or one in which a packet failed; in any case the peer has seen a prefix of the stream |
| `Subscriptions.PruneTestsEachOnce` | src/transceiver/subscription.rs:37-48 | in-place pruning calls its predicate exactly once per element |
| `Subscriptions.PruneExact` | src/transceiver/subscription.rs:37-48 | and keeps exactly the elements it is false for, with multiplicity |
| `Subscriptions.Prune` | src/transceiver/subscription.rs:37-48 | the loop with swap-remove does that |
| `Subscriptions.LeafDispatchExact` | src/transceiver/subscription.rs:57-70 | who receives a message and which closed queues are dropped, each counted |
| `Subscriptions.LeafHandsOut` | src/transceiver/subscription.rs:57-70 | every recipient of a leaf gets a message once per registration exactly if it can take it, and is dropped exactly if its queue is closed |
| `Subscriptions.DispatchKeepsLeafValid` | src/transceiver/subscription.rs:57-70 | a dispatch keeps callbacks sorted and an unsubscribed leaf empty |
| `Subscriptions.DispatchLeaf` | src/transceiver/subscription.rs:57-70 | the method form of it |
| `Subscriptions.BinarySearch` | src/transceiver/subscription.rs:72-93 | finds the identifier, or the one place where it can be inserted |
| `Subscriptions.AddFastCallback` | src/transceiver/subscription.rs:72-84 | keeps the list sorted and adds exactly this identifier |
| `Subscriptions.RemoveFastCallback` | src/transceiver/subscription.rs:86-93 | keeps it sorted and removes exactly this identifier |
| `Subscriptions.SameSorted` | src/transceiver/subscription.rs:72-93 | so the result is determined by the set alone |
| `Subscriptions.Add` | src/transceiver/subscription.rs:98-106 | the leaf holds the recipient of the given kind once more, a callback just once, and everyone else as before |
| `Subscriptions.AddedGains` | src/transceiver/subscription.rs:98-106 | the same of the function, for every valid leaf |
| `Subscriptions.WithoutLoses` | src/transceiver/subscription.rs:86-91 | removing a callback takes out this one and nobody else |
| `Topics.Slice` | src/transceiver/subscription.rs:139-157 | the head has no slash, and head and tail make up the path |
| `Topics.JoinInvertsLevels` | src/transceiver/subscription.rs:139-157 | joining the levels gives back the topic |
| `Topics.LevelsInvertsJoin` | src/transceiver/subscription.rs:139-157 | and the levels of a joined list are that list |
| `Topics.MatchesPositionwise` | src/transceiver/subscription.rs:187-211 | the matching rule without recursion: which patterns match which topics |
| `SubscriptionSets.VisitedExact` | src/transceiver/subscription.rs:199-211 | a dispatch reaches a leaf if and only if its pattern matches, and reaches it once |
| `SubscriptionSets.DispatchDelivers` | src/transceiver/subscription.rs:199-211 | its recipients are those of the leaves reached, in that order |
| `SubscriptionSets.DispatchUpdates` | src/transceiver/subscription.rs:187-211 | leaves that match lose their closed queues, all others are untouched |
| `SubscriptionSets.DispatchRefinesLinearScan` | src/transceiver/subscription.rs:245-249 | the tree delivers what testing every pattern of the table delivers, and represents the table that test leaves |
| `SubscriptionSets.DispatchHandsOut` | src/transceiver/subscription.rs:187-249 | a dispatch hands the message to each recipient as often as the matching leaves hold it, and exactly the matching leaves lose exactly their closed queues |
| `SubscriptionSets.HandedOutMeans` | src/transceiver/subscription.rs:187-249 | someone is among the takers if and only if it can take the message and some matching leaf holds it |
| `SubscriptionSets.GrowIsInvisible` | src/transceiver/subscription.rs:256-284 | creating nodes, even along an invalid path, changes no leaf and no dispatch; a pattern gets a leaf if and only if it is valid |
| `SubscriptionSets.SetLeafLocal` | src/transceiver/subscription.rs:256-284 | writing through the returned reference changes that leaf and no other |
| `SubscriptionSets.ErrExactly` | src/transceiver/subscription.rs:295-327 | `get` fails if and only if the nodes before a misplaced `#` exist |
| `SubscriptionSets.InvalidYetNotReported` | src/transceiver/subscription.rs:311-314 | an invalid pattern for which `get` returns nothing instead of failing |
| `SubscriptionSets.GetFindsTable` | src/transceiver/subscription.rs:295-327 | what `get` finds is the table's entry |
| `SubscriptionSets.SubscriptionSet.Dispatch` | src/transceiver/subscription.rs:245-249 | the method keeps the tree valid and delivers as every listing of the table would |
| `SubscriptionSets.SubscriptionSet.DispatchBelow` | src/transceiver/subscription.rs:199-211 | its recursion over nodes |
| `SubscriptionSets.SubscriptionSet.DispatchChild` | src/transceiver/subscription.rs:187-194 | and over entries |
| `SubscriptionSets.SubscriptionSet.Get` | src/transceiver/subscription.rs:295-327 | the loop returns the leaf or the failure above |
| `SubscriptionSets.SubscriptionSet.GetOrCreate` | src/transceiver/subscription.rs:256-284 | fails exactly for invalid patterns and changes neither table nor dispatch |
| `SubscriptionSets.SubscriptionSet.Clear` | src/transceiver/subscription.rs:338-350 | empties a subscribed leaf and says so; otherwise nothing changes |
| `ProtocolProofs.OnPacketFlight` | src/transceiver/mod.rs:263-427 | an incoming packet keeps: everything in flight has a timeout entry and was sent, entries are ordered in time, only publishes that were sent before carry DUP |
| `ProtocolProofs.OnCommandFlight` | src/transceiver/mod.rs:563-610 | so does a command |
| `ProtocolProofs.OnAlarmFlight` | src/transceiver/mod.rs:612-649 | so does an alarm tick |
| `ProtocolProofs.OnPacketCutFlight` | src/transceiver/mod.rs:353-414 | so does a packet whose answer fails half-way |
| `ProtocolProofs.AlarmExact` | src/transceiver/mod.rs:612-649 | a tick in closed form: a ping if it is due, the due front of the queue is taken, each packet still in flight is sent again once and requeued, the rest is untouched |
| `ProtocolProofs.AlarmCutExact` | src/transceiver/mod.rs:612-649 | a tick that fails at its n-th turn in closed form: what was sent, and that all entries but the last are back |
| `ProtocolProofs.TakenExactlyExpired` | src/transceiver/mod.rs:622-647 | with a monotone clock every entry that was due at the start is taken, and none that is not due when looked at |
| `ProtocolProofs.OnPacketReceiver` | src/transceiver/mod.rs:347-414 | an identifier is being answered if and only if its message was delivered and not released, and no message is delivered while its identifier is open |
| `ProtocolProofs.ReleaseBetweenDeliveries` | src/transceiver/mod.rs:359-414 | hence between two deliveries with one identifier there is a PUBREL |
| `ProtocolProofs.OpenMeans` | src/transceiver/mod.rs:359-414 | what being open means in terms of the history |
| `ProtocolProofs.PublishAlwaysAnswered` | src/transceiver/mod.rs:359-375 | every QoS 2 publish, repeated or not, is answered with PUBREC, and dispatched exactly if its identifier is not open |
| `ProtocolProofs.SubscribedTree` | src/transceiver/mod.rs:290-297 | a granted subscription: the leaf of the topic is subscribed and has the recipient of the request, every other leaf is untouched |
| `Exchange.PacketExact` | src/transceiver/mod.rs:278-423 | once connected, every packet: the answer the table of section 4.3 of MQTT 3.1.1 gives, handed over once without DUP; what is kept and what goes out of flight; whom an acknowledgement wakes; who is handed a message; what a SUBACK decides; and that nothing else changes |
| `Exchange.FirstPacketExact` | src/transceiver/mod.rs:265-276 | the first packet: a CONNACK decides as it says, anything else is a protocol error; the task stops exactly if it was refused |
| `Exchange.CutExact` | src/transceiver/mod.rs:351-413 | a step cut short at its answer: the answer was handed over, and of the rest only what the code does before it |
| `Exchange.PublishExact` | src/transceiver/mod.rs:565-570 | a publish command hands its message over as it is; above QoS 0 it is kept under its identifier, with a timeout if that is new |
| `Exchange.SubscribeExact` | src/transceiver/mod.rs:571-594 | a subscribe command: a subscribed pattern gets the recipient and nothing is sent; otherwise one SUBSCRIBE with that topic and quality of service, kept with topic and recipient under the identifier taken; nothing for a pattern found invalid |
| `Exchange.RemoveCallbackExact` | src/transceiver/mod.rs:596-600 | exactly this callback goes, from exactly this leaf, and nothing is sent |
| `Exchange.UnsubscribeExact` | src/transceiver/mod.rs:601-605 | a subscribed leaf becomes empty, the shared entry goes, and one UNSUBSCRIBE with that topic is sent and kept; any other unsubscription does nothing |
| `ProtocolProofs.PublishKeepsFlight` | src/transceiver/mod.rs:225-234 | a publish command leaves all packets in flight in place if and only if its identifier is free |
| `IdReuse.FlightIsDisplaced` | src/transceiver/mod.rs:225-234 | a run in which a publish takes the identifier of one that is unacknowledged and displaces it |
| `ProtocolProofs.OnPacketAgreement` | src/transceiver/mod.rs:280-346 | for valid patterns, a subscription the clients see as existing has a subscribed leaf, and an unsubscribed leaf has no recipients |
| `ProtocolProofs.OnCommandAgreement` | src/transceiver/mod.rs:571-606 | commands keep that |
| `SystemProofs.EveryRunTask` | src/transceiver/mod.rs:746-760 | in every reachable state, against any peer: packets have the shape of their key and were sent, messages are delivered once for each release, clients and tree agree; and until a step is cut short, everything in flight will be repeated and the identifiers being answered are those delivered and not released |
| `SystemProofs.EveryRunCounts` | src/shared.rs:85 | in every run of any length the counter is what the number of allocations makes it |
| `SystemProofs.AllocationsDistinct` | src/shared.rs:85 | any two allocations of any run, by clients or by the task: the same identifier exactly if a multiple of 65536 lies between them; which ones give the invalid zero |
| `SystemProofs.EveryRunIds` | src/lib.rs:367-381 | in every run with at most 65536 allocations, identifiers of calls, commands, packets sent and packets in flight are kept apart |
| `SystemProofs.OnlyNewPackets` | src/transceiver/mod.rs:225-234 | in every run up to the 65536th allocation, no command meets a packet in flight with its identifier, so the "only new packets" branch is not reached |
| `FutureProofs.EveryRunFutures` | src/futures.rs:52-105 | in every such run: success only after the acknowledgement, entries exactly until then, the last waker in the map or taken for waking, failure exactly after the cleanup |
| `FutureProofs.AckedMeans` | src/transceiver/mod.rs:378-421 | an acknowledgement counts if and only if that packet arrived while the packet it answers was in flight, and it takes that one out |
| `FutureProofs.PollAfterAck` | src/futures.rs:68-94 | a poll after the acknowledgement reports success |
| `FutureProofs.PollLeavesFreshWaker` | src/futures.rs:68-94 | a pending poll leaves its own waker behind |
| `FutureProofs.CleanupWakesAll` | src/transceiver/mod.rs:795-809 | in every run, whatever waker is stored in one of the four maps when the cleanup reaches it has been woken when the task is over, whatever the clients do meanwhile |
| `FutureProofs.ShutdownExactly` | src/transceiver/mod.rs:775-815 | in every reachable state after the task, a poll fails if and only if the end was not a closed connection and the registration was not late: exactly whom the end of the task releases |
| `FutureProofs.ClosedConnectionHangs` | src/transceiver/mod.rs:778-781 | a run in which the peer closes and a publish waits forever |
| `FutureProofs.LateRegistrationHangs` | src/transceiver/mod.rs:795-808 | a run in which a registration after the failing of its map waits forever |
| `FutureProofs.HungStays` | src/transceiver/mod.rs:775-815 | nothing but dropping it ends such a wait |
| `SubscribeProofs.EveryRunWaits` | src/futures.rs:139-198 | in every reachable state: the last waker of a future that waits in its own slot is in that slot while the list is there and taken for waking when it is gone; it is lost exactly if the slot was stolen since or the list thrown away; no two futures share a slot of a list, and no waker is in two places |
| `SubscribeProofs.SubscribersAtEnd` | src/transceiver/mod.rs:775-815 | after the task such a waker has been woken exactly if its list is gone, was not thrown away, and the slot was not stolen; after a regular end the list is there exactly if it was made after the drain |
| `SubscribeProofs.VainStays` | src/futures.rs:139-198 | a future whose list outlived the task waits whatever happens, until it is dropped, and nothing is woken any more |
| `SubscribeRuns.ClosedSubscriberHangs` | src/transceiver/mod.rs:778-781 | a run in which the peer closes and a subscribe call waits forever |
| `SubscribeRuns.LateSubscriberHangs` | src/transceiver/mod.rs:801-809 | a run in which a subscribe call begun after the drain waits forever |
| `SubscribeProofs.PanicsOnlyIfStale` | src/futures.rs:169-170 | in every run, a remembered slot is outside the list only if it belongs to an older list |
| `SubscribeRuns.SlotGoesStale` | src/futures.rs:169-170 | a run after which polling or dropping a waiting future indexes out of bounds |
| `SubscribeProofs.TheftLosesWaker` | src/futures.rs:169-192 | in every run, polling or dropping at a stale slot within the list takes the waker that was there out of the system |
| `SubscribeProofs.DiscardsExactly` | src/transceiver/mod.rs:252-254 | a command throws a list of wakers away exactly if it is an immediate unsubscription of a topic with a subscribed leaf and an awaited entry |
| `SubscribeProofs.DiscardLosesWakers` | src/transceiver/mod.rs:252-254 | then every waker of that list is neither stored nor taken any more |
| `SubscribeProofs.LostForever` | src/futures.rs:139-198 | along every run such a waker stays lost |
| `SubscribeProofs.SubscribeIsEarned` | src/transceiver/mod.rs:280-346 | in every run, a subscribe future that reports success was granted that quality of service by a SUBACK processed while the request for its topic was pending |
| `Owners.EveryEntryIsOwned` | src/futures.rs:97-198 | in every run, every entry of a notifier map that has not been failed and every waker in a list belongs to a call that is still waiting for it: dropped and resolved futures leave nothing behind |
| `SubscribeRuns.SlotIsStolen` | src/futures.rs:169-170 | a run in which a waiting future loses its waker so |
| `SubscribeRuns.ListIsThrownAway` | src/transceiver/mod.rs:252-254 | a run in which an unsubscription removes a list with a waker in it |
| `Histories.EveryRunHistory` | src/transceiver/mod.rs:437-461 | every copy of a publish handed to the queue has the content of its call |
| `Histories.EveryRunNoDisconnect` | src/transceiver/mod.rs:746-760 | while the task runs, DISCONNECT has not been sent |
| `Answers.EveryAnswerOnce` | src/transceiver/mod.rs:354-413 | in every run, PUBACK and PUBCOMP of an identifier have been handed over exactly as often as a QoS 1 message or PUBREL with it was processed |
| `Answers.EveryAnswerAtLeastOnce` | src/transceiver/mod.rs:359-395 | the same for PUBREC and PUBREL, with at least |
| `Answers.EveryRunGoodbye` | src/transceiver/mod.rs:655-664 | in every run, a task that stopped on an answered connection has sent DISCONNECT once, as its last packet; no other has |
| `Deliveries.EveryDelivery` | src/transceiver/mod.rs:347-377 | in every run, every message in the log was put there by its arrival, and was handed to exactly the recipients the leaves matching its topic held then |
| `Deliveries.HoldsStep` | src/transceiver/mod.rs:276-605 | any step changes whom a leaf holds exactly by joining and leaving |
| `Deliveries.HeldExactly` | src/transceiver/mod.rs:276-605 | in every run a leaf holds exactly those who have joined and not left since |
| `Deliveries.TakersExactly` | src/transceiver/subscription.rs:245-249 | the takers of a message are exactly those who could take it and had joined, with a pattern that matches its topic, and not left |
| `Origins.CallOrigin` | src/lib.rs:367-381 | in every run the message of a call has the topic, payload, quality of service and retain flag its caller passed, no DUP, and the identifier taken then (0 for QoS 0) |
| `Origins.RequestOrigin` | src/transceiver/mod.rs:252-260 | in every run every SUBSCRIBE in flight is that of a command: its topic, quality of service and recipient under the identifier taken, handed over then; and every UNSUBSCRIBE that of its command |
| `Origins.CommandsInOrder` | src/transceiver/mod.rs:561-608 | commands are obeyed in the order they are issued, none lost and none twice |
| `Completion.SuccessIsEarned` | src/lib.rs:447-498 | in every such run, a call that awaits PUBACK or PUBREC and reported success had that packet processed after its registration, while its own message was in flight |
| `Completion.CompletionIsEarned` | src/lib.rs:479-498 | a call that awaits PUBCOMP and reported success had a PUBCOMP after its registration; before any such PUBCOMP a PUBREC found its own message in flight if and only if the message was handed over, is not in flight, and no PUBACK took it out; and so it was if every PUBREC answered something |
| `Completion.ReceivedExactly` | src/transceiver/mod.rs:378-407 | in every such run, for every identifier: before a packet comes in, a PUBREC has found the publish exactly under that condition |
| `Completion.SpentExactly` | src/transceiver/mod.rs:378-407 | while the task runs, a publish is handed over and not in flight exactly if a PUBACK or PUBREC found it |
| `Completion.SpentOnce` | src/transceiver/mod.rs:378-407 | and only one of them ever does |
| `Completion.ReleaseCompletes` | src/transceiver/mod.rs:415-421 | in every reachable state, a PUBCOMP for a PUBREL in flight makes the waiting call report success, whatever brought the PUBREL there |
| `Completion.UnsolicitedCompletes` | src/transceiver/mod.rs:385-421 | in every reachable state with such a call whose message has not been handed over, a PUBREC and a PUBCOMP make it report success |
| `Completion.NeverSentYetComplete` | src/transceiver/mod.rs:385-421 | a run that does so with a message never handed over |
| `Completion.InFlightYetComplete` | src/transceiver/mod.rs:385-421 | a run that does so with the message still in flight |
| `Completion.AckedYetComplete` | src/transceiver/mod.rs:378-421 | a run that does so with a message a PUBACK took out, which no PUBREC ever found |
| `Completion.ReleaseFrom` | src/transceiver/mod.rs:385-398 | a PUBREL in flight goes back to a PUBREC that found the publish in flight, if none came unsolicited |
| `EndToEnd.NotOpenNotDelivered` | src/transceiver/mod.rs:359-375 | a publish whose identifier is not open at the receiver has never been delivered, for its PUBREL would have come first |
| `EndToEnd.FirstCopyIsNew` | src/transceiver/mod.rs:359-375 | the first transmission of a message arrives before anything with its identifier has been dispatched |
| `EndToEnd.LaterCopyIsKnown` | src/transceiver/mod.rs:632-646 | a transmission with DUP arrives after its message has been dispatched |
| `EndToEnd.EveryJointRun` | src/transceiver/mod.rs:359-421 | in every run of two joined clients, with steps of either cut short: no publish follows its PUBREL in queue or channel, releases and acknowledgements imply delivery or the loss named below, deliveries are genuine and happen once |
| `EndToEnd.AtMostOnce` | src/transceiver/mod.rs:359-421 | a QoS 2 message is dispatched at most once, and what is dispatched was sent |
| `EndToEnd.ExactlyOnce` | src/lib.rs:479-498 | success of `publish_qos_2` awaiting PUBREC or PUBCOMP means that the message with the arguments of that call has arrived at the other end once and was handed to exactly its subscribers then, if and only if no step of the receiver was cut short answering its first transmission; otherwise it was not dispatched |
| `EndToEnd.AtLeastOnce` | src/lib.rs:447-462 | the same for `publish_qos_1` awaiting PUBACK, with at least once |
| `EndToEnd.RunOfA` | src/transceiver/mod.rs:540-649 | what the sender does in a joint run is a run of one client, so that every theorem over runs holds of it |
| `EndToEnd.RunOfB` | src/transceiver/mod.rs:540-649 | the same of the receiver |
| `CompletedRuns.CompletesEndToEnd` | src/lib.rs:479-498 | a run in which one client subscribes, the other publishes with QoS 2, every packet of the handshake is one the other sent, the queue takes the message and the call succeeds |
| `LostMessages.SucceedsThoughLost` | src/transceiver/mod.rs:351-357 | a run, with a flush that fails after the answer is out, in which `publish_qos_1` reports success and the message is never dispatched |
| `Channels.ChannelIsFaithful` | src/transceiver/mod.rs:437-528 | from any prefix of the bytes one transport accepted, the other side's reader recovers the first packets sent, in order and unchanged but for DUP, and all of them once all bytes are through |
| `Channels.TransceiverIsFaithful` | src/transceiver/mod.rs:437-528 | so it is for a transceiver in any state its methods leave, failed ones included |
| `Channels.FailureIsFaithful` | src/transceiver/mod.rs:437-461 | after a failed send and any part of DISCONNECT behind it, the reader of the peer has the packets before the failed one, that one if it was all out, and then at most DISCONNECT; it makes nothing up and is not stuck |
| `ClientFutures.ClientShared.constructor` | src/shared.rs:82-93 | the first identifier is 1 and all maps are empty |
| `ClientFutures.ClientShared.FetchAdd` | src/lib.rs:369 | returns the counter and advances it, wrapping after 65535 |
| `ClientFutures.ClientShared.FailNotifyMap` | src/transceiver/mod.rs:764-771 | the loop fails every entry of one map, keeps the others and collects exactly the stored wakers |
| `ClientFutures.ClientShared.DrainSubs` | src/transceiver/mod.rs:800-804 | the loop empties the map and collects exactly the wakers of awaited subscriptions |
| `ClientFutures.PublishFuture.constructor` | src/futures.rs:52-61 | registers the entry: the `Register` step |
| `ClientFutures.PublishFuture.Poll` | src/futures.rs:68-94 | the `Poll` step, with the result a caller sees |
| `ClientFutures.PublishFuture.Drop` | src/futures.rs:97-105 | the `Drop` step: an unresolved future takes its entry away |
| `ClientFutures.SubscribeFuture.Poll` | src/futures.rs:139-182 | panics if and only if the remembered slot is outside the list; otherwise it is the step of this call, and a pending poll leaves its waker in that slot, which is recorded as another future's exactly if it is stale |
| `ClientFutures.SubscribeFuture.Drop` | src/futures.rs:185-198 | the same for dropping, which clears the slot of an unresolved future |
| `ClientFutures.MakePublishCmd` | src/lib.rs:367-381 | the message has the topic, payload, quality of service and retain flag passed, no DUP, and a new identifier except for QoS 0: the `Begin` step |
| `ClientFutures.StartSubscribe` | src/lib.rs:500-515 | only the caller that finds the topic unknown creates the entry and sends first; the others learn the QoS or wait |
| `Transceivers.MakePacket` | src/transceiver/packets.rs:289-299 | the stored bytes are the image of the packet |
| `Transceivers.AddSubscription` | src/transceiver/mod.rs:291-297 | the leaf of the topic is subscribed and has the recipient of this kind, and no other leaf is touched |
| `Transceivers.Transceiver.constructor` | src/transceiver/mod.rs:188-213 | a new task has nothing in flight |
| `Transceivers.Transceiver.Bootstrap` | src/transceiver/mod.rs:746-751 | sends CONNECT and reaches the initial state of all runs; like every method below it keeps on failure that the peer has seen a prefix of the packets sent and that stored bytes are those of the packets in flight |
| `Transceivers.Transceiver.QueueInternalPacket` | src/transceiver/mod.rs:466-478 | the history grows by the packet whose image goes to the outgoing queue, even if the transport fails |
| `Transceivers.Transceiver.QueueInternalPacketWithTimeout` | src/transceiver/mod.rs:225-234 | a packet enters flight, even if the transport fails; only a new key gets a timeout entry |
| `Transceivers.Transceiver.ClearPacketTimeout` | src/transceiver/mod.rs:240-248 | takes a packet out of flight and reports whether it was there |
| `Transceivers.Transceiver.Acknowledged` | src/transceiver/mod.rs:378-384 | counts only while the packet is in flight, then removes the entry and wakes its waker |
| `Transceivers.Transceiver.Disconnect` | src/transceiver/mod.rs:658-665 | DISCONNECT joins the history if the connection was answered, in any state the other methods leave; what that does to the stream |
| `Transceivers.Transceiver.AnswerPublish` | src/transceiver/mod.rs:347-370 | the answer owed to a publish, and whether it is a repetition; the same state on failure |
| `Transceivers.Transceiver.OnPublish` | src/transceiver/mod.rs:347-377 | answers, and dispatches what is not a repetition; a failed answer leaves the message undispatched; `Exchange.PacketExact` says to whom |
| `Transceivers.Transceiver.OnPubRec` | src/transceiver/mod.rs:385-407 | sends or repeats PUBREL, then acknowledges the publish; if that fails, the publish is not acknowledged |
| `Transceivers.Transceiver.OnPubRel` | src/transceiver/mod.rs:408-414 | closes the identifier and always answers PUBCOMP, as `Exchange.PacketExact` says in full; the same state on failure |
| `Transceivers.Transceiver.Settle` | src/transceiver/mod.rs:290-343 | applies the broker's verdict to tree, shared map and wakers; `Exchange.PacketExact` says what a granted request gets |
| `Transceivers.Transceiver.OnSubAck` | src/transceiver/mod.rs:280-346 | only for a pending subscription, and only its first result |
| `Transceivers.Transceiver.ProcessPacket` | src/transceiver/mod.rs:263-427 | does what the protocol function says, for every packet in every state, and asks to stop exactly on a refused connection; fails only for packets that call for an answer, and then does what the function for the cut step says |
| `Transceivers.Transceiver.ObeyPublish` | src/transceiver/mod.rs:565-570 | the publish command, with the same state on failure |
| `Transceivers.Transceiver.ObeySubscribe` | src/transceiver/mod.rs:571-594 | the subscribe command: add to an existing leaf, ask the broker for what was asked, or refuse; on failure the request is recorded but has no timeout entry |
| `Transceivers.Transceiver.ObeyRemoveCallback` | src/transceiver/mod.rs:596-600 | removing a callback |
| `Transceivers.Transceiver.ObeyUnsubscribe` | src/transceiver/mod.rs:601-605 | the unsubscribe command, which clears the leaf first; the same state on failure |
| `Transceivers.Transceiver.SendUnsubscribe` | src/transceiver/mod.rs:252-260 | forgets the shared entry and sends UNSUBSCRIBE with a new identifier; the same state on failure |
| `Transceivers.Transceiver.ResendFront` | src/transceiver/mod.rs:629-646 | one turn of the alarm loop; on failure the packet was handed over and the entry is gone |
| `Transceivers.Transceiver.ResendTurns` | src/transceiver/mod.rs:622-647 | the loop goes through the states of the pass, to its end or to the turn that fails |
| `Transceivers.Transceiver.ResendExpired` | src/transceiver/mod.rs:620-647 | it makes at most as many turns as there are entries, so that the pass ends and those put back are not looked at again |
| `Transceivers.Transceiver.PingIfIdle` | src/transceiver/mod.rs:614-619 | a ping if and only if nothing was sent for the interval, and the interval begins again then; the same state on failure |
| `Transceivers.Transceiver.AlarmTick` | src/transceiver/mod.rs:612-649 | the alarm branch does what the protocol function says, of which `AlarmExact` gives the closed form; on failure, what the cut one says for the number of turns made |

## Left out

- TCP, TLS, DNS, connection options and timeouts of the connection attempt; the transport is whatever its trait allows.
- The clock: instants are parameters; an alarm tick reads a monotone sequence of them.
- Wakers are numbers, one for each poll; the executor that runs woken tasks is not modelled, and no liveness is claimed beyond what is stated about wakers and loops.
- The tree and its leaves are values; updates through `&mut` references into the tree are writes of a new value (`SubscriptionSet.Write`), so aliasing is not captured, and the walk of `get_or_create` is a recursion.
- The three notifier maps are one map keyed by stage. Every locked section is atomic; memory ordering is not modelled.
- Message queues of subscribers: each is open, full or closed for the duration of one dispatch, and its content is not modelled.
- Fields over 65535 bytes and bodies of 2^28 bytes or more make the encoder panic; they are outside the encoders' preconditions, and so are topics of commands that are not UTF-8, which a Rust string cannot hold.
- The command queue's guard that nothing is in transmission is not part of the runs, so the theorems cover more behaviours than the code has.
- The disconnect sequence is one step that hands over DISCONNECT; a failure of that step, its flushing loops, the close notification and its timeout are left out.
- Session state of the broker, retained messages and what a broker does between two clients beyond replying; the end-to-end theorems join two clients directly.
- EveryRunIds: about runs with at most 65536 allocations, because the counter wraps without looking at what is in flight; the same bound is on every theorem that builds on it.
- Polling or dropping a subscribe future whose slot is outside the list is not part of the runs, because the code panics there.
- Commands other than publishes are pushed by anyone at any time; the runs do not tie a subscribe command to the call that sends it.
- In the runs, a step that an I/O error cuts short has handed its packet over, and the channel may deliver it or not; what part of it is out, and what the peer makes of it, is stated by the queue and the reader.
- Logging, the `test` feature's panics, statistics of subscriptions and the callback identifier counter.
