# Distributed shared memory: a Dafny model

This project models the core of a distributed-shared-memory system in Dafny.
One **server** runs per machine and owns a shared-memory segment. Local
**clients** attach to that segment and ask the server, over a message queue,
for named buffers:

- A **local buffer** is created in the segment and streamed to a multicast
  group on a port of its own.
- A **remote buffer** is a replica of another server's local buffer. The
  server requests it by UDP, receives an ACK that names the multicast group
  and port, and then copies every datagram that arrives there into the
  replica.

Clients read and write buffer contents directly in the segment.

The model has these parts:

- `definitions.dfy` (`Definitions`): the constants; the buffer keys, with
  their constructors, assignment, equality and hash input; and C strings.
- `wire.dfy` (`Wire`): the 32-byte control message (a 16-bit header, a
  25-byte name field and a 32-bit footer union). It also holds the byte
  layout of the request and ACK datagrams, with decoders and round-trip
  lemmas.
- `arena.dfy` (`Arena`): the buffers held in the shared segment, and the
  `Segment` class holding the two buffer maps that server and clients share.
- `server_spec.dfy` (`ServerSpec`): the server's whole bookkeeping as a value
  (`ServerState`). Every server operation appears as a transition function.
  The invariant `Inv` covers these facts:
  - listener sets keep buffers alive;
  - subscriptions mirror listeners;
  - region sizes match;
  - multicast ports lie in allocated slots and are pairwise distinct;
  - slot counters stay at most 8.
- `server_proofs.dfy` (`ServerProofs`): proofs that every transition keeps
  `Inv`, and lemmas on what each operation does.
- `server.dfy` (`ServerImpl`): the server as a class whose fields the
  operations update in place. Every method is proved to move `State()`
  exactly as the matching transition function does. The disconnect loops,
  and the loops that build and send datagrams, are methods with loop
  invariants.
- `client.dfy` (`ClientApi`): the client library. It covers validation and
  message building; lemmas prove which server transition each message
  causes. Lookups and the memcpy reads and writes of buffer contents are
  also modelled.
- `prototypes.dfy` (`PrototypeKeys`, `PrototypeDsmClient`,
  `PrototypeClient`): the two early client prototypes, which register buffer
  definitions in vectors shared through the segment.

## Model

| member | source | states |
|---|---|---|
| Definitions.Opcodes | src/Shared/DSMDefinitions.h:38-45 | the eight message type codes are pairwise distinct and each fits the 4-bit opcode field of the header |
| Definitions.CString | src/Shared/DSMDefinitions.h:64 | the C string a fixed-size array holds is its prefix before the first NUL, free of NULs, ending at a NUL when shorter than the array |
| Definitions.CStringOfTerminated | src/Server/DSMServer.cpp:327 | a NUL-free name followed by its terminator reads back, through strcpy or strcmp, as the name itself |
| Definitions.LocalKeyFromCString | src/Shared/DSMDefinitions.h:63-65 | the key holds the whole string up to its first NUL, even past 25 bytes. The length is the string length, clamped to MAX_NAME_SIZE, for names shorter than 25 bytes. For a 25-byte name the terminator lands on `length`, which becomes 0 (lines 84-85). For a longer name `length` is the name's 26th byte |
| Definitions.LocalKeyFromCStringLen | src/Shared/DSMDefinitions.h:66-68 | the key holds the C string. The length is the given length clamped to MAX_NAME_SIZE when the name is shorter than 25 bytes, 0 for a 25-byte name, and the 26th byte for a longer one (the strcpy overwrite, lines 84-85) |
| Definitions.FullNameLosesLength | src/Shared/DSMDefinitions.h:63-70 | a NUL-free 25-byte name keeps its bytes but records length 0, so its hash covers no byte of it |
| Definitions.AssignLocalKey | src/Shared/DSMDefinitions.h:79-83 | after assignment the target's name is the source name up to its first NUL: a NUL-free prefix that is all of the source name or stops at a NUL. Its length is the source's length, and nothing of the previous target survives. A NUL-free source is copied exactly and compares equal |
| Definitions.AssignCopiesConstructedKey | src/Shared/DSMDefinitions.h:57-83 | assigning a key built by any of the three constructors reproduces that key exactly, whatever the target held |
| Definitions.DefaultIsEmptyCString | src/Shared/DSMDefinitions.h:57-59 | the default key has an empty name and length 0, the same key as one built from "" |
| Definitions.LocalKeyEqualityIgnoresLength | src/Shared/DSMDefinitions.h:72-74 | equality compares the names only: keys of one string are equal whatever lengths they record |
| Definitions.LocalKeyHashRange | src/Shared/DSMDefinitions.h:69-71 | the bytes hashed are the first min(length, name length) bytes of the name |
| Definitions.HashRangeDisagreesWithEquality | src/Shared/DSMDefinitions.h:69-74 | two keys that compare equal but hash different byte ranges (the first finding, as written) |
| Definitions.LocalKeyIdentity | src/Shared/DSMDefinitions.h:72-74 | the corrected hash input: a key equals another exactly when this input equals the other's name |
| Definitions.IdentityRespectsEquality | src/Shared/DSMDefinitions.h:69-74 | with the corrected hash input, keys are equal if and only if their hash inputs are equal (the first finding, corrected) |
| Definitions.RemoteKeyFromCString | src/Shared/DSMDefinitions.h:96-99 | the remote key holds the C string and the given endpoint. Its length is the string length below 25 bytes, 0 for a 25-byte name and the 26th byte for a longer one (the strcpy overwrite, lines 125-126) |
| Definitions.RemoteKeyFromCStringLen | src/Shared/DSMDefinitions.h:100-103 | the same with an explicit length: clamped to MAX_NAME_SIZE below 25 bytes, 0 for a 25-byte name, the 26th byte for a longer one; the endpoint is the given one |
| Definitions.AssignRemoteKey | src/Shared/DSMDefinitions.h:119-124 | after assignment the name is the source name up to its first NUL (a NUL-free prefix that is all of it or stops at a NUL), and the length and endpoint are the source's. A NUL-free source is copied exactly and compares equal |
| Definitions.AssignCopiesConstructedRemoteKey | src/Shared/DSMDefinitions.h:96-124 | assigning a remote key built by either constructor reproduces it exactly |
| Definitions.RemoteKeyEqualityIsIdentity | src/Shared/DSMDefinitions.h:110-114 | remote keys compare equal exactly when name, address and port agree, which is equality of the (name, endpoint) identity the maps are keyed by |
| Wire.U16RoundTrip | src/Server/DSMServer.cpp:444-445 | a 16-bit value memcpy'd into a buffer at any offset reads back unchanged |
| Wire.U32RoundTrip | src/Server/DSMServer.cpp:451-452 | a 32-bit value memcpy'd into a buffer at any offset reads back unchanged |
| Wire.PackHeader | src/Client/DSMClient.cpp:57-59 | the header a client builds gives back its client ID, opcode and port offset through the server's masks and shifts, and stays below 0x1000 |
| Wire.HeaderFieldsDetermineHeader | src/Server/DSMServer.cpp:221-224 | a header below 0x1000 is determined by the three fields the server extracts from it |
| Wire.NameFieldRoundTrip | src/Client/DSMClient.cpp:38 | a NUL-free name of at most 25 bytes copied into the name field reads back unchanged; a longer one reads back cut to 25 bytes |
| Wire.FillNameField | src/Client/DSMClient.cpp:38 | the name field after strcpy agrees with the name's C string up to the shorter of the two |
| Wire.FooterSize | src/Server/DSMServer.cpp:114 | the size view of the footer union is the 16-bit value stored in the footer's first two bytes (memory order, little-endian) |
| Wire.WithFooterSize | src/Client/DSMClient.cpp:39 | writing the size view sets the low 16 bits of the footer and leaves the upper bytes alone |
| Wire.EncodeRequest | src/Server/DSMServer.cpp:324-327 | a request datagram is 28 bytes and its first byte is below 0x80 |
| Wire.EncodeAck | src/Server/DSMServer.cpp:356-364 | an ACK datagram is 36 bytes and its first byte lies in 0x80..0xFE |
| Wire.Receive | src/Server/DSMServer.cpp:541 | receiving into the 36-byte buffer overwrites a prefix with the datagram (truncated to 36 bytes) and keeps the remaining bytes of the previous contents |
| Wire.Classify | src/Server/DSMServer.cpp:546-559 | the receiver ignores a datagram whose first byte is 0xFF, treats one below 0x80 as a request, and anything else as an ACK |
| Wire.DecodeRequest | src/Server/DSMServer.cpp:408-409 | a request decodes exactly when its length byte keeps the name inside the buffer; the name has that length and the port offset is byte 0 |
| Wire.DecodeAck | src/Server/DSMServer.cpp:427-454 | an ACK decodes exactly when its length byte keeps the name inside the buffer. The port offset is the low nibble of byte 0, the name is the length-byte many bytes from byte 10, and length, group and port are the 16-, 32- and 16-bit values at bytes 2, 4 and 8 |
| ServerSpec.RequestIn | src/Server/DSMServer.cpp:407-414 | a request is accepted exactly when its length byte keeps the name inside the buffer and the C string the name bytes hold has at most 25 bytes. The accepted name is that C string, NUL-free and ending where the bytes hit a NUL, and the port offset is byte 0 |
| ServerSpec.AckIn | src/Server/DSMServer.cpp:426-434 | an ACK is accepted exactly when its length byte keeps the name inside the buffer and the name bytes hold a C string of at most 25 bytes. The key is that C string with the sender's address and port REQUEST_BASE_PORT plus the low nibble of byte 0. The ACK fields describe the same name, with length, group and port read at bytes 2, 4 and 8 |
| ServerProofs.PaddedRequestName | src/Server/DSMServer.cpp:408-414 | a request whose length byte says 5 for "abc" followed by NULs is a request for "abc" |
| Wire.RequestRoundTrip | src/Server/DSMServer.cpp:318-335 | a request built by sendRequests and received by any server is classified as a request and decodes to the sender's port offset and the name |
| Wire.AckLayout | src/Server/DSMServer.cpp:356-364 | the ACK holds the length at byte 2, the group at byte 4, the port at byte 8, the name length at byte 1, the name from byte 10, and the port offset in the low nibble of byte 0 |
| Wire.EncodeAckAsWritten | src/Server/DSMServer.cpp:356-364 | the ACK as line 359 writes it carries the key's `length` member in byte 1 and agrees with Wire.EncodeAck in every other byte, and entirely when that member is the name's length |
| Wire.AckRoundTrip | src/Server/DSMServer.cpp:426-454 | an ACK built by sendACKs and received by any server is classified as an ACK and decodes to every field that was sent |
| Wire.SentinelIgnored | src/Server/DSMServer.cpp:164-165 | the one-byte 0xFF packet that stop() sends to itself is ignored by the receiver |
| Arena.NewLocalBuffer | src/Server/DSMServer.cpp:192-203 | a new local buffer records its size, holds that many bytes and keeps its multicast endpoint |
| Arena.NewRemoteBuffer | src/Server/DSMServer.cpp:211-217 | a new replica records its size and holds that many bytes |
| ServerSpec.MakeConfig | src/Server/DSMServer.cpp:25-29 | the port offset is the server ID when it is at most 15 and 0 otherwise; the configuration is valid |
| ServerSpec.SlotOfMulticastPort | src/Server/DSMServer.cpp:200 | a multicast port determines the client and the slot it was handed out for |
| ServerSpec.MulticastRangesDisjoint | src/Server/DSMServer.cpp:28-29 | two servers with IDs below 16 never hand out the same multicast port, and neither does one server for two different (client, slot) pairs |
| ServerSpec.AddListener | src/Server/DSMServer.cpp:176 | inserting through operator[] gives the key an entry and adds the client to it; other keys keep their listeners |
| ServerSpec.RemoveListener | src/Server/DSMServer.cpp:245 | erasing through operator[] gives the key an entry without the client; other keys keep their listeners |
| ServerSpec.DropListenerFrom | src/Server/DSMServer.cpp:266-277 | the client leaves the listener set of every key it subscribed to; no other set changes |
| ServerSpec.Emptied | src/Server/DSMServer.cpp:268-269 | the keys whose listener set becomes empty when the client leaves are exactly the subscribed keys it was the only listener of |
| ServerSpec.RemoteKeyOf | src/Server/DSMServer.cpp:220-226 | the key of a fetched buffer is its name, the owning server's address and port REQUEST_BASE_PORT plus the port offset |
| ServerSpec.InitialStateValid | src/Server/DSMServer.cpp:48-50 | the state after construction (empty tables, all slot counters 0) satisfies the server invariant |
| ServerProofs.CreateLocalKeepsInv | src/Server/DSMServer.cpp:169-204 | createLocalBuffer preserves the server invariant |
| ServerProofs.FetchRemoteKeepsInv | src/Server/DSMServer.cpp:220-241 | fetchRemoteBuffer preserves the server invariant |
| ServerProofs.DisconnectLocalKeepsInv | src/Server/DSMServer.cpp:243-250 | disconnectLocal preserves the server invariant |
| ServerProofs.DisconnectRemoteKeepsInv | src/Server/DSMServer.cpp:252-262 | disconnectRemote preserves the server invariant |
| ServerProofs.DisconnectClientKeepsInv | src/Server/DSMServer.cpp:264-279 | disconnectClient preserves the server invariant |
| ServerProofs.DispatchKeepsInv | src/Server/DSMServer.cpp:109-151 | every control message, known opcode or not, preserves the server invariant |
| ServerProofs.ProcessAckKeepsInv | src/Server/DSMServer.cpp:426-474 | processACK preserves the server invariant |
| ServerProofs.ReceiverStepKeepsInv | src/Server/DSMServer.cpp:540-559 | one pass of the receiver loop preserves the server invariant |
| ServerProofs.ProcessDataKeepsInv | src/Server/DSMServer.cpp:476-514 | processData, on any socket, with or without an error, preserves the server invariant |
| ServerProofs.CreateLocalExisting | src/Server/DSMServer.cpp:175-178 | registering an existing buffer adds the client as a listener and a subscriber, and allocates nothing |
| ServerProofs.CreateLocalRejected | src/Server/DSMServer.cpp:180-185 | a new buffer for a client whose eight slots are used is refused and nothing changes |
| ServerProofs.CreateLocalAllocates | src/Server/DSMServer.cpp:188-203 | a new buffer gets a zeroed region of the requested size, the client as its only listener, and the server's multicast group. A streamed buffer also gets the client's next slot port (its counter goes up by one), distinct from every other streamed buffer's port; a local-only one gets port 0 and leaves the counter alone |
| ServerProofs.NewPortUnused | src/Server/DSMServer.cpp:196-200 | the port a new streamed buffer gets is not the port of any existing streamed buffer |
| ServerProofs.CreateLocalIdempotent | src/Server/DSMServer.cpp:169-204 | repeating a registration changes nothing |
| ServerProofs.CreateLocalRepeated | src/Server/DSMServer.cpp:175-178 | registering a name the client already listens to leaves the state unchanged |
| ServerProofs.DisconnectLocalCollects | src/Server/DSMServer.cpp:243-250 | after disconnectLocal the client neither listens to nor subscribes to the name; the buffer survives exactly when another client still listens, and other buffers are untouched |
| ServerProofs.FetchRemotePending | src/Server/DSMServer.cpp:220-241 | after fetchRemoteBuffer the client listens and subscribes, and the key is pending exactly when no replica exists yet; replicas are untouched |
| ServerProofs.FetchRemoteIdempotent | src/Server/DSMServer.cpp:220-241 | fetching the same remote buffer twice has the effect of fetching it once |
| ServerProofs.RemoveRemotePending | src/Server/DSMServer.cpp:295-316 | removing a pending key only cancels the request; removing a fetched one deletes the replica; either way the key is no longer pending |
| ServerProofs.DisconnectRemoteCollects | src/Server/DSMServer.cpp:252-262 | after disconnectRemote the client neither listens nor subscribes; the key stays pending or replicated exactly when another client still listens |
| ServerProofs.DisconnectClientForgets | src/Server/DSMServer.cpp:264-279 | after disconnectClient the client has no subscriptions and listens to nothing; a local buffer survives exactly when someone other than this client alone listened to it; slot counters are not reset |
| ServerProofs.DispatchAll | src/Server/DSMServer.cpp:102-153 | the control loop applied to any sequence of messages keeps the invariant |
| ServerProofs.UnknownOpcodeIgnored | src/Server/DSMServer.cpp:146-150 | a message whose opcode is above DISCONNECT_CLIENT (the connect codes included) changes nothing |
| ServerProofs.RequestQueuesAck | src/Server/DSMServer.cpp:407-424 | a received request for a name whose C string is held here queues the requester's address and request port under that C string; otherwise nothing changes |
| ServerProofs.AckCreatesReplica | src/Server/DSMServer.cpp:426-474 | the key of a received ACK is the C string of its name with the acking server's endpoint. When that key is pending, the ACK ends the request, creates a replica of the announced length, and opens a socket with an outstanding receive on the announced group and port. An ACK for a key not pending changes nothing |
| ServerProofs.ProcessDataReplaces | src/Server/DSMServer.cpp:495-513 | on a socket with an outstanding receive, a delivery (the datagram cut to the scratch capacity) of exactly the replica's size replaces its contents and re-arms the receive. A delivery of any other size changes nothing but ends the receive. No replica appears or disappears |
| ServerProofs.ProcessDataErrorDisarms | src/Server/DSMServer.cpp:480-485 | an error ends the socket's receiving and changes nothing else |
| ServerProofs.DisarmedSocketIsDeaf | src/Server/DSMServer.cpp:496-501 | once a socket's receive has ended (an error, a stale key or a wrong size), nothing that arrives changes the state |
| ServerProofs.ScratchTooSmallNeverCopies | src/Server/DSMServer.cpp:447 | a scratch buffer smaller than the replica, kept from an earlier ACK because insert does not overwrite, lets no datagram through |
| ServerSpec.Delivered | src/Server/DSMServer.cpp:463 | a receive into a scratch buffer delivers a prefix of the datagram, of length the smaller of the two sizes |
| ServerSpec.RequestBatch | src/Server/DSMServer.cpp:320 | a sender pass sends as many requests as there are pending keys |
| ServerProofs.RequestBatchRemove | src/Server/DSMServer.cpp:320-334 | the requests of a set of pending keys, in any order: any key's request can be taken out first |
| ServerProofs.AckBatchRemove | src/Server/DSMServer.cpp:340-376 | the ACKs for a set of names, in any order: any name's round of ACKs can be taken out first |
| ServerProofs.DataBatchRemove | src/Server/DSMServer.cpp:385-402 | the data datagrams for a set of buffers, in any order: any buffer's datagram can be taken out first |
| ServerProofs.AckBatchHas | src/Server/DSMServer.cpp:365-375 | every queued requester of a streamed buffer is sent that buffer's ACK |
| ServerProofs.FullNameAckAnswersNothing | src/Server/DSMServer.cpp:355-364 | an ACK for a 25-byte NUL-free name, written with the key's `length` member, is classified as an ACK but decodes to the empty name; on receipt the key for the real name stays pending and gets no replica |
| ServerProofs.RequestAckExchange | src/Server/DSMServer.cpp:318-474 | between two servers, for a key pending at A whose buffer B streams and whose name is a C string (every name taken from a control message is), with ACKs carrying the name's length in byte 1: A's sender pass sends the request. B receives it and queues A, so B's next ACK batch holds the ACK to A's request endpoint. A receives that ACK, ends the request, creates a replica of B's size, and opens a socket with an outstanding receive on B's group and port |
| ServerImpl.FullSized | src/Server/DSMServer.cpp:102-107 | the messages the control loop handles are the queue prefix before the first message that is not 32 bytes |
| ServerImpl.Server.constructor | src/Server/DSMServer.cpp:25-55 | the new server has the configuration derived from its ID, empty tables, all slot counters 0, and satisfies the invariant |
| ServerImpl.Server.CreateLocalBuffer | src/Server/DSMServer.cpp:169-204 | the in-place update of listeners, subscriptions, segment and slot counters is the createLocalBuffer transition |
| ServerImpl.Server.AllocateLocal | src/Server/DSMServer.cpp:188-203 | the allocating branch gives the createLocalBuffer transition for a name not yet present |
| ServerImpl.Server.FetchRemoteBuffer | src/Server/DSMServer.cpp:220-241 | the in-place update is the fetchRemoteBuffer transition |
| ServerImpl.Server.DisconnectLocalBuffer | src/Server/DSMServer.cpp:243-250 | the in-place update is the disconnectLocal transition |
| ServerImpl.Server.DisconnectRemoteBuffer | src/Server/DSMServer.cpp:252-262 | the in-place update is the disconnectRemote transition |
| ServerImpl.Server.RemoveLocalBuffer | src/Server/DSMServer.cpp:281-293 | the buffer leaves the segment's local map (a missing one is ignored) |
| ServerImpl.Server.RemoveRemoteBuffer | src/Server/DSMServer.cpp:295-316 | a pending key only leaves the pending set; otherwise the replica leaves the segment |
| ServerImpl.Server.DisconnectClient | src/Server/DSMServer.cpp:264-279 | the two release loops and the erase give the disconnectClient transition |
| ServerImpl.ReleaseLocals | src/Server/DSMServer.cpp:266-271 | the first loop drops the client from each subscribed name's listeners and removes exactly the buffers left without listeners |
| ServerImpl.ReleaseRemotes | src/Server/DSMServer.cpp:272-277 | the second loop drops the client from each subscribed key's listeners; each key left without listeners has its request cancelled if pending, or else its replica removed |
| ServerImpl.Server.HandleMessage | src/Server/DSMServer.cpp:109-152 | the switch on the opcode performs the transition the message selects and keeps the invariant |
| ServerImpl.Server.Start | src/Server/DSMServer.cpp:100-153 | the control loop over a queue performs the transitions of its full-sized prefix in order and keeps the invariant |
| ServerImpl.Server.ReceiveDatagram | src/Server/DSMServer.cpp:540-559 | one receiver pass leaves the datagram in the receive buffer and performs the request, ACK or ignore step its first byte selects, keeping the invariant |
| ServerImpl.Server.CopyIn | src/Server/DSMServer.cpp:541 | the receive buffer afterwards holds the received datagram over its old contents |
| ServerImpl.Server.ProcessRequest | src/Server/DSMServer.cpp:407-424 | the in-place update is the processRequest transition on the receive buffer |
| ServerImpl.Server.ProcessAck | src/Server/DSMServer.cpp:426-474 | the in-place update is the processACK transition on the receive buffer |
| ServerImpl.Server.ProcessData | src/Server/DSMServer.cpp:476-514 | the in-place update is the processData transition for the given socket and keeps the invariant |
| ServerImpl.Server.HandleData | src/Server/DSMServer.cpp:480-494 | nothing happens without an outstanding receive. An error ends the receive. A key without a replica loses its scratch buffer and ends the receive. Otherwise the delivery step follows; the result is the processData transition |
| ServerImpl.Server.Deliver | src/Server/DSMServer.cpp:495-513 | the delivered bytes replace the replica's when they number its size (and the receive is re-armed); otherwise the receive ends; the result is the processData transition |
| ServerImpl.Server.SendRequests | src/Server/DSMServer.cpp:318-335 | the datagrams sent, counted with multiplicity, are exactly one request, to the owner's request endpoint, for each pending key |
| ServerImpl.Server.SendAcks | src/Server/DSMServer.cpp:337-381 | the datagrams sent, counted with multiplicity, are one ACK per queued entry of each streamed buffer that exists, a requester queued twice included. Then the ACK queue is empty and nothing else changes |
| ServerImpl.Server.SendData | src/Server/DSMServer.cpp:383-403 | the datagrams sent, counted with multiplicity, are the contents of every streamed local buffer, each to its multicast endpoint, once |
| ServerImpl.Server.SenderTick | src/Server/DSMServer.cpp:520-527 | one sender pass sends, counted with multiplicity, the requests, ACKs and data above. It clears the ACK queue and keeps the invariant |
| ServerImpl.AcksFor | src/Server/DSMServer.cpp:340-376 | the nested loops over queued names and their requesters send, counted with multiplicity, exactly the ACK datagrams of the ACK batch |
| ServerImpl.AckEach | src/Server/DSMServer.cpp:365-375 | the inner loop sends the same ACK to each requester in queue order, one per entry |
| ServerImpl.BuildRequest | src/Server/DSMServer.cpp:324-327 | the bytes filled into the 28-byte send buffer are the request encoding |
| ServerImpl.BuildAck | src/Server/DSMServer.cpp:356-364 | the bytes filled into the 36-byte send buffer are the ACK encoding |
| ServerImpl.CopyBytes | src/Server/DSMServer.cpp:361-364 | memcpy/strcpy into the send buffer replaces exactly the target range and leaves every other byte alone |
| ClientApi.Client.constructor | src/Client/DSMClient.cpp:7-16 | the client ID is reduced to 4 bits, the server ID above 15 falls back to 0, and with reset a disconnect-client message is queued |
| ClientApi.Client.Close | src/Client/DSMClient.cpp:18-23 | the destructor queues one disconnect-client message |
| ClientApi.Client.RegisterLocalBuffer | src/Client/DSMClient.cpp:25-43 | succeeds exactly when the length is in 1..1024 and the name has at most 26 bytes; on success exactly one create (or create-local-only) message is queued |
| ClientApi.Client.RegisterRemoteBuffer | src/Client/DSMClient.cpp:45-65 | succeeds exactly when the port offset is at most 15, the name has at most 26 bytes and the address parses; on success exactly one fetch message is queued |
| ClientApi.Client.DisconnectFromLocalBuffer | src/Client/DSMClient.cpp:68-80 | succeeds exactly when the name has at most 26 bytes; on success exactly one disconnect-local message is queued |
| ClientApi.Client.DisconnectFromRemoteBuffer | src/Client/DSMClient.cpp:82-101 | succeeds exactly when the port offset is at most 15, the name has at most 26 bytes and the address parses; on success exactly one disconnect-remote message is queued |
| ClientApi.Client.DoesLocalExist | src/Client/DSMClient.cpp:103-106 | true exactly when the segment holds a local buffer under the name's key |
| ClientApi.Client.DoesRemoteExist | src/Client/DSMClient.cpp:108-112 | true exactly when the segment holds a replica under (name, address, REQUEST_BASE_PORT plus the port offset) |
| ClientApi.Client.GetLocalBufferContents | src/Client/DSMClient.cpp:114-137 | finds the buffer exactly when it exists and then returns all its bytes; otherwise returns nothing (the empty string) |
| ClientApi.Client.SetLocalBufferContents | src/Client/DSMClient.cpp:139-163 | succeeds exactly when the buffer exists; its bytes then become the first size bytes of the data, and nothing else in the segment changes |
| ClientApi.Client.GetRemoteBufferContents | src/Client/DSMClient.cpp:165-190 | finds the replica exactly when it exists and then returns all its bytes; otherwise returns nothing |
| ClientApi.LookupKey | src/Client/DSMClient.cpp:105 | the key a lookup builds is the name's C string, when that fits a key |
| ClientApi.RemoteLookupKey | src/Client/DSMClient.cpp:110 | the remote key a lookup builds is the C string with the address and port REQUEST_BASE_PORT plus the port offset |
| ClientApi.CopyOut | src/Client/DSMClient.cpp:123 | memcpy out of a region yields its first len bytes |
| ClientApi.CopyOver | src/Client/DSMClient.cpp:148 | memcpy into a region replaces it with the first region-size bytes of the data |
| ClientApi.SetThenGet | src/Client/DSMClient.cpp:139-150 | after a write, the buffer holds the written bytes at its recorded size and no buffer appears or disappears |
| ClientApi.AcceptedNameDoesNotFit | src/Client/DSMClient.cpp:29-31 | a 26-byte name passes the client's check yet cannot travel in the 25-byte name field (the second finding, as written) |
| ClientApi.AcceptedNameArrives | src/Client/DSMClient.cpp:29-31 | with the intended check, a NUL-free name is accepted exactly when it reaches the server unchanged (the second finding, corrected) |
| ClientApi.ClientNameArrives | src/Client/DSMClient.cpp:38 | the name the server reads from an accepted message is the C string of the name the client passed |
| ClientApi.CreateMessageDispatch | src/Client/DSMClient.cpp:32-41 | the server handles a registration message as createLocalBuffer for that client, name, size and local-only flag |
| ClientApi.FetchMessageDispatch | src/Client/DSMClient.cpp:52-63 | the server handles a fetch message as fetchRemoteBuffer for that client, name, address and port offset |
| ClientApi.DisconnectLocalMessageDispatch | src/Client/DSMClient.cpp:73-78 | the server handles a disconnect-local message as disconnectLocal for that client and name |
| ClientApi.DisconnectRemoteMessageDispatch | src/Client/DSMClient.cpp:89-99 | the server handles a disconnect-remote message as disconnectRemote for that client, name, address and port offset |
| ClientApi.DisconnectClientMessageDispatch | src/Client/DSMClient.cpp:10-15 | the server handles a disconnect-client message as disconnectClient for that client |
| PrototypeKeys.BufferKey | src/Client.cpp:31 | the key is the address, then '_', then the name |
| PrototypeKeys.BufferKeyNotEmpty | src/DSMClient.cpp:53-55 | a key is never "", so "" signals a refused registration without ambiguity |
| PrototypeKeys.BufferKeyInjective | src/Client.cpp:31 | for addresses without '_', equal keys mean equal address and name, and conversely |
| PrototypeDsmClient.DsmClient.constructor | src/DSMClient.cpp:3-6 | after construction the vectors hold what they held before plus exactly the two local and two remote test definitions |
| PrototypeDsmClient.DsmClient.Initialize | src/DSMClient.cpp:12-20 | the repeated "name0" registrations are refused, so exactly two local and two remote definitions are appended |
| PrototypeDsmClient.DsmClient.RegisterLocalBuffer | src/DSMClient.cpp:38-46 | a new name is recorded and its definition appended (true); a known name changes nothing (false); names stay unique |
| PrototypeDsmClient.DsmClient.RegisterRemoteBuffer | src/DSMClient.cpp:48-56 | a new name is recorded, its definition appended and its key returned; a known name returns "" and changes nothing |
| PrototypeClient.Client.constructor | src/Client.cpp:3-14 | after construction the vector holds one more definition, named "somename" |
| PrototypeClient.Client.Initialize | src/Client.cpp:20-23 | exactly one definition ("somename", "someaddr", "somepass") is appended |
| PrototypeClient.Client.RegisterLocalBuffer | src/Client.cpp:29-32 | exactly one definition is appended at the end, without deduplication, and the key is returned |
| PrototypeClient.Client.RegisterRemoteBuffer | src/Client.cpp:34-37 | only the key is computed, from which the address and the name can be read back; the vector is untouched |
| PrototypeClient.RegisteringTwiceDuplicates | src/Client.cpp:29-32 | registering one buffer twice on a client appends two copies of its definition and returns the same key both times |

## Left out

- Threads, locks, condition variables and timing are not modelled.
  - The control loop, the receiver loop and the sender loop are each modelled as one pass, or as a finite queue of messages.
  - The handler thread and the io_service are not modelled. Neither is the condition-variable handshake in the first prototype's start().
- Networking is not modelled as I/O.
  - Outgoing datagrams are returned as values; the source address of a received datagram is a parameter.
  - A multicast socket is a recorded (key, group, port) entry with a flag that says whether a receive is outstanding on it. processData takes the socket's index, the bytes that arrived on it and whether the receive reported an error.
  - Binding, joining groups and the error codes of the socket calls are not modelled.
- Shared-memory allocation is not modelled: handles, allocate/deallocate, per-buffer mutexes and running out of the 64 KiB segment. A region is a sequence of bytes.
- The server destructor, stop() (apart from the sentinel packet it sends), sendHandler and all logging are not modelled.
- The hash tables are modelled as maps keyed by the identity the key's equality compares: the name, and for remote keys the endpoint as well. See the first finding.
- Address parsing is not modelled.
  - inet_aton's result is a parameter (`None` when it fails).
  - address::from_string throwing on a bad address string (client, lines 110, 167 and 181) is not modelled; the model takes the parsed address.
  - ServerSpec.MakeConfig requires an ID below 255. For 255 the multicast group string "239.255.0.256" is not an address, and the source throws.
- Multi-byte fields copied with memcpy are modelled little-endian.
- Bytes the source leaves uninitialised are modelled as zero: send buffers, fresh regions and receive scratch buffers.
- REQUEST_BASE_PORT is not defined in any file modelled here. It is taken equal to RECEIVER_BASE_PORT (8888).
- The header of the control message is modelled as the code uses it: 16 bits, with the client ID in bits 0-3, the opcode in bits 4-7 and the port offset in bits 8-11. The struct in src/Shared/DSMBase.h declares separate option/server/client bytes instead.
- Wire.FillNameField: a name of 25 bytes or more is cut to 25 bytes in the field, and the server in the model reads those 25 bytes.
  - With the 16-bit header the code uses, the name array spans bytes 2-26, byte 27 is padding and the footer starts at byte 28.
  - A 26-byte name passes the client's check. strcpy puts its last byte in the padding byte and its terminator on the footer's first byte.
  - In the fetch and disconnect-remote messages the strcpy comes after inet_aton, so the terminator zeroes the first byte of the parsed address. In the register message the size written afterwards overwrites the terminator.
  - None of this is modelled; see the second finding.
- ServerSpec.RequestIn and ServerSpec.AckIn key a datagram on the C string its name bytes hold, as the key constructor's strcpy does. A length byte larger than that C string is therefore harmless. They drop a datagram whose length byte points past the buffer, or whose C string is longer than 25 bytes. The source does otherwise:
  - processRequest reads the length byte through a (uint8_t) cast (src/Server/DSMServer.cpp:408). A length that points past the 36-byte buffer makes it read past the buffer.
  - processACK passes the plain, signed `char` byte 1 as the std::string length (line 427). A length byte of 0x80-0xFF becomes a huge size_t, so the constructor throws std::length_error, which nothing in the receiver thread catches.
  - A C string longer than 25 bytes is copied into the 25-byte key array, which is undefined behaviour. No key the server holds has such a name, so the model drops the datagram.
- ClientApi.LookupKey and ClientApi.RemoteLookupKey: a name whose C string is longer than 25 bytes matches no buffer. The source copies it into the 25-byte key array.
- ClientApi.Client.SetLocalBufferContents requires the caller's data to hold at least the buffer's size in bytes. The source reads that many bytes from the caller regardless.
- The client's Get/Set methods require the segment's regions to hold exactly their recorded sizes. The server invariant guarantees this.
- The typed template accessors and the Python bindings are not part of this model.
- Wire.Classify reads byte 0 of a received datagram as a signed `char`, as the receiver loop's tests against -1 and 0 do (src/Server/DSMServer.cpp:546-559) on targets where plain `char` is signed. Where plain `char` is unsigned, those tests never see a negative byte, so every datagram, the ACKs and the stop sentinel included, would go to processRequest. That platform is not modelled.
- Several lines do not compile as written, and the model takes their evident meaning.
  - src/Server/DSMServer.cpp:326 calls `.length()` on `i.name`, the key's 25-byte char array. The model uses the C string's length.
  - src/Server/DSMServer.cpp:359 calls `.length()` on `i.first`, a LocalBufferKey, and line 364 calls `.c_str()` on it. The nearest compilable reading of 359 is the key's `length` member, and of 364 the key's name. Wire.EncodeAck writes the name's length instead; Wire.EncodeAckAsWritten writes the member (see Findings).
- Wire.EncodeAck, ServerImpl.Server.SendAcks and ServerProofs.RequestAckExchange use the name's length in byte 1 of an ACK, not the key's `length` member that line 359 reads. The two agree except for a 25-byte name, whose member the terminator has zeroed: there the source sends length 0, the requester reads the empty name, and that buffer is never replicated (ServerProofs.FullNameAckAnswersNothing).
  - Other lines pass a std::string where the key constructors take `const char*`. In src/Server/DSMServer.cpp these are lines 226, 245-248, 256, 414, 417 and 429. In src/Client/DSMClient.cpp they are lines 105, 110, 116, 129, 141, 154, 167 and 181. The model takes the `c_str()` meaning: the key holds the C string the std::string's bytes hold. The control-message names at lines 226 and 245-256 are already C strings (Wire.FieldName), so there this is the name itself. At lines 414, 417 and 429 it is Definitions.CString of the received name bytes. The client lookups use ClientApi.LookupKey and ClientApi.RemoteLookupKey.
- Definitions: name bytes beyond `length` in a key whose name is longer than 25 bytes, written past the name array by strcpy into the following members, are not modelled. The key keeps the whole name, and `length` becomes its 26th byte.
- ServerSpec.ProcessData: when a key's scratch buffer is erased and the same key is fetched again, the old socket's pending receive still points at the freed scratch array. The model records only the capacity, not this dangling pointer.
- ServerSpec.Delivered: a datagram larger than the scratch buffer is cut to it, as a Linux UDP receive does without reporting an error. Platforms that report such a truncation as an error are not modelled.
- PrototypeClient.Client.constructor: in the second prototype, finding the definition vector in a freshly created segment returns null. The model starts from the vector's contents instead.

## Findings

| source | as written | input that shows it | evidently intended | confidence | as-written member | corrected member |
|---|---|---|---|---|---|---|
| src/Shared/DSMDefinitions.h:69-74 | hash_value hashes the first `length` bytes of the name, while operator== compares the whole C strings with strcmp. The remote key repeats this at lines 104-113 | LocalBufferKey("abc", 2) and LocalBufferKey("abc") compare equal but hash "ab" and "abc", so the hash table can miss a key it holds. No file shown here calls the explicit-length constructors (lines 66-68 and 100-103). In these files a key's length follows from its name, so the mismatch needs a caller that uses those constructors | hash the bytes equality compares (the whole C string) | not executed | Definitions.HashRangeDisagreesWithEquality | Definitions.IdentityRespectsEquality |
| src/Client/DSMClient.cpp:29-31 | the client accepts names of up to 26 bytes (also at lines 49-51, 69-71 and 86-88) | a 26-byte name passes the check, but the 25-byte name field cannot carry it: strcpy writes its last byte into the padding byte 27 and its terminator onto the footer's first byte. A 25-byte name is safe in the control message only because its terminator lands in that padding byte, before the footer at byte 28 | accept at most MAX_NAME_SIZE (25) bytes | not executed | ClientApi.AcceptedNameDoesNotFit | ClientApi.AcceptedNameArrives |
| src/Server/DSMServer.cpp:359 | `sendBuffer[1] = i.first.length()` reads the `length` member of the ACK queue's key, which the key constructor's strcpy terminator zeroes for a 25-byte name | a request for a 25-byte NUL-free name: the ACK carries name length 0, processACK builds the key "" at line 427, which is not the pending key, so the buffer is never replicated | byte 1 holds the name's length, so the requester rebuilds the key it is waiting on | not executed | ServerProofs.FullNameAckAnswersNothing | Wire.AckRoundTrip |
