/** The server's bookkeeping as a value: the state the control-dispatch loop
    and the receiver keep, the effect of each operation on it, and the
    invariant every operation preserves (a buffer exists exactly while some
    client listens to it, subscription records mirror the listener sets,
    multicast ports never collide). */
module ServerSpec {
  import opened Definitions
  import opened Wire
  import opened Arena

  /** A client ID as the server reads it from a header: four bits. */
  type ClientId = c: nat | c < 16

  /** What one client has subscribed to. */
  datatype Subscriptions = Subscriptions(locals: set<Name>, remotes: set<RemoteId>)

  /** A multicast socket opened for a remote buffer after its ACK, and
      whether a receive is outstanding on it (its handler is armed). */
  datatype Listen = Listen(key: RemoteId, group: U32, port: U16, armed: bool)

  /** Per-server constants: the port offset (its request port is
      REQUEST_BASE_PORT plus it), its multicast group and its base port. */
  datatype Config = Config(portOffset: nat, multicastAddress: U32, multicastBasePort: nat)

  /** The configuration the server constructor derives from its ID: the port
      offset is clamped to 0..15, while the multicast group 239.255.0.(ID+1)
      and the base port MULTICAST_BASE_PORT + ID * MAX_CLIENTS *
      MAX_BUFFERS_PER_CLIENT use the ID as given. */
  function MakeConfig(serverID: U8): (cfg: Config)
    requires serverID < 255
    ensures ValidConfig(cfg)
    ensures serverID <= 15 ==> cfg.portOffset == serverID
    ensures serverID > 15 ==> cfg.portOffset == 0
  {
    Config(if serverID > 15 then 0 else serverID,
           239 * 0x100_0000 + 255 * 0x1_0000 + (serverID + 1),
           MULTICAST_BASE_PORT + serverID * MAX_CLIENTS * MAX_BUFFERS_PER_CLIENT)
  }

  predicate ValidConfig(cfg: Config)
  {
    cfg.portOffset < 16
  }

  /** The (16-bit) multicast port of slot `slot` of client `c`. */
  function MulticastPort(cfg: Config, c: nat, slot: nat): U16
  {
    (cfg.multicastBasePort + c * MAX_BUFFERS_PER_CLIENT + slot) % 0x1_0000
  }

  /** The distance of a port from the server's base port, modulo 2^16. */
  function SlotOffset(cfg: Config, port: U16): nat
  {
    (port - cfg.multicastBasePort) % 0x1_0000
  }

  /** The client whose range a port lies in. */
  function SlotClient(cfg: Config, port: U16): nat
  {
    SlotOffset(cfg, port) / MAX_BUFFERS_PER_CLIENT
  }

  /** The slot within that client's range. */
  function SlotIndex(cfg: Config, port: U16): nat
  {
    SlotOffset(cfg, port) % MAX_BUFFERS_PER_CLIENT
  }

  /** A multicast port names its client and slot: the ranges of different
      clients do not overlap and slots within a range are distinct. */
  lemma SlotOfMulticastPort(cfg: Config, c: nat, slot: nat)
    requires c < 16 && slot < MAX_BUFFERS_PER_CLIENT
    ensures SlotClient(cfg, MulticastPort(cfg, c, slot)) == c
    ensures SlotIndex(cfg, MulticastPort(cfg, c, slot)) == slot
  {
    var x := c * MAX_BUFFERS_PER_CLIENT + slot;
    var b := cfg.multicastBasePort;
    var q := (b + x) / 0x1_0000;
    assert MulticastPort(cfg, c, slot) == b + x - 0x1_0000 * q;
    assert MulticastPort(cfg, c, slot) - b == x - 0x1_0000 * q;
    assert (x - 0x1_0000 * q) % 0x1_0000 == x;
    assert x / MAX_BUFFERS_PER_CLIENT == c && x % MAX_BUFFERS_PER_CLIENT == slot;
  }

  /** Servers with IDs 0..15 and clients with IDs 0..255 stream on pairwise
      distinct ports: no two (server, client, slot) triples share one. */
  lemma {:induction false} MulticastRangesDisjoint(id1: U8, c1: nat, j1: nat, id2: U8, c2: nat, j2: nat)
    requires id1 < 16 && id2 < 16 && c1 < MAX_CLIENTS && c2 < MAX_CLIENTS
    requires j1 < MAX_BUFFERS_PER_CLIENT && j2 < MAX_BUFFERS_PER_CLIENT
    requires MulticastPort(MakeConfig(id1), c1, j1) == MulticastPort(MakeConfig(id2), c2, j2)
    ensures id1 == id2 && c1 == c2 && j1 == j2
  {
    var p1 := MULTICAST_BASE_PORT + id1 * 2048 + c1 * 8 + j1;
    var p2 := MULTICAST_BASE_PORT + id2 * 2048 + c2 * 8 + j2;
    assert MakeConfig(id1).multicastBasePort == MULTICAST_BASE_PORT + id1 * 2048;
    assert MakeConfig(id2).multicastBasePort == MULTICAST_BASE_PORT + id2 * 2048;
    assert p1 < 0x1_0000 && p2 < 0x1_0000;
    assert p1 == p2;
    var x1, x2 := c1 * 8 + j1, c2 * 8 + j2;
    assert x1 < 2048 && x2 < 2048;
    assert id1 * 2048 + x1 == id2 * 2048 + x2;
    assert id1 == id2;
    assert x1 == x2;
    assert c1 == x1 / 8 && c2 == x2 / 8;
  }

  /** The whole bookkeeping state of one server. */
  datatype ServerState = ServerState(
    local: map<Name, LocalBuffer>,                 // segment's local buffer map
    remote: map<RemoteId, RemoteBuffer>,           // segment's remote buffer map
    localListeners: map<Name, set<ClientId>>,
    remoteListeners: map<RemoteId, set<ClientId>>,
    subscriptions: map<ClientId, Subscriptions>,
    toFetch: set<RemoteId>,                        // requests sent, no ACK yet
    toAck: map<Name, seq<Endpoint>>,               // requesters awaiting an ACK
    portOffsets: seq<U8>,                          // per-client multicast-slot counters
    receiveBuffers: map<RemoteId, U16>,            // scratch buffers for multicast receives
    sockets: seq<Listen>)

  function InitialState(): (s: ServerState)
    ensures |s.portOffsets| == MAX_CLIENTS
  {
    ServerState(map[], map[], map[], map[], map[], {}, map[], seq(MAX_CLIENTS, _ => 0), map[], [])
  }

  // ---------------------------------------------------------------------
  // Container helpers with the semantics of operator[] (a missing entry
  // reads as empty)

  function Listeners<K(!new)>(m: map<K, set<ClientId>>, k: K): set<ClientId>
  {
    if k in m then m[k] else {}
  }

  function SubsOf(m: map<ClientId, Subscriptions>, c: ClientId): Subscriptions
  {
    if c in m then m[c] else Subscriptions({}, {})
  }

  function Waiting(m: map<Name, seq<Endpoint>>, n: Name): seq<Endpoint>
  {
    if n in m then m[n] else []
  }

  function AddListener<K(!new)>(m: map<K, set<ClientId>>, k: K, c: ClientId): (r: map<K, set<ClientId>>)
    ensures r.Keys == m.Keys + {k}
    ensures forall k' :: Listeners(r, k') == if k' == k then Listeners(m, k) + {c} else Listeners(m, k')
  {
    m[k := Listeners(m, k) + {c}]
  }

  function RemoveListener<K(!new)>(m: map<K, set<ClientId>>, k: K, c: ClientId): (r: map<K, set<ClientId>>)
    ensures r.Keys == m.Keys + {k}
    ensures forall k' :: Listeners(r, k') == if k' == k then Listeners(m, k) - {c} else Listeners(m, k')
  {
    m[k := Listeners(m, k) - {c}]
  }

  function AddLocalSub(m: map<ClientId, Subscriptions>, c: ClientId, n: Name): (r: map<ClientId, Subscriptions>)
    ensures forall c' :: SubsOf(r, c') == if c' == c then SubsOf(m, c).(locals := SubsOf(m, c).locals + {n}) else SubsOf(m, c')
  {
    m[c := SubsOf(m, c).(locals := SubsOf(m, c).locals + {n})]
  }

  function AddRemoteSub(m: map<ClientId, Subscriptions>, c: ClientId, k: RemoteId): (r: map<ClientId, Subscriptions>)
    ensures forall c' :: SubsOf(r, c') == if c' == c then SubsOf(m, c).(remotes := SubsOf(m, c).remotes + {k}) else SubsOf(m, c')
  {
    m[c := SubsOf(m, c).(remotes := SubsOf(m, c).remotes + {k})]
  }

  function DropLocalSub(m: map<ClientId, Subscriptions>, c: ClientId, n: Name): (r: map<ClientId, Subscriptions>)
    ensures forall c' :: SubsOf(r, c') == if c' == c then SubsOf(m, c).(locals := SubsOf(m, c).locals - {n}) else SubsOf(m, c')
  {
    m[c := SubsOf(m, c).(locals := SubsOf(m, c).locals - {n})]
  }

  function DropRemoteSub(m: map<ClientId, Subscriptions>, c: ClientId, k: RemoteId): (r: map<ClientId, Subscriptions>)
    ensures forall c' :: SubsOf(r, c') == if c' == c then SubsOf(m, c).(remotes := SubsOf(m, c).remotes - {k}) else SubsOf(m, c')
  {
    m[c := SubsOf(m, c).(remotes := SubsOf(m, c).remotes - {k})]
  }

  /** The listener map after `c` has been erased from the sets of `keys`. */
  function DropListenerFrom<K(!new)>(m: map<K, set<ClientId>>, keys: set<K>, c: ClientId): (r: map<K, set<ClientId>>)
    ensures r.Keys == m.Keys + keys
    ensures forall k :: Listeners(r, k) == if k in keys then Listeners(m, k) - {c} else Listeners(m, k)
  {
    map k | k in m.Keys + keys :: if k in keys then Listeners(m, k) - {c} else m[k]
  }

  /** Those of `keys` whose listener set is empty once `c` has left it. */
  function Emptied<K(!new)>(m: map<K, set<ClientId>>, keys: set<K>, c: ClientId): (r: set<K>)
    ensures forall k :: k in r <==> k in keys && Listeners(m, k) - {c} == {}
  {
    set k | k in keys && Listeners(m, k) - {c} == {}
  }

  // ---------------------------------------------------------------------
  // The invariant

  // Each part of the invariant reads only the fields it is about, so an
  // operation that leaves those fields alone visibly keeps that part.

  /** One slot counter per client, none past MAX_BUFFERS_PER_CLIENT. */
  ghost predicate CountersBounded(portOffsets: seq<U8>)
  {
    && |portOffsets| == MAX_CLIENTS
    && forall c :: 0 <= c < |portOffsets| ==> portOffsets[c] <= MAX_BUFFERS_PER_CLIENT
  }

  /** A local buffer exists iff its listener set is non-empty. */
  ghost predicate LocalRefCounted(local: map<Name, LocalBuffer>, listeners: map<Name, set<ClientId>>)
  {
    forall k :: k in local <==> Listeners(listeners, k) != {}
  }

  /** A remote key is pending or replicated iff its listener set is
      non-empty, and never both. */
  ghost predicate RemoteRefCounted(toFetch: set<RemoteId>, remote: map<RemoteId, RemoteBuffer>,
                                   listeners: map<RemoteId, set<ClientId>>)
  {
    && (forall k :: k in toFetch || k in remote <==> Listeners(listeners, k) != {})
    && toFetch !! remote.Keys
  }

  /** Client c's record names local buffer k iff c is in k's listener set
      (a missing record or set reads as empty, as with operator[]). */
  ghost predicate LocalMirror(subscriptions: map<ClientId, Subscriptions>, listeners: map<Name, set<ClientId>>)
  {
    forall c: ClientId, k :: k in SubsOf(subscriptions, c).locals <==> c in Listeners(listeners, k)
  }

  /** The same for remote keys. */
  ghost predicate RemoteMirror(subscriptions: map<ClientId, Subscriptions>, listeners: map<RemoteId, set<ClientId>>)
  {
    forall c: ClientId, k :: k in SubsOf(subscriptions, c).remotes <==> c in Listeners(listeners, k)
  }

  /** Every region holds exactly its declared number of bytes. */
  ghost predicate SizesMatch(local: map<Name, LocalBuffer>, remote: map<RemoteId, RemoteBuffer>)
  {
    && (forall k :: k in local ==> |local[k].data| == local[k].size)
    && (forall k :: k in remote ==> |remote[k].data| == remote[k].size)
  }

  /** Every streamed buffer's port lies in a slot its client has used. */
  ghost predicate PortsAllocated(cfg: Config, local: map<Name, LocalBuffer>, portOffsets: seq<U8>)
    requires CountersBounded(portOffsets)
  {
    forall k :: k in local && local[k].endpoint.port != 0 ==>
      var p := local[k].endpoint.port;
      SlotClient(cfg, p) < 16 && SlotIndex(cfg, p) < portOffsets[SlotClient(cfg, p)]
  }

  /** No two streamed buffers share a port. */
  ghost predicate PortsDistinct(local: map<Name, LocalBuffer>)
  {
    forall k1, k2 :: k1 in local && k2 in local && k1 != k2 && local[k1].endpoint.port != 0 ==>
      local[k1].endpoint.port != local[k2].endpoint.port
  }

  ghost predicate Inv(cfg: Config, s: ServerState)
  {
    && ValidConfig(cfg)
    && CountersBounded(s.portOffsets)
    && LocalRefCounted(s.local, s.localListeners)
    && RemoteRefCounted(s.toFetch, s.remote, s.remoteListeners)
    && LocalMirror(s.subscriptions, s.localListeners)
    && RemoteMirror(s.subscriptions, s.remoteListeners)
    && SizesMatch(s.local, s.remote)
    && PortsAllocated(cfg, s.local, s.portOffsets)
    && PortsDistinct(s.local)
  }

  lemma InitialStateValid(cfg: Config)
    requires ValidConfig(cfg)
    ensures Inv(cfg, InitialState())
  {
  }

  // ---------------------------------------------------------------------
  // Control operations. Each is written as one update of the fields it
  // touches; a field's `if` is the branch the operation takes.

  /** Whether createLocalBuffer allocates: the name is new and the client
      still has a free slot (its counter is at most MAX_BUFFERS_PER_CLIENT
      - 1). */
  predicate Allocates(s: ServerState, name: Name, c: ClientId)
    requires CountersBounded(s.portOffsets)
  {
    name !in s.local && s.portOffsets[c] <= MAX_BUFFERS_PER_CLIENT - 1
  }

  /** Where a new buffer is streamed: the server's group and, unless it is
      local-only, the client's next slot port. */
  function NewEndpoint(cfg: Config, s: ServerState, c: ClientId, localOnly: bool): Endpoint
    requires CountersBounded(s.portOffsets)
  {
    if localOnly then Endpoint(cfg.multicastAddress, 0)
    else Endpoint(cfg.multicastAddress, MulticastPort(cfg, c, s.portOffsets[c]))
  }

  /** createLocalBuffer: re-registration only records the listener; a new
      name is refused outright (no listener recorded) when the client has
      used all its slots, and otherwise allocated at NewEndpoint, a streamed
      buffer taking up the slot. */
  function CreateLocal(cfg: Config, s: ServerState, name: Name, size: U16, c: ClientId, localOnly: bool): ServerState
    requires CountersBounded(s.portOffsets)
  {
    var isNew := Allocates(s, name, c);
    var admitted := name in s.local || isNew;
    s.(localListeners := if admitted then AddListener(s.localListeners, name, c) else s.localListeners,
       subscriptions := if admitted then AddLocalSub(s.subscriptions, c, name) else s.subscriptions,
       local := if isNew then s.local[name := NewLocalBuffer(size, NewEndpoint(cfg, s, c, localOnly))] else s.local,
       portOffsets := if isNew && !localOnly then s.portOffsets[c := s.portOffsets[c] + 1] else s.portOffsets)
  }

  /** The key a fetch or a remote disconnect names: the owner's address and
      its request port, REQUEST_BASE_PORT plus the port offset the header
      carries. */
  function RemoteKeyOf(name: Name, addr: U32, portOffset: nat): (k: RemoteId)
    requires portOffset < 16
    ensures k.name == name && k.endpoint.address == addr
    ensures k.endpoint.port - REQUEST_BASE_PORT == portOffset
  {
    RemoteId(name, Endpoint(addr, REQUEST_BASE_PORT + portOffset))
  }

  /** fetchRemoteBuffer: always records the listener; queues a request
      unless the buffer is already replicated here. */
  function FetchRemote(s: ServerState, name: Name, addr: U32, portOffset: nat, c: ClientId): ServerState
    requires portOffset < 16
  {
    var key := RemoteKeyOf(name, addr, portOffset);
    s.(remoteListeners := AddListener(s.remoteListeners, key, c),
       subscriptions := AddRemoteSub(s.subscriptions, c, key),
       toFetch := if key in s.remote then s.toFetch else s.toFetch + {key})
  }

  /** removeLocalBuffer: frees the buffer if there is one. */
  function RemoveLocal(s: ServerState, name: Name): ServerState
  {
    s.(local := s.local - {name})
  }

  /** removeRemoteBuffer: a pending key only leaves the pending set;
      otherwise the replica is freed if there is one. */
  function RemoveRemote(s: ServerState, key: RemoteId): ServerState
  {
    s.(toFetch := s.toFetch - {key},
       remote := if key in s.toFetch then s.remote else s.remote - {key})
  }

  /** disconnectLocal: the client leaves the listener set and its record;
      the buffer is removed (removeLocalBuffer) when the set is left empty. */
  function DisconnectLocal(s: ServerState, name: Name, c: ClientId): ServerState
  {
    var gone := Listeners(s.localListeners, name) - {c} == {};
    s.(localListeners := RemoveListener(s.localListeners, name, c),
       subscriptions := DropLocalSub(s.subscriptions, c, name),
       local := if gone then RemoveLocal(s, name).local else s.local)
  }

  /** disconnectRemote: as disconnectLocal, with removeRemoteBuffer. */
  function DisconnectRemote(s: ServerState, name: Name, addr: U32, portOffset: nat, c: ClientId): ServerState
    requires portOffset < 16
  {
    var key := RemoteKeyOf(name, addr, portOffset);
    var gone := Listeners(s.remoteListeners, key) - {c} == {};
    s.(remoteListeners := RemoveListener(s.remoteListeners, key, c),
       subscriptions := DropRemoteSub(s.subscriptions, c, key),
       toFetch := if gone then RemoveRemote(s, key).toFetch else s.toFetch,
       remote := if gone then RemoveRemote(s, key).remote else s.remote)
  }

  /** disconnectClient: every key in the client's record loses the client;
      the keys whose listener set is left empty are removed as by
      removeLocalBuffer / removeRemoteBuffer; the record is erased. The
      client's slot counter is kept. */
  function DisconnectClient(s: ServerState, c: ClientId): ServerState
  {
    var sub := SubsOf(s.subscriptions, c);
    var localGone := Emptied(s.localListeners, sub.locals, c);
    var remoteGone := Emptied(s.remoteListeners, sub.remotes, c);
    s.(localListeners := DropListenerFrom(s.localListeners, sub.locals, c),
       local := s.local - localGone,
       remoteListeners := DropListenerFrom(s.remoteListeners, sub.remotes, c),
       toFetch := s.toFetch - remoteGone,
       remote := s.remote - (remoteGone - s.toFetch),
       subscriptions := s.subscriptions - {c})
  }

  /** One iteration of the control loop on a full-sized message, dispatched
      on the header's opcode; unknown opcodes (CONNECT_CLIENT and
      CONNECT_CLIENT_NORESET among them) change nothing. */
  function Dispatch(cfg: Config, s: ServerState, m: ControlMessage): ServerState
    requires CountersBounded(s.portOffsets)
  {
    var op := HeaderOpcode(m.header);
    var c := HeaderClient(m.header);
    var po := HeaderPortOffset(m.header);
    var name := FieldName(m.name);
    if op == CREATE_LOCAL then CreateLocal(cfg, s, name, FooterSize(m.footer), c, false)
    else if op == CREATE_LOCALONLY then CreateLocal(cfg, s, name, FooterSize(m.footer), c, true)
    else if op == FETCH_REMOTE then FetchRemote(s, name, m.footer, po, c)
    else if op == DISCONNECT_LOCAL then DisconnectLocal(s, name, c)
    else if op == DISCONNECT_REMOTE then DisconnectRemote(s, name, m.footer, po, c)
    else if op == DISCONNECT_CLIENT then DisconnectClient(s, c)
    else s
  }

  // ---------------------------------------------------------------------
  // Receiver and multicast handler

  /** The request the receive buffer holds, when it is one for a name the
      server can hold. The name bytes become a key through the key's
      constructor, whose strcpy keeps only the C string they hold. */
  function RequestIn(buffer: Bytes): (r: Option<RequestFields>)
    requires |buffer| == RECEIVE_BUFFER_SIZE
    ensures r.Some? <==> 2 + buffer[1] <= RECEIVE_BUFFER_SIZE && StrLen(buffer[2..2 + buffer[1]]) <= MAX_NAME_SIZE
    ensures r.Some? ==> && r.value.portOffset == buffer[0]
                        && |r.value.name| <= MAX_NAME_SIZE && 0 !in r.value.name
                        && r.value.name <= buffer[2..2 + buffer[1]]
                        && (|r.value.name| < buffer[1] ==> buffer[2 + |r.value.name|] == 0)
  {
    match DecodeRequest(buffer)
    case Some(req) =>
      var name := CString(req.name);
      if |name| <= MAX_NAME_SIZE then Some(RequestFields(req.portOffset, name)) else None
    case None => None
  }

  /** processRequest: a request for a buffer that exists here queues the
      requester's request endpoint (the datagram's source address, port
      REQUEST_BASE_PORT plus byte 0) for an ACK; anything else is dropped. */
  function ProcessRequest(s: ServerState, buffer: Bytes, from: U32): ServerState
    requires |buffer| == RECEIVE_BUFFER_SIZE
  {
    var req := RequestIn(buffer);
    var queued := req.Some? && req.value.name in s.local;
    s.(toAck := if queued then
                  var n: Name := req.value.name;
                  s.toAck[n := Waiting(s.toAck, n) + [Endpoint(from, REQUEST_BASE_PORT + req.value.portOffset)]]
                else s.toAck)
  }

  /** The key an ACK in the receive buffer answers, with the ACK: the C
      string the name bytes hold (the key constructor's strcpy) and the
      acking server's request endpoint. */
  function AckIn(buffer: Bytes, from: U32): (r: Option<(RemoteId, AckFields)>)
    requires |buffer| == RECEIVE_BUFFER_SIZE
    ensures r.Some? <==> 10 + buffer[1] <= RECEIVE_BUFFER_SIZE && StrLen(buffer[10..10 + buffer[1]]) <= MAX_NAME_SIZE
    ensures r.Some? ==> r.value.0.name == r.value.1.name
    ensures r.Some? ==> && 0 !in r.value.0.name
                        && r.value.0.name <= buffer[10..10 + buffer[1]]
                        && (|r.value.0.name| < buffer[1] ==> buffer[10 + |r.value.0.name|] == 0)
                        && r.value.0.endpoint == Endpoint(from, REQUEST_BASE_PORT + buffer[0] % 0x10)
                        && r.value.1.length == U16At(buffer, 2) && r.value.1.group == U32At(buffer, 4)
                        && r.value.1.port == U16At(buffer, 8)
  {
    match DecodeAck(buffer)
    case Some(ack) =>
      var name := CString(ack.name);
      if |name| <= MAX_NAME_SIZE then
        Some((RemoteId(name, Endpoint(from, REQUEST_BASE_PORT + ack.portOffset)), ack.(name := name)))
      else None
    case None => None
  }

  /** processACK: an ACK for a key not pending is ignored; otherwise the key
      leaves the pending set, a replica of the announced length is
      allocated (an existing one is kept), and a multicast socket on the
      announced group and port is opened for it. */
  function ProcessAck(s: ServerState, buffer: Bytes, from: U32): ServerState
    requires |buffer| == RECEIVE_BUFFER_SIZE
  {
    var a := AckIn(buffer, from);
    var taken := a.Some? && a.value.0 in s.toFetch;
    var key := if taken then a.value.0 else RemoteId([], Endpoint(0, 0));
    var ack := if taken then a.value.1 else AckFields(0, [], 0, 0, 0);
    s.(toFetch := if taken then s.toFetch - {key} else s.toFetch,
       remote := if taken && key !in s.remote then s.remote[key := NewRemoteBuffer(ack.length)] else s.remote,
       receiveBuffers := if taken && key !in s.receiveBuffers then s.receiveBuffers[key := ack.length]
                         else s.receiveBuffers,
       sockets := if taken then s.sockets + [Listen(key, ack.group, ack.port, true)] else s.sockets)
  }

  /** The receiver's dispatch on the first byte of the receive buffer. */
  function ReceiverStep(s: ServerState, buffer: Bytes, from: U32): ServerState
    requires |buffer| == RECEIVE_BUFFER_SIZE
  {
    match Classify(buffer)
    case Ignore => s
    case Request => ProcessRequest(s, buffer, from)
    case Ack => ProcessAck(s, buffer, from)
  }

  /** The capacity of a key's scratch buffer, as operator[] reads it (a
      missing entry is an empty buffer). */
  function Capacity(s: ServerState, key: RemoteId): nat
  {
    if key in s.receiveBuffers then s.receiveBuffers[key] else 0
  }

  /** What a receive into a scratch buffer of `capacity` bytes delivers: the
      datagram, cut to the capacity. */
  function Delivered(datagram: Bytes, capacity: nat): (d: Bytes)
    ensures |d| == Min(|datagram|, capacity) && d <= datagram
  {
    if |datagram| <= capacity then datagram else datagram[..capacity]
  }

  /** processData, the handler of socket `socket`: it runs only while a
      receive is outstanding on the socket. The delivered bytes replace the
      replica's when their number is exactly the replica's size, and only
      then is the receive re-armed; an error, a wrong size, or a replica
      that no longer exists (its scratch buffer is then released) leaves the
      socket without an outstanding receive. */
  function ProcessData(s: ServerState, socket: nat, error: bool, datagram: Bytes): ServerState
    requires socket < |s.sockets|
  {
    var sock := s.sockets[socket];
    var key := sock.key;
    var got := Delivered(datagram, Capacity(s, key));
    var stale := sock.armed && !error && key !in s.remote;
    var copied := sock.armed && !error && key in s.remote && |got| == s.remote[key].size;
    s.(receiveBuffers := if stale then s.receiveBuffers - {key} else s.receiveBuffers,
       remote := if copied then s.remote[key := s.remote[key].(data := got)] else s.remote,
       sockets := if sock.armed && !copied then s.sockets[socket := sock.(armed := false)] else s.sockets)
  }

  // ---------------------------------------------------------------------
  // Sender

  /** A UDP datagram and where it goes. */
  datatype Datagram = Datagram(dest: Endpoint, payload: Bytes)

  function RequestDatagram(cfg: Config, k: RemoteId): Datagram
    requires ValidConfig(cfg)
  {
    Datagram(k.endpoint, EncodeRequest(cfg.portOffset, k.name))
  }

  /** Some element of a non-empty set, the same one each time. */
  ghost function Pick<T>(s: set<T>): T
    requires s != {}
  {
    var x :| x in s; x
  }

  /** The requests one sender tick sends, counted with multiplicity: one
      per pending key, to its owner. */
  ghost function RequestBatch(cfg: Config, pending: set<RemoteId>): (b: multiset<Datagram>)
    requires ValidConfig(cfg)
    ensures |b| == |pending|
    decreases pending
  {
    if pending == {} then multiset{}
    else
      var k := Pick(pending);
      RequestBatch(cfg, pending - {k}) + multiset{RequestDatagram(cfg, k)}
  }

  function AckDatagram(cfg: Config, name: Name, b: LocalBuffer, dest: Endpoint): Datagram
    requires ValidConfig(cfg)
  {
    Datagram(dest, EncodeAck(cfg.portOffset, name, b.size, b.endpoint.address, b.endpoint.port))
  }

  /** Whether sendACKs answers requests for `name`: the buffer exists and
      is streamed (a local-only buffer is never ACKed). */
  predicate Ackable(local: map<Name, LocalBuffer>, name: Name)
  {
    name in local && local[name].endpoint.port != 0
  }

  /** The ACKs sent for one name, in the order of its requesters: one per
      entry, repeated entries included; none when the name is not ackable. */
  function AckRound(cfg: Config, local: map<Name, LocalBuffer>, name: Name, requesters: seq<Endpoint>): (r: seq<Datagram>)
    requires ValidConfig(cfg)
    ensures |r| == if Ackable(local, name) then |requesters| else 0
    ensures Ackable(local, name) ==>
              forall i :: 0 <= i < |requesters| ==> r[i] == AckDatagram(cfg, name, local[name], requesters[i])
  {
    if Ackable(local, name) then
      seq(|requesters|, i requires 0 <= i < |requesters| => AckDatagram(cfg, name, local[name], requesters[i]))
    else []
  }

  /** The ACKs sent for the names in `names`, counted with multiplicity. */
  ghost function AckBatch(cfg: Config, local: map<Name, LocalBuffer>, toAck: map<Name, seq<Endpoint>>, names: set<Name>): multiset<Datagram>
    requires ValidConfig(cfg) && names <= toAck.Keys
    decreases names
  {
    if names == {} then multiset{}
    else
      var n := Pick(names);
      AckBatch(cfg, local, toAck, names - {n}) + multiset(AckRound(cfg, local, n, toAck[n]))
  }

  /** The ACKs one sender tick sends. */
  ghost function AckBatches(cfg: Config, local: map<Name, LocalBuffer>, toAck: map<Name, seq<Endpoint>>): multiset<Datagram>
    requires ValidConfig(cfg)
  {
    AckBatch(cfg, local, toAck, toAck.Keys)
  }

  /** The multicast datagram of one local buffer: its bytes to its endpoint,
      when it is streamed. */
  function DataRound(local: map<Name, LocalBuffer>, name: Name): multiset<Datagram>
    requires name in local
  {
    if local[name].endpoint.port != 0 then multiset{Datagram(local[name].endpoint, local[name].data)} else multiset{}
  }

  /** The data datagrams for the buffers in `names`, counted with
      multiplicity. */
  ghost function DataBatch(local: map<Name, LocalBuffer>, names: set<Name>): multiset<Datagram>
    requires names <= local.Keys
    decreases names
  {
    if names == {} then multiset{}
    else
      var n := Pick(names);
      DataBatch(local, names - {n}) + DataRound(local, n)
  }
}
