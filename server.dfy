/** The server as the program keeps it: a class whose fields are the
    listener maps, the subscription records, the pending-request and
    pending-ACK tables, the per-client slot counters and the receive buffer,
    beside the shared segment. Each method does what the corresponding
    member function of the server does, step by step, and is proved to
    produce the state the value-level specification prescribes. */
module ServerImpl {
  import opened Definitions
  import opened Wire
  import opened Arena
  import opened ServerSpec
  import opened ServerProofs

  /** How a message arrived on the control queue: its bytes and the number
      of bytes the queue reported. */
  datatype Received = Received(message: ControlMessage, size: nat)

  /** The messages the control loop dispatches: those before the first one
      whose size is not QUEUE_MESSAGE_SIZE (that one ends the loop). */
  function FullSized(inbox: seq<Received>): (ms: seq<ControlMessage>)
    ensures |ms| <= |inbox|
    ensures forall i :: 0 <= i < |ms| ==> inbox[i].size == QUEUE_MESSAGE_SIZE && inbox[i].message == ms[i]
    ensures |ms| < |inbox| ==> inbox[|ms|].size != QUEUE_MESSAGE_SIZE
  {
    if inbox == [] || inbox[0].size != QUEUE_MESSAGE_SIZE then []
    else [inbox[0].message] + FullSized(inbox[1..])
  }

  lemma MapRemoveOneMore<K, V>(m: map<K, V>, gone: set<K>, k: K)
    ensures (m - gone) - {k} == m - (gone + {k})
  {
  }

  /** The listener map and removed set after erasing `c` from one more key. */
  lemma {:induction false} DropListenerStep<K(!new)>(m: map<K, set<ClientId>>, done: set<K>, k: K, c: ClientId)
    requires k !in done
    ensures var d := DropListenerFrom(m, done, c);
            && Listeners(d, k) == Listeners(m, k)
            && DropListenerFrom(m, done + {k}, c) == d[k := Listeners(d, k) - {c}]
            && Emptied(m, done + {k}, c) == Emptied(m, done, c) + (if Listeners(m, k) - {c} == {} then {k} else {})
  {
    var d := DropListenerFrom(m, done, c);
    var d' := DropListenerFrom(m, done + {k}, c);
    assert d'.Keys == (d[k := Listeners(d, k) - {c}]).Keys;
    forall x | x in d'.Keys ensures d'[x] == d[k := Listeners(d, k) - {c}][x] {
      assert Listeners(d', x) == d'[x];
    }
  }

  /** disconnectClient's first loop: erases `c` from the listener set of
      each key in `keys`, removing (as removeLocalBuffer does) each buffer
      whose set is left empty. */
  method ReleaseLocals(listeners: map<Name, set<ClientId>>, local: map<Name, LocalBuffer>, keys: set<Name>, c: ClientId)
    returns (listeners': map<Name, set<ClientId>>, local': map<Name, LocalBuffer>)
    ensures listeners' == DropListenerFrom(listeners, keys, c)
    ensures local' == local - Emptied(listeners, keys, c)
  {
    listeners', local' := listeners, local;
    var rest := keys;
    ghost var gone: set<Name> := {};
    while rest != {}
      invariant rest <= keys
      invariant listeners' == DropListenerFrom(listeners, keys - rest, c)
      invariant gone == Emptied(listeners, keys - rest, c)
      invariant local' == local - gone
      decreases rest
    {
      var k :| k in rest;
      DropListenerStep(listeners, keys - rest, k, c);
      assert keys - (rest - {k}) == (keys - rest) + {k};
      listeners' := listeners'[k := Listeners(listeners', k) - {c}];
      if listeners'[k] == {} {
        MapRemoveOneMore(local, gone, k);
        local' := local' - {k};
        gone := gone + {k};
      }
      rest := rest - {k};
    }
    assert keys - rest == keys;
  }

  /** disconnectClient's second loop: the same over remote keys, where a
      key left without listeners leaves the pending set if it is pending
      and otherwise has its replica removed (removeRemoteBuffer). */
  method ReleaseRemotes(listeners: map<RemoteId, set<ClientId>>, toFetch: set<RemoteId>,
                        remote: map<RemoteId, RemoteBuffer>, keys: set<RemoteId>, c: ClientId)
    returns (listeners': map<RemoteId, set<ClientId>>, toFetch': set<RemoteId>, remote': map<RemoteId, RemoteBuffer>)
    ensures listeners' == DropListenerFrom(listeners, keys, c)
    ensures toFetch' == toFetch - Emptied(listeners, keys, c)
    ensures remote' == remote - (Emptied(listeners, keys, c) - toFetch)
  {
    listeners', toFetch', remote' := listeners, toFetch, remote;
    var rest := keys;
    ghost var gone: set<RemoteId> := {};
    while rest != {}
      invariant rest <= keys
      invariant listeners' == DropListenerFrom(listeners, keys - rest, c)
      invariant gone == Emptied(listeners, keys - rest, c)
      invariant toFetch' == toFetch - gone && remote' == remote - (gone - toFetch)
      decreases rest
    {
      var k :| k in rest;
      DropListenerStep(listeners, keys - rest, k, c);
      assert keys - (rest - {k}) == (keys - rest) + {k};
      listeners' := listeners'[k := Listeners(listeners', k) - {c}];
      if listeners'[k] == {} {
        RemoteReleaseStep(toFetch, remote, gone, k);
        if k in toFetch' {
          toFetch' := toFetch' - {k};
        } else {
          remote' := remote' - {k};
        }
        gone := gone + {k};
      }
      rest := rest - {k};
    }
    assert keys - rest == keys;
  }

  /** One more key released: a pending key leaves the pending set, any
      other key leaves the replica map. */
  lemma RemoteReleaseStep(toFetch: set<RemoteId>, remote: map<RemoteId, RemoteBuffer>, gone: set<RemoteId>, k: RemoteId)
    requires k !in gone
    ensures k in toFetch - gone <==> k in toFetch
    ensures k in toFetch ==>
              && (toFetch - gone) - {k} == toFetch - (gone + {k})
              && remote - ((gone + {k}) - toFetch) == remote - (gone - toFetch)
    ensures k !in toFetch ==>
              && toFetch - (gone + {k}) == toFetch - gone
              && (remote - (gone - toFetch)) - {k} == remote - ((gone + {k}) - toFetch)
  {
    if k in toFetch {
      assert (gone + {k}) - toFetch == gone - toFetch;
    } else {
      assert (gone + {k}) - toFetch == (gone - toFetch) + {k};
    }
  }

  class Server {
    const cfg: Config
    /** The shared segment holding the local and remote buffer maps. */
    const segment: Segment
    /** Per-client count of the multicast slots used (MAX_CLIENTS entries). */
    const portOffsets: array<U8>
    /** The buffer every server-to-server datagram is received into. */
    const receiveBuffer: array<U8>
    var localListeners: map<Name, set<ClientId>>
    var remoteListeners: map<RemoteId, set<ClientId>>
    var subscriptions: map<ClientId, Subscriptions>
    var toFetch: set<RemoteId>
    var toAck: map<Name, seq<Endpoint>>
    var receiveBuffers: map<RemoteId, U16>
    var sockets: seq<Listen>

    /** The shape every operation relies on: the arrays' sizes, a port
        offset that fits a nibble, and slot counters within their bound. */
    ghost predicate Shape()
      reads this, portOffsets
    {
      && portOffsets.Length == MAX_CLIENTS
      && receiveBuffer.Length == RECEIVE_BUFFER_SIZE
      && receiveBuffer != portOffsets
      && ValidConfig(cfg)
      && CountersBounded(portOffsets[..])
    }

    /** The shape plus the server's bookkeeping invariant. */
    ghost predicate Valid()
      reads this, segment, portOffsets
    {
      Shape() && Inv(cfg, State())
    }

    /** The server's bookkeeping as a value. */
    function State(): ServerState
      reads this, segment, portOffsets
    {
      ServerState(segment.local, segment.remote, localListeners, remoteListeners, subscriptions,
                  toFetch, toAck, portOffsets[..], receiveBuffers, sockets)
    }

    /** A server with the given ID: its configuration derived from the ID,
        empty tables, every client's slot counter 0. */
    constructor (serverID: U8)
      requires serverID < 255
      ensures Valid() && fresh(segment) && fresh(portOffsets) && fresh(receiveBuffer)
      ensures cfg == MakeConfig(serverID) && State() == InitialState()
    {
      cfg := MakeConfig(serverID);
      segment := new Segment();
      portOffsets := new U8[MAX_CLIENTS](_ => 0);
      receiveBuffer := new U8[RECEIVE_BUFFER_SIZE](_ => 0);
      localListeners := map[];
      remoteListeners := map[];
      subscriptions := map[];
      toFetch := {};
      toAck := map[];
      receiveBuffers := map[];
      sockets := [];
      new;
      assert portOffsets[..] == seq(MAX_CLIENTS, _ => 0);
      InitialStateValid(cfg);
    }

    // -------------------------------------------------------------------
    // Control operations. Each takes the client ID and port offset the
    // control loop decoded from the header.

    method CreateLocalBuffer(name: Name, size: U16, c: ClientId, localOnly: bool)
      requires Shape()
      modifies this, segment, portOffsets
      ensures Shape()
      ensures State() == CreateLocal(cfg, old(State()), name, size, c, localOnly)
    {
      if name in segment.local {
        localListeners := AddListener(localListeners, name, c);
        subscriptions := AddLocalSub(subscriptions, c, name);
        return;
      }
      if portOffsets[c] > MAX_BUFFERS_PER_CLIENT - 1 {
        return;
      }
      AllocateLocal(name, size, c, localOnly);
    }

    /** The allocating branch of createLocalBuffer: the client is recorded
        as the only listener, the endpoint is the multicast group with the
        client's next slot port (or port 0 when local-only, which uses no
        slot), and a zeroed region is allocated. */
    method AllocateLocal(name: Name, size: U16, c: ClientId, localOnly: bool)
      requires Shape() && name !in segment.local && portOffsets[c] < MAX_BUFFERS_PER_CLIENT
      modifies this, segment, portOffsets
      ensures Shape()
      ensures State() == CreateLocal(cfg, old(State()), name, size, c, localOnly)
    {
      localListeners := AddListener(localListeners, name, c);
      subscriptions := AddLocalSub(subscriptions, c, name);
      var endpoint: Endpoint;
      if localOnly {
        endpoint := Endpoint(cfg.multicastAddress, 0);
      } else {
        endpoint := Endpoint(cfg.multicastAddress, MulticastPort(cfg, c, portOffsets[c]));
        portOffsets[c] := portOffsets[c] + 1;
      }
      segment.local := segment.local[name := NewLocalBuffer(size, endpoint)];
    }

    method FetchRemoteBuffer(name: Name, addr: U32, portOffset: nat, c: ClientId)
      requires Shape() && portOffset < 16
      modifies this
      ensures Shape()
      ensures State() == FetchRemote(old(State()), name, addr, portOffset, c)
    {
      var key := RemoteId(name, Endpoint(addr, REQUEST_BASE_PORT + portOffset));
      remoteListeners := AddListener(remoteListeners, key, c);
      subscriptions := AddRemoteSub(subscriptions, c, key);
      if key in segment.remote {
        return;
      }
      toFetch := toFetch + {key};
    }

    method DisconnectLocalBuffer(name: Name, c: ClientId)
      requires Shape()
      modifies this, segment
      ensures Shape()
      ensures State() == DisconnectLocal(old(State()), name, c)
    {
      localListeners := RemoveListener(localListeners, name, c);
      subscriptions := DropLocalSub(subscriptions, c, name);
      if localListeners[name] == {} {
        RemoveLocalBuffer(name);
      }
    }

    method DisconnectRemoteBuffer(name: Name, addr: U32, portOffset: nat, c: ClientId)
      requires Shape() && portOffset < 16
      modifies this, segment
      ensures Shape()
      ensures State() == DisconnectRemote(old(State()), name, addr, portOffset, c)
    {
      var key := RemoteId(name, Endpoint(addr, REQUEST_BASE_PORT + portOffset));
      remoteListeners := RemoveListener(remoteListeners, key, c);
      subscriptions := DropRemoteSub(subscriptions, c, key);
      if remoteListeners[key] == {} {
        RemoveRemoteBuffer(key);
      }
    }

    method RemoveLocalBuffer(name: Name)
      requires Shape()
      modifies segment
      ensures Shape()
      ensures State() == RemoveLocal(old(State()), name)
    {
      if name in segment.local {
        segment.local := segment.local - {name};
      }
    }

    method RemoveRemoteBuffer(key: RemoteId)
      requires Shape()
      modifies this, segment
      ensures Shape()
      ensures State() == RemoveRemote(old(State()), key)
    {
      if key in toFetch {
        toFetch := toFetch - {key};
      } else if key in segment.remote {
        segment.remote := segment.remote - {key};
      }
    }

    /** disconnectClient: erases the client from every buffer it is
        subscribed to, removing the buffers left without listeners, then
        erases the client's record. */
    method DisconnectClient(c: ClientId)
      requires Shape()
      modifies this, segment
      ensures Shape()
      ensures State() == ServerSpec.DisconnectClient(old(State()), c)
    {
      var sub := SubsOf(subscriptions, c);
      var ls, local := ReleaseLocals(localListeners, segment.local, sub.locals, c);
      var rs, pending, remote := ReleaseRemotes(remoteListeners, toFetch, segment.remote, sub.remotes, c);
      localListeners, remoteListeners, toFetch := ls, rs, pending;
      segment.local, segment.remote := local, remote;
      subscriptions := subscriptions - {c};
    }

    /** One iteration of the control loop: the header's opcode selects the
        operation; connect messages and unknown opcodes are ignored. */
    method HandleMessage(m: ControlMessage)
      requires Valid()
      modifies this, segment, portOffsets
      ensures Valid()
      ensures State() == Dispatch(cfg, old(State()), m)
    {
      DispatchKeepsInv(cfg, State(), m);
      var op := HeaderOpcode(m.header);
      var c := HeaderClient(m.header);
      var po := HeaderPortOffset(m.header);
      var name := FieldName(m.name);
      if op == CREATE_LOCAL {
        CreateLocalBuffer(name, FooterSize(m.footer), c, false);
      } else if op == CREATE_LOCALONLY {
        CreateLocalBuffer(name, FooterSize(m.footer), c, true);
      } else if op == FETCH_REMOTE {
        FetchRemoteBuffer(name, m.footer, po, c);
      } else if op == DISCONNECT_LOCAL {
        DisconnectLocalBuffer(name, c);
      } else if op == DISCONNECT_REMOTE {
        DisconnectRemoteBuffer(name, m.footer, po, c);
      } else if op == DISCONNECT_CLIENT {
        DisconnectClient(c);
      }
    }

    /** The control loop: handles messages until one arrives whose size is
        not QUEUE_MESSAGE_SIZE. */
    method Start(inbox: seq<Received>)
      requires Valid()
      modifies this, segment, portOffsets
      ensures Valid()
      ensures State() == DispatchAll(cfg, old(State()), FullSized(inbox))
    {
      ghost var ms := FullSized(inbox);
      ghost var s0 := State();
      var i := 0;
      while i < |inbox| && inbox[i].size == QUEUE_MESSAGE_SIZE
        invariant 0 <= i <= |ms|
        invariant Valid()
        invariant DispatchAll(cfg, s0, ms) == DispatchAll(cfg, State(), ms[i..])
        decreases |inbox| - i
      {
        DispatchAllStep(cfg, State(), ms, i);
        HandleMessage(inbox[i].message);
        i := i + 1;
      }
      assert i == |ms|;
    }

    // -------------------------------------------------------------------
    // Receiver

    /** One pass of the receiver loop: the datagram is received into the
        receive buffer, and its first byte selects what is done with it. */
    method ReceiveDatagram(packet: Bytes, from: U32)
      requires Valid()
      modifies this, segment, receiveBuffer
      ensures Valid()
      ensures receiveBuffer[..] == Receive(old(receiveBuffer[..]), packet)
      ensures State() == ReceiverStep(old(State()), receiveBuffer[..], from)
    {
      CopyIn(packet);
      ReceiverStepKeepsInv(cfg, State(), receiveBuffer[..], from);
      if receiveBuffer[0] == 0xFF {
        return;
      }
      if receiveBuffer[0] < 0x80 {
        ProcessRequest(from);
      } else {
        ProcessAck(from);
      }
    }

    /** receive_from into the receive buffer: the datagram's first bytes,
        at most the buffer's size, overwrite the buffer's first bytes. */
    method CopyIn(packet: Bytes)
      requires receiveBuffer.Length == RECEIVE_BUFFER_SIZE
      modifies receiveBuffer
      ensures receiveBuffer[..] == Receive(old(receiveBuffer[..]), packet)
    {
      var n := if |packet| < RECEIVE_BUFFER_SIZE then |packet| else RECEIVE_BUFFER_SIZE;
      for i := 0 to n
        invariant forall j :: 0 <= j < i ==> receiveBuffer[j] == packet[j]
        invariant forall j :: i <= j < RECEIVE_BUFFER_SIZE ==> receiveBuffer[j] == old(receiveBuffer[j])
      {
        receiveBuffer[i] := packet[i];
      }
      assert forall j :: 0 <= j < RECEIVE_BUFFER_SIZE ==> receiveBuffer[j] == Receive(old(receiveBuffer[..]), packet)[j];
    }

    /** processRequest: reads the name and the requester's port offset from
        the receive buffer and, when the name is a local buffer, queues the
        requester's request endpoint for an ACK. */
    method ProcessRequest(from: U32)
      requires Shape()
      modifies this
      ensures Shape()
      ensures State() == ServerSpec.ProcessRequest(old(State()), receiveBuffer[..], from)
    {
      var len := receiveBuffer[1];
      if 2 + len > RECEIVE_BUFFER_SIZE {
        return;
      }
      var name := CString(receiveBuffer[2..2 + len]);
      if |name| > MAX_NAME_SIZE {
        return;
      }
      var endpoint := Endpoint(from, REQUEST_BASE_PORT + receiveBuffer[0]);
      if name in segment.local {
        toAck := toAck[name := Waiting(toAck, name) + [endpoint]];
      }
    }

    /** processACK: an ACK for a pending key takes it out of the pending
        set, creates the replica (createRemoteBuffer keeps an existing one),
        records its scratch buffer, and opens a socket on the announced
        multicast group and port. */
    method ProcessAck(from: U32)
      requires Shape()
      modifies this, segment
      ensures Shape()
      ensures State() == ServerSpec.ProcessAck(old(State()), receiveBuffer[..], from)
    {
      var len := receiveBuffer[1];
      if 10 + len > RECEIVE_BUFFER_SIZE {
        return;
      }
      var name := CString(receiveBuffer[10..10 + len]);
      if |name| > MAX_NAME_SIZE {
        return;
      }
      var key := RemoteId(name, Endpoint(from, REQUEST_BASE_PORT + receiveBuffer[0] % 0x10));
      ghost var ack := AckFields(receiveBuffer[0] % 0x10, name, U16At(receiveBuffer[..], 2),
                                 U32At(receiveBuffer[..], 4), U16At(receiveBuffer[..], 8));
      assert AckIn(receiveBuffer[..], from) == Some((key, ack));
      if key !in toFetch {
        return;
      }
      toFetch := toFetch - {key};
      var length := U16At(receiveBuffer[..], 2);
      if key !in segment.remote {
        segment.remote := segment.remote[key := NewRemoteBuffer(length)];
      }
      if key !in receiveBuffers {
        receiveBuffers := receiveBuffers[key := length];
      }
      var group := U32At(receiveBuffer[..], 4);
      var port := U16At(receiveBuffer[..], 8);
      sockets := sockets + [Listen(key, group, port, true)];
    }

    /** processData: the handler of socket `socket`, given the datagram that
        arrived on it (or an error). The datagram is received into the
        key's scratch buffer, so at most its capacity is delivered; a
        successful copy re-arms the receive. */
    method ProcessData(socket: nat, error: bool, datagram: Bytes)
      requires Valid() && socket < |sockets|
      modifies this, segment
      ensures Valid()
      ensures State() == ServerSpec.ProcessData(old(State()), socket, error, datagram)
    {
      ProcessDataKeepsInv(cfg, State(), socket, error, datagram);
      HandleData(socket, error, datagram);
    }

    /** The body of processData, on the shape alone: nothing happens
        unless a receive is outstanding; an error, or a key whose replica
        is gone (whose scratch buffer is then dropped), ends the receive. */
    method HandleData(socket: nat, error: bool, datagram: Bytes)
      requires Shape() && socket < |sockets|
      modifies this, segment
      ensures Shape()
      ensures State() == ServerSpec.ProcessData(old(State()), socket, error, datagram)
    {
      var sock := sockets[socket];
      if !sock.armed {
        return;
      }
      if error {
        sockets := sockets[socket := sock.(armed := false)];
        return;
      }
      if sock.key !in segment.remote {
        receiveBuffers := receiveBuffers - {sock.key};
        sockets := sockets[socket := sock.(armed := false)];
        return;
      }
      Deliver(socket, datagram);
    }

    /** A datagram received into the scratch buffer of a live replica: at
        most the scratch buffer's capacity arrives; the replica takes the
        bytes when their number is its size, and otherwise the receive
        ends. */
    method Deliver(socket: nat, datagram: Bytes)
      requires Shape() && socket < |sockets| && sockets[socket].armed && sockets[socket].key in segment.remote
      modifies this, segment
      ensures Shape()
      ensures State() == ServerSpec.ProcessData(old(State()), socket, false, datagram)
    {
      var sock := sockets[socket];
      var key := sock.key;
      var capacity := if key in receiveBuffers then receiveBuffers[key] else 0;
      var got := if |datagram| <= capacity then datagram else datagram[..capacity];
      assert got == Delivered(datagram, Capacity(State(), key));
      if segment.remote[key].size != |got| {
        sockets := sockets[socket := sock.(armed := false)];
        return;
      }
      segment.remote := segment.remote[key := segment.remote[key].(data := got)];
    }

    // -------------------------------------------------------------------
    // Sender

    /** sendRequests: one request to each pending key's owner. */
    method SendRequests() returns (sent: seq<Datagram>)
      requires Shape()
      ensures multiset(sent) == RequestBatch(cfg, toFetch)
    {
      sent := [];
      var rest := toFetch;
      while rest != {}
        invariant rest <= toFetch
        invariant multiset(sent) == RequestBatch(cfg, toFetch - rest)
        decreases rest
      {
        var k :| k in rest;
        var payload := BuildRequest(cfg.portOffset, k.name);
        RequestBatchStep(cfg, toFetch, rest, k);
        sent := sent + [Datagram(k.endpoint, payload)];
        rest := rest - {k};
      }
      assert toFetch - rest == toFetch;
    }

    /** sendACKs: for each name with queued requesters whose buffer exists
        and is streamed, one ACK per queued requester; then the queue is
        cleared. */
    method SendAcks() returns (sent: seq<Datagram>)
      requires Shape()
      modifies this
      ensures Shape()
      ensures multiset(sent) == AckBatches(cfg, segment.local, old(toAck))
      ensures State() == old(State()).(toAck := map[])
    {
      sent := AcksFor(cfg, segment.local, toAck);
      toAck := map[];
    }

    /** sendData: every streamed local buffer's bytes to its multicast
        endpoint. */
    method SendData() returns (sent: seq<Datagram>)
      requires Shape()
      ensures multiset(sent) == DataBatch(segment.local, segment.local.Keys)
    {
      sent := [];
      var rest := segment.local.Keys;
      while rest != {}
        invariant rest <= segment.local.Keys
        invariant multiset(sent) == DataBatch(segment.local, segment.local.Keys - rest)
        decreases rest
      {
        var n :| n in rest;
        DataBatchStep(segment.local, rest, n);
        var endpoint := segment.local[n].endpoint;
        if endpoint.port != 0 {
          sent := sent + [Datagram(endpoint, segment.local[n].data)];
        }
        rest := rest - {n};
      }
      assert segment.local.Keys - rest == segment.local.Keys;
    }

    /** One pass of the sender loop: requests, then ACKs, then data. */
    method SenderTick() returns (sent: seq<Datagram>)
      requires Valid()
      modifies this
      ensures Valid()
      ensures multiset(sent) == RequestBatch(cfg, old(toFetch)) + AckBatches(cfg, old(segment.local), old(toAck))
                                + DataBatch(old(segment.local), old(segment.local).Keys)
      ensures State() == old(State()).(toAck := map[])
    {
      var requests := SendRequests();
      var acks := SendAcks();
      var data := SendData();
      sent := requests + acks + data;
    }
  }

  /** sendACKs' loops: for each name with queued requesters whose buffer
      exists and is streamed, the ACK is built once and sent to each
      requester in turn. */
  method AcksFor(cfg: Config, local: map<Name, LocalBuffer>, pending: map<Name, seq<Endpoint>>) returns (sent: seq<Datagram>)
    requires ValidConfig(cfg)
    ensures multiset(sent) == AckBatches(cfg, local, pending)
  {
    sent := [];
    var names := pending.Keys;
    while names != {}
      invariant names <= pending.Keys
      invariant multiset(sent) == AckBatch(cfg, local, pending, pending.Keys - names)
      decreases names
    {
      var n :| n in names;
      AckBatchStep(cfg, local, pending, names, n);
      var round: seq<Datagram> := [];
      if n in local && local[n].endpoint.port != 0 {
        var b := local[n];
        var payload := BuildAck(cfg.portOffset, n, b.size, b.endpoint.address, b.endpoint.port);
        round := AckEach(pending[n], payload);
      }
      assert round == AckRound(cfg, local, n, pending[n]);
      sent := sent + round;
      names := names - {n};
    }
    assert pending.Keys - names == pending.Keys;
  }

  /** sendACKs' inner loop: the same ACK to each requester in turn, one
      per entry. */
  method AckEach(requesters: seq<Endpoint>, payload: Bytes) returns (sent: seq<Datagram>)
    ensures |sent| == |requesters|
    ensures forall i :: 0 <= i < |requesters| ==> sent[i] == Datagram(requesters[i], payload)
  {
    sent := [];
    for i := 0 to |requesters|
      invariant |sent| == i
      invariant forall j :: 0 <= j < i ==> sent[j] == Datagram(requesters[j], payload)
    {
      sent := sent + [Datagram(requesters[i], payload)];
    }
  }

  /** memcpy / strcpy into a send buffer: `src` is written at `at`, the
      other bytes are left alone. */
  method CopyBytes(a: array<U8>, at: nat, src: Bytes)
    requires at + |src| <= a.Length
    modifies a
    ensures forall j :: 0 <= j < a.Length ==> a[j] == if at <= j < at + |src| then src[j - at] else old(a[j])
  {
    for i := 0 to |src|
      invariant forall j :: 0 <= j < a.Length ==> a[j] == if at <= j < at + i then src[j - at] else old(a[j])
    {
      a[at + i] := src[i];
    }
  }

  /** The request datagram sendRequests builds in a 28-byte array: the
      sender's port offset, the name length, then the name and its
      terminator. */
  method BuildRequest(portOffset: nat, name: Name) returns (p: Bytes)
    requires portOffset < 16
    ensures p == EncodeRequest(portOffset, name)
  {
    var a := new U8[REQUEST_SIZE](_ => 0);
    a[0] := portOffset;
    a[1] := |name|;
    CopyBytes(a, 2, name + [0]);
    p := a[..];
    ghost var e := EncodeRequest(portOffset, name);
    forall j | 0 <= j < REQUEST_SIZE ensures p[j] == e[j] {
      if j >= 2 + |name| {
        assert e[j] == Zeros(REQUEST_SIZE - 2 - |name|)[j - 2 - |name|];
      }
    }
  }

  /** The ACK datagram sendACKs builds in a 36-byte array: the port offset
      with bit 7 set, the name length, the buffer length, multicast address
      and port copied in memory (little-endian) order, then the name and its
      terminator. */
  method BuildAck(portOffset: nat, name: Name, length: U16, group: U32, port: U16) returns (p: Bytes)
    requires portOffset < 16
    ensures p == EncodeAck(portOffset, name, length, group, port)
  {
    var a := new U8[ACK_SIZE](_ => 0);
    a[0] := portOffset + 0x80;
    a[1] := |name|;
    CopyBytes(a, 2, U16Bytes(length));
    CopyBytes(a, 4, U32Bytes(group));
    CopyBytes(a, 8, U16Bytes(port));
    CopyBytes(a, 10, name + [0]);
    p := a[..];
    ghost var e := EncodeAck(portOffset, name, length, group, port);
    ghost var head := [portOffset + 0x80, |name|] + U16Bytes(length) + U32Bytes(group) + U16Bytes(port);
    assert e == head + name + Zeros(ACK_SIZE - 10 - |name|);
    forall j | 0 <= j < ACK_SIZE ensures p[j] == e[j] {
      if j >= 10 + |name| {
        assert e[j] == Zeros(ACK_SIZE - 10 - |name|)[j - 10 - |name|];
      } else if j >= 10 {
        assert e[j] == name[j - 10];
      } else {
        assert e[j] == head[j];
      }
    }
  }
}
