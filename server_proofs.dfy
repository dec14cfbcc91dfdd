/** What the server's operations guarantee: each preserves the invariant,
    and each does what the server promises its clients and peers. */
module ServerProofs {
  import opened Definitions
  import opened Wire
  import opened Arena
  import opened ServerSpec

  // ---------------------------------------------------------------------
  // Parts of the invariant under single updates

  lemma LocalRefCountedAdd(local: map<Name, LocalBuffer>, ls: map<Name, set<ClientId>>, name: Name, b: LocalBuffer, c: ClientId)
    requires LocalRefCounted(local, ls)
    ensures LocalRefCounted(local[name := b], AddListener(ls, name, c))
    ensures name in local ==> LocalRefCounted(local, AddListener(ls, name, c))
  {
  }

  lemma LocalRefCountedDrop(local: map<Name, LocalBuffer>, ls: map<Name, set<ClientId>>, name: Name, c: ClientId)
    requires LocalRefCounted(local, ls)
    ensures var gone := Listeners(ls, name) - {c} == {};
            LocalRefCounted(if gone then local - {name} else local, RemoveListener(ls, name, c))
  {
  }

  lemma RemoteRefCountedAdd(toFetch: set<RemoteId>, remote: map<RemoteId, RemoteBuffer>,
                            ls: map<RemoteId, set<ClientId>>, key: RemoteId, c: ClientId)
    requires RemoteRefCounted(toFetch, remote, ls)
    ensures RemoteRefCounted(if key in remote then toFetch else toFetch + {key}, remote, AddListener(ls, key, c))
  {
  }

  lemma RemoteRefCountedDrop(toFetch: set<RemoteId>, remote: map<RemoteId, RemoteBuffer>,
                             ls: map<RemoteId, set<ClientId>>, key: RemoteId, c: ClientId)
    requires RemoteRefCounted(toFetch, remote, ls)
    ensures var gone := Listeners(ls, key) - {c} == {};
            RemoteRefCounted(if gone then toFetch - {key} else toFetch,
                             if gone && key !in toFetch then remote - {key} else remote,
                             RemoveListener(ls, key, c))
  {
  }

  lemma LocalMirrorAdd(subs: map<ClientId, Subscriptions>, ls: map<Name, set<ClientId>>, c: ClientId, name: Name)
    requires LocalMirror(subs, ls)
    ensures LocalMirror(AddLocalSub(subs, c, name), AddListener(ls, name, c))
  {
  }

  lemma LocalMirrorDrop(subs: map<ClientId, Subscriptions>, ls: map<Name, set<ClientId>>, c: ClientId, name: Name)
    requires LocalMirror(subs, ls)
    ensures LocalMirror(DropLocalSub(subs, c, name), RemoveListener(ls, name, c))
  {
  }

  lemma RemoteMirrorAdd(subs: map<ClientId, Subscriptions>, ls: map<RemoteId, set<ClientId>>, c: ClientId, key: RemoteId)
    requires RemoteMirror(subs, ls)
    ensures RemoteMirror(AddRemoteSub(subs, c, key), AddListener(ls, key, c))
  {
  }

  lemma RemoteMirrorDrop(subs: map<ClientId, Subscriptions>, ls: map<RemoteId, set<ClientId>>, c: ClientId, key: RemoteId)
    requires RemoteMirror(subs, ls)
    ensures RemoteMirror(DropRemoteSub(subs, c, key), RemoveListener(ls, key, c))
  {
  }

  /** Local subscriptions do not matter to the remote mirror. */
  lemma RemoteMirrorIgnoresLocals(subs: map<ClientId, Subscriptions>, ls: map<RemoteId, set<ClientId>>,
                                  subs': map<ClientId, Subscriptions>)
    requires RemoteMirror(subs, ls)
    requires forall c: ClientId :: SubsOf(subs', c).remotes == SubsOf(subs, c).remotes
    ensures RemoteMirror(subs', ls)
  {
  }

  /** Remote subscriptions do not matter to the local mirror. */
  lemma LocalMirrorIgnoresRemotes(subs: map<ClientId, Subscriptions>, ls: map<Name, set<ClientId>>,
                                  subs': map<ClientId, Subscriptions>)
    requires LocalMirror(subs, ls)
    requires forall c: ClientId :: SubsOf(subs', c).locals == SubsOf(subs, c).locals
    ensures LocalMirror(subs', ls)
  {
  }

  /** Erasing a client's record and its listener entries keeps both mirrors. */
  lemma {:induction false} MirrorsForget(subs: map<ClientId, Subscriptions>, lls: map<Name, set<ClientId>>,
                                         rls: map<RemoteId, set<ClientId>>, c: ClientId)
    requires LocalMirror(subs, lls) && RemoteMirror(subs, rls)
    ensures var sub := SubsOf(subs, c);
            && LocalMirror(subs - {c}, DropListenerFrom(lls, sub.locals, c))
            && RemoteMirror(subs - {c}, DropListenerFrom(rls, sub.remotes, c))
  {
    var sub := SubsOf(subs, c);
    var subs' := subs - {c};
    var lls' := DropListenerFrom(lls, sub.locals, c);
    var rls' := DropListenerFrom(rls, sub.remotes, c);
    assert SubsOf(subs', c) == Subscriptions({}, {});
    assert forall c': ClientId :: c' != c ==> SubsOf(subs', c') == SubsOf(subs, c');
    forall c': ClientId, k ensures k in SubsOf(subs', c').locals <==> c' in Listeners(lls', k) {
      if c' == c && c in Listeners(lls, k) {
        assert k in sub.locals;
      }
    }
    forall c': ClientId, k ensures k in SubsOf(subs', c').remotes <==> c' in Listeners(rls', k) {
      if c' == c && c in Listeners(rls, k) {
        assert k in sub.remotes;
      }
    }
  }

  /** Removing a client from the buffers it listens to keeps the local
      reference count, with the buffers left without listeners removed. */
  lemma {:induction false} LocalRefCountedForget(local: map<Name, LocalBuffer>, ls: map<Name, set<ClientId>>,
                                                 keys: set<Name>, c: ClientId)
    requires LocalRefCounted(local, ls)
    requires forall k :: k in keys ==> c in Listeners(ls, k)
    ensures LocalRefCounted(local - Emptied(ls, keys, c), DropListenerFrom(ls, keys, c))
  {
    var ls' := DropListenerFrom(ls, keys, c);
    var local' := local - Emptied(ls, keys, c);
    forall k ensures k in local' <==> Listeners(ls', k) != {} {
      if k in keys {
        assert Listeners(ls, k) != {};
      }
    }
  }

  /** The same for remote keys, pending or replicated. */
  lemma {:induction false} RemoteRefCountedForget(toFetch: set<RemoteId>, remote: map<RemoteId, RemoteBuffer>,
                                                  ls: map<RemoteId, set<ClientId>>, keys: set<RemoteId>, c: ClientId)
    requires RemoteRefCounted(toFetch, remote, ls)
    requires forall k :: k in keys ==> c in Listeners(ls, k)
    ensures var gone := Emptied(ls, keys, c);
            RemoteRefCounted(toFetch - gone, remote - (gone - toFetch), DropListenerFrom(ls, keys, c))
  {
    var gone := Emptied(ls, keys, c);
    var ls' := DropListenerFrom(ls, keys, c);
    forall k ensures k in toFetch - gone || k in remote - (gone - toFetch) <==> Listeners(ls', k) != {} {
      if k in keys {
        assert Listeners(ls, k) != {};
      }
    }
  }

  /** The new buffer's port is not used by any streamed buffer: its slot
      index is the client's counter, above every slot in use. */
  lemma {:induction false} NewPortUnused(cfg: Config, local: map<Name, LocalBuffer>, portOffsets: seq<U8>, c: ClientId)
    requires CountersBounded(portOffsets) && PortsAllocated(cfg, local, portOffsets)
    requires portOffsets[c] < MAX_BUFFERS_PER_CLIENT
    ensures forall k :: k in local && local[k].endpoint.port != 0 ==>
              local[k].endpoint.port != MulticastPort(cfg, c, portOffsets[c])
  {
    var p := MulticastPort(cfg, c, portOffsets[c]);
    SlotOfMulticastPort(cfg, c, portOffsets[c]);
    forall k | k in local && local[k].endpoint.port != 0
      ensures local[k].endpoint.port != p
    {
      var q := local[k].endpoint.port;
      assert SlotIndex(cfg, q) < portOffsets[SlotClient(cfg, q)];
    }
  }

  /** A new streamed buffer in the client's next slot keeps the ports
      allocated and distinct. */
  lemma {:induction false} PortsAfterAllocation(cfg: Config, local: map<Name, LocalBuffer>, portOffsets: seq<U8>,
                                                name: Name, size: U16, c: ClientId)
    requires CountersBounded(portOffsets) && PortsAllocated(cfg, local, portOffsets) && PortsDistinct(local)
    requires name !in local && portOffsets[c] < MAX_BUFFERS_PER_CLIENT
    ensures var b := NewLocalBuffer(size, Endpoint(cfg.multicastAddress, MulticastPort(cfg, c, portOffsets[c])));
            var counters := portOffsets[c := portOffsets[c] + 1];
            && CountersBounded(counters)
            && PortsAllocated(cfg, local[name := b], counters)
            && PortsDistinct(local[name := b])
  {
    NewPortUnused(cfg, local, portOffsets, c);
    SlotOfMulticastPort(cfg, c, portOffsets[c]);
  }

  /** Removing buffers keeps the ports allocated and distinct. */
  lemma PortsAfterRemoval(cfg: Config, local: map<Name, LocalBuffer>, portOffsets: seq<U8>, gone: set<Name>)
    requires CountersBounded(portOffsets) && PortsAllocated(cfg, local, portOffsets) && PortsDistinct(local)
    ensures PortsAllocated(cfg, local - gone, portOffsets) && PortsDistinct(local - gone)
  {
  }

  // ---------------------------------------------------------------------
  // Invariant preservation

  /** Re-registration keeps the invariant. */
  lemma {:induction false} CreateLocalExistingKeepsInv(cfg: Config, s: ServerState, name: Name, size: U16, c: ClientId, localOnly: bool)
    requires Inv(cfg, s) && name in s.local
    ensures Inv(cfg, CreateLocal(cfg, s, name, size, c, localOnly))
  {
    var r := CreateLocal(cfg, s, name, size, c, localOnly);
    assert r == s.(localListeners := AddListener(s.localListeners, name, c),
                   subscriptions := AddLocalSub(s.subscriptions, c, name));
    LocalRefCountedAdd(s.local, s.localListeners, name, s.local[name], c);
    LocalMirrorAdd(s.subscriptions, s.localListeners, c, name);
    RemoteMirrorIgnoresLocals(s.subscriptions, s.remoteListeners, r.subscriptions);
  }

  /** Adding a buffer with the client as its listener keeps the reference
      count, both mirrors and the sizes. */
  lemma {:induction false} AllocationKeepsRecords(s: ServerState, name: Name, b: LocalBuffer, c: ClientId)
    requires LocalRefCounted(s.local, s.localListeners) && SizesMatch(s.local, s.remote)
    requires LocalMirror(s.subscriptions, s.localListeners) && RemoteMirror(s.subscriptions, s.remoteListeners)
    requires |b.data| == b.size
    ensures var ls := AddListener(s.localListeners, name, c);
            var subs := AddLocalSub(s.subscriptions, c, name);
            && LocalRefCounted(s.local[name := b], ls) && SizesMatch(s.local[name := b], s.remote)
            && LocalMirror(subs, ls) && RemoteMirror(subs, s.remoteListeners)
  {
    LocalRefCountedAdd(s.local, s.localListeners, name, b, c);
    LocalMirrorAdd(s.subscriptions, s.localListeners, c, name);
    RemoteMirrorIgnoresLocals(s.subscriptions, s.remoteListeners, AddLocalSub(s.subscriptions, c, name));
  }

  /** Allocating a buffer keeps the invariant. */
  lemma {:induction false} CreateLocalNewKeepsInv(cfg: Config, s: ServerState, name: Name, size: U16, c: ClientId, localOnly: bool)
    requires Inv(cfg, s) && Allocates(s, name, c)
    ensures Inv(cfg, CreateLocal(cfg, s, name, size, c, localOnly))
  {
    var r := CreateLocal(cfg, s, name, size, c, localOnly);
    var b := NewLocalBuffer(size, NewEndpoint(cfg, s, c, localOnly));
    assert r.local == s.local[name := b];
    assert r.localListeners == AddListener(s.localListeners, name, c);
    assert r.subscriptions == AddLocalSub(s.subscriptions, c, name);
    assert r.remote == s.remote && r.toFetch == s.toFetch && r.remoteListeners == s.remoteListeners;
    AllocationKeepsRecords(s, name, b, c);
    if !localOnly {
      assert r.portOffsets == s.portOffsets[c := s.portOffsets[c] + 1];
      PortsAfterAllocation(cfg, s.local, s.portOffsets, name, size, c);
    } else {
      assert r.portOffsets == s.portOffsets;
      assert b.endpoint.port == 0;
    }
  }

  lemma {:induction false} CreateLocalKeepsInv(cfg: Config, s: ServerState, name: Name, size: U16, c: ClientId, localOnly: bool)
    requires Inv(cfg, s)
    ensures Inv(cfg, CreateLocal(cfg, s, name, size, c, localOnly))
  {
    if name in s.local {
      CreateLocalExistingKeepsInv(cfg, s, name, size, c, localOnly);
    } else if Allocates(s, name, c) {
      CreateLocalNewKeepsInv(cfg, s, name, size, c, localOnly);
    } else {
      assert CreateLocal(cfg, s, name, size, c, localOnly) == s;
    }
  }

  lemma {:induction false} FetchRemoteKeepsInv(cfg: Config, s: ServerState, name: Name, addr: U32, po: nat, c: ClientId)
    requires Inv(cfg, s) && po < 16
    ensures Inv(cfg, FetchRemote(s, name, addr, po, c))
  {
    var key := RemoteKeyOf(name, addr, po);
    var r := FetchRemote(s, name, addr, po, c);
    assert r.local == s.local && r.localListeners == s.localListeners && r.portOffsets == s.portOffsets;
    assert r.remote == s.remote;
    RemoteRefCountedAdd(s.toFetch, s.remote, s.remoteListeners, key, c);
    RemoteMirrorAdd(s.subscriptions, s.remoteListeners, c, key);
    LocalMirrorIgnoresRemotes(s.subscriptions, s.localListeners, r.subscriptions);
  }

  lemma {:induction false} DisconnectLocalKeepsInv(cfg: Config, s: ServerState, name: Name, c: ClientId)
    requires Inv(cfg, s)
    ensures Inv(cfg, DisconnectLocal(s, name, c))
  {
    var r := DisconnectLocal(s, name, c);
    assert r.remote == s.remote && r.toFetch == s.toFetch && r.remoteListeners == s.remoteListeners;
    assert r.portOffsets == s.portOffsets;
    LocalRefCountedDrop(s.local, s.localListeners, name, c);
    LocalMirrorDrop(s.subscriptions, s.localListeners, c, name);
    RemoteMirrorIgnoresLocals(s.subscriptions, s.remoteListeners, r.subscriptions);
    PortsAfterRemoval(cfg, s.local, s.portOffsets, {name});
    assert r.local == s.local - {name} || r.local == s.local;
  }

  lemma {:induction false} DisconnectRemoteKeepsInv(cfg: Config, s: ServerState, name: Name, addr: U32, po: nat, c: ClientId)
    requires Inv(cfg, s) && po < 16
    ensures Inv(cfg, DisconnectRemote(s, name, addr, po, c))
  {
    var key := RemoteKeyOf(name, addr, po);
    var r := DisconnectRemote(s, name, addr, po, c);
    assert r.local == s.local && r.localListeners == s.localListeners && r.portOffsets == s.portOffsets;
    RemoteRefCountedDrop(s.toFetch, s.remote, s.remoteListeners, key, c);
    RemoteMirrorDrop(s.subscriptions, s.remoteListeners, c, key);
    LocalMirrorIgnoresRemotes(s.subscriptions, s.localListeners, r.subscriptions);
    assert r.remote.Keys <= s.remote.Keys && forall k :: k in r.remote ==> r.remote[k] == s.remote[k];
  }

  lemma {:induction false} DisconnectClientKeepsInv(cfg: Config, s: ServerState, c: ClientId)
    requires Inv(cfg, s)
    ensures Inv(cfg, DisconnectClient(s, c))
  {
    var sub := SubsOf(s.subscriptions, c);
    var r := DisconnectClient(s, c);
    assert forall k :: k in sub.locals ==> c in Listeners(s.localListeners, k);
    assert forall k :: k in sub.remotes ==> c in Listeners(s.remoteListeners, k);
    LocalRefCountedForget(s.local, s.localListeners, sub.locals, c);
    RemoteRefCountedForget(s.toFetch, s.remote, s.remoteListeners, sub.remotes, c);
    MirrorsForget(s.subscriptions, s.localListeners, s.remoteListeners, c);
    PortsAfterRemoval(cfg, s.local, s.portOffsets, Emptied(s.localListeners, sub.locals, c));
    assert r.portOffsets == s.portOffsets;
  }

  lemma {:induction false} DispatchKeepsInv(cfg: Config, s: ServerState, m: ControlMessage)
    requires Inv(cfg, s)
    ensures Inv(cfg, Dispatch(cfg, s, m))
  {
    var op := HeaderOpcode(m.header);
    var c := HeaderClient(m.header);
    var po := HeaderPortOffset(m.header);
    var name := FieldName(m.name);
    if op == CREATE_LOCAL {
      CreateLocalKeepsInv(cfg, s, name, FooterSize(m.footer), c, false);
    } else if op == CREATE_LOCALONLY {
      CreateLocalKeepsInv(cfg, s, name, FooterSize(m.footer), c, true);
    } else if op == FETCH_REMOTE {
      FetchRemoteKeepsInv(cfg, s, name, m.footer, po, c);
    } else if op == DISCONNECT_LOCAL {
      DisconnectLocalKeepsInv(cfg, s, name, c);
    } else if op == DISCONNECT_REMOTE {
      DisconnectRemoteKeepsInv(cfg, s, name, m.footer, po, c);
    } else if op == DISCONNECT_CLIENT {
      DisconnectClientKeepsInv(cfg, s, c);
    }
  }

  /** An ACK moves its key from pending to replicated. */
  lemma {:induction false} ProcessAckKeepsInv(cfg: Config, s: ServerState, buffer: Bytes, from: U32)
    requires Inv(cfg, s) && |buffer| == RECEIVE_BUFFER_SIZE
    ensures Inv(cfg, ProcessAck(s, buffer, from))
  {
    var r := ProcessAck(s, buffer, from);
    assert r.local == s.local && r.localListeners == s.localListeners && r.portOffsets == s.portOffsets;
    assert r.remoteListeners == s.remoteListeners && r.subscriptions == s.subscriptions;
    var a := AckIn(buffer, from);
    if a.Some? && a.value.0 in s.toFetch {
      var key := a.value.0;
      assert r.toFetch == s.toFetch - {key};
      assert r.remote == s.remote[key := NewRemoteBuffer(a.value.1.length)];
      assert RemoteRefCounted(r.toFetch, r.remote, r.remoteListeners);
    } else {
      assert r.toFetch == s.toFetch && r.remote == s.remote;
    }
  }

  lemma {:induction false} ReceiverStepKeepsInv(cfg: Config, s: ServerState, buffer: Bytes, from: U32)
    requires Inv(cfg, s) && |buffer| == RECEIVE_BUFFER_SIZE
    ensures Inv(cfg, ReceiverStep(s, buffer, from))
  {
    match Classify(buffer)
    case Ignore =>
    case Request =>
      var r := ProcessRequest(s, buffer, from);
      assert r.local == s.local && r.localListeners == s.localListeners && r.portOffsets == s.portOffsets;
      assert r.remoteListeners == s.remoteListeners && r.subscriptions == s.subscriptions;
      assert r.remote == s.remote && r.toFetch == s.toFetch;
    case Ack => ProcessAckKeepsInv(cfg, s, buffer, from);
  }

  lemma {:induction false} ProcessDataKeepsInv(cfg: Config, s: ServerState, socket: nat, error: bool, datagram: Bytes)
    requires Inv(cfg, s) && socket < |s.sockets|
    ensures Inv(cfg, ProcessData(s, socket, error, datagram))
  {
    var r := ProcessData(s, socket, error, datagram);
    assert r.local == s.local && r.localListeners == s.localListeners && r.portOffsets == s.portOffsets;
    assert r.remoteListeners == s.remoteListeners && r.subscriptions == s.subscriptions;
    assert r.toFetch == s.toFetch && r.remote.Keys == s.remote.Keys;
  }

  // ---------------------------------------------------------------------
  // Local buffers

  /** Registering a name that exists only records the client as a listener:
      the buffers and the slot counters are untouched. */
  lemma CreateLocalExisting(cfg: Config, s: ServerState, name: Name, size: U16, c: ClientId, localOnly: bool)
    requires CountersBounded(s.portOffsets) && name in s.local
    ensures var r := CreateLocal(cfg, s, name, size, c, localOnly);
            && r.local == s.local && r.portOffsets == s.portOffsets
            && Listeners(r.localListeners, name) == Listeners(s.localListeners, name) + {c}
            && SubsOf(r.subscriptions, c).locals == SubsOf(s.subscriptions, c).locals + {name}
  {
  }

  /** A client that has used all its slots cannot create any new buffer,
      local-only ones included; the state is unchanged. */
  lemma CreateLocalRejected(cfg: Config, s: ServerState, name: Name, size: U16, c: ClientId, localOnly: bool)
    requires CountersBounded(s.portOffsets) && name !in s.local
    requires s.portOffsets[c] >= MAX_BUFFERS_PER_CLIENT
    ensures CreateLocal(cfg, s, name, size, c, localOnly) == s
  {
  }

  /** A new buffer has the requested size, zeroed contents, the server's
      multicast group, and the client's next slot port (which no other
      streamed buffer uses), or port 0 without using a slot when local-only;
      the client is its only listener. */
  lemma {:induction false} CreateLocalAllocates(cfg: Config, s: ServerState, name: Name, size: U16, c: ClientId, localOnly: bool)
    requires Inv(cfg, s) && name !in s.local
    requires s.portOffsets[c] < MAX_BUFFERS_PER_CLIENT
    ensures var r := CreateLocal(cfg, s, name, size, c, localOnly);
            && r.local.Keys == s.local.Keys + {name}
            && r.local[name].size == size && r.local[name].data == Zeros(size)
            && r.local[name].endpoint.address == cfg.multicastAddress
            && (localOnly ==> r.local[name].endpoint.port == 0 && r.portOffsets == s.portOffsets)
            && (!localOnly ==> r.local[name].endpoint.port == MulticastPort(cfg, c, s.portOffsets[c])
                               && r.portOffsets == s.portOffsets[c := s.portOffsets[c] + 1])
            && Listeners(r.localListeners, name) == {c}
            && (forall k :: k in s.local && s.local[k].endpoint.port != 0 ==>
                  s.local[k].endpoint.port != r.local[name].endpoint.port)
  {
    var r := CreateLocal(cfg, s, name, size, c, localOnly);
    var b := NewLocalBuffer(size, NewEndpoint(cfg, s, c, localOnly));
    assert r.local == s.local[name := b];
    assert r.localListeners == AddListener(s.localListeners, name, c);
    assert Listeners(s.localListeners, name) == {};
    if !localOnly {
      NewPortUnused(cfg, s.local, s.portOffsets, c);
      assert r.portOffsets == s.portOffsets[c := s.portOffsets[c] + 1];
    } else {
      assert r.portOffsets == s.portOffsets;
    }
  }

  /** Registering a name again from a client already listening to it
      changes nothing. */
  lemma {:induction false} CreateLocalRepeated(cfg: Config, t: ServerState, name: Name, size: U16, c: ClientId, localOnly: bool)
    requires CountersBounded(t.portOffsets) && name in t.local
    requires c in Listeners(t.localListeners, name) && name in SubsOf(t.subscriptions, c).locals
    ensures CreateLocal(cfg, t, name, size, c, localOnly) == t
  {
    var r := CreateLocal(cfg, t, name, size, c, localOnly);
    assert Listeners(t.localListeners, name) + {c} == Listeners(t.localListeners, name);
    assert r.localListeners == t.localListeners;
    assert SubsOf(t.subscriptions, c).locals + {name} == SubsOf(t.subscriptions, c).locals;
    assert r.subscriptions == t.subscriptions;
  }

  /** Registering twice is the same as registering once. */
  lemma {:induction false} CreateLocalIdempotent(cfg: Config, s: ServerState, name: Name, size: U16, c: ClientId, localOnly: bool)
    requires CountersBounded(s.portOffsets)
    ensures var r := CreateLocal(cfg, s, name, size, c, localOnly);
            CountersBounded(r.portOffsets) && CreateLocal(cfg, r, name, size, c, localOnly) == r
  {
    var r := CreateLocal(cfg, s, name, size, c, localOnly);
    if name in s.local || Allocates(s, name, c) {
      assert name in r.local;
      assert r.localListeners == AddListener(s.localListeners, name, c);
      assert r.subscriptions == AddLocalSub(s.subscriptions, c, name);
      CreateLocalRepeated(cfg, r, name, size, c, localOnly);
    } else {
      assert r == s;
    }
  }

  /** A local buffer survives a disconnect exactly when some other client
      still listens to it; the client is no longer a listener either way,
      and no other buffer is touched. */
  lemma DisconnectLocalCollects(cfg: Config, s: ServerState, name: Name, c: ClientId)
    requires Inv(cfg, s)
    ensures var r := DisconnectLocal(s, name, c);
            && (name in r.local <==> Listeners(s.localListeners, name) - {c} != {})
            && c !in Listeners(r.localListeners, name)
            && name !in SubsOf(r.subscriptions, c).locals
            && (name in r.local ==> r.local[name] == s.local[name])
            && r.local - {name} == s.local - {name}
  {
  }

  // ---------------------------------------------------------------------
  // Remote buffers

  /** A fetch records the listener, and the key is pending exactly when no
      replica exists yet. */
  lemma FetchRemotePending(cfg: Config, s: ServerState, name: Name, addr: U32, po: nat, c: ClientId)
    requires Inv(cfg, s) && po < 16
    ensures var key := RemoteKeyOf(name, addr, po);
            var r := FetchRemote(s, name, addr, po, c);
            && c in Listeners(r.remoteListeners, key)
            && key in SubsOf(r.subscriptions, c).remotes
            && (key in r.toFetch <==> key !in s.remote)
            && r.remote == s.remote
  {
  }

  /** Fetching twice is the same as fetching once. */
  lemma {:induction false} FetchRemoteIdempotent(s: ServerState, name: Name, addr: U32, po: nat, c: ClientId)
    requires po < 16
    ensures var r := FetchRemote(s, name, addr, po, c);
            FetchRemote(r, name, addr, po, c) == r
  {
    var key := RemoteKeyOf(name, addr, po);
    var r := FetchRemote(s, name, addr, po, c);
    var r2 := FetchRemote(r, name, addr, po, c);
    assert Listeners(r.remoteListeners, key) + {c} == Listeners(r.remoteListeners, key);
    assert r2.remoteListeners == r.remoteListeners;
    assert SubsOf(r.subscriptions, c).remotes + {key} == SubsOf(r.subscriptions, c).remotes;
    assert r2.subscriptions == r.subscriptions;
  }

  /** Removing a key that is still pending only cancels the request: the
      replica map is left alone. A key not pending loses its replica. */
  lemma RemoveRemotePending(s: ServerState, key: RemoteId)
    ensures key in s.toFetch ==> RemoveRemote(s, key).remote == s.remote
    ensures key !in s.toFetch ==> RemoveRemote(s, key).remote == s.remote - {key}
    ensures key !in RemoveRemote(s, key).toFetch
  {
  }

  /** A remote key stays (pending or replicated) after a disconnect exactly
      when some other client still listens to it. */
  lemma DisconnectRemoteCollects(cfg: Config, s: ServerState, name: Name, addr: U32, po: nat, c: ClientId)
    requires Inv(cfg, s) && po < 16
    ensures var key := RemoteKeyOf(name, addr, po);
            var r := DisconnectRemote(s, name, addr, po, c);
            && (key in r.toFetch || key in r.remote <==> Listeners(s.remoteListeners, key) - {c} != {})
            && c !in Listeners(r.remoteListeners, key)
            && key !in SubsOf(r.subscriptions, c).remotes
  {
  }

  // ---------------------------------------------------------------------
  // Client disconnect

  /** After a client disconnects it is in no listener set and has no
      subscription record; exactly the buffers it alone listened to are
      gone, and its slot counter is kept. */
  lemma {:induction false} DisconnectClientForgets(cfg: Config, s: ServerState, c: ClientId)
    requires Inv(cfg, s)
    ensures var r := DisconnectClient(s, c);
            && c !in r.subscriptions
            && (forall k :: c !in Listeners(r.localListeners, k))
            && (forall k :: c !in Listeners(r.remoteListeners, k))
            && (forall k :: k in r.local <==> k in s.local && Listeners(s.localListeners, k) != {c})
            && r.portOffsets == s.portOffsets
  {
    var sub := SubsOf(s.subscriptions, c);
    var r := DisconnectClient(s, c);
    forall k ensures c !in Listeners(r.localListeners, k) {
      if c in Listeners(s.localListeners, k) {
        assert k in sub.locals;
      }
    }
    forall k ensures c !in Listeners(r.remoteListeners, k) {
      if c in Listeners(s.remoteListeners, k) {
        assert k in sub.remotes;
      }
    }
    forall k ensures k in r.local <==> k in s.local && Listeners(s.localListeners, k) != {c} {
      if k in s.local && k in sub.locals {
        assert c in Listeners(s.localListeners, k);
      }
      if k in s.local && k !in sub.locals {
        assert c !in Listeners(s.localListeners, k);
      }
    }
  }

  // ---------------------------------------------------------------------
  // Control loop

  /** The control loop applied to a sequence of full-sized messages. */
  function DispatchAll(cfg: Config, s: ServerState, ms: seq<ControlMessage>): (r: ServerState)
    requires Inv(cfg, s)
    ensures Inv(cfg, r)
    decreases |ms|
  {
    if ms == [] then s
    else
      DispatchKeepsInv(cfg, s, ms[0]);
      DispatchAll(cfg, Dispatch(cfg, s, ms[0]), ms[1..])
  }

  /** One step of the control loop. */
  lemma DispatchAllStep(cfg: Config, s: ServerState, ms: seq<ControlMessage>, i: nat)
    requires Inv(cfg, s) && i < |ms|
    ensures && Inv(cfg, Dispatch(cfg, s, ms[i]))
            && DispatchAll(cfg, s, ms[i..]) == DispatchAll(cfg, Dispatch(cfg, s, ms[i]), ms[i + 1..])
  {
    DispatchKeepsInv(cfg, s, ms[i]);
    assert ms[i..][1..] == ms[i + 1..];
  }

  /** Connect messages and unknown opcodes leave the server unchanged. */
  lemma UnknownOpcodeIgnored(cfg: Config, s: ServerState, m: ControlMessage)
    requires CountersBounded(s.portOffsets) && HeaderOpcode(m.header) > DISCONNECT_CLIENT
    ensures Dispatch(cfg, s, m) == s
  {
  }

  // ---------------------------------------------------------------------
  // Receiver

  /** A request for a buffer this server holds queues an ACK to the
      requester's request port; one for an unknown name changes nothing.
      The name is looked up as the C string it holds. */
  lemma {:induction false} RequestQueuesAck(s: ServerState, portOffset: nat, name: Name, previous: Bytes, from: U32)
    requires portOffset < 16 && |previous| == RECEIVE_BUFFER_SIZE
    ensures var r := ReceiverStep(s, Receive(previous, EncodeRequest(portOffset, name)), from);
            var n: Name := CString(name);
            && (n in s.local ==>
                  r == s.(toAck := s.toAck[n := Waiting(s.toAck, n) + [Endpoint(from, REQUEST_BASE_PORT + portOffset)]]))
            && (n !in s.local ==> r == s)
  {
    RequestRoundTrip(portOffset, name, previous);
  }

  /** A length byte that overstates the name: the bytes after the C string
      are NULs, and the request is for the C string. */
  lemma PaddedRequestName()
    ensures var buffer: Bytes := [0, 5, 0x61, 0x62, 0x63] + Zeros(31);
            RequestIn(buffer) == Some(RequestFields(0, [0x61, 0x62, 0x63]))
  {
    var buffer: Bytes := [0, 5, 0x61, 0x62, 0x63] + Zeros(31);
    var abc: Bytes := [0x61, 0x62, 0x63];
    assert buffer[2..7] == abc + [0] + [0];
    CStringOfTerminated(abc, [0]);
    assert DecodeRequest(buffer) == Some(RequestFields(0, abc + [0] + [0]));
  }

  /** An ACK for a key this server is waiting on turns it into a replica of
      the announced length and opens a socket on the announced group and
      port; an ACK nobody waits for changes nothing. The key is the C
      string the name holds, with the acking server's endpoint. */
  lemma {:induction false} AckCreatesReplica(s: ServerState, key: RemoteId, portOffset: nat, length: U16, group: U32, port: U16, previous: Bytes)
    requires portOffset < 16 && |previous| == RECEIVE_BUFFER_SIZE
    requires key.endpoint.port == REQUEST_BASE_PORT + portOffset
    requires s.toFetch !! s.remote.Keys
    ensures var r := ReceiverStep(s, Receive(previous, EncodeAck(portOffset, key.name, length, group, port)), key.endpoint.address);
            var k := key.(name := CString(key.name));
            && (k in s.toFetch ==>
                  && r.toFetch == s.toFetch - {k}
                  && r.remote == s.remote[k := NewRemoteBuffer(length)]
                  && r.sockets == s.sockets + [Listen(k, group, port, true)]
                  && r.local == s.local)
            && (k !in s.toFetch ==> r == s)
  {
    AckRoundTrip(portOffset, key.name, length, group, port, previous);
  }

  /** The ACK for a 25-byte name as sendACKs writes it: the queue's key was
      built from the name, whose terminator zeroed its `length`, so byte 1
      is 0. The receiving server reads the empty name, and the key it was
      waiting on stays pending with no replica created. */
  lemma {:induction false} FullNameAckAnswersNothing(s: ServerState, name: Name, portOffset: nat, length: U16, group: U32,
                                                     port: U16, previous: Bytes, from: U32)
    requires portOffset < 16 && |previous| == RECEIVE_BUFFER_SIZE
    requires |name| == MAX_NAME_SIZE && 0 !in name
    ensures var b := Receive(previous, EncodeAckAsWritten(portOffset, LocalKeyFromCString(name), length, group, port));
            var key := RemoteId(name, Endpoint(from, REQUEST_BASE_PORT + portOffset));
            var r := ReceiverStep(s, b, from);
            && Classify(b) == Ack
            && AckIn(b, from).Some? && AckIn(b, from).value.0 == RemoteId([], key.endpoint)
            && (key in s.toFetch ==> key in r.toFetch)
            && (key !in s.remote ==> key !in r.remote)
  {
    FullNameLosesLength(name);
    var k := LocalKeyFromCString(name);
    var p := EncodeAckAsWritten(portOffset, k, length, group, port);
    assert Receive(previous, p) == p;
    assert p[0] == portOffset + 0x80 && p[1] == 0;
    assert p[0] % 0x10 == portOffset;
    assert p[10..10] == [];
  }

  /** On a socket with an outstanding receive, a datagram whose delivered
      bytes (the datagram cut to the scratch capacity) number exactly the
      replica's size replaces the replica's bytes and re-arms the receive;
      any other size leaves the bytes alone and the socket without a
      receive. No replica appears or disappears. */
  lemma ProcessDataReplaces(s: ServerState, socket: nat, datagram: Bytes)
    requires socket < |s.sockets| && s.sockets[socket].armed && s.sockets[socket].key in s.remote
    ensures var key := s.sockets[socket].key;
            var got := Delivered(datagram, Capacity(s, key));
            var r := ProcessData(s, socket, false, datagram);
            && (|got| == s.remote[key].size ==> r == s.(remote := s.remote[key := s.remote[key].(data := got)]))
            && (|got| != s.remote[key].size ==> r == s.(sockets := s.sockets[socket := s.sockets[socket].(armed := false)]))
            && r.remote.Keys == s.remote.Keys
  {
  }

  /** An error ends the socket's receiving and changes nothing else. */
  lemma ProcessDataErrorDisarms(s: ServerState, socket: nat, datagram: Bytes)
    requires socket < |s.sockets|
    ensures ProcessData(s, socket, true, datagram) == s.(sockets := s.sockets[socket := s.sockets[socket].(armed := false)])
  {
  }

  /** A socket left without an outstanding receive never delivers again:
      its handler does not run, whatever arrives. */
  lemma DisarmedSocketIsDeaf(s: ServerState, socket: nat, error: bool, datagram: Bytes)
    requires socket < |s.sockets| && !s.sockets[socket].armed
    ensures ProcessData(s, socket, error, datagram) == s
  {
  }

  /** A scratch buffer smaller than the replica (one kept from an earlier
      ACK with a smaller length) never lets any datagram through. */
  lemma {:induction false} ScratchTooSmallNeverCopies(s: ServerState, socket: nat, error: bool, datagram: Bytes)
    requires socket < |s.sockets| && s.sockets[socket].key in s.remote
    requires Capacity(s, s.sockets[socket].key) < s.remote[s.sockets[socket].key].size
    ensures ProcessData(s, socket, error, datagram).remote == s.remote
  {
    var key := s.sockets[socket].key;
    assert |Delivered(datagram, Capacity(s, key))| <= Capacity(s, key);
  }

  // ---------------------------------------------------------------------
  // Sender

  /** Any pending key's request can be taken out of the batch first. */
  lemma {:induction false} RequestBatchRemove(cfg: Config, keys: set<RemoteId>, k: RemoteId)
    requires ValidConfig(cfg) && k in keys
    ensures RequestBatch(cfg, keys) == RequestBatch(cfg, keys - {k}) + multiset{RequestDatagram(cfg, k)}
    decreases keys
  {
    var p := Pick(keys);
    if p != k {
      RequestBatchRemove(cfg, keys - {p}, k);
      RequestBatchRemove(cfg, keys - {k}, p);
      assert keys - {p} - {k} == keys - {k} - {p};
    }
  }

  /** Any name's ACKs can be taken out of the batch first. */
  lemma {:induction false} AckBatchRemove(cfg: Config, local: map<Name, LocalBuffer>, toAck: map<Name, seq<Endpoint>>,
                                          names: set<Name>, n: Name)
    requires ValidConfig(cfg) && names <= toAck.Keys && n in names
    ensures AckBatch(cfg, local, toAck, names) ==
            AckBatch(cfg, local, toAck, names - {n}) + multiset(AckRound(cfg, local, n, toAck[n]))
    decreases names
  {
    var p := Pick(names);
    if p != n {
      AckBatchRemove(cfg, local, toAck, names - {p}, n);
      AckBatchRemove(cfg, local, toAck, names - {n}, p);
      assert names - {p} - {n} == names - {n} - {p};
    }
  }

  /** Any buffer's datagram can be taken out of the batch first. */
  lemma {:induction false} DataBatchRemove(local: map<Name, LocalBuffer>, names: set<Name>, n: Name)
    requires names <= local.Keys && n in names
    ensures DataBatch(local, names) == DataBatch(local, names - {n}) + DataRound(local, n)
    decreases names
  {
    var p := Pick(names);
    if p != n {
      DataBatchRemove(local, names - {p}, n);
      DataBatchRemove(local, names - {n}, p);
      assert names - {p} - {n} == names - {n} - {p};
    }
  }

  /** A sender loop's step: moving key `k` from the keys still to visit to
      the visited ones adds its request to what was sent. */
  lemma RequestBatchStep(cfg: Config, all: set<RemoteId>, rest: set<RemoteId>, k: RemoteId)
    requires ValidConfig(cfg) && k in rest && rest <= all
    ensures RequestBatch(cfg, all - (rest - {k})) == RequestBatch(cfg, all - rest) + multiset{RequestDatagram(cfg, k)}
  {
    RequestBatchRemove(cfg, all - (rest - {k}), k);
    assert all - (rest - {k}) - {k} == all - rest;
  }

  /** The same step for the ACK loop. */
  lemma AckBatchStep(cfg: Config, local: map<Name, LocalBuffer>, toAck: map<Name, seq<Endpoint>>,
                     rest: set<Name>, n: Name)
    requires ValidConfig(cfg) && n in rest && rest <= toAck.Keys
    ensures AckBatch(cfg, local, toAck, toAck.Keys - (rest - {n})) ==
            AckBatch(cfg, local, toAck, toAck.Keys - rest) + multiset(AckRound(cfg, local, n, toAck[n]))
  {
    AckBatchRemove(cfg, local, toAck, toAck.Keys - (rest - {n}), n);
    assert toAck.Keys - (rest - {n}) - {n} == toAck.Keys - rest;
  }

  /** The same step for the data loop. */
  lemma DataBatchStep(local: map<Name, LocalBuffer>, rest: set<Name>, n: Name)
    requires n in rest && rest <= local.Keys
    ensures DataBatch(local, local.Keys - (rest - {n})) == DataBatch(local, local.Keys - rest) + DataRound(local, n)
  {
    DataBatchRemove(local, local.Keys - (rest - {n}), n);
    assert local.Keys - (rest - {n}) - {n} == local.Keys - rest;
  }

  /** Each queued requester of an ackable name gets its ACK in the batch. */
  lemma {:induction false} AckBatchHas(cfg: Config, local: map<Name, LocalBuffer>, toAck: map<Name, seq<Endpoint>>, n: Name, i: nat)
    requires ValidConfig(cfg) && n in toAck && Ackable(local, n) && i < |toAck[n]|
    ensures AckDatagram(cfg, n, local[n], toAck[n][i]) in AckBatches(cfg, local, toAck)
  {
    AckBatchRemove(cfg, local, toAck, toAck.Keys, n);
    assert AckRound(cfg, local, n, toAck[n])[i] == AckDatagram(cfg, n, local[n], toAck[n][i]);
  }

  // ---------------------------------------------------------------------
  // Two servers

  /** The request server A's sender sends for a pending key, received by
      the owner B that streams the buffer, queues an ACK back to A's request
      endpoint, which B's next sender tick sends; that ACK, received by A,
      creates A's replica with B's size and opens an armed socket on B's
      group and port. */
  lemma {:induction false} RequestAckExchange(cfgA: Config, a: ServerState, addrA: U32, cfgB: Config, b: ServerState,
                                             key: RemoteId, prevA: Bytes, prevB: Bytes)
    requires Inv(cfgA, a) && Inv(cfgB, b)
    requires key in a.toFetch && Ackable(b.local, key.name) && 0 !in key.name
    requires key.endpoint.port == REQUEST_BASE_PORT + cfgB.portOffset
    requires |prevA| == RECEIVE_BUFFER_SIZE && |prevB| == RECEIVE_BUFFER_SIZE
    ensures var req := RequestDatagram(cfgA, key);
            var b' := ReceiverStep(b, Receive(prevB, req.payload), addrA);
            var buf := b.local[key.name];
            var ack := AckDatagram(cfgB, key.name, buf, Endpoint(addrA, REQUEST_BASE_PORT + cfgA.portOffset));
            var a' := ReceiverStep(a, Receive(prevA, ack.payload), key.endpoint.address);
            && req in RequestBatch(cfgA, a.toFetch)
            && ack in AckBatches(cfgB, b'.local, b'.toAck)
            && key !in a'.toFetch
            && key in a'.remote && a'.remote[key].size == buf.size
            && a'.sockets == a.sockets + [Listen(key, buf.endpoint.address, buf.endpoint.port, true)]
  {
    var req := RequestDatagram(cfgA, key);
    CStringOfNulFree(key.name);
    RequestBatchRemove(cfgA, a.toFetch, key);
    RequestQueuesAck(b, cfgA.portOffset, key.name, prevB, addrA);
    var b' := ReceiverStep(b, Receive(prevB, req.payload), addrA);
    var j := Endpoint(addrA, REQUEST_BASE_PORT + cfgA.portOffset);
    var w := Waiting(b.toAck, key.name);
    assert b'.local == b.local && b'.toAck[key.name] == w + [j];
    assert b'.toAck[key.name][|w|] == j;
    AckBatchHas(cfgB, b'.local, b'.toAck, key.name, |w|);
    var buf := b.local[key.name];
    AckCreatesReplica(a, key, cfgB.portOffset, buf.size, buf.endpoint.address, buf.endpoint.port, prevA);
  }
}
