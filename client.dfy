/** The client library: a process that talks to its local server through
    the server's message queue and reads and writes buffer contents
    directly in the shared segment. */
module ClientApi {
  import opened Definitions
  import opened Wire
  import opened Arena
  import opened ServerSpec

  // ---------------------------------------------------------------------
  // The messages a client sends

  /** The header a client writes: its ID, the opcode shifted by 4 and the
      port offset shifted by 8. */
  function Header(c: ClientId, opcode: nat, portOffset: nat): U16
    requires opcode < 16 && portOffset < 16
  {
    PackHeader(c, opcode, portOffset)
  }

  function CreateMessage(c: ClientId, name: Bytes, length: U16, localOnly: bool): ControlMessage
  {
    EmptyMessage().(header := Header(c, if localOnly then CREATE_LOCALONLY else CREATE_LOCAL, 0),
                    name := FillNameField(name),
                    footer := WithFooterSize(EmptyMessage().footer, length))
  }

  function FetchMessage(c: ClientId, name: Bytes, addr: U32, portOffset: nat): ControlMessage
    requires portOffset < 16
  {
    EmptyMessage().(header := Header(c, FETCH_REMOTE, portOffset), name := FillNameField(name), footer := addr)
  }

  function DisconnectLocalMessage(c: ClientId, name: Bytes): ControlMessage
  {
    EmptyMessage().(header := Header(c, DISCONNECT_LOCAL, 0), name := FillNameField(name))
  }

  function DisconnectRemoteMessage(c: ClientId, name: Bytes, addr: U32, portOffset: nat): ControlMessage
    requires portOffset < 16
  {
    EmptyMessage().(header := Header(c, DISCONNECT_REMOTE, portOffset), name := FillNameField(name), footer := addr)
  }

  function DisconnectClientMessage(c: ClientId): ControlMessage
  {
    EmptyMessage().(header := Header(c, DISCONNECT_CLIENT, 0))
  }

  // ---------------------------------------------------------------------
  // Name checks

  /** The name check as the client writes it: at most 26 bytes. */
  predicate NameAcceptedAsWritten(name: Bytes)
  {
    |name| <= 26
  }

  /** A 26-byte name passes the client's check, yet the 25-byte name field
      cannot carry it: the server would see a different name. */
  lemma AcceptedNameDoesNotFit()
    ensures var name: Bytes := seq(26, _ => 0x61);
            && NameAcceptedAsWritten(name)
            && FieldName(FillNameField(name)) != name
  {
    var name: Bytes := seq(26, _ => 0x61);
    assert |FieldName(FillNameField(name))| <= MAX_NAME_SIZE;
  }

  /** The intended name check: a name fits the message's name field. */
  predicate NameAccepted(name: Bytes)
  {
    |name| <= MAX_NAME_SIZE
  }

  /** Every name the intended check accepts reaches the server intact (when
      it is a C string without an embedded NUL). */
  lemma AcceptedNameArrives(name: Bytes)
    requires 0 !in name
    ensures NameAccepted(name) ==> FieldName(FillNameField(name)) == name
    ensures NameAccepted(name) <==> FieldName(FillNameField(name)) == name
  {
    NameFieldRoundTrip(name);
    if !NameAccepted(name) {
      assert |FieldName(FillNameField(name))| < |name|;
    }
  }

  // ---------------------------------------------------------------------
  // What each message makes the server do

  /** The name the server reads from a client's message is the C string of
      the name the client passed, whenever the client's check accepted it. */
  lemma {:induction false} ClientNameArrives(name: Bytes)
    requires NameAccepted(name)
    ensures FieldName(FillNameField(name)) == CString(name)
  {
    var c := CString(name);
    CStringOfNulFree(c);
    assert CString(c) == c;
    assert FillNameField(name) == FillNameField(c);
    NameFieldRoundTrip(c);
  }

  /** A registration message makes the server create (or re-register) the
      local buffer under the client's ID, with the requested size. */
  lemma CreateMessageDispatch(cfg: Config, s: ServerState, c: ClientId, name: Bytes, length: U16, localOnly: bool)
    requires CountersBounded(s.portOffsets) && NameAccepted(name)
    ensures Dispatch(cfg, s, CreateMessage(c, name, length, localOnly)) == CreateLocal(cfg, s, CString(name), length, c, localOnly)
  {
    ClientNameArrives(name);
  }

  /** A fetch message makes the server subscribe the client to the buffer
      `name` of the server at `addr` with the given port offset. */
  lemma FetchMessageDispatch(cfg: Config, s: ServerState, c: ClientId, name: Bytes, addr: U32, portOffset: nat)
    requires CountersBounded(s.portOffsets) && NameAccepted(name) && portOffset < 16
    ensures Dispatch(cfg, s, FetchMessage(c, name, addr, portOffset)) == FetchRemote(s, CString(name), addr, portOffset, c)
  {
    ClientNameArrives(name);
  }

  lemma DisconnectLocalMessageDispatch(cfg: Config, s: ServerState, c: ClientId, name: Bytes)
    requires CountersBounded(s.portOffsets) && NameAccepted(name)
    ensures Dispatch(cfg, s, DisconnectLocalMessage(c, name)) == DisconnectLocal(s, CString(name), c)
  {
    ClientNameArrives(name);
  }

  lemma DisconnectRemoteMessageDispatch(cfg: Config, s: ServerState, c: ClientId, name: Bytes, addr: U32, portOffset: nat)
    requires CountersBounded(s.portOffsets) && NameAccepted(name) && portOffset < 16
    ensures Dispatch(cfg, s, DisconnectRemoteMessage(c, name, addr, portOffset)) == DisconnectRemote(s, CString(name), addr, portOffset, c)
  {
    ClientNameArrives(name);
  }

  lemma DisconnectClientMessageDispatch(cfg: Config, s: ServerState, c: ClientId)
    requires CountersBounded(s.portOffsets)
    ensures Dispatch(cfg, s, DisconnectClientMessage(c)) == ServerSpec.DisconnectClient(s, c)
  {
  }

  // ---------------------------------------------------------------------
  // Lookups in the shared segment

  /** The local-map key a client lookup builds from a string: its C string,
      when that fits a key (a longer one matches no key). */
  function LookupKey(name: Bytes): (k: Option<Name>)
    ensures k.Some? <==> |CString(name)| <= MAX_NAME_SIZE
    ensures k.Some? ==> k.value == CString(name)
  {
    var n := CString(name);
    if |n| <= MAX_NAME_SIZE then var key: Name := n; Some(key) else None
  }

  /** The remote-map key a client lookup builds. */
  function RemoteLookupKey(name: Bytes, addr: U32, portOffset: U8): (k: Option<RemoteId>)
    ensures k.Some? <==> |CString(name)| <= MAX_NAME_SIZE
    ensures k.Some? ==> k.value.name == CString(name)
                        && k.value.endpoint == Endpoint(addr, REQUEST_BASE_PORT + portOffset)
  {
    var n := CString(name);
    if |n| <= MAX_NAME_SIZE then var key: Name := n; Some(RemoteId(key, Endpoint(addr, REQUEST_BASE_PORT + portOffset))) else None
  }

  /** memcpy out of a region: the first `len` bytes. */
  method CopyOut(region: Bytes, len: nat) returns (out: Bytes)
    requires len <= |region|
    ensures out == region[..len]
  {
    var a := new U8[len](_ => 0);
    for i := 0 to len
      invariant a[..i] == region[..i]
    {
      a[i] := region[i];
      assert a[..i + 1] == a[..i] + [region[i]];
      assert region[..i + 1] == region[..i] + [region[i]];
    }
    out := a[..];
  }

  /** memcpy into a region: the first `len` bytes of `data` replace the
      region's `len` bytes. */
  method CopyOver(region: Bytes, data: Bytes) returns (out: Bytes)
    requires |region| <= |data|
    ensures out == data[..|region|]
  {
    var a := new U8[|region|](i requires 0 <= i < |region| => region[i]);
    for i := 0 to |region|
      invariant a[..i] == data[..i]
    {
      a[i] := data[i];
      assert a[..i + 1] == a[..i] + [data[i]];
      assert data[..i + 1] == data[..i] + [data[i]];
    }
    out := a[..];
  }

  class Client {
    /** The client ID, reduced to its low four bits. */
    const clientID: ClientId
    /** Which server's segment and queue the client opened: IDs above 15
        fall back to server 0. */
    const server: nat
    /** The shared segment of that server. */
    const segment: Segment
    /** The message buffer every request is assembled in. */
    var message: ControlMessage
    /** The messages put on the server's queue so far. */
    var queue: seq<ControlMessage>

    /** Connects to the server; with `reset`, first tells the server to drop
        everything a previous client with this ID subscribed to. */
    constructor (serverID: U8, clientID: U8, reset: bool, segment: Segment)
      ensures this.clientID == clientID % 16
      ensures server == if serverID > 15 then 0 else serverID
      ensures this.segment == segment
      ensures queue == if reset then [DisconnectClientMessage(clientID % 16)] else []
    {
      this.clientID := clientID % 16;
      server := if serverID > 15 then 0 else serverID;
      this.segment := segment;
      message := EmptyMessage();
      queue := [];
      new;
      if reset {
        message := EmptyMessage();
        message := message.(header := Header(this.clientID, DISCONNECT_CLIENT, 0));
        queue := queue + [message];
      }
    }

    /** The destructor: tells the server this client is gone. */
    method Close()
      modifies this
      ensures queue == old(queue) + [DisconnectClientMessage(clientID)]
    {
      message := EmptyMessage();
      message := message.(header := Header(clientID, DISCONNECT_CLIENT, 0));
      queue := queue + [message];
    }

    /** registerLocalBuffer: refuses a length outside 1..MAX_BUFFER_SIZE or
        a name too long for the message; otherwise sends the request. */
    method RegisterLocalBuffer(name: Bytes, length: U16, localOnly: bool) returns (ok: bool)
      modifies this
      ensures ok <==> 1 <= length <= MAX_BUFFER_SIZE && NameAcceptedAsWritten(name)
      ensures queue == old(queue) + (if ok then [CreateMessage(clientID, name, length, localOnly)] else [])
    {
      if length < 1 || length > MAX_BUFFER_SIZE {
        return false;
      }
      if !NameAcceptedAsWritten(name) {
        return false;
      }
      message := EmptyMessage();
      message := message.(header := Header(clientID, if localOnly then CREATE_LOCALONLY else CREATE_LOCAL, 0));
      message := message.(name := FillNameField(name));
      message := message.(footer := WithFooterSize(message.footer, length));
      queue := queue + [message];
      return true;
    }

    /** registerRemoteBuffer: `address` is what inet_aton made of the
        address string (None when it rejected it). */
    method RegisterRemoteBuffer(name: Bytes, address: Option<U32>, portOffset: U8) returns (ok: bool)
      modifies this
      ensures ok <==> portOffset <= 15 && NameAcceptedAsWritten(name) && address.Some?
      ensures queue == old(queue) + (if ok then [FetchMessage(clientID, name, address.value, portOffset)] else [])
    {
      if portOffset > 15 {
        return false;
      }
      if !NameAcceptedAsWritten(name) {
        return false;
      }
      message := EmptyMessage();
      if address.None? {
        return false;
      }
      message := message.(footer := address.value);
      message := message.(header := Header(clientID, FETCH_REMOTE, portOffset));
      message := message.(name := FillNameField(name));
      queue := queue + [message];
      return true;
    }

    method DisconnectFromLocalBuffer(name: Bytes) returns (ok: bool)
      modifies this
      ensures ok <==> NameAcceptedAsWritten(name)
      ensures queue == old(queue) + (if ok then [DisconnectLocalMessage(clientID, name)] else [])
    {
      if !NameAcceptedAsWritten(name) {
        return false;
      }
      message := EmptyMessage();
      message := message.(header := Header(clientID, DISCONNECT_LOCAL, 0));
      message := message.(name := FillNameField(name));
      queue := queue + [message];
      return true;
    }

    method DisconnectFromRemoteBuffer(name: Bytes, address: Option<U32>, portOffset: U8) returns (ok: bool)
      modifies this
      ensures ok <==> portOffset <= 15 && NameAcceptedAsWritten(name) && address.Some?
      ensures queue == old(queue) + (if ok then [DisconnectRemoteMessage(clientID, name, address.value, portOffset)] else [])
    {
      if portOffset > 15 {
        return false;
      }
      if !NameAcceptedAsWritten(name) {
        return false;
      }
      message := EmptyMessage();
      if address.None? {
        return false;
      }
      message := message.(footer := address.value);
      message := message.(header := Header(clientID, DISCONNECT_REMOTE, portOffset));
      message := message.(name := FillNameField(name));
      queue := queue + [message];
      return true;
    }

    method DoesLocalExist(name: Bytes) returns (b: bool)
      ensures b <==> LookupKey(name).Some? && LookupKey(name).value in segment.local
    {
      var key := LookupKey(name);
      b := key.Some? && key.value in segment.local;
    }

    method DoesRemoteExist(name: Bytes, addr: U32, portOffset: U8) returns (b: bool)
      ensures b <==> RemoteLookupKey(name, addr, portOffset).Some? && RemoteLookupKey(name, addr, portOffset).value in segment.remote
    {
      var key := RemoteLookupKey(name, addr, portOffset);
      b := key.Some? && key.value in segment.remote;
    }

    /** getLocalBufferContents (both overloads: the flag says whether the
        buffer exists; the string overload returns the empty string when it
        does not). */
    method GetLocalBufferContents(name: Bytes) returns (found: bool, data: Bytes)
      requires SizesMatch(segment.local, segment.remote)
      ensures found <==> LookupKey(name).Some? && LookupKey(name).value in segment.local
      ensures found ==> data == segment.local[LookupKey(name).value].data
      ensures !found ==> data == []
    {
      var key := LookupKey(name);
      if key.None? || key.value !in segment.local {
        return false, [];
      }
      var b := segment.local[key.value];
      data := CopyOut(b.data, b.size);
      found := true;
    }

    /** setLocalBufferContents: the buffer's bytes become the first `size`
        bytes of `data` (the caller supplies at least that many). */
    method SetLocalBufferContents(name: Bytes, data: Bytes) returns (ok: bool)
      requires SizesMatch(segment.local, segment.remote)
      requires LookupKey(name).Some? && LookupKey(name).value in segment.local ==>
                 segment.local[LookupKey(name).value].size <= |data|
      modifies segment
      ensures SizesMatch(segment.local, segment.remote)
      ensures ok <==> LookupKey(name).Some? && LookupKey(name).value in old(segment.local)
      ensures ok ==> var k := LookupKey(name).value;
                     segment.local == old(segment.local)[k := old(segment.local)[k].(data := data[..old(segment.local)[k].size])]
      ensures !ok ==> segment.local == old(segment.local)
      ensures segment.remote == old(segment.remote)
    {
      var key := LookupKey(name);
      if key.None? || key.value !in segment.local {
        return false;
      }
      var b := segment.local[key.value];
      var bytes := CopyOver(b.data, data);
      segment.local := segment.local[key.value := b.(data := bytes)];
      ok := true;
    }

    method GetRemoteBufferContents(name: Bytes, addr: U32, portOffset: U8) returns (found: bool, data: Bytes)
      requires SizesMatch(segment.local, segment.remote)
      ensures var k := RemoteLookupKey(name, addr, portOffset);
              && (found <==> k.Some? && k.value in segment.remote)
              && (found ==> data == segment.remote[k.value].data)
              && (!found ==> data == [])
    {
      var key := RemoteLookupKey(name, addr, portOffset);
      if key.None? || key.value !in segment.remote {
        return false, [];
      }
      var b := segment.remote[key.value];
      data := CopyOut(b.data, b.size);
      found := true;
    }
  }

  /** What a client writes with setLocalBufferContents is what any client
      then reads with getLocalBufferContents. */
  lemma SetThenGet(local: map<Name, LocalBuffer>, k: Name, data: Bytes)
    requires k in local && |local[k].data| == local[k].size <= |data|
    ensures var local' := local[k := local[k].(data := data[..local[k].size])];
            && k in local' && local'[k].data == data[..local[k].size]
            && |local'[k].data| == local'[k].size
            && local'.Keys == local.Keys
  {
  }
}
