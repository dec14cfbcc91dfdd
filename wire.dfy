/** Wire formats: the 16-bit control header, the control message sent
    through the server's queue, and the request and ACK datagrams exchanged
    between servers. Multi-byte fields are copied with memcpy from host
    integers; the model fixes the host byte order as little-endian. */
module Wire {
  import opened Definitions

  // ---------------------------------------------------------------------
  // Little-endian integers

  function U16Bytes(n: U16): (b: Bytes)
    ensures |b| == 2
  {
    [n % 0x100, n / 0x100]
  }

  function U16At(b: Bytes, i: nat): (n: U16)
    requires i + 2 <= |b|
  {
    b[i] as int + 0x100 * b[i + 1] as int
  }

  lemma U16RoundTrip(n: U16, pre: Bytes, post: Bytes)
    ensures U16At(pre + U16Bytes(n) + post, |pre|) == n
  {
    var b := pre + U16Bytes(n) + post;
    assert b[|pre|] == n % 0x100 && b[|pre| + 1] == n / 0x100;
  }

  function U32Bytes(n: U32): (b: Bytes)
    ensures |b| == 4
  {
    [n % 0x100, n / 0x100 % 0x100, n / 0x1_0000 % 0x100, n / 0x100_0000]
  }

  function U32At(b: Bytes, i: nat): (n: U32)
    requires i + 4 <= |b|
  {
    b[i] as int + 0x100 * b[i + 1] as int + 0x1_0000 * b[i + 2] as int + 0x100_0000 * b[i + 3] as int
  }

  /** The four base-256 digits of a 32-bit value add back up to it. */
  lemma U32Digits(n: U32)
    ensures n % 0x100 + 0x100 * (n / 0x100 % 0x100) + 0x1_0000 * (n / 0x1_0000 % 0x100)
            + 0x100_0000 * (n / 0x100_0000) == n
  {
    var a, c, d := n / 0x100, n / 0x1_0000, n / 0x100_0000;
    assert n == n % 0x100 + 0x100 * a;
    assert c == a / 0x100 && a == a % 0x100 + 0x100 * c;
    assert d == c / 0x100 && c == c % 0x100 + 0x100 * d;
  }

  lemma U32RoundTrip(n: U32, pre: Bytes, post: Bytes)
    ensures U32At(pre + U32Bytes(n) + post, |pre|) == n
  {
    var b := pre + U32Bytes(n) + post;
    var i := |pre|;
    assert b[i] == n % 0x100 && b[i + 1] == n / 0x100 % 0x100;
    assert b[i + 2] == n / 0x1_0000 % 0x100 && b[i + 3] == n / 0x100_0000;
    U32Digits(n);
  }

  // ---------------------------------------------------------------------
  // Control header (a 16-bit unsigned value): client ID in bits 0-3, opcode
  // in bits 4-7, the remote server's port offset in bits 8-11. On unsigned
  // values, masking a nibble and shifting are the divisions and remainders
  // by powers of two written here.

  /** Division by 16 with remainder is unique. */
  lemma DivMod16(n: int, q: int, r: int)
    requires 0 <= r < 0x10 && n == 0x10 * q + r
    ensures n / 0x10 == q && n % 0x10 == r
  {
  }

  /** Division by 256 with remainder is unique. */
  lemma DivMod256(n: int, q: int, r: int)
    requires 0 <= r < 0x100 && n == 0x100 * q + r
    ensures n / 0x100 == q && n % 0x100 == r
  {
  }

  /** The header a client builds: its ID, then the opcode shifted by 4 and
      the port offset shifted by 8 ORed in (the nibbles do not overlap, so
      the OR is a sum). */
  function PackHeader(clientID: nat, opcode: nat, portOffset: nat): (h: U16)
    requires clientID < 16 && opcode < 16 && portOffset < 16
    ensures HeaderClient(h) == clientID
    ensures HeaderOpcode(h) == opcode
    ensures HeaderPortOffset(h) == portOffset
    ensures h < 0x1000
  {
    var h := clientID + 0x10 * opcode + 0x100 * portOffset;
    DivMod16(h, opcode + 0x10 * portOffset, clientID);
    DivMod16(opcode + 0x10 * portOffset, portOffset, opcode);
    DivMod256(h, portOffset, clientID + 0x10 * opcode);
    DivMod16(portOffset, 0, portOffset);
    h
  }

  /** The server's decoding: header & 0x0F. */
  function HeaderClient(h: U16): (c: nat)
    ensures c < 16
  {
    h % 0x10
  }

  /** The server's decoding: (header & 0xF0) >> 4. */
  function HeaderOpcode(h: U16): (op: nat)
    ensures op < 16
  {
    h / 0x10 % 0x10
  }

  /** The server's decoding: (header >> 8) & 0x0F. */
  function HeaderPortOffset(h: U16): (p: nat)
    ensures p < 16
  {
    h / 0x100 % 0x10
  }

  /** A header is determined by its three fields when its top nibble is clear. */
  lemma HeaderFieldsDetermineHeader(h: U16)
    requires h < 0x1000
    ensures PackHeader(HeaderClient(h), HeaderOpcode(h), HeaderPortOffset(h)) == h
  {
    var c, a, po := h % 0x10, h / 0x10, h / 0x100;
    var op := a % 0x10;
    assert h == 0x10 * a + c;
    assert a == 0x10 * (a / 0x10) + op;
    assert h == 0x100 * (a / 0x10) + (0x10 * op + c);
    DivMod256(h, a / 0x10, 0x10 * op + c);
    DivMod16(po, 0, po);
  }

  // ---------------------------------------------------------------------
  // Control message: header, a fixed 25-byte name field and a 4-byte footer
  // that is a union of a 16-bit size and a 32-bit IPv4 address.

  type NameField = f: Bytes | |f| == MAX_NAME_SIZE witness seq(MAX_NAME_SIZE, _ => 0)

  datatype ControlMessage = ControlMessage(header: U16, name: NameField, footer: U32)

  /** The message after reset(): every byte zero. */
  function EmptyMessage(): ControlMessage
  {
    ControlMessage(0, Zeros(MAX_NAME_SIZE), 0)
  }

  /** strcpy of a C string into the zeroed name field. A string of
      MAX_NAME_SIZE bytes or more fills the whole field (the bytes that the
      source writes past the field are not part of the model). */
  function FillNameField(s: Bytes): (f: NameField)
    ensures CString(s) <= f || f <= CString(s)
  {
    var c := CString(s);
    if |c| >= MAX_NAME_SIZE then c[..MAX_NAME_SIZE] else c + Zeros(MAX_NAME_SIZE - |c|)
  }

  /** The name the server reads from the field: the C string it holds. */
  function FieldName(f: NameField): (n: Name)
    ensures n <= f && 0 !in n
  {
    CString(f)
  }

  /** Names of at most MAX_NAME_SIZE bytes survive the name field intact;
      longer ones come back cut to MAX_NAME_SIZE bytes. */
  lemma NameFieldRoundTrip(s: Bytes)
    requires 0 !in s
    ensures |s| <= MAX_NAME_SIZE ==> FieldName(FillNameField(s)) == s
    ensures |s| > MAX_NAME_SIZE ==> FieldName(FillNameField(s)) == s[..MAX_NAME_SIZE]
  {
    CStringOfNulFree(s);
    if |s| < MAX_NAME_SIZE {
      var z := Zeros(MAX_NAME_SIZE - |s|);
      assert z == [0] + z[1..];
      assert s + z == s + [0] + z[1..];
      CStringOfTerminated(s, z[1..]);
    } else {
      var c := s[..MAX_NAME_SIZE];
      assert 0 !in c by {
        forall i | 0 <= i < |c| ensures c[i] != 0 { assert c[i] == s[i] && s[i] in s; }
      }
      CStringOfNulFree(c);
    }
  }

  /** The size view of the footer union: the 16-bit value stored in the
      first two of the four bytes the footer occupies in memory. */
  function FooterSize(footer: U32): (size: U16)
    ensures size == U16At(U32Bytes(footer), 0)
  {
    var a := footer / 0x100;
    assert footer == footer % 0x100 + 0x100 * a;
    assert a == a % 0x100 + 0x100 * (footer / 0x1_0000);
    DivMod65536(footer, footer / 0x1_0000, footer % 0x100 + 0x100 * (a % 0x100));
    footer % 0x1_0000
  }

  /** Division by 65536 with remainder is unique. */
  lemma DivMod65536(n: int, q: int, r: int)
    requires 0 <= r < 0x1_0000 && n == 0x1_0000 * q + r
    ensures n / 0x1_0000 == q && n % 0x1_0000 == r
  {
  }

  /** Writing the size view of the footer; the upper bytes keep their value. */
  function WithFooterSize(footer: U32, size: U16): (r: U32)
    ensures FooterSize(r) == size
    ensures r / 0x1_0000 == footer / 0x1_0000
  {
    footer - footer % 0x1_0000 + size
  }

  // ---------------------------------------------------------------------
  // Server-to-server datagrams

  const REQUEST_SIZE: nat := 28
  const ACK_SIZE: nat := 36
  /** The receiver reads every datagram into a buffer of this many bytes. */
  const RECEIVE_BUFFER_SIZE: nat := 36

  /** A request for a remote buffer: byte 0 the requester's port offset (so
      the owner knows whom to ACK), byte 1 the name length, then the name and
      its terminator. Unwritten bytes are zero in the model. */
  function EncodeRequest(portOffset: nat, name: Name): (p: Bytes)
    requires portOffset < 16
    ensures |p| == REQUEST_SIZE
    ensures p[0] < 0x80
  {
    [portOffset, |name|] + name + Zeros(REQUEST_SIZE - 2 - |name|)
  }

  /** An ACK: byte 0 the owner's port offset with bit 7 set, byte 1 the name
      length, bytes 2-3 the buffer length, bytes 4-7 the multicast address,
      bytes 8-9 the multicast port, then the name and its terminator. */
  function EncodeAck(portOffset: nat, name: Name, length: U16, group: U32, port: U16): (p: Bytes)
    requires portOffset < 16
    ensures |p| == ACK_SIZE
    ensures 0x80 <= p[0] < 0xFF
  {
    [portOffset + 0x80, |name|] + U16Bytes(length) + U32Bytes(group) + U16Bytes(port)
      + name + Zeros(ACK_SIZE - 10 - |name|)
  }

  /** An ACK as sendACKs writes it: byte 1 is the `length` member of the
      ACK queue's key rather than the name's length. It differs from
      EncodeAck in byte 1 only, and only when that member is not the name's
      length. */
  function EncodeAckAsWritten(portOffset: nat, key: LocalBufferKey, length: U16, group: U32, port: U16): (p: Bytes)
    requires portOffset < 16 && |key.name| <= MAX_NAME_SIZE
    ensures |p| == ACK_SIZE && p[1] == key.length
    ensures p == EncodeAck(portOffset, key.name, length, group, port)[1 := key.length]
    ensures key.length == |key.name| ==> p == EncodeAck(portOffset, key.name, length, group, port)
  {
    [portOffset + 0x80, key.length] + U16Bytes(length) + U32Bytes(group) + U16Bytes(port)
      + key.name + Zeros(ACK_SIZE - 10 - |key.name|)
  }

  /** The receive buffer after a datagram arrives: its first bytes are
      overwritten, the rest keep what the previous datagram left there. */
  function Receive(buffer: Bytes, packet: Bytes): (r: Bytes)
    requires |buffer| == RECEIVE_BUFFER_SIZE
    ensures |r| == RECEIVE_BUFFER_SIZE
    ensures |packet| >= RECEIVE_BUFFER_SIZE ==> r == packet[..RECEIVE_BUFFER_SIZE]
    ensures |packet| < RECEIVE_BUFFER_SIZE ==> r[..|packet|] == packet && r[|packet|..] == buffer[|packet|..]
  {
    if |packet| >= RECEIVE_BUFFER_SIZE then packet[..RECEIVE_BUFFER_SIZE]
    else packet + buffer[|packet|..]
  }

  /** What the receiver does with a datagram, chosen by its first byte read
      as a signed char: -1 is the shutdown sentinel, non-negative values are
      requests and other negative values are ACKs. */
  datatype Kind = Ignore | Request | Ack

  function Classify(buffer: Bytes): (k: Kind)
    requires |buffer| > 0
    ensures k == Ignore <==> buffer[0] == 0xFF
    ensures k == Request <==> buffer[0] < 0x80
    ensures k == Ack <==> 0x80 <= buffer[0] < 0xFF
  {
    if buffer[0] == 0xFF then Ignore
    else if buffer[0] < 0x80 then Request
    else Ack
  }

  datatype RequestFields = RequestFields(portOffset: nat, name: Bytes)

  /** The request the receiver reads: the port offset from byte 0 and as
      many name bytes from byte 2 on as byte 1 says. A length byte pointing
      past the receive buffer yields None (the source reads past the
      buffer there). */
  function DecodeRequest(buffer: Bytes): (r: Option<RequestFields>)
    requires |buffer| == RECEIVE_BUFFER_SIZE
    ensures r.Some? <==> 2 + buffer[1] <= RECEIVE_BUFFER_SIZE
    ensures r.Some? ==> |r.value.name| == buffer[1] && r.value.portOffset == buffer[0]
  {
    var len := buffer[1];
    if 2 + len <= RECEIVE_BUFFER_SIZE then Some(RequestFields(buffer[0], buffer[2..2 + len]))
    else None
  }

  datatype AckFields = AckFields(portOffset: nat, name: Bytes, length: U16, group: U32, port: U16)

  /** The ACK the receiver reads: the port offset from the low nibble of
      byte 0, the name from byte 10 on, the length, address and port from
      bytes 2-9. A length byte pointing past the receive buffer yields None. */
  function DecodeAck(buffer: Bytes): (r: Option<AckFields>)
    requires |buffer| == RECEIVE_BUFFER_SIZE
    ensures r.Some? <==> 10 + buffer[1] <= RECEIVE_BUFFER_SIZE
    ensures r.Some? ==> r.value.portOffset == buffer[0] % 0x10 && r.value.name == buffer[10..10 + buffer[1]]
    ensures r.Some? ==> && r.value.length == U16At(buffer, 2) && r.value.group == U32At(buffer, 4)
                        && r.value.port == U16At(buffer, 8)
  {
    var len := buffer[1];
    if 10 + len <= RECEIVE_BUFFER_SIZE then
      Some(AckFields(buffer[0] % 0x10, buffer[10..10 + len],
                     U16At(buffer, 2), U32At(buffer, 4), U16At(buffer, 8)))
    else None
  }

  datatype Option<T> = None | Some(value: T)

  /** A request, once received (whatever the receive buffer held before), is
      classified as a request and decodes to the port offset and name sent. */
  lemma {:induction false} RequestRoundTrip(portOffset: nat, name: Name, previous: Bytes)
    requires portOffset < 16 && |previous| == RECEIVE_BUFFER_SIZE
    ensures var b := Receive(previous, EncodeRequest(portOffset, name));
            Classify(b) == Request && DecodeRequest(b) == Some(RequestFields(portOffset, name))
  {
    var p := EncodeRequest(portOffset, name);
    var b := Receive(previous, p);
    assert b[..REQUEST_SIZE] == p;
    assert b[0] == p[0] && b[1] == p[1];
    assert b[2..2 + |name|] == p[2..2 + |name|];
    assert p[2..2 + |name|] == name;
  }

  /** Where the fields of an ACK sit in its bytes. */
  lemma {:induction false} AckLayout(portOffset: nat, name: Name, length: U16, group: U32, port: U16)
    requires portOffset < 16
    ensures var p := EncodeAck(portOffset, name, length, group, port);
            && U16At(p, 2) == length && U32At(p, 4) == group && U16At(p, 8) == port
            && p[1] == |name| && p[10..10 + |name|] == name
            && p[0] % 0x10 == portOffset
  {
    var p := EncodeAck(portOffset, name, length, group, port);
    var h: Bytes := [portOffset + 0x80, |name|];
    var tail := name + Zeros(ACK_SIZE - 10 - |name|);
    assert p == h + U16Bytes(length) + (U32Bytes(group) + U16Bytes(port) + tail);
    U16RoundTrip(length, h, U32Bytes(group) + U16Bytes(port) + tail);
    assert p == h + U16Bytes(length) + U32Bytes(group) + (U16Bytes(port) + tail);
    U32RoundTrip(group, h + U16Bytes(length), U16Bytes(port) + tail);
    assert p == h + U16Bytes(length) + U32Bytes(group) + U16Bytes(port) + tail;
    U16RoundTrip(port, h + U16Bytes(length) + U32Bytes(group), tail);
    assert p[10..10 + |name|] == name;
  }

  /** An ACK, once received, is classified as an ACK and decodes to exactly
      the port offset, name, length, multicast address and port sent. */
  lemma {:induction false} AckRoundTrip(portOffset: nat, name: Name, length: U16, group: U32, port: U16, previous: Bytes)
    requires portOffset < 16 && |previous| == RECEIVE_BUFFER_SIZE
    ensures var b := Receive(previous, EncodeAck(portOffset, name, length, group, port));
            Classify(b) == Ack && DecodeAck(b) == Some(AckFields(portOffset, name, length, group, port))
  {
    var p := EncodeAck(portOffset, name, length, group, port);
    assert Receive(previous, p) == p;
    AckLayout(portOffset, name, length, group, port);
  }

  /** The sentinel the server sends itself on shutdown is ignored. */
  lemma SentinelIgnored(previous: Bytes)
    requires |previous| == RECEIVE_BUFFER_SIZE
    ensures Classify(Receive(previous, [0xFF])) == Ignore
  {
  }
}
