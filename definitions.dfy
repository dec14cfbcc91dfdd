/** Protocol constants, byte strings, endpoints and the two buffer-key types
    of the distributed shared-memory middleware. */
module Definitions {

  // ---------------------------------------------------------------------
  // Limits and ports

  const SEGMENT_SIZE: nat := 65536
  const MAX_BUFFER_SIZE: nat := 1024
  const MAX_NUM_MESSAGES: nat := 16
  const QUEUE_MESSAGE_SIZE: nat := 32
  /** Largest name a buffer key records (the bound of its `length` field). */
  const MAX_NAME_SIZE: nat := 25
  const RECEIVER_BASE_PORT: nat := 8888
  /** The port servers listen on for requests and ACKs is this base plus
      the server's port offset; the base coincides with RECEIVER_BASE_PORT. */
  const REQUEST_BASE_PORT: nat := RECEIVER_BASE_PORT
  const MULTICAST_BASE_PORT: nat := 30000
  const MAX_SERVERS: nat := 256
  const MAX_CLIENTS: nat := 256
  const MAX_BUFFERS_PER_CLIENT: nat := 8

  // ---------------------------------------------------------------------
  // Control-message opcodes (the high nibble of the header's low byte)

  const CREATE_LOCAL: nat := 0
  const FETCH_REMOTE: nat := 1
  const CREATE_LOCALONLY: nat := 2
  const DISCONNECT_LOCAL: nat := 3
  const DISCONNECT_REMOTE: nat := 4
  const DISCONNECT_CLIENT: nat := 5
  const CONNECT_CLIENT: nat := 6
  const CONNECT_CLIENT_NORESET: nat := 7

  /** The eight opcodes, in declaration order. */
  function Opcodes(): (ops: seq<nat>)
    ensures |ops| == 8
    ensures forall i :: 0 <= i < |ops| ==> ops[i] < 8
    ensures forall i, j :: 0 <= i < j < |ops| ==> ops[i] != ops[j]
  {
    [CREATE_LOCAL, FETCH_REMOTE, CREATE_LOCALONLY, DISCONNECT_LOCAL,
     DISCONNECT_REMOTE, DISCONNECT_CLIENT, CONNECT_CLIENT, CONNECT_CLIENT_NORESET]
  }

  // ---------------------------------------------------------------------
  // Machine integers and bytes

  type U8 = x: int | 0 <= x < 0x100
  type U16 = x: int | 0 <= x < 0x1_0000
  type U32 = x: int | 0 <= x < 0x1_0000_0000

  /** Byte strings; each element is an unsigned byte value. */
  type Bytes = seq<U8>

  /** A buffer name as a key holds it: at most MAX_NAME_SIZE bytes. */
  type Name = n: Bytes | |n| <= MAX_NAME_SIZE

  /** An IPv4 address and a UDP port. */
  datatype Endpoint = Endpoint(address: U32, port: U16)

  /** `n` zero bytes. */
  function Zeros(n: nat): (z: Bytes)
    ensures |z| == n
    ensures forall i :: 0 <= i < n ==> z[i] == 0
  {
    seq(n, _ => 0)
  }

  // ---------------------------------------------------------------------
  // C strings

  /** The length of the C string held in `s`: the index of the first NUL
      byte, or all of `s` when it holds none. */
  function StrLen(s: Bytes): (n: nat)
    ensures n <= |s|
    ensures forall i :: 0 <= i < n ==> s[i] != 0
    ensures n < |s| ==> s[n] == 0
  {
    if s == [] || s[0] == 0 then 0 else 1 + StrLen(s[1..])
  }

  /** The bytes of the C string held in `s`, without its terminator. */
  function CString(s: Bytes): (r: Bytes)
    ensures r <= s
    ensures 0 !in r
    ensures |r| < |s| ==> s[|r|] == 0
  {
    s[..StrLen(s)]
  }

  /** A byte string that contains no NUL reads back as itself. */
  lemma {:induction false} CStringOfNulFree(s: Bytes)
    requires 0 !in s
    ensures CString(s) == s
  {
    if s != [] {
      assert s[0] in s;
      assert 0 !in s[1..] by {
        forall i | 0 <= i < |s[1..]| ensures s[1..][i] != 0 {
          assert s[1..][i] == s[i + 1] && s[i + 1] in s;
        }
      }
      CStringOfNulFree(s[1..]);
    }
  }

  /** A NUL-free string followed by a terminator reads back as the string. */
  lemma {:induction false} CStringOfTerminated(s: Bytes, rest: Bytes)
    requires 0 !in s
    ensures CString(s + [0] + rest) == s
  {
    if s == [] {
      assert (s + [0] + rest)[0] == 0;
    } else {
      assert s[0] in s;
      assert 0 !in s[1..] by {
        forall i | 0 <= i < |s[1..]| ensures s[1..][i] != 0 {
          assert s[1..][i] == s[i + 1] && s[i + 1] in s;
        }
      }
      assert (s + [0] + rest)[1..] == s[1..] + [0] + rest;
      CStringOfTerminated(s[1..], rest);
    }
  }

  function Min(a: nat, b: nat): nat { if a < b then a else b }

  // ---------------------------------------------------------------------
  // Local buffer keys

  /** A key of the local buffer map: the name (the C string the key's name
      array holds) and a separately recorded length. */
  datatype LocalBufferKey = LocalBufferKey(name: Bytes, length: U8)

  /** The default key. */
  function DefaultLocalKey(): LocalBufferKey
  {
    LocalBufferKey([], 0)
  }

  /** The `length` field once a constructor's strcpy has run. The field
      sits right after the MAX_NAME_SIZE-byte name array, so the value the
      initializer gave it survives only when the string and its terminator
      fit the array; a 25-byte string's terminator lands on it (0), and a
      longer string's 26th byte does. */
  function LengthAfterCopy(c: Bytes, initial: U8): U8
  {
    if |c| < MAX_NAME_SIZE then initial
    else if |c| == MAX_NAME_SIZE then 0
    else c[MAX_NAME_SIZE]
  }

  /** The key built from a C string: the whole string is copied, the length
      is the string's length clamped to MAX_NAME_SIZE, unless the copy
      overwrote it. */
  function LocalKeyFromCString(s: Bytes): (k: LocalBufferKey)
    ensures k.name <= s && 0 !in k.name
    ensures |k.name| < |s| ==> s[|k.name|] == 0
    ensures |k.name| < MAX_NAME_SIZE ==> k.length == |k.name|
    ensures |k.name| == MAX_NAME_SIZE ==> k.length == 0
    ensures |k.name| > MAX_NAME_SIZE ==> k.length == k.name[MAX_NAME_SIZE] != 0
  {
    LocalBufferKey(CString(s), LengthAfterCopy(CString(s), Min(StrLen(s), MAX_NAME_SIZE)))
  }

  /** The key built from a C string and an explicit length: the whole string
      is copied, the length is `len` clamped to MAX_NAME_SIZE, unless the
      copy overwrote it. */
  function LocalKeyFromCStringLen(s: Bytes, len: U8): (k: LocalBufferKey)
    ensures k.name <= s && 0 !in k.name
    ensures |k.name| < |s| ==> s[|k.name|] == 0
    ensures |k.name| < MAX_NAME_SIZE ==> k.length == Min(len, MAX_NAME_SIZE)
    ensures |k.name| == MAX_NAME_SIZE ==> k.length == 0
    ensures |k.name| > MAX_NAME_SIZE ==> k.length == k.name[MAX_NAME_SIZE] != 0
  {
    LocalBufferKey(CString(s), LengthAfterCopy(CString(s), Min(len, MAX_NAME_SIZE)))
  }

  /** A name that fills the name array loses its recorded length, so its
      key hashes no byte of it at all. */
  lemma FullNameLosesLength(s: Bytes)
    requires |s| == MAX_NAME_SIZE && 0 !in s
    ensures LocalKeyFromCString(s).name == s
    ensures LocalKeyFromCString(s).length == 0
    ensures LocalKeyHashRange(LocalKeyFromCString(s)) == []
  {
    CStringOfNulFree(s);
  }

  /** Key equality compares the names only (a string comparison). */
  predicate LocalKeysEqual(x: LocalBufferKey, y: LocalBufferKey)
  {
    x.name == y.name
  }

  /** Assignment: strcpy copies the source's C string over the target's
      name, then the length is copied; nothing of the previous `target`
      survives. */
  function AssignLocalKey(target: LocalBufferKey, source: LocalBufferKey): (r: LocalBufferKey)
    ensures r.length == source.length
    ensures r.name <= source.name && 0 !in r.name
    ensures |r.name| < |source.name| ==> source.name[|r.name|] == 0
    ensures 0 !in source.name ==> r == source && LocalKeysEqual(r, source)
  {
    LocalBufferKey(CString(source.name), source.length)
  }

  /** Assigning a key any constructor built reproduces that key exactly. */
  lemma {:induction false} AssignCopiesConstructedKey(target: LocalBufferKey, s: Bytes, len: U8)
    ensures AssignLocalKey(target, LocalKeyFromCString(s)) == LocalKeyFromCString(s)
    ensures AssignLocalKey(target, LocalKeyFromCStringLen(s, len)) == LocalKeyFromCStringLen(s, len)
    ensures AssignLocalKey(target, DefaultLocalKey()) == DefaultLocalKey()
  {
    CStringOfNulFree(LocalKeyFromCString(s).name);
    CStringOfNulFree(LocalKeyFromCStringLen(s, len).name);
  }

  /** The default key is the key of the empty C string. */
  lemma DefaultIsEmptyCString()
    ensures LocalKeyFromCString([]) == DefaultLocalKey()
    ensures DefaultLocalKey().name == [] && DefaultLocalKey().length == 0
  {
  }

  /** Equality ignores the length field: two keys of one string compare equal
      whatever lengths they were given, and keys equal as values are equal. */
  lemma LocalKeyEqualityIgnoresLength(s: Bytes, len1: U8, len2: U8)
    ensures LocalKeysEqual(LocalKeyFromCStringLen(s, len1), LocalKeyFromCStringLen(s, len2))
    ensures LocalKeysEqual(LocalKeyFromCStringLen(s, len1), LocalKeyFromCString(s))
  {
  }

  /** As written, the key's hash covers the first `length` bytes of its name
      (bytes past the terminator are indeterminate in the source; the model
      stops at the terminator). */
  function LocalKeyHashRange(k: LocalBufferKey): (r: Bytes)
    ensures r <= k.name
    ensures |r| == Min(k.length, |k.name|)
  {
    if k.length <= |k.name| then k.name[..k.length] else k.name
  }

  /** Two keys that compare equal but hash different byte ranges: an
      unordered map may then hold both or miss a lookup. */
  lemma HashRangeDisagreesWithEquality()
    ensures var s: Bytes := [0x61, 0x62, 0x63];
            var x := LocalKeyFromCStringLen(s, 2);
            var y := LocalKeyFromCString(s);
            LocalKeysEqual(x, y) && LocalKeyHashRange(x) != LocalKeyHashRange(y)
  {
    var s: Bytes := [0x61, 0x62, 0x63];
    CStringOfNulFree(s);
    assert LocalKeyFromCStringLen(s, 2).name == s;
    assert LocalKeyHashRange(LocalKeyFromCStringLen(s, 2)) == s[..2];
    assert LocalKeyHashRange(LocalKeyFromCString(s)) == s;
    assert |s[..2]| == 2;
  }

  /** Corrected hash input: the whole name, which is what equality compares. */
  function LocalKeyIdentity(k: LocalBufferKey): (r: Bytes)
    ensures forall other: LocalBufferKey :: LocalKeysEqual(k, other) <==> r == other.name
  {
    k.name
  }

  /** With the corrected hash input, equal keys always hash the same bytes,
      and keys with the same hash input are equal. */
  lemma IdentityRespectsEquality(x: LocalBufferKey, y: LocalBufferKey)
    ensures LocalKeysEqual(x, y) <==> LocalKeyIdentity(x) == LocalKeyIdentity(y)
  {
  }

  // ---------------------------------------------------------------------
  // Remote buffer keys

  /** A key of the remote buffer map: name, recorded length and the owning
      server's request endpoint. */
  datatype RemoteBufferKey = RemoteBufferKey(name: Bytes, length: U8, endpoint: Endpoint)

  /** What identifies a remote buffer: its name and its owner's endpoint. */
  datatype RemoteId = RemoteId(name: Name, endpoint: Endpoint)

  function DefaultRemoteKey(): RemoteBufferKey
  {
    RemoteBufferKey([], 0, Endpoint(0, 0))
  }

  /** The remote key built from a C string and an endpoint; the length
      field follows the name array here too, with the same overwrite. */
  function RemoteKeyFromCString(s: Bytes, end: Endpoint): (k: RemoteBufferKey)
    ensures k.name <= s && 0 !in k.name
    ensures |k.name| < |s| ==> s[|k.name|] == 0
    ensures |k.name| < MAX_NAME_SIZE ==> k.length == |k.name|
    ensures |k.name| == MAX_NAME_SIZE ==> k.length == 0
    ensures |k.name| > MAX_NAME_SIZE ==> k.length == k.name[MAX_NAME_SIZE] != 0
    ensures k.endpoint == end
  {
    RemoteBufferKey(CString(s), LengthAfterCopy(CString(s), Min(StrLen(s), MAX_NAME_SIZE)), end)
  }

  function RemoteKeyFromCStringLen(s: Bytes, len: U8, end: Endpoint): (k: RemoteBufferKey)
    ensures k.name <= s && 0 !in k.name
    ensures |k.name| < |s| ==> s[|k.name|] == 0
    ensures |k.name| < MAX_NAME_SIZE ==> k.length == Min(len, MAX_NAME_SIZE)
    ensures |k.name| == MAX_NAME_SIZE ==> k.length == 0
    ensures |k.name| > MAX_NAME_SIZE ==> k.length == k.name[MAX_NAME_SIZE] != 0
    ensures k.endpoint == end
  {
    RemoteBufferKey(CString(s), LengthAfterCopy(CString(s), Min(len, MAX_NAME_SIZE)), end)
  }

  /** Remote keys are equal when name, address and port all agree. */
  predicate RemoteKeysEqual(x: RemoteBufferKey, y: RemoteBufferKey)
  {
    x.name == y.name && x.endpoint.address == y.endpoint.address && x.endpoint.port == y.endpoint.port
  }

  /** Assignment: strcpy of the name, then the length and the endpoint. */
  function AssignRemoteKey(target: RemoteBufferKey, source: RemoteBufferKey): (r: RemoteBufferKey)
    ensures r.length == source.length && r.endpoint == source.endpoint
    ensures r.name <= source.name && 0 !in r.name
    ensures |r.name| < |source.name| ==> source.name[|r.name|] == 0
    ensures 0 !in source.name ==> r == source && RemoteKeysEqual(r, source)
  {
    RemoteBufferKey(CString(source.name), source.length, source.endpoint)
  }

  /** Assigning a remote key any constructor built reproduces it exactly. */
  lemma {:induction false} AssignCopiesConstructedRemoteKey(target: RemoteBufferKey, s: Bytes, len: U8, end: Endpoint)
    ensures AssignRemoteKey(target, RemoteKeyFromCString(s, end)) == RemoteKeyFromCString(s, end)
    ensures AssignRemoteKey(target, RemoteKeyFromCStringLen(s, len, end)) == RemoteKeyFromCStringLen(s, len, end)
  {
    CStringOfNulFree(RemoteKeyFromCString(s, end).name);
    CStringOfNulFree(RemoteKeyFromCStringLen(s, len, end).name);
  }

  /** Equality of remote keys is exactly equality of their identities. */
  lemma RemoteKeyEqualityIsIdentity(x: RemoteBufferKey, y: RemoteBufferKey)
    requires |x.name| <= MAX_NAME_SIZE && |y.name| <= MAX_NAME_SIZE
    ensures RemoteKeysEqual(x, y) <==> RemoteId(x.name, x.endpoint) == RemoteId(y.name, y.endpoint)
  {
  }
}
