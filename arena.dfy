/** The shared-memory segment, abstracted as an arena: the local and the
    remote buffer maps that the server and its clients share. A region is
    identified by its key; handles, offsets and per-buffer locks are not
    modelled. */
module Arena {
  import opened Definitions

  /** A buffer this server owns: declared size, current bytes, and the
      multicast endpoint it is streamed to (port 0: local only). */
  datatype LocalBuffer = LocalBuffer(size: U16, data: Bytes, endpoint: Endpoint)

  /** A replica of a buffer another server owns. */
  datatype RemoteBuffer = RemoteBuffer(size: U16, data: Bytes)

  /** A freshly allocated local region (the model zero-fills it). */
  function NewLocalBuffer(size: U16, endpoint: Endpoint): (b: LocalBuffer)
    ensures b.size == size && |b.data| == size && b.endpoint == endpoint
  {
    LocalBuffer(size, Zeros(size), endpoint)
  }

  /** A freshly allocated remote region (the model zero-fills it). */
  function NewRemoteBuffer(size: U16): (b: RemoteBuffer)
    ensures b.size == size && |b.data| == size
  {
    RemoteBuffer(size, Zeros(size))
  }

  /** The segment's two buffer maps. */
  class Segment {
    var local: map<Name, LocalBuffer>
    var remote: map<RemoteId, RemoteBuffer>

    constructor ()
      ensures local == map[] && remote == map[]
    {
      local := map[];
      remote := map[];
    }
  }
}
