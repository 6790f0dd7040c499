/** Values shared by the outbox modules: bytes, digests and the stored record. */
module CaptureStore {
  import opened Options

  newtype byte = x: int | 0 <= x < 256
  type Bytes = seq<byte>

  // SHA-256 is taken to be collision free, so a digest is the hashed value itself.
  datatype Digest = Digest(of: Bytes)

  function Sha256(bytes: Bytes): Digest {
    Digest(bytes)
  }

  datatype RecordState = Submitted | Finalized | RecoveredIncomplete

  /** One queue file. `raw` stands for its serialised line. The other fields are what recovery
      reads back from that line: the transaction state, the open metadata its receipt proves,
      and the two bodies. */
  datatype Record = Record(raw: Bytes, state: RecordState, metadata: Bytes, request: Bytes, response: Bytes)

  function OrEmpty(spool: Option<Bytes>): Bytes {
    if spool.None? then [] else spool.value
  }

  /** What the receipt check decides about a stored record when bodies are not redacted:
      a spool that is already gone is not compared. */
  predicate Matches(r: Record, metadata: Bytes, request: Option<Bytes>, response: Option<Bytes>) {
    && r.state != Submitted
    && r.metadata == metadata
    && (request.Some? ==> r.request == request.value)
    && (response.Some? ==> r.response == response.value)
  }
}
