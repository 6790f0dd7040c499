/** The acknowledgement check that decides whether a queue file may be removed. */
module RelayReceipt {
  import opened Options
  import opened CaptureStore

  const MAX_SAFE_INTEGER := 0x1F_FFFF_FFFF_FFFF

  // A JSON field that is absent or has another type is None.
  datatype InputReceipt = InputReceipt(schema: Option<string>, bytes: Option<int>, sha256: Option<Digest>)
  datatype CaptureAck = CaptureAck(
    captureId: Option<string>, durable: bool, duplicate: Option<bool>, state: Option<string>,
    rawSha256: Option<string>, length: Option<int>, segmentId: Option<int>, offset: Option<int>)
  datatype Payload = Payload(
    ok: bool, durable: bool, localDurable: bool, duplicate: Option<bool>,
    input: Option<InputReceipt>, capture: Option<CaptureAck>)

  datatype Reply = Reply(httpOk: bool, status: nat, payload: Payload)

  datatype ReceiptError = NotDurable | OtherBytes | InconsistentIdentity | InvalidLocator

  predicate IsSha256Hex(s: string) {
    |s| == 64 && forall i :: 0 <= i < |s| ==> '0' <= s[i] <= '9' || 'a' <= s[i] <= 'f'
  }

  predicate SafeInteger(n: Option<int>) {
    n.Some? && -MAX_SAFE_INTEGER <= n.value <= MAX_SAFE_INTEGER
  }

  function RelayReceiptError(p: Payload, captureId: string, bytes: Bytes): Option<ReceiptError> {
    if !p.ok || !p.durable || !p.localDurable then Some(NotDurable)
    else if p.input.None? || p.input.value.schema != Some("chiptrace.capture-input-receipt.v1")
            || p.input.value.bytes != Some(|bytes|) || p.input.value.sha256 != Some(Sha256(bytes)) then
      Some(OtherBytes)
    else if p.capture.None? || p.capture.value.captureId != Some(captureId) || !p.capture.value.durable
            || p.duplicate.None? || p.capture.value.duplicate != p.duplicate
            || p.capture.value.state != Some(if p.duplicate.value then "duplicate" else "accepted") then
      Some(InconsistentIdentity)
    else if p.capture.value.rawSha256.None? || !IsSha256Hex(p.capture.value.rawSha256.value)
            || !SafeInteger(p.capture.value.length) || p.capture.value.length.value <= 0
            || !SafeInteger(p.capture.value.segmentId) || p.capture.value.segmentId.value <= 0
            || !SafeInteger(p.capture.value.offset) || p.capture.value.offset.value < 0
            || p.capture.value.offset.value + p.capture.value.length.value > MAX_SAFE_INTEGER then
      Some(InvalidLocator)
    else None
  }

  predicate Retryable(status: nat) {
    status == 408 || status == 425 || status == 429 || status >= 500
  }

  datatype Verdict = Accepted | Permanent | TryAgain

  /** How one delivery attempt is classified. */
  function Classify(reply: Reply, captureId: string, bytes: Bytes): Verdict {
    if reply.httpOk && RelayReceiptError(reply.payload, captureId, bytes).None? then Accepted
    else if reply.httpOk || Retryable(reply.status) then TryAgain
    else Permanent
  }

  // ---------- what a reply says, field by field ----------

  predicate Located(c: CaptureAck) {
    && c.segmentId.Some? && c.offset.Some? && c.length.Some?
    && 0 < c.segmentId.value <= 0x1F_FFFF_FFFF_FFFF && 0 <= c.offset.value && 0 < c.length.value
    && c.offset.value + c.length.value <= 0x1F_FFFF_FFFF_FFFF
  }

  // A SHA-256 in lower-case hexadecimal.
  predicate HexDigest(s: string) {
    |s| == 64 && forall i :: 0 <= i < |s| ==> s[i] in "0123456789abcdef"
  }

  /** The acknowledgement of these bytes under this Capture ID. */
  predicate Acknowledges(p: Payload, captureId: string, bytes: Bytes) {
    && p.ok && p.durable && p.localDurable
    && p.input == Some(InputReceipt(Some("chiptrace.capture-input-receipt.v1"), Some(|bytes|), Some(Sha256(bytes))))
    && (p.duplicate == Some(true) || p.duplicate == Some(false))
    && p.capture.Some? && p.capture.value.captureId == Some(captureId) && p.capture.value.durable
    && p.capture.value.duplicate == p.duplicate
    && p.capture.value.state == (if p.duplicate == Some(true) then Some("duplicate") else Some("accepted"))
    && p.capture.value.rawSha256.Some? && HexDigest(p.capture.value.rawSha256.value) && Located(p.capture.value)
  }

  predicate Acknowledged(reply: Reply, captureId: string, bytes: Bytes) {
    reply.httpOk && Acknowledges(reply.payload, captureId, bytes)
  }

  /** A refusal that sending again cannot change. */
  predicate Hopeless(reply: Reply) {
    !reply.httpOk && reply.status < 500 && reply.status !in {408, 425, 429}
  }

  /** The three verdicts, each from the reply's own fields. */
  lemma VerdictMeans(reply: Reply, captureId: string, bytes: Bytes)
    ensures Classify(reply, captureId, bytes) ==
      if Acknowledged(reply, captureId, bytes) then Accepted else if Hopeless(reply) then Permanent else TryAgain
  {
    var raw := if reply.payload.capture.Some? then reply.payload.capture.value.rawSha256 else None;
    if raw.Some? {
      HexDigestMeans(raw.value);
    }
    hide IsSha256Hex, HexDigest;
  }

  lemma HexDigestMeans(s: string)
    ensures IsSha256Hex(s) <==> HexDigest(s)
  {
    var digits := "0123456789abcdef";
    forall i | 0 <= i < |s| ensures s[i] in digits <==> '0' <= s[i] <= '9' || 'a' <= s[i] <= 'f' {
      if '0' <= s[i] <= '9' {
        assert digits[s[i] as int - '0' as int] == s[i];
      } else if 'a' <= s[i] <= 'f' {
        assert digits[10 + s[i] as int - 'a' as int] == s[i];
      }
    }
  }

  /** An accepted acknowledgement belongs to one Capture ID and to one byte string: the same
      reply can settle no other file. */
  lemma AcceptedNamesOneFile(reply: Reply, id: string, bytes: Bytes, otherId: string, otherBytes: Bytes)
    requires Classify(reply, id, bytes) == Accepted
    ensures Classify(reply, otherId, otherBytes) == Accepted <==> id == otherId && bytes == otherBytes
    ensures id != otherId || bytes != otherBytes ==> Classify(reply, otherId, otherBytes) == TryAgain
  {
    assert reply.payload.input.value.sha256 == Some(Sha256(bytes));
    if Classify(reply, otherId, otherBytes) == Accepted {
      assert Sha256(bytes) == Sha256(otherBytes);
    }
  }
}
