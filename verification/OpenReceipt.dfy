/** The receipt an open Capture leaves in the record made from it, and the check that a stored record
    really stands for the open files found on disk. */
module OpenReceipt {
  import opened CaptureStore
  import opened Options

  // A length and a digest, as declared.
  datatype Proof = Proof(bytes: int, sha256: Digest)

  // One side of a stored record. `original` is the digest kept when the text was redacted.
  datatype Side = Side(text: Bytes, captured: int, sha256: Digest, original: Option<Digest>, proof: Option<Proof>,
                       stored: Option<Proof>)

  // Fields that identify the request, and fields of the trace context; values are opaque.
  type Fields = map<string, string>

  datatype Base = Base(captureId: string, openedAt: Option<string>, identity: Fields, trace: Fields)

  datatype Stored = Stored(captureId: string, combined: bool, state: RecordState, openedAt: Option<string>,
                           receipt: bool, identity: Fields, trace: Fields, metadata: Option<Proof>,
                           request: Side, response: Side, redacted: bool)

  function ProofOf(bytes: Bytes): Proof {
    Proof(|bytes|, Sha256(bytes))
  }

  predicate Proves(p: Option<Proof>, bytes: Bytes) {
    p == Some(ProofOf(bytes))
  }

  // Every field the open metadata states is the same in the record.
  predicate Repeats(stated: Fields, found: Fields) {
    forall f :: f in stated ==> f in found && found[f] == stated[f]
  }

  /** One side agrees with its own text, with the receipt, and with the spool if that is still there. A text
      that is not the receipt's needs a recorded redaction, and must be the redacted spool. */
  predicate SideAgrees(s: Side, spool: Option<Bytes>, redacted: bool, redact: Bytes -> Bytes) {
    && s.proof.Some? && s.proof.value.bytes >= 0
    && (spool.Some? ==> Proves(s.proof, spool.value))
    && s.captured == |s.text| && s.sha256 == Sha256(s.text) && s.stored == Some(ProofOf(s.text))
    && (s.proof.value != ProofOf(s.text) ==>
      redacted && s.original == Some(s.proof.value.sha256) && (spool.Some? ==> redact(spool.value) == s.text))
  }

  predicate Verifies(r: Stored, base: Base, metadata: Bytes, request: Option<Bytes>, response: Option<Bytes>,
                     redact: Bytes -> Bytes) {
    && r.captureId == base.captureId && r.combined && r.state != Submitted
    && base.openedAt.Some? && r.openedAt == base.openedAt && r.receipt
    && Repeats(base.identity, r.identity) && Repeats(base.trace, r.trace)
    && Proves(r.metadata, metadata)
    && SideAgrees(r.request, request, r.redacted, redact) && SideAgrees(r.response, response, r.redacted, redact)
  }

  // ---------- records made from open files ----------

  function WholeSide(spool: Bytes): Side {
    Side(spool, |spool|, Sha256(spool), None, Some(ProofOf(spool)), Some(ProofOf(spool)))
  }

  function RedactedSide(spool: Bytes, redact: Bytes -> Bytes): Side {
    var text := redact(spool);
    Side(text, |text|, Sha256(text), if text == spool then None else Some(Sha256(spool)), Some(ProofOf(spool)),
         Some(ProofOf(text)))
  }

  /** The record of finalisation or recovery: the base, the spooled bodies and a receipt of all three files. */
  function Composed(base: Base, state: RecordState, metadata: Bytes, request: Bytes, response: Bytes): Stored {
    Stored(base.captureId, true, state, base.openedAt, true, base.identity, base.trace, Some(ProofOf(metadata)),
           WholeSide(request), WholeSide(response), false)
  }

  function ComposedRedacted(base: Base, state: RecordState, metadata: Bytes, request: Bytes, response: Bytes,
                            redact: Bytes -> Bytes): Stored {
    Composed(base, state, metadata, request, response)
      .(request := RedactedSide(request, redact), response := RedactedSide(response, redact),
        redacted := redact(request) != request || redact(response) != response)
  }

  lemma ProofFixesBytes(a: Bytes, b: Bytes)
    requires Proves(Some(ProofOf(a)), b)
    ensures a == b
  {
    assert Sha256(a) == Sha256(b);
  }

  /** Main result: a record made from open files verifies against what is on disk exactly when the metadata
      is the same and each spool still there is the same; spools already removed do not matter. */
  lemma ComposedVerifiesExactly(base: Base, state: RecordState, metadata: Bytes, request: Bytes, response: Bytes,
                                found: Bytes, rq: Option<Bytes>, rs: Option<Bytes>, redact: Bytes -> Bytes)
    requires state != Submitted && base.openedAt.Some?
    ensures Verifies(Composed(base, state, metadata, request, response), base, found, rq, rs, redact)
      <==> Matches(Record([], state, metadata, request, response), found, rq, rs)
  {
    var r := Composed(base, state, metadata, request, response);
    if Proves(r.metadata, found) {
      ProofFixesBytes(metadata, found);
    }
    if rq.Some? && Proves(r.request.proof, rq.value) {
      ProofFixesBytes(request, rq.value);
    }
    if rs.Some? && Proves(r.response.proof, rs.value) {
      ProofFixesBytes(response, rs.value);
    }
  }

  /** The same holds after redaction, which keeps the digest of what was spooled. */
  lemma RedactedVerifiesExactly(base: Base, state: RecordState, metadata: Bytes, request: Bytes, response: Bytes,
                                found: Bytes, rq: Option<Bytes>, rs: Option<Bytes>, redact: Bytes -> Bytes)
    requires state != Submitted && base.openedAt.Some?
    ensures Verifies(ComposedRedacted(base, state, metadata, request, response, redact), base, found, rq, rs, redact)
      <==> Matches(Record([], state, metadata, request, response), found, rq, rs)
  {
    var r := ComposedRedacted(base, state, metadata, request, response, redact);
    if Proves(r.metadata, found) {
      ProofFixesBytes(metadata, found);
    }
    SideExactly(request, rq, r.redacted, redact);
    SideExactly(response, rs, r.redacted, redact);
  }

  lemma SideExactly(spool: Bytes, found: Option<Bytes>, redacted: bool, redact: Bytes -> Bytes)
    requires redact(spool) != spool ==> redacted
    ensures SideAgrees(RedactedSide(spool, redact), found, redacted, redact) <==> (found.Some? ==> found.value == spool)
  {
    var s := RedactedSide(spool, redact);
    if found.Some? && Proves(s.proof, found.value) {
      ProofFixesBytes(spool, found.value);
    }
    if redact(spool) != spool {
      assert Sha256(redact(spool)) != Sha256(spool);
    }
  }

  /** Main result: whatever a stored record claims, if it verifies then it is a combined record of this
      Capture, repeats what the open metadata states, agrees with its own lengths and digests, and its
      receipt is of this very metadata; without redaction its bodies are the spools, byte for byte. */
  lemma VerifiedStandsForTheFiles(r: Stored, base: Base, metadata: Bytes, request: Bytes, response: Bytes,
                                  redact: Bytes -> Bytes)
    requires Verifies(r, base, metadata, Some(request), Some(response), redact)
    ensures r.captureId == base.captureId && r.combined && r.state != Submitted && r.receipt
    ensures base.openedAt.Some? && r.openedAt == base.openedAt
    ensures forall f :: f in base.identity ==> f in r.identity && r.identity[f] == base.identity[f]
    ensures forall f :: f in base.trace ==> f in r.trace && r.trace[f] == base.trace[f]
    ensures r.metadata == Some(ProofOf(metadata))
    ensures r.request.captured == |r.request.text| && r.request.sha256 == Sha256(r.request.text)
    ensures r.response.captured == |r.response.text| && r.response.sha256 == Sha256(r.response.text)
    ensures !r.redacted ==> r.request.text == request && r.response.text == response
    ensures r.request.text != request ==>
      r.request.original == Some(Sha256(request)) && r.request.text == redact(request)
    ensures r.response.text != response ==>
      r.response.original == Some(Sha256(response)) && r.response.text == redact(response)
  {
    if ProofOf(r.request.text) == ProofOf(request) {
      ProofFixesBytes(r.request.text, request);
    }
    if ProofOf(r.response.text) == ProofOf(response) {
      ProofFixesBytes(r.response.text, response);
    }
  }
}
