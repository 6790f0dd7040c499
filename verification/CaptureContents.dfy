/** What one normalisation makes of the parts of an envelope, from the parts themselves: bodies, request
    identifiers, evidence, stage, defaults, arrival time and the wire verdict. */
module CaptureContents {
  import opened Options
  import opened TextLines
  import opened CaptureEnvelope
  import opened CaptureSettling
  import opened CaptureNormalisation
  import opened CapturePrecedence

  // ---------- bodies ----------

  /** A body sent as text replaces whatever body there was: as JSON with its text when it parses, else as plain
      text. It always gets the digest of its text, and its length unless one was declared. */
  lemma TextBecomesBody(s: Side)
    requires s.text.Some?
    ensures var t := Parsed(s); var text := s.text.value;
      && t.text.None? && t.sha == Some(Exactly(Hash(text.text)))
      && t.bytes == (if s.bytes.Some? then s.bytes else Some(Exactly(|text.text|)))
      && t.body == (match text.parsed
                    case Some(document) => Some(Body(JsonKind, document, Some(text)))
                    case None => Some(Body(OtherKind, Document(map[], map[], map[], text.text), None)))
  {
  }

  // What is declared about a body is either not comparable or right.
  predicate Agrees<T(==)>(declared: Option<Declared<T>>, actual: T) {
    declared.None? || declared.value.Odd? || declared.value == Exactly(actual)
  }

  /** Main result: a side is refused exactly when it keeps the raw text of a body and that text parses to
      something else than the JSON value beside it, or a declared length or digest is not the text's. An
      accepted side declares both; nothing else changes. */
  lemma BodyAcceptedExactly(s: Side)
    requires s.text.None?
    ensures var t := Checked(Parsed(s));
      match s.body
      case Some(Body(kind, document, Some(raw))) =>
        && (t.Some? <==> (kind.JsonKind? ==> raw.parsed == Some(document))
                         && Agrees(s.bytes, |raw.text|) && Agrees(s.sha, Hash(raw.text)))
        && (t.Some? ==>
              && t.value.body == s.body && t.value.text.None?
              && t.value.bytes == (if s.bytes.Some? then s.bytes else Some(Exactly(|raw.text|)))
              && t.value.sha == (if s.sha.Some? then s.sha else Some(Exactly(Hash(raw.text)))))
      case _ => t == Some(s)
  {
  }

  // ---------- request identifiers ----------

  predicate StatesText(v: Option<Value>) {
    v.Some? && v.value.Text? && Trim(v.value.text) != ""
  }

  /** Main result: a stated identifier stands. A missing one is taken from the response header, else from the
      request header, each identifier from its own header; without either it stays as it was. */
  lemma IdentifiersDecided(e: Envelope)
    ensures var p := Promoted(e);
      && p.requestId == IdentifierFrom(e.requestId, HeaderValue(e.responseHeaders, ClientRequestId),
                                       HeaderValue(e.requestHeaders, ClientRequestId))
      && p.upstreamRequestId == IdentifierFrom(e.upstreamRequestId, HeaderValue(e.responseHeaders, UpstreamRequest),
                                               HeaderValue(e.requestHeaders, UpstreamRequest))
  {
    hide TraceAfter, EvidenceAfter, ConflictsAfter, Dedup, HeaderValue, Trim;
  }

  function IdentifierFrom(own: Option<Value>, response: Option<string>, request: Option<string>): Option<Value> {
    if StatesText(own) then own
    else match response
         case Some(text) => Some(Text(text))
         case None => if request.Some? then Some(Text(request.value)) else own
  }

  // ---------- evidence ----------

  // An item of evidence as promotion writes it.
  function Item(f: TraceField, v: Value, source: Source, producer: Producer, authority: Authority,
                chosen: Option<Value>): Evidence
  {
    Evidence(Trace(f), Candidate(v, source, producer, authority), Some(chosen == Some(v)), 0)
  }

  // The value that promotion settles on: the stored one if it says anything, else the first source's.
  ghost predicate Chosen(e: Envelope, f: TraceField, v: Option<Value>) {
    if CapturePrecedence.At(e.trace, Snake(f)).Some? then v == CapturePrecedence.At(e.trace, Snake(f))
    else if Named(e, f).Some? then v == Named(e, f)
    else Traces(e, f, v)
  }

  lemma SelectedIsChosen(e: Envelope, f: TraceField)
    ensures Chosen(e, f, Selected(e, f))
  {
    FirstCandidate(e, f);
    FirstObserved(e, f);
    hide Candidates, Named, Traces, FromW3c, Blank;
  }

  // The object behind an origin, and under which names a field may stand there.
  function ObjectOf(e: Envelope, origin: Origin): map<Key, Value> {
    match origin
    case Captured => e.trace
    case TopLevel => e.top
    case ClientMetadata => Inside(e.request.body).metadata
    case TurnMetadata => Inside(e.request.body).turnMetadata
    case RequestMembers => Inside(e.request.body).members
  }

  predicate MayStandUnder(f: TraceField, k: Key) {
    k == Snake(f) || (k == Camel(f) && !f.Traceparent? && !f.Tracestate?) || (k == AgentName && f.AgentPath?)
  }

  lemma {:induction false} ObjectCandidate(object_: map<Key, Value>, keys: seq<Key>, origin: Origin, k: Key)
    requires k in keys && k in object_ && Present(object_[k])
    ensures Candidate(object_[k], CaptureEnvelope.At(origin, k), Asserted(origin).0, Asserted(origin).1)
      in FromObject(object_, keys, origin)
  {
    hide Present;
    if keys[0] != k {
      assert k in keys[1..];
      ObjectCandidate(object_, keys[1..], origin, k);
    }
  }

  // The candidates of one source are among all candidates.
  predicate Part(a: seq<Candidate>, b: seq<Candidate>) {
    forall c :: c in a ==> c in b
  }

  lemma SourcesArePart(e: Envelope, f: TraceField, origin: Origin)
    requires origin.Captured? ==> !Evidenced(e.evidence, Trace(f))
    ensures Part(FromObject(ObjectOf(e, origin), Aliases(f), origin), Candidates(e, f))
    ensures Part(FromChiptraceHeader(e, f), Candidates(e, f)) && Part(FromW3c(e, f), Candidates(e, f))
  {
    hide FromObject, Aliases, FromChiptraceHeader, FromW3c, Evidenced;
  }

  lemma CandidateHasItem(e: Envelope, f: TraceField, c: Candidate)
    requires c in Candidates(e, f)
    ensures Evidence(Trace(f), c, Some(Selected(e, f) == Some(c.value)), 0) in Promoted(e).evidence
  {
    var item := Evidence(Trace(f), c, Some(Selected(e, f) == Some(c.value)), 0);
    hide Candidates, Selected;
    var i :| 0 <= i < |Candidates(e, f)| && Candidates(e, f)[i] == c;
    assert EvidenceFor(e, f)[i] == item;
    FieldEvidence(e, item);
    EvidenceMembers(e, item);
  }

  /** Main result: promotion leaves evidence of every source that says something about a field: its value, where it
      stands, who asserts it and on whose authority, marked as selected exactly when it is the value chosen.
      The envelope and its top level speak for the Capture's producer, what the client sent for the client. */
  lemma SourcesAreOnRecord(e: Envelope, f: TraceField, origin: Origin, k: Key) returns (chosen: Option<Value>)
    requires MayStandUnder(f, k) && k in ObjectOf(e, origin) && Present(ObjectOf(e, origin)[k])
    requires origin.Captured? ==> forall i :: 0 <= i < |e.evidence| ==> e.evidence[i].subject != Trace(f)
    ensures Chosen(e, f, chosen)
    ensures var client := origin.ClientMetadata? || origin.TurnMetadata? || origin.RequestMembers?;
      Item(f, ObjectOf(e, origin)[k], CaptureEnvelope.At(origin, k), if client then CodexClient else CaptureProducer,
           if client then ClientAsserted else ProducerAsserted, chosen) in Promoted(e).evidence
  {
    chosen := Selected(e, f);
    SelectedIsChosen(e, f);
    assert k in Aliases(f);
    ObjectCandidate(ObjectOf(e, origin), Aliases(f), origin, k);
    SourcesArePart(e, f, origin);
    var c := Candidate(ObjectOf(e, origin)[k], CaptureEnvelope.At(origin, k), Asserted(origin).0, Asserted(origin).1);
    CandidateHasItem(e, f, c);
    hide Candidates, Selected, Promoted, Present, FromObject, ObjectOf, Chosen;
  }

  /** The same for the correlation header, which the agent's harness asserts for the client. */
  lemma HeaderIsOnRecord(e: Envelope, f: TraceField) returns (chosen: Option<Value>)
    requires f in CORRELATED && HeaderValue(e.requestHeaders, Chiptrace(f)).Some?
    ensures Chosen(e, f, chosen)
    ensures Item(f, Text(HeaderValue(e.requestHeaders, Chiptrace(f)).value), FromHeader(Chiptrace(f)), AgentHarness,
                 ClientAsserted, chosen) in Promoted(e).evidence
  {
    chosen := Selected(e, f);
    SelectedIsChosen(e, f);
    SourcesArePart(e, f, TopLevel);
    var c := Candidate(Text(HeaderValue(e.requestHeaders, Chiptrace(f)).value), FromHeader(Chiptrace(f)), AgentHarness,
                       ClientAsserted);
    assert FromChiptraceHeader(e, f)[0] == c;
    CandidateHasItem(e, f, c);
    hide Candidates, Selected, Promoted, HeaderValue, Chosen;
  }

  /** And for the W3C headers, which are observed. */
  lemma TraceIsOnRecord(e: Envelope, f: TraceField, v: Value) returns (chosen: Option<Value>)
    requires First(FromW3c(e, f)) == Some(v)
    ensures Traces(e, f, Some(v)) && Chosen(e, f, chosen)
    ensures Item(f, v, FromHeader(if f.Tracestate? then TracestateHeader else TraceparentHeader), W3c, ProtocolObserved,
                 chosen) in Promoted(e).evidence
  {
    chosen := Selected(e, f);
    SelectedIsChosen(e, f);
    FirstObserved(e, f);
    SourcesArePart(e, f, TopLevel);
    var c := FromW3c(e, f)[0];
    W3cCandidate(e, f);
    CandidateHasItem(e, f, c);
    hide Candidates, Selected, Promoted, FromW3c, Traces, Chosen;
  }

  lemma W3cCandidate(e: Envelope, f: TraceField)
    requires FromW3c(e, f) != []
    ensures var c := FromW3c(e, f)[0];
      c.source == FromHeader(if f.Tracestate? then TracestateHeader else TraceparentHeader)
      && c.producer == W3c && c.authority == ProtocolObserved
  {
    hide ParentForm, Trim, HeaderValue, Lower;
  }

  /** A field is in conflict after promotion, where it was not before, exactly when two sources differ. */
  lemma ConflictMeans(e: Envelope, f: TraceField)
    requires forall c :: c in e.conflicts ==> c.subject != Trace(f)
    ensures (exists c :: c in Promoted(e).conflicts && c.subject == Trace(f)) <==>
      exists a, b :: a in Candidates(e, f) && b in Candidates(e, f) && a.value != b.value
  {
    hide Candidates, Promoted;
    if TwoValues(Candidates(e, f)) {
      var c := Conflict(Trace(f), Candidates(e, f), 0);
      assert c in ConflictFor(e, f);
      ConflictMembers(e, c);
      var i, j :| 0 <= i < |Candidates(e, f)| && 0 <= j < |Candidates(e, f)|
                  && Candidates(e, f)[i].value != Candidates(e, f)[j].value;
      assert Candidates(e, f)[i] in Candidates(e, f) && Candidates(e, f)[j] in Candidates(e, f);
    } else {
      forall c | c in Promoted(e).conflicts && c.subject == Trace(f) ensures false {
        ConflictMembers(e, c);
      }
    }
  }

  /** Evidence of an identifier: stated by its producer unless evidence is on record, and observed in either
      header; selected exactly when it is the identifier chosen. */
  lemma IdentifierIsOnRecord(e: Envelope, k: IdKind, headers: bool, response: bool, text: string)
    requires if headers
             then HeaderValue(if response then e.responseHeaders else e.requestHeaders,
                              if k.ByClient? then ClientRequestId else UpstreamRequest) == Some(text)
             else IdOf(e, k) == Some(Text(text)) && Trim(text) != ""
                  && forall i :: 0 <= i < |e.evidence| ==> e.evidence[i].subject != IdSubject(k)
    ensures var name := if k.ByClient? then ClientRequestId else UpstreamRequest;
      var own := if k.ByClient? then e.requestId else e.upstreamRequestId;
      var chosen := IdentifierFrom(own, HeaderValue(e.responseHeaders, name), HeaderValue(e.requestHeaders, name));
      Evidence(if k.ByClient? then RequestIdField else UpstreamRequestIdField,
               Candidate(Text(text),
                         if !headers then OwnRequestId
                         else if response then FromResponseHeader(name) else FromHeader(name),
                         if k.ByClient? then Sub2api else UpstreamProvider,
                         if headers then ProtocolObserved else ProducerAsserted),
               Some(chosen == Some(Text(text))), 0) in Promoted(e).evidence
  {
    var name := IdHeader(k);
    var c := Candidate(Text(text),
                       if !headers then OwnRequestId
                       else if response then FromResponseHeader(name) else FromHeader(name),
                       IdProducer(k), if headers then ProtocolObserved else ProducerAsserted);
    IdCandidateIsThere(e, k, headers, response, text);
    ChosenIdentifier(e, k, text);
    hide IdCandidates, SelectedId, Promoted;
    var i :| 0 <= i < |IdCandidates(e, k)| && IdCandidates(e, k)[i] == c;
    var item := Evidence(IdSubject(k), c, Some(SelectedId(e, k) == Some(Text(text))), 0);
    assert IdEvidence(e, k)[i] == item;
    assert item in Generated(e) by {
      hide EvidenceAfter;
    }
    EvidenceMembers(e, item);
  }

  lemma ChosenIdentifier(e: Envelope, k: IdKind, text: string)
    requires StatesText(IdOf(e, k)) || HeaderValue(e.responseHeaders, IdHeader(k)).Some?
             || HeaderValue(e.requestHeaders, IdHeader(k)).Some?
    ensures SelectedId(e, k) == IdentifierFrom(IdOf(e, k), HeaderValue(e.responseHeaders, IdHeader(k)),
                                               HeaderValue(e.requestHeaders, IdHeader(k)))
  {
    hide HeaderValue, Trim;
  }

  lemma IdCandidateIsThere(e: Envelope, k: IdKind, headers: bool, response: bool, text: string)
    requires if headers
             then HeaderValue(if response then e.responseHeaders else e.requestHeaders, IdHeader(k)) == Some(text)
             else IdOf(e, k) == Some(Text(text)) && Trim(text) != "" && !Evidenced(e.evidence, IdSubject(k))
    ensures Candidate(Text(text),
                      if !headers then OwnRequestId
                      else if response then FromResponseHeader(IdHeader(k)) else FromHeader(IdHeader(k)),
                      IdProducer(k), if headers then ProtocolObserved else ProducerAsserted) in IdCandidates(e, k)
  {
    hide HeaderValue, Trim, Evidenced;
  }

  // ---------- stage, defaults, arrival ----------

  /** The stage is derived from which bodies are there, unless it is stated. */
  lemma StageMeans(e: Envelope)
    ensures var request := e.request.body.Some? && e.request.body != Some(NullBody);
      var response := e.response.body.Some? && e.response.body != Some(NullBody);
      Promoted(e).stage ==
        if e.stage.Some? then e.stage
        else if request && response then Some(Text("combined"))
        else if request then Some(Text("ingress"))
        else if response then Some(Text("egress"))
        else Some(Text("event"))
  {
    hide TraceAfter, EvidenceAfter, ConflictsAfter, Dedup, PromotedId;
  }

  /** What is given stays; what is missing gets the default. The version is the current one. */
  lemma DefaultsMean(e: Envelope)
    requires Normalized(e).Some?
    ensures var n := Normalized(e).value;
      && n.version == Current && (forall d :: d in e.defaults ==> d in n.defaults && n.defaults[d] == e.defaults[d])
      && (forall d :: d in n.defaults && d !in e.defaults ==>
            n.defaults[d] == match d
                             case ObservedLifecycleEvents => Other(0)
                             case RequestTruncated => Flag(false)
                             case ResponseTruncated => Flag(false)
                             case Stream => Flag(false)
                             case CaptureError => Null
                             case RecordType => Text("api_snapshot"))
      && forall d: DefaultField :: d in n.defaults
  {
    hide TraceAfter, EvidenceAfter, ConflictsAfter, Dedup, PromotedId, Kept, Removed;
    forall d: DefaultField ensures d in DEFAULTS {
      assert d.ObservedLifecycleEvents? || d.RequestTruncated? || d.ResponseTruncated? || d.Stream? || d.CaptureError?
             || d.RecordType?;
    }
  }

  /** A missing arrival time is the end of the exchange, else its start; none of them leaves null. */
  lemma ArrivalMeans(e: Envelope)
    requires Normalized(e).Some?
    ensures Normalized(e).value.receivedAt ==
      if e.receivedAt.Some? && e.receivedAt != Some(Null) then e.receivedAt
      else if StatesText(e.finishedAt) then e.finishedAt
      else if StatesText(e.startedAt) then e.startedAt
      else Some(Null)
  {
    hide TraceAfter, EvidenceAfter, ConflictsAfter, Dedup, PromotedId, Kept, Removed, Trim;
  }

  // ---------- the wire verdict ----------

  predicate TextAt(e: Envelope, k: Key) {
    k in e.trace && StatesText(Some(e.trace[k]))
  }

  /** Main result: a Wire Capture is scoped to a Turn exactly when it names a Session and a Turn and no conflict
      about `traceContext` is on record, and a success exactly for a status from 200 to 299. Other records
      prove nothing. */
  lemma VerdictMeans(e: Envelope)
    ensures var v := WireVerdict(e);
      var wire := RecordType in e.defaults && e.defaults[RecordType] == Text("api_snapshot");
      var conflict := exists c :: c in e.conflicts && (c.subject.Trace? || c.subject.TraceOther?);
      && (v.turnScoped <==>
            && wire && !conflict
            && (TextAt(e, Extra("source_session_id")) || TextAt(e, Snake(SessionId)))
            && (TextAt(e, Snake(TurnId)) || TextAt(e, Snake(RootTurnId))))
      && (v.httpSuccess <==> wire && e.responseStatus.Some? && 200 <= e.responseStatus.value <= 299)
      && (v.identityConflict <==> wire && conflict)
  {
    ConflictAt(e.conflicts);
    assert (exists c :: c in e.conflicts && AboutTrace(c)) <==>
      (exists c :: c in e.conflicts && (c.subject.Trace? || c.subject.TraceOther?));
    assert forall k :: TextAt(e, k) == StatedAt(e, k);
    hide AboutTrace, StatedAt, TextAt;
  }
}
