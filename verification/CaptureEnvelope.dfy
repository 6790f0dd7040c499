/** A Capture envelope and its normalisation: body fields are given their digests, protocol fields are
    promoted into `traceContext` from several sources with evidence, and headers are sanitised. JSON keys
    that the promotion treats alike are one constructor, so distinct keys are distinct by construction. */
module CaptureEnvelope {
  import opened Options
  import opened TextLines

  // ---------- JSON values and keys ----------

  // The promoted fields, in the order of their JSON names.
  datatype TraceField =
    | AgentId | AgentPath | BranchId | ConversationId | GoalId | ParentSessionId | ParentSpanId
    | PreviousResponseId | RootSessionId | RootTurnId | SessionFinal | SessionId | SpanId | TaskId
    | TaskSessionId | ThreadId | TraceFlags | TraceId | Traceparent | Tracestate | TurnId

  const FIELDS: seq<TraceField> := [
    AgentId, AgentPath, BranchId, ConversationId, GoalId, ParentSessionId, ParentSpanId,
    PreviousResponseId, RootSessionId, RootTurnId, SessionFinal, SessionId, SpanId, TaskId,
    TaskSessionId, ThreadId, TraceFlags, TraceId, Traceparent, Tracestate, TurnId]

  // `Snake(TurnId)` is "turn_id", `Camel(TurnId)` is "turnId"; any other key is `Extra`.
  datatype Key = Snake(field: TraceField) | Camel(field: TraceField) | AgentName | Extra(name: string)

  // `Other` stands for numbers, arrays and objects.
  datatype Value = Null | Flag(flag: bool) | Text(text: string) | Other(code: nat)

  predicate Blank(s: string) {
    Trim(s) == ""
  }

  /** What counts as a protocol value: a boolean or a string that is not blank. */
  predicate Present(v: Value) {
    v.Flag? || (v.Text? && !Blank(v.text))
  }

  function Aliases(f: TraceField): seq<Key> {
    if f.Traceparent? || f.Tracestate? then [Snake(f)]
    else if f.AgentPath? then [Snake(f), Camel(f), AgentName]
    else [Snake(f), Camel(f)]
  }

  // ---------- headers ----------

  // A header name up to ASCII case. `Sensitive` names are those never stored.
  datatype HeaderName = Chiptrace(field: TraceField) | TraceparentHeader | TracestateHeader
    | ClientRequestId | UpstreamRequest | Sensitive(lower: string) | OtherHeader(lower: string)

  datatype Header = Header(spelling: string, name: HeaderName, value: Value)

  /** The first header of that name whose value is a string. */
  function HeaderValue(headers: seq<Header>, name: HeaderName): Option<string> {
    if headers == [] then None
    else if headers[0].name == name && headers[0].value.Text? then Some(headers[0].value.text)
    else HeaderValue(headers[1..], name)
  }

  // Fields with a correlation header of their own.
  predicate HasHeader(f: TraceField) {
    f.TaskSessionId? || f.SessionId? || f.ThreadId? || f.RootSessionId? || f.ParentSessionId? || f.GoalId?
    || f.RootTurnId? || f.TurnId? || f.AgentId? || f.BranchId? || f.PreviousResponseId?
  }

  // ---------- W3C trace context ----------

  predicate Hex(c: char) {
    '0' <= c <= '9' || 'a' <= c <= 'f' || 'A' <= c <= 'F'
  }

  predicate AllHex(s: string) {
    forall i :: 0 <= i < |s| ==> Hex(s[i])
  }

  predicate AllZero(s: string) {
    forall i :: 0 <= i < |s| ==> s[i] == '0'
  }

  function Lower(s: string): string {
    seq(|s|, i requires 0 <= i < |s| => if 'A' <= s[i] <= 'Z' then (s[i] as int + 32) as char else s[i])
  }

  /** A usable traceparent value: version, trace, parent and flags in hexadecimal, the version not "ff"
      in lower case, neither identifier all zero. */
  predicate ParentForm(s: string) {
    && |s| >= 55 && AllHex(s[..2]) && s[2] == '-' && AllHex(s[3..35]) && s[35] == '-' && AllHex(s[36..52])
    && s[52] == '-' && AllHex(s[53..55]) && (|s| == 55 || (s[55] == '-' && |s| > 56 && '\n' !in s[55..]))
    && s[..2] != "ff" && !AllZero(s[3..35]) && !AllZero(s[36..52])
  }

  // ---------- bodies ----------

  // A parsed body. Promotion reads its own members and the two metadata objects inside it; a body that
  // is no object has none. `rest` stands for everything else.
  datatype Document = Document(members: map<Key, Value>, metadata: map<Key, Value>, turnMetadata: map<Key, Value>,
                               rest: string)

  // SHA-256 is taken to be collision free.
  datatype Hash = Hash(of: string)

  // A declared value, or one of another JSON type, which is not compared.
  datatype Declared<T> = Exactly(value: T) | Odd(code: nat)

  // A text together with what parsing it as JSON gives.
  datatype BodyText = BodyText(text: string, parsed: Option<Document>)

  datatype Kind = JsonKind | OtherKind | NoKind

  // A body as stored: with its kind, its value, and perhaps the raw text it came from.
  datatype Body = NullBody | Body(kind: Kind, value: Document, raw: Option<BodyText>)

  datatype Side = Side(text: Option<BodyText>, body: Option<Body>, bytes: Option<Declared<nat>>,
                       sha: Option<Declared<Hash>>)

  function PlainText(text: string): Document {
    Document(map[], map[], map[], text)
  }

  function Extracted(body: Option<Body>): Document {
    if body.None? || body.value.NullBody? then PlainText("") else body.value.value
  }

  /** A body sent as text becomes a body with its length and digest. */
  function Parsed(s: Side): Side {
    if s.text.None? then s
    else
      var t := s.text.value;
      Side(None, Some(if t.parsed.Some? then Body(JsonKind, t.parsed.value, Some(t))
        else Body(OtherKind, PlainText(t.text), None)),
           if s.bytes.None? then Some(Exactly(|t.text|)) else s.bytes, Some(Exactly(Hash(t.text))))
  }

  /** A body that keeps its raw text must agree with it, and gets the missing length and digest. */
  function Checked(s: Side): Option<Side> {
    if s.body.None? || s.body.value.NullBody? || s.body.value.raw.None? then Some(s)
    else
      var raw := s.body.value.raw.value;
      if s.body.value.kind.JsonKind? && raw.parsed != Some(s.body.value.value) then None
      else if s.bytes.Some? && s.bytes.value.Exactly? && s.bytes.value.value != |raw.text| then None
      else if s.sha.Some? && s.sha.value.Exactly? && s.sha.value.value != Hash(raw.text) then None
      else Some(s.(bytes := if s.bytes.None? then Some(Exactly(|raw.text|)) else s.bytes,
                   sha := if s.sha.None? then Some(Exactly(Hash(raw.text))) else s.sha))
  }

  // ---------- candidates and evidence ----------

  datatype Origin = Captured | TopLevel | ClientMetadata | TurnMetadata | RequestMembers

  datatype Source = At(origin: Origin, key: Key) | FromHeader(name: HeaderName) | FromResponseHeader(name: HeaderName)
    | OwnRequestId | ForeignSource(title: string)

  datatype Producer = CaptureProducer | AgentHarness | CodexClient | W3c | Sub2api | UpstreamProvider
    | ForeignProducer(title: string)

  datatype Authority = ProducerAsserted | ClientAsserted | ProtocolObserved | ForeignAuthority(title: string)

  datatype Candidate = Candidate(value: Value, source: Source, producer: Producer, authority: Authority)

  // The `field` of an evidence item. `TraceOther` is any other name below "traceContext.".
  datatype Subject = Trace(field: TraceField) | TraceOther(name: string) | RequestIdField | UpstreamRequestIdField
    | Elsewhere(name: string)

  // `extra` stands for further members of an item that came in with the envelope.
  datatype Evidence = Evidence(subject: Subject, candidate: Candidate, selected: Option<bool>, extra: nat)

  datatype Conflict = Conflict(subject: Subject, candidates: seq<Candidate>, extra: nat)

  // ---------- the envelope ----------

  datatype Version = Current | Historical | Unversioned

  datatype DefaultField = ObservedLifecycleEvents | RequestTruncated | ResponseTruncated | Stream | CaptureError
    | RecordType

  datatype Envelope = Envelope(
    request: Side, response: Side, requestHeaders: seq<Header>, responseHeaders: seq<Header>, redacted: set<string>,
    top: map<Key, Value>, trace: map<Key, Value>, evidence: seq<Evidence>, conflicts: seq<Conflict>,
    requestId: Option<Value>, upstreamRequestId: Option<Value>, stage: Option<Value>,
    receivedAt: Option<Value>, finishedAt: Option<Value>, startedAt: Option<Value>,
    defaults: map<DefaultField, Value>, responseStatus: Option<nat>, version: Version)

  function Asserted(origin: Origin): (Producer, Authority) {
    if origin.Captured? || origin.TopLevel? then (CaptureProducer, ProducerAsserted) else (CodexClient, ClientAsserted)
  }

  function FromObject(object_: map<Key, Value>, aliases: seq<Key>, origin: Origin): seq<Candidate> {
    if aliases == [] then []
    else
      var rest := FromObject(object_, aliases[1..], origin);
      if aliases[0] in object_ && Present(object_[aliases[0]])
      then [Candidate(object_[aliases[0]], At(origin, aliases[0]), Asserted(origin).0, Asserted(origin).1)] + rest
      else rest
  }

  function FromChiptraceHeader(e: Envelope, f: TraceField): seq<Candidate> {
    if !HasHeader(f) || HeaderValue(e.requestHeaders, Chiptrace(f)).None? then []
    else [Candidate(Text(HeaderValue(e.requestHeaders, Chiptrace(f)).value), FromHeader(Chiptrace(f)), AgentHarness,
                    ClientAsserted)]
  }

  function Observed(value: string, name: HeaderName): seq<Candidate> {
    [Candidate(Text(value), FromHeader(name), W3c, ProtocolObserved)]
  }

  function FromW3c(e: Envelope, f: TraceField): seq<Candidate> {
    var raw := HeaderValue(e.requestHeaders, TraceparentHeader);
    if raw.None? || !ParentForm(Trim(raw.value)) then []
    else
      var s := Trim(raw.value);
      var state := HeaderValue(e.requestHeaders, TracestateHeader);
      if f.Traceparent? then Observed(Lower(raw.value), TraceparentHeader)
      else if f.TraceId? then Observed(Lower(s[3..35]), TraceparentHeader)
      else if f.ParentSpanId? then Observed(Lower(s[36..52]), TraceparentHeader)
      else if f.TraceFlags? then Observed(Lower(s[53..55]), TraceparentHeader)
      else if f.Tracestate? && state.Some? then Observed(state.value, TracestateHeader)
      else []
  }

  /** The candidates from everywhere but the envelope's own `traceContext`. */
  function External(e: Envelope, f: TraceField): seq<Candidate> {
    var body := Extracted(e.request.body);
    FromChiptraceHeader(e, f)
    + FromObject(e.top, Aliases(f), TopLevel)
    + FromObject(body.metadata, Aliases(f), ClientMetadata)
    + FromObject(body.turnMetadata, Aliases(f), TurnMetadata)
    + FromObject(body.members, Aliases(f), RequestMembers)
    + FromW3c(e, f)
  }

  predicate Evidenced(evidence: seq<Evidence>, subject: Subject) {
    exists i :: 0 <= i < |evidence| && evidence[i].subject == subject
  }

  /** The envelope's own values speak for themselves only while no evidence is recorded for the field. */
  function Own(e: Envelope, f: TraceField): seq<Candidate> {
    if Evidenced(e.evidence, Trace(f)) then [] else FromObject(e.trace, Aliases(f), Captured)
  }

  function Candidates(e: Envelope, f: TraceField): seq<Candidate> {
    Own(e, f) + External(e, f)
  }

  function Selected(e: Envelope, f: TraceField): Option<Value> {
    if Snake(f) in e.trace && Present(e.trace[Snake(f)]) then Some(e.trace[Snake(f)])
    else if Candidates(e, f) != [] then Some(Candidates(e, f)[0].value)
    else None
  }

  predicate TwoValues(cs: seq<Candidate>) {
    exists i, j :: 0 <= i < |cs| && 0 <= j < |cs| && cs[i].value != cs[j].value
  }

  function Items(subject: Subject, cs: seq<Candidate>, selected: Option<Value>): seq<Evidence> {
    seq(|cs|, i requires 0 <= i < |cs| => Evidence(subject, cs[i], Some(selected == Some(cs[i].value)), 0))
  }

  function EvidenceFor(e: Envelope, f: TraceField): seq<Evidence> {
    Items(Trace(f), Candidates(e, f), Selected(e, f))
  }

  function ConflictFor(e: Envelope, f: TraceField): seq<Conflict> {
    if TwoValues(Candidates(e, f)) then [Conflict(Trace(f), Candidates(e, f), 0)] else []
  }

  // The first n fields promoted: an existing key is never written.
  function TraceAfter(e: Envelope, n: nat): map<Key, Value>
    requires n <= |FIELDS|
  {
    if n == 0 then e.trace
    else
      var before := TraceAfter(e, n - 1);
      var f := FIELDS[n - 1];
      if Candidates(e, f) == [] || Snake(f) in before then before else before[Snake(f) := Candidates(e, f)[0].value]
  }

  function EvidenceAfter(e: Envelope, n: nat): seq<Evidence>
    requires n <= |FIELDS|
  {
    if n == 0 then [] else EvidenceAfter(e, n - 1) + EvidenceFor(e, FIELDS[n - 1])
  }

  function ConflictsAfter(e: Envelope, n: nat): seq<Conflict>
    requires n <= |FIELDS|
  {
    if n == 0 then [] else ConflictsAfter(e, n - 1) + ConflictFor(e, FIELDS[n - 1])
  }

  // ---------- request identifiers ----------

  function Stated(id: Option<Value>): Option<Value> {
    if id.Some? && id.value.Text? && !Blank(id.value.text) then id else None
  }

  // Which identifier: its subject, the header that carries it, and who issues it.
  datatype IdKind = ByClient | ByUpstream

  function IdOf(e: Envelope, k: IdKind): Option<Value> {
    if k.ByClient? then e.requestId else e.upstreamRequestId
  }

  function IdSubject(k: IdKind): Subject {
    if k.ByClient? then RequestIdField else UpstreamRequestIdField
  }

  function IdHeader(k: IdKind): HeaderName {
    if k.ByClient? then ClientRequestId else UpstreamRequest
  }

  function IdProducer(k: IdKind): Producer {
    if k.ByClient? then Sub2api else UpstreamProvider
  }

  function AsText(s: Option<string>): Option<Value> {
    if s.None? then None else Some(Text(s.value))
  }

  /** The identifier attested by the response, else by the request. */
  function ObservedId(e: Envelope, k: IdKind): Option<Value> {
    var r := HeaderValue(e.responseHeaders, IdHeader(k));
    if r.Some? then AsText(r) else AsText(HeaderValue(e.requestHeaders, IdHeader(k)))
  }

  function SelectedId(e: Envelope, k: IdKind): Option<Value> {
    if Stated(IdOf(e, k)).Some? then Stated(IdOf(e, k)) else ObservedId(e, k)
  }

  function PromotedId(e: Envelope, k: IdKind): Option<Value> {
    if Stated(IdOf(e, k)).None? && ObservedId(e, k).Some? then ObservedId(e, k) else IdOf(e, k)
  }

  function IdCandidates(e: Envelope, k: IdKind): seq<Candidate> {
    var own := if Evidenced(e.evidence, IdSubject(k)) then None else Stated(IdOf(e, k));
    var request := HeaderValue(e.requestHeaders, IdHeader(k));
    var response := HeaderValue(e.responseHeaders, IdHeader(k));
    (if own.Some? then [Candidate(own.value, OwnRequestId, IdProducer(k), ProducerAsserted)] else [])
    + (if request.Some? then [Candidate(Text(request.value), FromHeader(IdHeader(k)), IdProducer(k), ProtocolObserved)]
      else [])
    + (if response.Some? then [Candidate(Text(response.value), FromResponseHeader(IdHeader(k)), IdProducer(k),
                                         ProtocolObserved)] else [])
  }

  function IdEvidence(e: Envelope, k: IdKind): seq<Evidence> {
    Items(IdSubject(k), IdCandidates(e, k), SelectedId(e, k))
  }

  // ---------- promotion and the whole pass ----------

  /** Keeps the first of equal items. */
  function Dedup<T(==)>(s: seq<T>): seq<T> {
    if s == [] then []
    else
      var before := Dedup(s[..|s| - 1]);
      if s[|s| - 1] in before then before else before + [s[|s| - 1]]
  }

  function Generated(e: Envelope): seq<Evidence> {
    EvidenceAfter(e, |FIELDS|) + IdEvidence(e, ByClient) + IdEvidence(e, ByUpstream)
  }

  function Given(body: Option<Body>): bool {
    body.Some? && !body.value.NullBody?
  }

  function StageOf(e: Envelope): Value {
    if Given(e.request.body) then if Given(e.response.body) then Text("combined") else Text("ingress")
    else if Given(e.response.body) then Text("egress") else Text("event")
  }

  function Promoted(e: Envelope): Envelope {
    e.(trace := TraceAfter(e, |FIELDS|), evidence := Dedup(e.evidence + Generated(e)),
       conflicts := Dedup(e.conflicts + ConflictsAfter(e, |FIELDS|)),
       requestId := PromotedId(e, ByClient), upstreamRequestId := PromotedId(e, ByUpstream),
       stage := if e.stage.None? then Some(StageOf(e)) else e.stage)
  }

  function Kept(headers: seq<Header>): seq<Header> {
    if headers == [] then []
    else if headers[0].name.Sensitive? then Kept(headers[1..]) else [headers[0]] + Kept(headers[1..])
  }

  function Removed(headers: seq<Header>): set<string> {
    set i | 0 <= i < |headers| && headers[i].name.Sensitive? :: headers[i].name.lower
  }

  const DEFAULTS: map<DefaultField, Value> := map[
    ObservedLifecycleEvents := Other(0), RequestTruncated := Flag(false), ResponseTruncated := Flag(false),
    Stream := Flag(false), CaptureError := Null, RecordType := Text("api_snapshot")]

  function FirstStated(a: Option<Value>, b: Option<Value>, c: Option<Value>): Value {
    if Stated(a).Some? then a.value else if Stated(b).Some? then b.value else if Stated(c).Some? then c.value else Null
  }

  /** What follows promotion: headers sanitised, missing fields filled in. */
  function Finished(e: Envelope): Envelope {
    e.(requestHeaders := Kept(e.requestHeaders), responseHeaders := Kept(e.responseHeaders),
       redacted := e.redacted + Removed(e.requestHeaders) + Removed(e.responseHeaders),
       defaults := DEFAULTS + e.defaults, version := Current,
       receivedAt := if e.receivedAt.None? || e.receivedAt == Some(Null)
         then Some(FirstStated(e.receivedAt, e.finishedAt, e.startedAt)) else e.receivedAt)
  }

  /** The envelope with its bodies settled, unless a body contradicts what is declared about it. */
  function WithBodies(e: Envelope): Option<Envelope> {
    var request := Checked(Parsed(e.request));
    var response := Checked(Parsed(e.response));
    if request.None? || response.None? then None else Some(e.(request := request.value, response := response.value))
  }

  function Normalized(e: Envelope): Option<Envelope> {
    var b := WithBodies(e);
    if b.None? then None else Some(Finished(Promoted(b.value)))
  }

  // ---------- the derived verdict ----------

  predicate StatedAt(e: Envelope, k: Key) {
    k in e.trace && Stated(Some(e.trace[k])).Some?
  }

  predicate AboutTrace(c: Conflict) {
    c.subject.Trace? || c.subject.TraceOther?
  }

  datatype Verdict = Verdict(turnScoped: bool, httpSuccess: bool, identityConflict: bool)

  /** What a Wire Capture proves about itself. */
  function WireVerdict(e: Envelope): Verdict {
    if RecordType !in e.defaults || e.defaults[RecordType] != Text("api_snapshot") then Verdict(false, false, false)
    else
      var session := StatedAt(e, Extra("source_session_id")) || StatedAt(e, Snake(SessionId));
      var turn := StatedAt(e, Snake(TurnId)) || StatedAt(e, Snake(RootTurnId));
      var conflict := exists i :: 0 <= i < |e.conflicts| && AboutTrace(e.conflicts[i]);
      Verdict(session && turn && !conflict, e.responseStatus.Some? && 200 <= e.responseStatus.value < 300, conflict)
  }
}
