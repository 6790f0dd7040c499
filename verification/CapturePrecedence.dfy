/** Which source decides a promoted value. The order of the sources is stated here from the envelope's own
    fields: a missing field takes the first of its own value, its correlation header, the top level, the
    client metadata, the turn metadata, the request body and the W3C trace context. */
module CapturePrecedence {
  import opened Options
  import opened TextLines
  import opened CaptureEnvelope
  import opened CaptureSettling

  // ---------- what a source says ----------

  function At(object_: map<Key, Value>, k: Key): Option<Value> {
    if k in object_ && (object_[k].Flag? || (object_[k].Text? && !Blank(object_[k].text)))
    then Some(object_[k]) else None
  }

  function Or<T>(a: Option<T>, b: Option<T>): Option<T> {
    if a.Some? then a else b
  }

  /** What an object says about a field: under its own name, else in the other spelling; the agent path
      may also stand under the agent's name. The two W3C fields have no other spelling. */
  function Says(object_: map<Key, Value>, f: TraceField): Option<Value> {
    if f.Traceparent? || f.Tracestate? then At(object_, Snake(f))
    else if f.AgentPath? then Or(At(object_, Snake(f)), Or(At(object_, Camel(f)), At(object_, AgentName)))
    else Or(At(object_, Snake(f)), At(object_, Camel(f)))
  }

  const CORRELATED := {
    TaskSessionId, SessionId, ThreadId, RootSessionId, ParentSessionId, GoalId, RootTurnId, TurnId, AgentId,
    BranchId, PreviousResponseId}

  /** The text of the first header of that name that has one. */
  ghost predicate Sends(headers: seq<Header>, name: HeaderName, text: Option<string>) {
    match text
    case Some(t) =>
      exists i ::
        0 <= i < |headers| && headers[i].name == name && headers[i].value == Text(t)
        && forall j :: 0 <= j < i && headers[j].name == name ==> !headers[j].value.Text?
    case None => forall i :: 0 <= i < |headers| && headers[i].name == name ==> !headers[i].value.Text?
  }

  lemma {:induction false} HeaderIsSent(headers: seq<Header>, name: HeaderName)
    ensures Sends(headers, name, HeaderValue(headers, name))
  {
    if headers != [] && !(headers[0].name == name && headers[0].value.Text?) {
      var rest := headers[1..];
      HeaderIsSent(rest, name);
      if HeaderValue(rest, name).Some? {
        var i :| 0 <= i < |rest| && rest[i].name == name && rest[i].value == Text(HeaderValue(rest, name).value)
          && forall j :: 0 <= j < i && rest[j].name == name ==> !rest[j].value.Text?;
        assert headers[i + 1] == rest[i];
        forall j | 0 <= j < i + 1 && headers[j].name == name ensures !headers[j].value.Text? {
          if j > 0 { assert headers[j] == rest[j - 1]; }
        }
      } else {
        forall j | 0 <= j < |headers| && headers[j].name == name ensures !headers[j].value.Text? {
          if j > 0 { assert headers[j] == rest[j - 1]; }
        }
      }
    }
  }

  // ---------- the W3C trace context ----------

  /** The parts of a traceparent value: two hexadecimal digits, 32, 16 and 2, joined by hyphens, and perhaps
      a further part on the same line. Version "ff" and identifiers of zeros are no trace context. */
  datatype Parent = Parent(version: string, trace: string, parent: string, flags: string, further: Option<string>)

  predicate HexOf(s: string, n: nat) {
    |s| == n && forall i :: 0 <= i < n ==> '0' <= s[i] <= '9' || 'a' <= s[i] <= 'f' || 'A' <= s[i] <= 'F'
  }

  predicate Usable(p: Parent) {
    && HexOf(p.version, 2) && HexOf(p.trace, 32) && HexOf(p.parent, 16) && HexOf(p.flags, 2)
    && (p.further.Some? ==> p.further.value != "" && '\n' !in p.further.value)
    && p.version != "ff" && (exists c :: c in p.trace && c != '0') && (exists c :: c in p.parent && c != '0')
  }

  function Written(p: Parent): string {
    p.version + "-" + p.trace + "-" + p.parent + "-" + p.flags
    + if p.further.Some? then "-" + p.further.value else ""
  }

  // Where the parts stand in the text.
  lemma Places(p: Parent)
    requires Usable(p)
    ensures var s := Written(p);
      && |s| >= 55 && s[..2] == p.version && s[3..35] == p.trace && s[36..52] == p.parent && s[53..55] == p.flags
      && s[2] == s[35] == s[52] == '-'
      && (if p.further.Some? then |s| > 56 && s[55] == '-' && s[56..] == p.further.value else |s| == 55)
  {
    var s := Written(p);
    assert s[..2] == p.version;
    assert s[3..35] == p.trace;
    assert s[36..52] == p.parent;
    assert s[53..55] == p.flags;
    if p.further.Some? {
      assert s[56..] == p.further.value;
    }
  }

  lemma UsableHasForm(p: Parent)
    requires Usable(p)
    ensures ParentForm(Written(p))
  {
    Places(p);
    var s := Written(p);
    var c :| c in p.trace && c != '0';
    var d :| d in p.parent && d != '0';
    if p.further.Some? {
      assert s[55..] == "-" + p.further.value;
    }
  }

  lemma FormIsUsable(s: string) returns (p: Parent)
    requires ParentForm(s)
    ensures Usable(p) && s == Written(p)
  {
    p := Parent(s[..2], s[3..35], s[36..52], s[53..55], if |s| == 55 then None else Some(s[56..]));
    assert s == s[..2] + [s[2]] + s[3..35] + [s[35]] + s[36..52] + [s[52]] + s[53..55] + s[55..];
    var i :| 0 <= i < 32 && s[3..35][i] != '0';
    var j :| 0 <= j < 16 && s[36..52][j] != '0';
    assert s[3..35][i] in p.trace && s[36..52][j] in p.parent;
    if |s| > 55 {
      assert s[55..] == "-" + s[56..];
    }
  }

  /** What a usable trace context gives for a field, all in lower case but the state. */
  function Observes(p: Parent, raw: string, state: Option<string>, f: TraceField): Option<Value> {
    match f
    case Traceparent => Some(Text(Lower(raw)))
    case TraceId => Some(Text(Lower(p.trace)))
    case ParentSpanId => Some(Text(Lower(p.parent)))
    case TraceFlags => Some(Text(Lower(p.flags)))
    case Tracestate => if state.Some? then Some(Text(state.value)) else None
    case _ => None
  }

  /** Lower case changes the 26 capital letters and nothing else. */
  lemma LowerMeans(s: string, i: nat)
    requires i < |s|
    ensures |Lower(s)| == |s|
    ensures 'A' <= s[i] <= 'Z' ==> 'a' <= Lower(s)[i] <= 'z' && Lower(s)[i] - 'a' == s[i] - 'A'
    ensures !('A' <= s[i] <= 'Z') ==> Lower(s)[i] == s[i]
  {
  }

  // What the W3C headers say, if they say anything.
  ghost predicate Traces(e: Envelope, f: TraceField, v: Option<Value>) {
    var raw := HeaderValue(e.requestHeaders, TraceparentHeader);
    var state := HeaderValue(e.requestHeaders, TracestateHeader);
    if exists p :: raw.Some? && Usable(p) && Trim(raw.value) == Written(p)
    then exists p :: Usable(p) && Trim(raw.value) == Written(p) && v == Observes(p, raw.value, state, f)
    else v == None
  }

  // ---------- the first candidate of each source ----------

  function First(cs: seq<Candidate>): Option<Value> {
    if cs == [] then None else Some(cs[0].value)
  }

  lemma FirstOfTwo(a: seq<Candidate>, b: seq<Candidate>)
    ensures First(a + b) == Or(First(a), First(b))
  {
  }

  lemma FirstInObject(object_: map<Key, Value>, f: TraceField, origin: Origin)
    ensures First(FromObject(object_, Aliases(f), origin)) == Says(object_, f)
  {
    var keys := Aliases(f);
    hide Blank;
    FirstOfKeys(object_, keys, origin);
    if |keys| > 1 {
      FirstOfKeys(object_, keys[1..], origin);
      if |keys| > 2 {
        FirstOfKeys(object_, keys[1..][1..], origin);
        assert keys[1..][1..][1..] == [];
      } else {
        assert keys[1..][1..] == [];
      }
    } else {
      assert keys[1..] == [];
    }
  }

  lemma FirstOfKeys(object_: map<Key, Value>, keys: seq<Key>, origin: Origin)
    requires keys != []
    ensures First(FromObject(object_, keys, origin))
      == Or(At(object_, keys[0]), First(FromObject(object_, keys[1..], origin)))
    ensures FromObject(object_, [], origin) == []
  {
  }

  lemma ObservedParts(e: Envelope, f: TraceField, p: Parent)
    requires var raw := HeaderValue(e.requestHeaders, TraceparentHeader);
      raw.Some? && ParentForm(Trim(raw.value)) && Trim(raw.value) == Written(p)
    requires var s := Written(p);
      && |s| >= 55 && s[..2] == p.version && s[3..35] == p.trace && s[36..52] == p.parent && s[53..55] == p.flags
    ensures First(FromW3c(e, f)) == Observes(p, HeaderValue(e.requestHeaders, TraceparentHeader).value,
                                             HeaderValue(e.requestHeaders, TracestateHeader), f)
  {
    hide Written, ParentForm, Trim, Lower, HeaderValue;
  }

  lemma FirstObserved(e: Envelope, f: TraceField)
    ensures Traces(e, f, First(FromW3c(e, f)))
  {
    hide Usable, Written, Trim, HeaderValue, Observes, ParentForm;
    var raw := HeaderValue(e.requestHeaders, TraceparentHeader);
    if raw.Some? && ParentForm(Trim(raw.value)) {
      var p := FormIsUsable(Trim(raw.value));
      Places(p);
      ObservedParts(e, f, p);
    } else {
      forall p | Usable(p) && raw.Some? ensures Trim(raw.value) != Written(p) {
        UsableHasForm(p);
      }
    }
  }

  // ---------- the order ----------

  function Inside(body: Option<Body>): Document {
    match body
    case Some(Body(_, document, _)) => document
    case _ => Document(map[], map[], map[], "")
  }

  function FromHeaders(e: Envelope, f: TraceField): Option<Value> {
    if f in CORRELATED && HeaderValue(e.requestHeaders, Chiptrace(f)).Some?
    then Some(Text(HeaderValue(e.requestHeaders, Chiptrace(f)).value)) else None
  }

  // The envelope's own value, as long as no evidence about the field is on record.
  function OwnWord(e: Envelope, f: TraceField): Option<Value> {
    if exists i :: 0 <= i < |e.evidence| && e.evidence[i].subject == Trace(f) then None else Says(e.trace, f)
  }

  /** The sources in their order, without the W3C headers. */
  function Named(e: Envelope, f: TraceField): Option<Value> {
    var body := Inside(e.request.body);
    Or(OwnWord(e, f), Or(FromHeaders(e, f), Or(Says(e.top, f),
      Or(Says(body.metadata, f), Or(Says(body.turnMetadata, f), Says(body.members, f))))))
  }

  lemma FirstOwn(e: Envelope, f: TraceField)
    ensures First(Own(e, f)) == OwnWord(e, f)
  {
    FirstInObject(e.trace, f, Captured);
    hide Says, FromObject, Aliases;
  }

  lemma FirstExternal(e: Envelope, f: TraceField)
    ensures var body := Inside(e.request.body);
      First(External(e, f)) == Or(FromHeaders(e, f), Or(Says(e.top, f), Or(Says(body.metadata, f),
        Or(Says(body.turnMetadata, f), Or(Says(body.members, f), First(FromW3c(e, f)))))))
  {
    var body := Extracted(e.request.body);
    FirstInObject(e.top, f, TopLevel);
    FirstInObject(body.metadata, f, ClientMetadata);
    FirstInObject(body.turnMetadata, f, TurnMetadata);
    FirstInObject(body.members, f, RequestMembers);
    FirstHeader(e, f);
    hide Says, FromObject, Aliases, FromW3c, FromChiptraceHeader, FromHeaders, HeaderValue;
  }

  lemma FirstHeader(e: Envelope, f: TraceField)
    ensures First(FromChiptraceHeader(e, f)) == FromHeaders(e, f)
  {
    assert HasHeader(f) <==> f in CORRELATED;
    hide HasHeader, HeaderValue;
  }

  lemma FirstCandidate(e: Envelope, f: TraceField)
    ensures First(Candidates(e, f)) == Or(Named(e, f), First(FromW3c(e, f)))
  {
    FirstOwn(e, f);
    FirstExternal(e, f);
    hide Says, Own, External, FromW3c, FromHeaders, OwnWord, Inside;
  }

  /** Main result: promotion fills a missing field with the first of these sources that says anything, and
      leaves it missing when none does. A field that is there is left as it is. */
  lemma PromotedValue(e: Envelope, f: TraceField)
    ensures Snake(f) in e.trace ==> Snake(f) in Promoted(e).trace && Promoted(e).trace[Snake(f)] == e.trace[Snake(f)]
    ensures Snake(f) !in e.trace && Named(e, f).Some? ==>
      Snake(f) in Promoted(e).trace && Promoted(e).trace[Snake(f)] == Named(e, f).value
    ensures Snake(f) !in e.trace && Named(e, f).None? ==>
      Traces(e, f, if Snake(f) in Promoted(e).trace then Some(Promoted(e).trace[Snake(f)]) else None)
  {
    TraceAt(e, Snake(f));
    FirstCandidate(e, f);
    FirstObserved(e, f);
    hide Candidates, Promoted, Named, Traces, FromW3c;
  }

  /** In particular the correlation header wins over every other source but the field's own value. */
  lemma HeaderWins(e: Envelope, f: TraceField, text: string)
    requires f in CORRELATED && Sends(e.requestHeaders, Chiptrace(f), Some(text)) && Says(e.trace, f).None?
    requires Snake(f) !in e.trace
    ensures Snake(f) in Promoted(e).trace && Promoted(e).trace[Snake(f)] == Text(text)
  {
    HeaderIsSent(e.requestHeaders, Chiptrace(f));
    OneText(e.requestHeaders, Chiptrace(f), text);
    PromotedValue(e, f);
    NamedByHeader(e, f);
    hide Promoted, Says, Traces, Sends, Named, HeaderValue;
  }

  lemma NamedByHeader(e: Envelope, f: TraceField)
    requires f in CORRELATED && HeaderValue(e.requestHeaders, Chiptrace(f)).Some? && Says(e.trace, f).None?
    ensures Named(e, f) == Some(Text(HeaderValue(e.requestHeaders, Chiptrace(f)).value))
  {
    hide Says, HeaderValue;
  }

  lemma OneText(headers: seq<Header>, name: HeaderName, text: string)
    requires Sends(headers, name, HeaderValue(headers, name)) && Sends(headers, name, Some(text))
    ensures HeaderValue(headers, name) == Some(text)
  {
    hide HeaderValue;
  }
}
