/** Two accepted envelopes whose second normalisation differs from the first, one for each way in which an
    envelope can be unsettled. */
module CaptureCounterexamples {
  import opened Options
  import opened TextLines
  import opened CaptureEnvelope
  import opened CaptureSettling
  import opened CaptureNormalisation

  const NO_SIDE := Side(None, None, None, None)

  // An envelope with its own trace values, other top-level values, and metadata inside the request body.
  function Sent(trace: map<Key, Value>, top: map<Key, Value>, metadata: map<Key, Value>): Envelope {
    var body := Body(NoKind, Document(map[], metadata, map[], ""), None);
    Envelope(Side(None, Some(body), None, None), NO_SIDE, [], [], {}, top, trace, [], [], None, None, None,
             None, None, None, map[], None, Current)
  }

  lemma SentCandidates(trace: map<Key, Value>, top: map<Key, Value>, metadata: map<Key, Value>, f: TraceField)
    ensures var e := Sent(trace, top, metadata);
      && WithBodies(e) == Some(e) && Own(e, f) == FromObject(trace, Aliases(f), Captured)
      && External(e, f) == FromObject(top, Aliases(f), TopLevel) + FromObject(metadata, Aliases(f), ClientMetadata)
  {
    hide FromObject;
    EmptyObject(Aliases(f), TurnMetadata);
    EmptyObject(Aliases(f), RequestMembers);
  }

  lemma {:induction false} EmptyObject(aliases: seq<Key>, origin: Origin)
    ensures FromObject(map[], aliases, origin) == []
  {
    if aliases != [] {
      EmptyObject(aliases[1..], origin);
    }
  }

  lemma LastAlias(object_: map<Key, Value>, f: TraceField, origin: Origin)
    ensures FromObject(object_, [Camel(f)], origin) ==
      if Camel(f) in object_ && Present(object_[Camel(f)])
      then [Candidate(object_[Camel(f)], At(origin, Camel(f)), Asserted(origin).0, Asserted(origin).1)] else []
  {
    assert [Camel(f)][1..] == [];
  }

  // One value under the canonical key, or only under the other spelling.
  lemma CanonicalCandidate(object_: map<Key, Value>, f: TraceField, origin: Origin)
    requires |Aliases(f)| == 2 && Snake(f) in object_ && Present(object_[Snake(f)]) && Camel(f) !in object_
    ensures FromObject(object_, Aliases(f), origin)
      == [Candidate(object_[Snake(f)], At(origin, Snake(f)), Asserted(origin).0, Asserted(origin).1)]
  {
    LastAlias(object_, f, origin);
    assert Aliases(f)[1..] == [Camel(f)];
  }

  lemma AliasCandidate(object_: map<Key, Value>, f: TraceField, origin: Origin)
    requires |Aliases(f)| == 2 && Snake(f) in object_ && !Present(object_[Snake(f)])
    requires Camel(f) in object_ && Present(object_[Camel(f)])
    ensures FromObject(object_, Aliases(f), origin)
      == [Candidate(object_[Camel(f)], At(origin, Camel(f)), Asserted(origin).0, Asserted(origin).1)]
  {
    LastAlias(object_, f, origin);
    assert Aliases(f)[1..] == [Camel(f)];
  }

  // A text that neither begins nor ends with white space is present.
  lemma WordIsPresent(s: string)
    requires s != "" && !Space(s[0]) && !Space(s[|s| - 1])
    ensures Present(Text(s))
  {
  }

  // An unsettled field is enough to make the second pass differ.
  lemma UnsettledDiffers(e: Envelope, f: TraceField)
    requires WithBodies(e) == Some(e) && !FieldSettled(e, f)
    ensures Normalized(e).Some? && !Settled(e) && Normalized(Normalized(e).value) != Normalized(e)
  {
    hide FieldSettled, Promoted, Finished;
    NormalisationSettles(e);
  }

  /** The conflict case: the envelope says the session is final, so does the top level, and the client
      metadata says it is not. The second pass adds the conflict of the other two sources. */
  lemma DisagreeingSourcesUnsettle()
    ensures var key := Snake(SessionFinal);
      var e := Sent(map[key := Flag(true)], map[key := Flag(true)], map[key := Flag(false)]);
      WithBodies(e) == Some(e) && !Settled(e) && Normalized(e).Some? && Normalized(Normalized(e).value) != Normalized(e)
  {
    var yes: map<Key, Value> := map[Snake(SessionFinal) := Flag(true)];
    var no: map<Key, Value> := map[Snake(SessionFinal) := Flag(false)];
    var e := Sent(yes, yes, no);
    SentCandidates(yes, yes, no, SessionFinal);
    CanonicalCandidate(yes, SessionFinal, Captured);
    CanonicalCandidate(yes, SessionFinal, TopLevel);
    CanonicalCandidate(no, SessionFinal, ClientMetadata);
    hide Own, External, FromObject;
    assert External(e, SessionFinal)[0].value != External(e, SessionFinal)[1].value;
    assert TwoValues(External(e, SessionFinal));
    UnsettledDiffers(e, SessionFinal);
  }

  /** The blank-key case: `session_id` is null, the session stands under `sessionId`, and the top level
      names another. The second pass no longer counts the envelope's own value and selects the other. */
  lemma BlankKeyUnsettles()
    ensures var e := Sent(map[Snake(SessionId) := Null, Camel(SessionId) := Text("own")],
                          map[Snake(SessionId) := Text("other")], map[]);
      WithBodies(e) == Some(e) && !Settled(e) && Normalized(e).Some? && Normalized(Normalized(e).value) != Normalized(e)
  {
    var own: map<Key, Value> := map[Snake(SessionId) := Null, Camel(SessionId) := Text("own")];
    var other: map<Key, Value> := map[Snake(SessionId) := Text("other")];
    var e := Sent(own, other, map[]);
    WordIsPresent("own");
    WordIsPresent("other");
    hide Present;
    SentCandidates(own, other, map[], SessionId);
    AliasCandidate(own, SessionId, Captured);
    CanonicalCandidate(other, SessionId, TopLevel);
    EmptyObject(Aliases(SessionId), ClientMetadata);
    hide Own, External, FromObject;
    assert BlankKey(e, SessionId);
    assert Own(e, SessionId)[0].value == Text("own") && External(e, SessionId)[0].value == Text("other");
    UnsettledDiffers(e, SessionId);
  }
}
