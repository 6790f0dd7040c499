/** The whole normalisation, as the Relay and then the Collector run it on the same Capture. */
module CaptureNormalisation {
  import opened Options
  import opened CaptureEnvelope
  import opened CaptureSettling

  // ---------- headers ----------

  lemma {:induction false} KeptLookup(headers: seq<Header>, name: HeaderName)
    requires !name.Sensitive?
    ensures HeaderValue(Kept(headers), name) == HeaderValue(headers, name)
  {
    if headers != [] {
      KeptLookup(headers[1..], name);
    }
  }

  lemma {:induction false} KeptIsClean(headers: seq<Header>)
    ensures Kept(Kept(headers)) == Kept(headers) && Removed(Kept(headers)) == {}
    ensures forall h :: h in Kept(headers) <==> h in headers && !h.name.Sensitive?
  {
    if headers != [] {
      KeptIsClean(headers[1..]);
      assert headers == [headers[0]] + headers[1..];
      var kept := Kept(headers[1..]);
      forall i | 0 <= i < |Kept(headers)|
        ensures !Kept(headers)[i].name.Sensitive?
      {
        assert Kept(headers)[i] in Kept(headers);
      }
    }
  }

  /** Main result: after normalisation no sensitive header is left, every one that was there is named in
      `redactedHeaders`, and every other header is as it was. */
  lemma HeadersAreSanitized(e: Envelope)
    requires Normalized(e).Some?
    ensures var n := Normalized(e).value;
      && (forall h :: h in n.requestHeaders <==> h in e.requestHeaders && !h.name.Sensitive?)
      && (forall h :: h in n.responseHeaders <==> h in e.responseHeaders && !h.name.Sensitive?)
      && (forall h :: h in e.requestHeaders + e.responseHeaders && h.name.Sensitive? ==> h.name.lower in n.redacted)
      && e.redacted <= n.redacted
  {
    hide TraceAfter, EvidenceAfter, ConflictsAfter, Dedup;
    KeptIsClean(e.requestHeaders);
    KeptIsClean(e.responseHeaders);
  }

  // ---------- bodies ----------

  lemma SideSettles(s: Side)
    requires Checked(Parsed(s)).Some?
    ensures var t := Checked(Parsed(s)).value; Parsed(t) == t && Checked(t) == Some(t)
  {
  }

  lemma BodiesSettle(e: Envelope)
    requires WithBodies(e).Some?
    ensures WithBodies(WithBodies(e).value) == WithBodies(e)
  {
    SideSettles(e.request);
    SideSettles(e.response);
  }

  // ---------- promotion and sanitising commute ----------

  // Two envelopes a promotion cannot tell apart.
  ghost predicate SameView(e: Envelope, g: Envelope) {
    && g.trace == e.trace && g.evidence == e.evidence && g.conflicts == e.conflicts && g.top == e.top
    && g.request.body == e.request.body && g.response.body == e.response.body
    && g.requestId == e.requestId && g.upstreamRequestId == e.upstreamRequestId && g.stage == e.stage
    && (forall name: HeaderName :: !name.Sensitive? ==>
      HeaderValue(g.requestHeaders, name) == HeaderValue(e.requestHeaders, name))
    && (forall name: HeaderName :: !name.Sensitive? ==>
      HeaderValue(g.responseHeaders, name) == HeaderValue(e.responseHeaders, name))
  }

  lemma SameCandidates(e: Envelope, g: Envelope, f: TraceField)
    requires SameView(e, g)
    ensures Candidates(g, f) == Candidates(e, f)
  {
    hide HeaderValue, FromObject, FromW3c;
    FromW3cSame(e, g, f);
  }

  lemma SameField(e: Envelope, g: Envelope, f: TraceField)
    requires SameView(e, g)
    ensures Candidates(g, f) == Candidates(e, f)
    ensures EvidenceFor(g, f) == EvidenceFor(e, f) && ConflictFor(g, f) == ConflictFor(e, f)
  {
    SameCandidates(e, g, f);
    hide Candidates, HeaderValue, Items, TwoValues, Present;
  }

  lemma {:induction false} SamePromotion(e: Envelope, g: Envelope, n: nat)
    requires n <= |FIELDS| && SameView(e, g)
    ensures TraceAfter(g, n) == TraceAfter(e, n) && EvidenceAfter(g, n) == EvidenceAfter(e, n)
    ensures ConflictsAfter(g, n) == ConflictsAfter(e, n)
  {
    hide Candidates, EvidenceFor, ConflictFor, HeaderValue;
    if n > 0 {
      SamePromotion(e, g, n - 1);
      SameField(e, g, FIELDS[n - 1]);
      hide SameView;
    }
  }

  lemma SameIds(e: Envelope, g: Envelope, k: IdKind)
    requires SameView(e, g)
    ensures PromotedId(g, k) == PromotedId(e, k) && IdEvidence(g, k) == IdEvidence(e, k)
  {
    hide HeaderValue, Evidenced, Stated;
  }

  lemma FinishedView(e: Envelope)
    ensures SameView(e, Finished(e))
  {
    forall name: HeaderName | !name.Sensitive?
      ensures HeaderValue(Finished(e).requestHeaders, name) == HeaderValue(e.requestHeaders, name)
      ensures HeaderValue(Finished(e).responseHeaders, name) == HeaderValue(e.responseHeaders, name)
    {
      KeptLookup(e.requestHeaders, name);
      KeptLookup(e.responseHeaders, name);
    }
  }

  lemma SamePromoted(e: Envelope, g: Envelope)
    requires SameView(e, g)
    ensures var p := Promoted(e);
      Promoted(g) == g.(trace := p.trace, evidence := p.evidence, conflicts := p.conflicts, requestId := p.requestId,
                        upstreamRequestId := p.upstreamRequestId, stage := p.stage)
  {
    SamePromotion(e, g, |FIELDS|);
    SameIds(e, g, ByClient);
    SameIds(e, g, ByUpstream);
    assert Generated(g) == Generated(e);
    assert StageOf(g) == StageOf(e);
    hide TraceAfter, EvidenceAfter, ConflictsAfter, Dedup, IdEvidence, PromotedId, Generated, StageOf;
  }

  lemma PromotedFrame(e: Envelope)
    ensures var p := Promoted(e);
      p == e.(trace := p.trace, evidence := p.evidence, conflicts := p.conflicts, requestId := p.requestId,
              upstreamRequestId := p.upstreamRequestId, stage := p.stage)
  {
    hide TraceAfter, EvidenceAfter, ConflictsAfter, Dedup, IdEvidence, PromotedId, Generated, StageOf;
  }

  lemma PromotionCommutes(e: Envelope)
    ensures Promoted(Finished(e)) == Finished(Promoted(e))
  {
    FinishedView(e);
    SamePromoted(e, Finished(e));
    PromotedFrame(e);
    hide Promoted, Kept, Removed, SameView, FirstStated;
  }

  lemma FinishedTwice(e: Envelope)
    ensures Finished(Finished(e)) == Finished(e)
  {
    KeptIsClean(e.requestHeaders);
    KeptIsClean(e.responseHeaders);
    hide Kept, Removed;
    assert DEFAULTS + (DEFAULTS + e.defaults) == DEFAULTS + e.defaults;
  }

  // The side values are read only by the bodies' own step.
  lemma BodiesStay(b: Envelope)
    requires WithBodies(b) == Some(b)
    ensures WithBodies(Finished(Promoted(b))) == Some(Finished(Promoted(b)))
  {
    hide TraceAfter, EvidenceAfter, ConflictsAfter, Dedup, Kept, Removed;
  }

  lemma NormalizedAgain(b: Envelope)
    requires WithBodies(b) == Some(b)
    ensures Normalized(Finished(Promoted(b))) == Some(Finished(Promoted(Promoted(b))))
  {
    BodiesStay(b);
    PromotionCommutes(Promoted(b));
    FinishedTwice(Promoted(Promoted(b)));
    hide Promoted, Finished;
  }

  lemma FinishedTellsPromotion(b: Envelope)
    ensures Finished(Promoted(Promoted(b))) == Finished(Promoted(b)) <==> Promoted(Promoted(b)) == Promoted(b)
  {
    hide TraceAfter, EvidenceAfter, ConflictsAfter, Dedup, Kept, Removed, PromotedId, StageOf;
  }

  /** Main result: an accepted envelope is accepted again; the second pass changes nothing exactly when
      the envelope is settled, and the third pass never changes anything. */
  lemma NormalisationSettles(e: Envelope)
    requires Normalized(e).Some?
    ensures WithBodies(e).Some? && Normalized(Normalized(e).value).Some?
    ensures Normalized(Normalized(e).value) == Normalized(e) <==> Settled(WithBodies(e).value)
    ensures Normalized(Normalized(Normalized(e).value).value) == Normalized(Normalized(e).value)
  {
    var b := WithBodies(e).value;
    BodiesSettle(e);
    NormalizedAgain(b);
    SecondPromotion(b);
    FinishedTellsPromotion(b);
    PromotionSettles(b);
    assert WithBodies(Promoted(b)) == Some(Promoted(b)) by {
      hide TraceAfter, EvidenceAfter, ConflictsAfter, Dedup;
    }
    NormalizedAgain(Promoted(b));
    hide Promoted, Finished, WithBodies, Settled;
  }

  // ---------- what is final after one pass ----------

  lemma ConflictsOnlyGrow(e: Envelope)
    ensures (exists c :: c in Promoted(Promoted(e)).conflicts && AboutTrace(c))
      <==> (exists c :: c in Promoted(e).conflicts && AboutTrace(c))
  {
    hide Promoted, ConflictFor;
    var p := Promoted(e);
    forall c | c in p.conflicts
      ensures c in Promoted(p).conflicts
    {
      ConflictMembers(p, c);
    }
    forall c | c in Promoted(p).conflicts && AboutTrace(c)
      ensures exists d :: d in p.conflicts && AboutTrace(d)
    {
      ConflictMembers(p, c);
      if c !in p.conflicts {
        WiderConflict(e, c.subject.field);
      }
    }
  }

  /** A conflict among the other sources was already one, with the own value beside them. */
  lemma WiderConflict(e: Envelope, f: TraceField)
    requires ConflictFor(Promoted(e), f) != []
    ensures exists d :: d in Promoted(e).conflicts && AboutTrace(d)
  {
    hide Promoted, Own, External;
    SecondCandidates(e, f);
    var cs, all := External(e, f), Candidates(e, f);
    var i, j :| 0 <= i < |cs| && 0 <= j < |cs| && cs[i].value != cs[j].value;
    assert all[|Own(e, f)| + i] == cs[i] && all[|Own(e, f)| + j] == cs[j];
    var d := Conflict(Trace(f), all, 0);
    assert d in ConflictFor(e, f);
    ConflictMembers(e, d);
  }

  lemma VerdictOf(e: Envelope, g: Envelope)
    requires g.trace == e.trace && g.defaults == e.defaults && g.responseStatus == e.responseStatus
    requires (exists c :: c in g.conflicts && AboutTrace(c)) <==> (exists c :: c in e.conflicts && AboutTrace(c))
    ensures WireVerdict(g) == WireVerdict(e)
  {
    ConflictAt(e.conflicts);
    ConflictAt(g.conflicts);
    hide AboutTrace, Stated;
  }

  lemma ConflictAt(cs: seq<Conflict>)
    ensures (exists c :: c in cs && AboutTrace(c)) <==> (exists i :: 0 <= i < |cs| && AboutTrace(cs[i]))
  {
    if i :| 0 <= i < |cs| && AboutTrace(cs[i]) {
      assert cs[i] in cs;
    }
  }

  /** Main result: `traceContext` and the wire verdict are final after the first pass, and that pass keeps
      every value `traceContext` came with. */
  lemma FirstPassIsFinal(e: Envelope)
    requires Normalized(e).Some? && Normalized(Normalized(e).value).Some?
    ensures var n := Normalized(e).value; var m := Normalized(n).value;
      && m.trace == n.trace && WireVerdict(m) == WireVerdict(n)
      && forall k :: k in e.trace ==> k in n.trace && n.trace[k] == e.trace[k]
  {
    var b := WithBodies(e).value;
    BodiesSettle(e);
    NormalizedAgain(b);
    TraceSettles(b);
    ConflictsOnlyGrow(b);
    forall k | k in e.trace
      ensures k in Promoted(b).trace && Promoted(b).trace[k] == e.trace[k]
    {
      TraceAt(b, k);
    }
    hide TraceAfter, EvidenceAfter, ConflictsAfter, Dedup, Kept, Removed, PromotedId, StageOf, WireVerdict;
    VerdictOf(Finished(Promoted(b)), Finished(Promoted(Promoted(b))));
  }
}
