/** Normalising a Capture again: what the second pass may still change, and that the third changes nothing. */
module CaptureSettling {
  import opened Options
  import opened CaptureEnvelope

  // ---------- lists without repetition ----------

  predicate Distinct<T(==)>(s: seq<T>) {
    forall i, j :: 0 <= i < j < |s| ==> s[i] != s[j]
  }

  lemma {:induction false} DedupKeeps<T>(s: seq<T>)
    ensures Distinct(Dedup(s)) && forall x :: x in Dedup(s) <==> x in s
  {
    if s != [] {
      DedupKeeps(s[..|s| - 1]);
      assert s == s[..|s| - 1] + [s[|s| - 1]];
    }
  }

  lemma {:induction false} DedupDistinct<T>(s: seq<T>)
    requires Distinct(s)
    ensures Dedup(s) == s
  {
    if s != [] {
      DedupDistinct(s[..|s| - 1]);
      assert s == s[..|s| - 1] + [s[|s| - 1]];
    }
  }

  /** Adding to a settled list changes nothing exactly when every addition is there already. */
  lemma {:induction false} DedupExtend<T>(s: seq<T>, more: seq<T>)
    requires Distinct(s)
    ensures Dedup(s + more) == s <==> forall x :: x in more ==> x in s
    ensures s <= Dedup(s + more)
  {
    if more == [] {
      assert s + more == s;
      DedupDistinct(s);
    } else {
      var init, last := more[..|more| - 1], more[|more| - 1];
      assert (s + more)[..|s + more| - 1] == s + init;
      assert more == init + [last];
      DedupExtend(s, init);
    }
  }

  // ---------- what a promotion leaves alone ----------

  lemma AllFields(f: TraceField)
    ensures exists i :: 0 <= i < |FIELDS| && FIELDS[i] == f
  {
    var at := FIELDS;
    match f
    case AgentId => assert at[0] == f;
    case AgentPath => assert at[1] == f;
    case BranchId => assert at[2] == f;
    case ConversationId => assert at[3] == f;
    case GoalId => assert at[4] == f;
    case ParentSessionId => assert at[5] == f;
    case ParentSpanId => assert at[6] == f;
    case PreviousResponseId => assert at[7] == f;
    case RootSessionId => assert at[8] == f;
    case RootTurnId => assert at[9] == f;
    case SessionFinal => assert at[10] == f;
    case SessionId => assert at[11] == f;
    case SpanId => assert at[12] == f;
    case TaskId => assert at[13] == f;
    case TaskSessionId => assert at[14] == f;
    case ThreadId => assert at[15] == f;
    case TraceFlags => assert at[16] == f;
    case TraceId => assert at[17] == f;
    case Traceparent => assert at[18] == f;
    case Tracestate => assert at[19] == f;
    case TurnId => assert at[20] == f;
  }

  /** Main result: promotion never overwrites a value of `traceContext`; a missing field with candidates
      gets the first of them, and no other key appears. */
  lemma {:induction false} TraceIsOnlyExtended(e: Envelope, n: nat, k: Key)
    requires n <= |FIELDS|
    ensures k in e.trace ==> k in TraceAfter(e, n) && TraceAfter(e, n)[k] == e.trace[k]
    ensures k !in e.trace ==>
      (k in TraceAfter(e, n) <==> k.Snake? && k.field in FIELDS[..n] && Candidates(e, k.field) != [])
    ensures k !in e.trace && k in TraceAfter(e, n) ==> TraceAfter(e, n)[k] == Candidates(e, k.field)[0].value
  {
    hide Candidates;
    if n > 0 {
      TraceIsOnlyExtended(e, n - 1, k);
      assert FIELDS[..n] == FIELDS[..n - 1] + [FIELDS[n - 1]];
    }
  }

  lemma TraceAt(e: Envelope, k: Key)
    ensures k in e.trace ==> k in Promoted(e).trace && Promoted(e).trace[k] == e.trace[k]
    ensures k !in e.trace ==> (k in Promoted(e).trace <==> k.Snake? && Candidates(e, k.field) != [])
    ensures k !in e.trace && k in Promoted(e).trace ==> Promoted(e).trace[k] == Candidates(e, k.field)[0].value
  {
    TraceIsOnlyExtended(e, |FIELDS|, k);
    if k.Snake? {
      AllFields(k.field);
      assert k.field in FIELDS[..|FIELDS|];
    }
  }

  // Where an evidence item of a promotion comes from.
  lemma {:induction false} EvidenceOrigin(e: Envelope, n: nat, x: Evidence)
    requires n <= |FIELDS|
    ensures x in EvidenceAfter(e, n) <==> exists i :: 0 <= i < n && x in EvidenceFor(e, FIELDS[i])
  {
    hide EvidenceFor;
    if n > 0 {
      EvidenceOrigin(e, n - 1, x);
      assert x in EvidenceAfter(e, n) <==> x in EvidenceAfter(e, n - 1) || x in EvidenceFor(e, FIELDS[n - 1]);
    }
  }

  lemma {:induction false} ConflictOrigin(e: Envelope, n: nat, x: Conflict)
    requires n <= |FIELDS|
    ensures x in ConflictsAfter(e, n) <==> exists i :: 0 <= i < n && x in ConflictFor(e, FIELDS[i])
  {
    hide ConflictFor;
    if n > 0 {
      ConflictOrigin(e, n - 1, x);
      assert x in ConflictsAfter(e, n) <==> x in ConflictsAfter(e, n - 1) || x in ConflictFor(e, FIELDS[n - 1]);
    }
  }

  lemma EvidenceSubject(e: Envelope, f: TraceField)
    ensures forall x :: x in EvidenceFor(e, f) ==> x.subject == Trace(f)
    ensures forall x :: x in ConflictFor(e, f) ==> x.subject == Trace(f)
  {
    hide Candidates, Selected, TwoValues;
  }

  lemma FieldEvidence(e: Envelope, x: Evidence)
    ensures x in EvidenceAfter(e, |FIELDS|) <==> x.subject.Trace? && x in EvidenceFor(e, x.subject.field)
  {
    hide EvidenceFor, EvidenceAfter;
    EvidenceOrigin(e, |FIELDS|, x);
    forall f {
      EvidenceSubject(e, f);
    }
    if x.subject.Trace? {
      AllFields(x.subject.field);
    }
  }

  lemma FieldConflicts(e: Envelope, x: Conflict)
    ensures x in ConflictsAfter(e, |FIELDS|) <==> x.subject.Trace? && x in ConflictFor(e, x.subject.field)
  {
    hide ConflictFor, ConflictsAfter;
    ConflictOrigin(e, |FIELDS|, x);
    forall f {
      EvidenceSubject(e, f);
    }
    if x.subject.Trace? {
      AllFields(x.subject.field);
    }
  }

  lemma EvidenceMembers(e: Envelope, x: Evidence)
    ensures x in Promoted(e).evidence <==>
      || x in e.evidence || (x.subject.Trace? && x in EvidenceFor(e, x.subject.field))
      || x in IdEvidence(e, ByClient) || x in IdEvidence(e, ByUpstream)
  {
    hide EvidenceFor, EvidenceAfter, IdEvidence, Dedup, ConflictsAfter, TraceAfter;
    DedupKeeps(e.evidence + Generated(e));
    FieldEvidence(e, x);
  }

  lemma ConflictMembers(e: Envelope, x: Conflict)
    ensures x in Promoted(e).conflicts <==>
      x in e.conflicts || (x.subject.Trace? && x in ConflictFor(e, x.subject.field))
  {
    hide ConflictFor, EvidenceAfter, IdEvidence, Dedup, ConflictsAfter, TraceAfter;
    DedupKeeps(e.conflicts + ConflictsAfter(e, |FIELDS|));
    FieldConflicts(e, x);
  }

  // ---------- the second promotion ----------

  lemma ExternalUnmoved(e: Envelope, f: TraceField)
    ensures External(Promoted(e), f) == External(e, f)
  {
    hide FromW3c, FromObject, HeaderValue, TraceAfter, ConflictsAfter, EvidenceAfter;
    FromW3cSame(e, Promoted(e), f);
  }

  lemma FromW3cSame(e: Envelope, g: Envelope, f: TraceField)
    requires HeaderValue(e.requestHeaders, TraceparentHeader) == HeaderValue(g.requestHeaders, TraceparentHeader)
    requires HeaderValue(e.requestHeaders, TracestateHeader) == HeaderValue(g.requestHeaders, TracestateHeader)
    ensures FromW3c(g, f) == FromW3c(e, f)
  {
    hide ParentForm, HeaderValue;
  }

  /** A field with candidates has evidence after the promotion. */
  lemma EvidencedAfter(e: Envelope, f: TraceField)
    ensures Evidenced(Promoted(e).evidence, Trace(f)) <==> Evidenced(e.evidence, Trace(f)) || Candidates(e, f) != []
  {
    var p := Promoted(e);
    if Evidenced(e.evidence, Trace(f)) {
      var i :| 0 <= i < |e.evidence| && e.evidence[i].subject == Trace(f);
      EvidencedBy(e, e.evidence[i]);
    } else if Candidates(e, f) != [] {
      var x := EvidenceFor(e, f)[0];
      assert x in EvidenceFor(e, f);
      EvidencedBy(e, x);
    } else if Evidenced(p.evidence, Trace(f)) {
      var i :| 0 <= i < |p.evidence| && p.evidence[i].subject == Trace(f);
      EvidenceMembers(e, p.evidence[i]);
      assert p.evidence[i] in p.evidence;
      assert p.evidence[i] !in EvidenceFor(e, f);
      IdSubjects(e, p.evidence[i]);
    }
  }

  lemma EvidencedBy(e: Envelope, x: Evidence)
    requires x in e.evidence || (x.subject.Trace? && x in EvidenceFor(e, x.subject.field))
    ensures Evidenced(Promoted(e).evidence, x.subject)
  {
    EvidenceMembers(e, x);
  }

  lemma IdSubjects(e: Envelope, x: Evidence)
    ensures x in IdEvidence(e, ByClient) ==> x.subject == RequestIdField
    ensures x in IdEvidence(e, ByUpstream) ==> x.subject == UpstreamRequestIdField
  {
  }

  lemma {:induction false} FromObjectSame(x: map<Key, Value>, y: map<Key, Value>, aliases: seq<Key>, origin: Origin)
    requires forall k :: k in aliases ==> (k in x <==> k in y) && (k in x ==> x[k] == y[k])
    ensures FromObject(x, aliases, origin) == FromObject(y, aliases, origin)
  {
    if aliases != [] {
      assert aliases[0] in aliases;
      FromObjectSame(x, y, aliases[1..], origin);
    }
  }

  lemma AliasesKept(e: Envelope, f: TraceField)
    requires Candidates(e, f) == []
    ensures FromObject(Promoted(e).trace, Aliases(f), Captured) == FromObject(e.trace, Aliases(f), Captured)
  {
    hide Promoted, Candidates, FromObject;
    var p := Promoted(e);
    forall k | k in Aliases(f)
      ensures (k in e.trace <==> k in p.trace) && (k in e.trace ==> e.trace[k] == p.trace[k])
    {
      TraceAt(e, k);
    }
    FromObjectSame(e.trace, p.trace, Aliases(f), Captured);
  }

  /** After one promotion the envelope's own values speak no more. */
  lemma OwnIsSpent(e: Envelope, f: TraceField)
    ensures Own(Promoted(e), f) == []
  {
    hide Promoted, External, Evidenced, FromObject;
    EvidencedAfter(e, f);
    if Candidates(e, f) == [] {
      AliasesKept(e, f);
    }
  }

  lemma SecondCandidates(e: Envelope, f: TraceField)
    ensures Candidates(Promoted(e), f) == External(e, f)
  {
    hide Promoted, Own, External;
    OwnIsSpent(e, f);
    ExternalUnmoved(e, f);
  }

  lemma TraceSettles(e: Envelope)
    ensures Promoted(Promoted(e)).trace == Promoted(e).trace
  {
    hide Promoted, Candidates;
    var p := Promoted(e);
    forall k
      ensures k in Promoted(p).trace <==> k in p.trace
      ensures k in p.trace ==> Promoted(p).trace[k] == p.trace[k]
    {
      TraceAt(p, k);
      TraceAt(e, k);
      if k.Snake? {
        SecondCandidates(e, k.field);
        OwnBesideExternal(e, k.field);
      }
    }
  }

  lemma OwnBesideExternal(e: Envelope, f: TraceField)
    ensures External(e, f) != [] ==> Candidates(e, f) != []
  {
  }

  // ---------- exactly when the second promotion changes nothing ----------

  // The canonical key is there but holds no protocol value.
  predicate BlankKey(e: Envelope, f: TraceField) {
    Snake(f) in e.trace && !Present(e.trace[Snake(f)])
  }

  /** A field whose own value goes beside others: the others agree (or their disagreement is on record
      already), and no alias hides behind a blank key with another value than the first of them. */
  predicate FieldSettled(e: Envelope, f: TraceField) {
    Own(e, f) != [] && External(e, f) != [] ==>
      && (TwoValues(External(e, f)) ==> Conflict(Trace(f), External(e, f), 0) in e.conflicts)
      && (BlankKey(e, f) ==> Own(e, f)[0].value == External(e, f)[0].value)
  }

  ghost predicate Settled(e: Envelope) {
    forall f :: FieldSettled(e, f)
  }

  lemma {:induction false} OwnArePresent(object_: map<Key, Value>, aliases: seq<Key>, origin: Origin)
    ensures forall i :: 0 <= i < |FromObject(object_, aliases, origin)| ==>
      Present(FromObject(object_, aliases, origin)[i].value)
  {
    if aliases != [] {
      OwnArePresent(object_, aliases[1..], origin);
    }
  }

  lemma SelectedTwice(e: Envelope, f: TraceField)
    requires External(e, f) != []
    ensures Selected(Promoted(e), f) == Selected(e, f)
      || (Selected(Promoted(e), f) == Some(External(e, f)[0].value) && Own(e, f) != [] && BlankKey(e, f))
    ensures Own(e, f) != [] && BlankKey(e, f) ==>
      Selected(Promoted(e), f) == Some(External(e, f)[0].value) && Selected(e, f) == Some(Own(e, f)[0].value)
  {
    OwnArePresent(e.trace, Aliases(f), Captured);
    assert Own(e, f) != [] ==> Present(Own(e, f)[0].value);
    hide Promoted, Own, External, Present;
    SecondCandidates(e, f);
    TraceAt(e, Snake(f));
  }

  lemma EvidenceSettles(e: Envelope, f: TraceField)
    ensures (forall x :: x in EvidenceFor(Promoted(e), f) ==> x in Promoted(e).evidence)
      <==> External(e, f) == [] || Selected(Promoted(e), f) == Selected(e, f)
  {
    hide Promoted, Own, External, Selected, BlankKey, Evidenced;
    var p := Promoted(e);
    SecondCandidates(e, f);
    if External(e, f) != [] {
      if Selected(p, f) == Selected(e, f) {
        SameItems(e, f);
      } else {
        NewItem(e, f);
      }
    }
  }

  lemma SameItems(e: Envelope, f: TraceField)
    requires Selected(Promoted(e), f) == Selected(e, f)
    ensures forall x :: x in EvidenceFor(Promoted(e), f) ==> x in Promoted(e).evidence
  {
    hide Promoted, Own, External, Selected;
    SecondCandidates(e, f);
    forall x | x in EvidenceFor(Promoted(e), f)
      ensures x in Promoted(e).evidence
    {
      var i :| 0 <= i < |External(e, f)| && EvidenceFor(Promoted(e), f)[i] == x;
      assert EvidenceFor(e, f)[|Own(e, f)| + i] == x;
      EvidenceMembers(e, x);
    }
  }

  lemma NewItem(e: Envelope, f: TraceField)
    requires External(e, f) != [] && Selected(Promoted(e), f) != Selected(e, f)
    ensures exists x :: x in EvidenceFor(Promoted(e), f) && x !in Promoted(e).evidence
  {
    SelectedTwice(e, f);
    hide Promoted, External, Selected, BlankKey, FromObject;
    SecondCandidates(e, f);
    var x := EvidenceFor(Promoted(e), f)[0];
    assert x in EvidenceFor(Promoted(e), f);
    EvidenceMembers(e, x);
    IdSubjects(e, x);
  }

  lemma ConflictSettles(e: Envelope, f: TraceField)
    ensures (forall x :: x in ConflictFor(Promoted(e), f) ==> x in Promoted(e).conflicts)
      <==> (TwoValues(External(e, f)) ==> Own(e, f) == [] || Conflict(Trace(f), External(e, f), 0) in e.conflicts)
  {
    hide Promoted, Own, External, TwoValues;
    SecondCandidates(e, f);
    var x := Conflict(Trace(f), External(e, f), 0);
    ConflictMembers(e, x);
    assert TwoValues(External(e, f)) ==> x in ConflictFor(Promoted(e), f);
    assert Own(e, f) == [] ==> Candidates(e, f) == External(e, f);
  }

  lemma FieldSettles(e: Envelope, f: TraceField)
    ensures FieldSettled(e, f) <==>
      && (forall x :: x in EvidenceFor(Promoted(e), f) ==> x in Promoted(e).evidence)
      && (forall x :: x in ConflictFor(Promoted(e), f) ==> x in Promoted(e).conflicts)
  {
    hide Promoted, Own, External, Selected, BlankKey, TwoValues;
    EvidenceSettles(e, f);
    ConflictSettles(e, f);
    if External(e, f) != [] {
      SelectedTwice(e, f);
    } else {
      assert !TwoValues(External(e, f)) by { NoTwoValues(External(e, f)); }
    }
  }

  lemma NoTwoValues(cs: seq<Candidate>)
    requires cs == []
    ensures !TwoValues(cs)
  {
  }

  // ---------- request identifiers settle at once ----------

  lemma IdEvidencedAfter(e: Envelope, k: IdKind)
    requires IdCandidates(e, k) != [] || Evidenced(e.evidence, IdSubject(k))
    ensures Evidenced(Promoted(e).evidence, IdSubject(k))
  {
    hide Promoted, IdCandidates;
    if Evidenced(e.evidence, IdSubject(k)) {
      var i :| 0 <= i < |e.evidence| && e.evidence[i].subject == IdSubject(k);
      EvidenceMembers(e, e.evidence[i]);
    } else {
      var x := IdEvidence(e, k)[0];
      assert x in IdEvidence(e, k);
      EvidenceMembers(e, x);
    }
  }

  lemma IdsSettle(e: Envelope, k: IdKind)
    ensures PromotedId(Promoted(e), k) == PromotedId(e, k)
    ensures SelectedId(Promoted(e), k) == SelectedId(e, k)
    ensures forall x :: x in IdEvidence(Promoted(e), k) ==> x in IdEvidence(e, k)
  {
    var p := Promoted(e);
    hide TraceAfter, EvidenceAfter, ConflictsAfter, Dedup, HeaderValue, Blank, Evidenced;
    assert IdOf(p, k) == PromotedId(e, k);
    assert ObservedId(p, k) == ObservedId(e, k);
    if IdCandidates(e, k) != [] || Evidenced(e.evidence, IdSubject(k)) {
      IdEvidencedAfter(e, k);
    }
    assert SelectedId(p, k) == SelectedId(e, k);
    hide Promoted, SelectedId;
    forall x | x in IdEvidence(p, k)
      ensures x in IdEvidence(e, k)
    {
      var i :| 0 <= i < |IdCandidates(p, k)| && IdEvidence(p, k)[i] == x;
      var own := |IdCandidates(e, k)| - |IdCandidates(p, k)|;
      assert IdCandidates(e, k)[own + i] == IdCandidates(p, k)[i];
      assert IdEvidence(e, k)[own + i] == x;
    }
  }

  // ---------- the promotion theorems ----------

  lemma GeneratedSettles(e: Envelope)
    ensures Settled(e) <==>
      && (forall x :: x in Generated(Promoted(e)) ==> x in Promoted(e).evidence)
      && (forall x :: x in ConflictsAfter(Promoted(e), |FIELDS|) ==> x in Promoted(e).conflicts)
  {
    hide Promoted, EvidenceFor, ConflictFor, FieldSettled, IdEvidence, EvidenceAfter, ConflictsAfter;
    var p := Promoted(e);
    forall x
      ensures x in Generated(p) <==>
        x in EvidenceAfter(p, |FIELDS|) || x in IdEvidence(p, ByClient) || x in IdEvidence(p, ByUpstream)
      ensures x in IdEvidence(p, ByClient) || x in IdEvidence(p, ByUpstream) ==> x in p.evidence
      ensures x in EvidenceAfter(p, |FIELDS|) <==> x.subject.Trace? && x in EvidenceFor(p, x.subject.field)
    {
      IdsSettle(e, ByClient);
      IdsSettle(e, ByUpstream);
      EvidenceMembers(e, x);
      FieldEvidence(p, x);
    }
    forall x
      ensures x in ConflictsAfter(p, |FIELDS|) <==> x.subject.Trace? && x in ConflictFor(p, x.subject.field)
    {
      FieldConflicts(p, x);
    }
    forall f
      ensures FieldSettled(e, f) <==>
        && (forall x :: x in EvidenceFor(p, f) ==> x in p.evidence)
          && (forall x :: x in ConflictFor(p, f) ==> x in p.conflicts)
      ensures forall x :: x in EvidenceFor(p, f) ==> x.subject == Trace(f)
      ensures forall x :: x in ConflictFor(p, f) ==> x.subject == Trace(f)
    {
      FieldSettles(e, f);
      EvidenceSubject(p, f);
    }
  }

  /** Main result: a second promotion changes nothing exactly when the envelope is settled. */
  lemma SecondPromotion(e: Envelope)
    ensures Promoted(Promoted(e)) == Promoted(e) <==> Settled(e)
  {
    var p := Promoted(e);
    GeneratedSettles(e);
    TraceSettles(e);
    IdsSettle(e, ByClient);
    IdsSettle(e, ByUpstream);
    DedupKeeps(e.evidence + Generated(e));
    DedupKeeps(e.conflicts + ConflictsAfter(e, |FIELDS|));
    DedupExtend(p.evidence, Generated(p));
    DedupExtend(p.conflicts, ConflictsAfter(p, |FIELDS|));
    hide Settled, Generated, ConflictsAfter, TraceAfter, Dedup, StageOf;
  }

  /** Main result: what a promotion leaves is always settled, so a third one changes nothing. */
  lemma PromotionSettles(e: Envelope)
    ensures Settled(Promoted(e)) && Promoted(Promoted(Promoted(e))) == Promoted(Promoted(e))
  {
    forall f
      ensures FieldSettled(Promoted(e), f)
    {
      OwnIsSpent(e, f);
    }
    hide Promoted, FieldSettled;
    SecondPromotion(Promoted(e));
  }
}
