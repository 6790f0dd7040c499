/** The normalisation as it runs: one JSON object changed in place, step by step. */
module CaptureObject {
  import opened Options
  import opened CaptureEnvelope

  /** Appends the additions and keeps the first of equal items, remembering what has been seen. */
  method MergeArray<T(==)>(existing: seq<T>, additions: seq<T>) returns (values: seq<T>)
    ensures values == Dedup(existing + additions)
  {
    var all := existing + additions;
    var seen: set<T> := {};
    values := [];
    for i := 0 to |all|
      invariant values == Dedup(all[..i])
      invariant forall x :: x in seen <==> x in values
    {
      assert all[..i + 1][..i] == all[..i];
      if all[i] !in seen {
        seen := seen + {all[i]};
        values := values + [all[i]];
      }
    }
    assert all[..|all|] == all;
  }

  method SanitizeHeaders(headers: seq<Header>) returns (kept: seq<Header>, redacted: set<string>)
    ensures kept == Kept(headers) && redacted == Removed(headers)
  {
    kept, redacted := [], {};
    assert headers[0..] == headers;
    for i := 0 to |headers|
      invariant kept + Kept(headers[i..]) == Kept(headers)
      invariant redacted == Removed(headers[..i])
    {
      RemovedNext(headers, i);
      assert headers[i..][1..] == headers[i + 1..];
      if headers[i].name.Sensitive? {
        redacted := redacted + {headers[i].name.lower};
      } else {
        kept := kept + [headers[i]];
      }
    }
    assert headers[..|headers|] == headers;
  }

  lemma RemovedNext(headers: seq<Header>, i: nat)
    requires i < |headers|
    ensures Removed(headers[..i + 1]) == Removed(headers[..i])
      + (if headers[i].name.Sensitive? then {headers[i].name.lower} else {})
  {
    var more, less := headers[..i + 1], headers[..i];
    forall x
      ensures x in Removed(more) <==> x in Removed(less) || (headers[i].name.Sensitive? && x == headers[i].name.lower)
    {
      if x in Removed(less) {
        var j :| 0 <= j < |less| && less[j].name.Sensitive? && less[j].name.lower == x;
        assert more[j] == less[j];
      }
      if headers[i].name.Sensitive? && x == headers[i].name.lower {
        assert more[i] == headers[i];
      }
    }
  }

  class CaptureObject {
    var object_: Envelope

    constructor (value: Envelope)
      ensures object_ == value
    {
      object_ := value;
    }

    /** Promotes every field, then the two request identifiers, then merges what was found. */
    method PromoteProtocolFields()
      modifies this
      ensures object_ == Promoted(old(object_))
    {
      hide Candidates, Selected, TwoValues, Items, Dedup;
      var before := object_;
      var trace := before.trace;
      var evidence: seq<Evidence>, conflicts: seq<Conflict> := [], [];
      for n := 0 to |FIELDS|
        invariant object_ == before
        invariant trace == TraceAfter(before, n)
        invariant evidence == EvidenceAfter(before, n) && conflicts == ConflictsAfter(before, n)
      {
        var f := FIELDS[n];
        var candidates := Candidates(before, f);
        if candidates != [] && Snake(f) !in trace {
          trace := trace[Snake(f) := candidates[0].value];
        }
        evidence := evidence + Items(Trace(f), candidates, Selected(before, f));
        if TwoValues(candidates) {
          conflicts := conflicts + [Conflict(Trace(f), candidates, 0)];
        }
      }
      evidence := evidence + IdEvidence(before, ByClient) + IdEvidence(before, ByUpstream);
      var merged := MergeArray(before.evidence, evidence);
      var mergedConflicts := MergeArray(before.conflicts, conflicts);
      hide TraceAfter, EvidenceAfter, ConflictsAfter, IdEvidence, StageOf, PromotedId;
      object_ := object_.(trace := trace, requestId := PromotedId(before, ByClient),
                          upstreamRequestId := PromotedId(before, ByUpstream));
      object_ := object_.(evidence := merged, conflicts := mergedConflicts);
      if object_.stage.None? {
        object_ := object_.(stage := Some(StageOf(before)));
      }
    }

    /** One whole pass; `ok` is false when a body contradicts what is declared about it. */
    method Normalize() returns (ok: bool)
      modifies this
      ensures ok <==> Normalized(old(object_)).Some?
      ensures ok ==> object_ == Normalized(old(object_)).value
    {
      hide Promoted, Kept, Removed, FirstStated;
      var request := Checked(Parsed(object_.request));
      var response := Checked(Parsed(object_.response));
      if request.None? || response.None? {
        return false;
      }
      object_ := object_.(request := request.value, response := response.value);
      PromoteProtocolFields();
      ghost var promoted := object_;
      var requestHeaders, one := SanitizeHeaders(object_.requestHeaders);
      var responseHeaders, two := SanitizeHeaders(object_.responseHeaders);
      object_ := object_.(requestHeaders := requestHeaders, responseHeaders := responseHeaders,
                          redacted := object_.redacted + one + two);
      object_ := object_.(version := Current, defaults := DEFAULTS + object_.defaults);
      if object_.receivedAt.None? || object_.receivedAt == Some(Null) {
        object_ := object_.(receivedAt := Some(FirstStated(object_.receivedAt, object_.finishedAt, object_.startedAt)));
      }
      assert object_ == Finished(promoted);
      ok := true;
    }
  }
}
