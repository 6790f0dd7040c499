/** Scenario witnesses from one snapshot of Captures: which tool results stand undisputed, and which of
    them show a failed process or a process polled to its end. Identifiers are numbered in the order of
    their bytes, the order in which the source's maps list them. */
module ScenarioWitness {
  import opened Options

  type Id = int

  // ---------- input ----------

  datatype Turn = Turn(turnId: Id, sessionId: Id, captureRefs: seq<Id>, modelInteractions: nat)

  datatype Session = Session(sessionId: Id, turns: seq<Turn>)

  datatype Tool = ExecCommand | WriteStdin

  // A reported process state; `successIsNull` and `success` are as the report has them.
  datatype Process = Running(processId: int, successIsNull: bool) | Exited(success: bool, exitCode: int) | OtherState

  // A tool execution. `admissible` stands for the checks on tool name, event name, truncation and provenance.
  datatype Execution = Execution(admissible: bool, tool: Tool, emptyNamespace: bool, callId: Option<Id>,
                                 sequence: Option<nat>,
                                 process: Process, requested: Option<int>)

  datatype Kind = ToolExecution(execution: Execution) | SessionResume(sessionId: Option<Id>) | OtherKind

  datatype Capture = Capture(captureId: Option<Id>, kind: Kind)

  // ---------- witnesses ----------

  datatype Witness = Witness(captureId: Id, turnId: Id, callId: Id, tool: Tool, emptyNamespace: bool, sequence: nat,
                             process: Process, requested: Option<int>)

  datatype Key = Key(turnId: Id, callId: Id)

  predicate Consistent(p: Process) {
    (p.Running? && p.processId > 0 && p.successIsNull) || (p.Exited? && p.success == (p.exitCode == 0))
  }

  /** What a Capture proves about a tool call of a Turn, if anything. */
  function Observation(c: Capture, turnId: Id): Option<Witness> {
    if c.kind.ToolExecution? && c.captureId.Some? && c.kind.execution.admissible && Consistent(c.kind.execution.process)
       && c.kind.execution.callId.Some? && c.kind.execution.sequence.Some? && c.kind.execution.sequence.value > 0
    then
      var x := c.kind.execution;
      Some(Witness(c.captureId.value, turnId, x.callId.value, x.tool, x.emptyNamespace, x.sequence.value, x.process,
                   x.requested))
    else None
  }

  // How often a Capture is claimed by the first n Turns.
  function Claims(turns: seq<Turn>, id: Id, n: nat): nat
    requires n <= |turns|
  {
    if n == 0 then 0 else Claims(turns, id, n - 1) + multiset(turns[n - 1].captureRefs)[id]
  }

  /** The one Turn that claims a Capture; a Capture claimed twice belongs to none. */
  function Owner(turns: seq<Turn>, id: Id, n: nat): Option<Turn>
    requires n <= |turns|
  {
    if Claims(turns, id, n) != 1 then None
    else if id in turns[n - 1].captureRefs then Some(turns[n - 1])
    else Owner(turns, id, n - 1)
  }

  function WitnessOf(session: Session, c: Capture): Option<Witness> {
    if c.captureId.None? then None
    else
      var owner := Owner(session.turns, c.captureId.value, |session.turns|);
      if owner.None? || owner.value.sessionId != session.sessionId then None
      else Observation(c, owner.value.turnId)
  }

  function KeyOf(w: Witness): Key {
    Key(w.turnId, w.callId)
  }

  // A witness without the name of the Capture that carried it.
  function Stripped(w: Witness): Witness {
    w.(captureId := 0)
  }

  // ---------- what a witness repeats ----------

  // Among the first n Turns the one at i claims the Capture at one place, and no other Turn claims it.
  predicate ClaimedOnce(turns: seq<Turn>, n: nat, id: Id, i: nat)
    requires n <= |turns|
  {
    && i < n && id in turns[i].captureRefs
    && (forall j, k :: 0 <= j < |turns[i].captureRefs| && 0 <= k < |turns[i].captureRefs| && j != k ==>
          turns[i].captureRefs[j] != id || turns[i].captureRefs[k] != id)
    && (forall h :: 0 <= h < n && h != i ==> id !in turns[h].captureRefs)
  }

  lemma {:induction false} CountIsPlaces(refs: seq<Id>, id: Id)
    ensures multiset(refs)[id] == 0 <==> id !in refs
    ensures multiset(refs)[id] <= 1 <==>
      forall j, k :: 0 <= j < |refs| && 0 <= k < |refs| && j != k ==> refs[j] != id || refs[k] != id
  {
    if refs != [] {
      var n := |refs| - 1;
      CountIsPlaces(refs[..n], id);
      assert refs == refs[..n] + [refs[n]];
      if refs[n] == id && id in refs[..n] {
        var j :| 0 <= j < n && refs[j] == id;
        assert refs[j] == id && refs[n] == id;
      }
    }
  }

  lemma {:induction false} NoClaims(turns: seq<Turn>, id: Id, n: nat)
    requires n <= |turns|
    ensures Claims(turns, id, n) == 0 <==> forall h :: 0 <= h < n ==> id !in turns[h].captureRefs
  {
    if n > 0 {
      NoClaims(turns, id, n - 1);
      CountIsPlaces(turns[n - 1].captureRefs, id);
    }
  }

  lemma {:induction false} OwnerClaims(turns: seq<Turn>, id: Id, n: nat) returns (i: nat)
    requires n <= |turns| && Claims(turns, id, n) == 1
    ensures ClaimedOnce(turns, n, id, i) && Owner(turns, id, n) == Some(turns[i])
  {
    CountIsPlaces(turns[n - 1].captureRefs, id);
    if id in turns[n - 1].captureRefs {
      i := n - 1;
      NoClaims(turns, id, n - 1);
    } else {
      i := OwnerClaims(turns, id, n - 1);
    }
  }

  lemma {:induction false} ClaimCounts(turns: seq<Turn>, id: Id, n: nat, i: nat)
    requires n <= |turns| && ClaimedOnce(turns, n, id, i)
    ensures Claims(turns, id, n) == 1
  {
    CountIsPlaces(turns[n - 1].captureRefs, id);
    NoClaims(turns, id, n - 1);
    if i < n - 1 {
      ClaimCounts(turns, id, n - 1, i);
    }
  }

  // The Capture belongs to this Turn of the Session and to no other place.
  ghost predicate BelongsTo(session: Session, id: Id, turnId: Id) {
    exists i: nat ::
      ClaimedOnce(session.turns, |session.turns|, id, i)
      && session.turns[i].sessionId == session.sessionId && session.turns[i].turnId == turnId
  }

  lemma OwnerMeans(session: Session, id: Id, turnId: Id)
    ensures var owner := Owner(session.turns, id, |session.turns|);
      BelongsTo(session, id, turnId) <==>
        owner.Some? && owner.value.sessionId == session.sessionId && owner.value.turnId == turnId
  {
    var turns := session.turns;
    if Claims(turns, id, |turns|) == 1 {
      var i := OwnerClaims(turns, id, |turns|);
      hide Owner;
    } else {
      forall i: nat | ClaimedOnce(turns, |turns|, id, i) ensures false {
        ClaimCounts(turns, id, |turns|, i);
      }
    }
  }

  /** Main result: a witness repeats its Capture field by field. It exists exactly for an admissible tool
      execution with a call, a positive sequence and a process state that makes sense, whose Capture is
      claimed at one place only, in a Turn of this Session. */
  lemma WitnessMeans(session: Session, c: Capture, w: Witness)
    ensures WitnessOf(session, c) == Some(w) <==>
      && c.captureId == Some(w.captureId) && c.kind.ToolExecution? && c.kind.execution.admissible
      && c.kind.execution.callId == Some(w.callId) && c.kind.execution.tool == w.tool
      && c.kind.execution.emptyNamespace == w.emptyNamespace && c.kind.execution.sequence == Some(w.sequence)
      && c.kind.execution.process == w.process && c.kind.execution.requested == w.requested && w.sequence > 0
      && ((w.process.Running? && w.process.processId > 0 && w.process.successIsNull)
          || (w.process.Exited? && (w.process.success <==> w.process.exitCode == 0)))
      && BelongsTo(session, w.captureId, w.turnId)
  {
    OwnerMeans(session, w.captureId, w.turnId);
    hide BelongsTo, Owner;
  }

  // ---------- undisputed observations ----------

  datatype Seen = Seen(first: map<Key, Witness>, conflicts: set<Key>)

  function Noted(s: Seen, w: Witness): Seen {
    var k := KeyOf(w);
    if k !in s.first then s.(first := s.first[k := w])
    else if Stripped(s.first[k]) != Stripped(w) then s.(conflicts := s.conflicts + {k})
    else s
  }

  /** After the first n Captures: the first witness of each call, and the calls witnessed differently. */
  function SeenAfter(session: Session, captures: seq<Capture>, n: nat): Seen
    requires n <= |captures|
  {
    if n == 0 then Seen(map[], {})
    else
      var before := SeenAfter(session, captures, n - 1);
      var w := WitnessOf(session, captures[n - 1]);
      if w.None? then before else Noted(before, w.value)
  }

  function Undisputed(session: Session, captures: seq<Capture>): map<Key, Witness> {
    var s := SeenAfter(session, captures, |captures|);
    map k | k in s.first && k !in s.conflicts :: s.first[k]
  }

  // Some Capture witnesses this call so.
  predicate Attests(session: Session, captures: seq<Capture>, n: nat, w: Witness)
    requires n <= |captures|
  {
    exists i :: 0 <= i < n && WitnessOf(session, captures[i]) == Some(w)
  }

  lemma AttestsNext(session: Session, captures: seq<Capture>, n: nat, w: Witness)
    requires 0 < n <= |captures|
    ensures Attests(session, captures, n, w) <==>
      Attests(session, captures, n - 1, w) || WitnessOf(session, captures[n - 1]) == Some(w)
  {
  }

  ghost predicate SeenSound(session: Session, captures: seq<Capture>, n: nat, s: Seen)
    requires n <= |captures|
  {
    && (forall k :: k in s.first ==> KeyOf(s.first[k]) == k && Attests(session, captures, n, s.first[k]))
    && (forall w :: Attests(session, captures, n, w) ==> KeyOf(w) in s.first)
    && (forall k :: k in s.conflicts <==> k in s.first && Disputed(session, captures, n, k, s.first[k]))
  }

  ghost predicate Disputed(session: Session, captures: seq<Capture>, n: nat, k: Key, w: Witness)
    requires n <= |captures|
  {
    exists v :: Attests(session, captures, n, v) && KeyOf(v) == k && Stripped(v) != Stripped(w)
  }

  // The n-th Capture speaks against a witness of the same call.
  predicate SpeaksAgainst(session: Session, c: Capture, k: Key, w: Witness) {
    var v := WitnessOf(session, c);
    v.Some? && KeyOf(v.value) == k && Stripped(v.value) != Stripped(w)
  }

  lemma DisputedNext(session: Session, captures: seq<Capture>, n: nat, k: Key, w: Witness)
    requires 0 < n <= |captures|
    ensures Disputed(session, captures, n, k, w)
      <==> Disputed(session, captures, n - 1, k, w) || SpeaksAgainst(session, captures[n - 1], k, w)
  {
    hide WitnessOf, Attests;
    forall v {
      AttestsNext(session, captures, n, v);
    }
  }

  lemma FirstsSound(session: Session, captures: seq<Capture>, n: nat)
    requires 0 < n <= |captures| && SeenSound(session, captures, n - 1, SeenAfter(session, captures, n - 1))
    ensures var s := SeenAfter(session, captures, n);
      && (forall k :: k in s.first ==> KeyOf(s.first[k]) == k && Attests(session, captures, n, s.first[k]))
      && (forall w :: Attests(session, captures, n, w) ==> KeyOf(w) in s.first)
  {
    hide WitnessOf, Disputed;
    forall w {
      AttestsNext(session, captures, n, w);
    }
    hide Attests;
  }

  lemma ConflictsSound(session: Session, captures: seq<Capture>, n: nat, k: Key)
    requires 0 < n <= |captures| && SeenSound(session, captures, n - 1, SeenAfter(session, captures, n - 1))
    ensures var s := SeenAfter(session, captures, n);
      k in s.conflicts <==> k in s.first && Disputed(session, captures, n, k, s.first[k])
  {
    hide WitnessOf, Attests;
    var before, s := SeenAfter(session, captures, n - 1), SeenAfter(session, captures, n);
    if k in s.first {
      DisputedNext(session, captures, n, k, s.first[k]);
      if k !in before.first {
        Unattested(session, captures, n - 1, before, k, s.first[k]);
      }
    }
  }

  // A call first witnessed now was not disputed before.
  lemma Unattested(session: Session, captures: seq<Capture>, n: nat, s: Seen, k: Key, w: Witness)
    requires n <= |captures| && SeenSound(session, captures, n, s) && k !in s.first
    ensures !Disputed(session, captures, n, k, w)
  {
    hide Attests;
  }

  /** The bookkeeping is exact: a call is in conflict exactly when two Captures witness it differently. */
  lemma {:induction false} SeenIsExact(session: Session, captures: seq<Capture>, n: nat)
    requires n <= |captures|
    ensures SeenSound(session, captures, n, SeenAfter(session, captures, n))
  {
    if n == 0 {
      NothingSeen(session, captures);
    } else {
      hide WitnessOf, Attests, Disputed, SeenAfter;
      SeenIsExact(session, captures, n - 1);
      FirstsSound(session, captures, n);
      forall k {
        ConflictsSound(session, captures, n, k);
      }
    }
  }

  lemma NothingSeen(session: Session, captures: seq<Capture>)
    ensures SeenSound(session, captures, 0, SeenAfter(session, captures, 0))
  {
    hide WitnessOf;
  }

  /** A call is undisputed exactly when some Capture witnesses it and all agree but for their own names. */
  ghost predicate Agreed(session: Session, captures: seq<Capture>, k: Key, w: Witness) {
    && KeyOf(w) == k && Attests(session, captures, |captures|, w)
    && forall v :: Attests(session, captures, |captures|, v) && KeyOf(v) == k ==> Stripped(v) == Stripped(w)
  }

  lemma UndisputedExactly(session: Session, captures: seq<Capture>, k: Key)
    ensures k in Undisputed(session, captures) <==> exists w :: Agreed(session, captures, k, w)
    ensures k in Undisputed(session, captures) ==> Agreed(session, captures, k, Undisputed(session, captures)[k])
  {
    SeenIsExact(session, captures, |captures|);
    hide WitnessOf, Attests, SeenAfter, Stripped;
    var s := SeenAfter(session, captures, |captures|);
    if k in s.first && k !in s.conflicts {
      assert Agreed(session, captures, k, s.first[k]);
    } else if w :| Agreed(session, captures, k, w) {
      assert k in s.first;
    }
  }

  // Two lists of the same Captures, in any order and repetition.
  ghost predicate SameCaptures(x: seq<Capture>, y: seq<Capture>) {
    forall c :: c in x <==> c in y
  }

  lemma SameAttest(session: Session, x: seq<Capture>, y: seq<Capture>, w: Witness)
    requires SameCaptures(x, y) && Attests(session, x, |x|, w)
    ensures Attests(session, y, |y|, w)
  {
    hide WitnessOf;
    var i :| 0 <= i < |x| && WitnessOf(session, x[i]) == Some(w);
    assert x[i] in y;
    var j :| 0 <= j < |y| && y[j] == x[i];
  }

  lemma SameAgreed(session: Session, x: seq<Capture>, y: seq<Capture>, k: Key, w: Witness)
    requires SameCaptures(x, y) && Agreed(session, x, k, w)
    ensures Agreed(session, y, k, w)
  {
    hide Attests;
    SameAttest(session, x, y, w);
    forall v | Attests(session, y, |y|, v) && KeyOf(v) == k
      ensures Stripped(v) == Stripped(w)
    {
      SameAttest(session, y, x, v);
    }
  }

  function AllStripped(m: map<Key, Witness>): map<Key, Witness> {
    map k | k in m :: Stripped(m[k])
  }

  /** Main result: neither the order nor the repetition of Captures matters to the undisputed witnesses,
      but for which duplicate's Capture is named. */
  lemma OrderDoesNotMatter(session: Session, x: seq<Capture>, y: seq<Capture>)
    requires SameCaptures(x, y)
    ensures AllStripped(Undisputed(session, x)) == AllStripped(Undisputed(session, y))
  {
    var ux, uy := Undisputed(session, x), Undisputed(session, y);
    hide Undisputed, Attests;
    forall k
      ensures k in ux <==> k in uy
      ensures k in ux ==> Stripped(ux[k]) == Stripped(uy[k])
    {
      UndisputedExactly(session, x, k);
      UndisputedExactly(session, y, k);
      if k in ux {
        SameAgreed(session, x, y, k, ux[k]);
      }
      if k in uy {
        SameAgreed(session, y, x, k, uy[k]);
      }
    }
  }

  // ---------- the scenarios ----------

  predicate Before(a: Key, b: Key) {
    a.turnId < b.turnId || (a.turnId == b.turnId && a.callId < b.callId)
  }

  predicate FailedAt(m: map<Key, Witness>, k: Key) {
    k in m && m[k].process.Exited? && m[k].process.exitCode != 0
  }

  predicate LaunchAt(m: map<Key, Witness>, k: Key) {
    k in m && m[k].tool.ExecCommand? && m[k].process.Running?
  }

  // The calls that launched a process of this number in this Turn.
  function Launchers(m: map<Key, Witness>, turnId: Id, processId: int): set<Key> {
    set k | k in m && m[k].turnId == turnId && LaunchAt(m, k) && m[k].process.processId == processId
  }

  predicate TerminalFor(m: map<Key, Witness>, launch: Key, poll: Key)
    requires LaunchAt(m, launch)
  {
    && poll in m && m[poll].tool.WriteStdin? && m[poll].turnId == m[launch].turnId
    && m[poll].requested == Some(m[launch].process.processId) && m[poll].sequence > m[launch].sequence
    && m[poll].process.Exited?
  }

  // Sooner by sequence, then in key order.
  predicate Sooner(m: map<Key, Witness>, a: Key, b: Key)
    requires a in m && b in m
  {
    m[a].sequence < m[b].sequence || (m[a].sequence == m[b].sequence && Before(a, b))
  }

  /** A launch whose process number no other call of the Turn used, with the first later poll that saw it end. */
  ghost predicate DelayedPair(m: map<Key, Witness>, launch: Key, terminal: Key) {
    && LaunchAt(m, launch) && Launchers(m, m[launch].turnId, m[launch].process.processId) == {launch}
    && TerminalFor(m, launch, terminal)
    && forall poll :: poll in m && TerminalFor(m, launch, poll) && poll != terminal ==> Sooner(m, terminal, poll)
  }

  ghost predicate FirstFailed(m: map<Key, Witness>, k: Option<Key>) {
    match k
    case None => forall j :: !FailedAt(m, j)
    case Some(k) => FailedAt(m, k) && forall j :: FailedAt(m, j) && j != k ==> Before(k, j)
  }

  datatype Pair = Pair(launch: Key, terminal: Key)

  ghost predicate FirstDelayed(m: map<Key, Witness>, p: Option<Pair>) {
    if p.None? then forall a, b :: !DelayedPair(m, a, b)
    else
      && DelayedPair(m, p.value.launch, p.value.terminal)
      && forall a, b :: DelayedPair(m, a, b) && a != p.value.launch ==> Before(p.value.launch, a)
  }

  // The scenarios look only at what is the same for every duplicate.
  lemma SameScenarios(m: map<Key, Witness>, n: map<Key, Witness>)
    requires AllStripped(m) == AllStripped(n)
    ensures forall k :: FailedAt(m, k) <==> FailedAt(n, k)
    ensures forall a, b :: DelayedPair(m, a, b) <==> DelayedPair(n, a, b)
  {
    assert forall k :: k in m <==> k in AllStripped(m);
    assert forall k :: k in n <==> k in AllStripped(n);
    forall k | k in m
      ensures Stripped(m[k]) == Stripped(n[k])
    {
      assert AllStripped(m)[k] == AllStripped(n)[k];
    }
    forall t: Id, p: int
      ensures Launchers(m, t, p) == Launchers(n, t, p)
    {
    }
  }

  lemma FirstIsUnique(m: map<Key, Witness>, n: map<Key, Witness>, k: Option<Key>, l: Option<Key>, p: Option<Pair>,
                      q: Option<Pair>)
    requires AllStripped(m) == AllStripped(n)
    requires FirstFailed(m, k) && FirstFailed(n, l) && FirstDelayed(m, p) && FirstDelayed(n, q)
    ensures k == l && p == q
  {
    SameScenarios(m, n);
    hide FailedAt, LaunchAt, TerminalFor;
    if p.Some? && q.Some? {
      TerminalIsUnique(m, p.value.launch, p.value.terminal, q.value.terminal);
    }
  }

  lemma TerminalIsUnique(m: map<Key, Witness>, launch: Key, s: Key, t: Key)
    requires DelayedPair(m, launch, s) && DelayedPair(m, launch, t)
    ensures s == t
  {
  }

  // ---------- the summary ----------

  datatype Scenario = SecondTurn | Resume | FailedToolProcess | DelayedWriteStdin

  datatype Summary = Summary(secondTurn: Option<(Id, Id)>, resume: Option<Option<Id>>, failed: Option<Witness>,
                             delayed: Option<(Witness, Witness)>, missing: set<Scenario>, complete: bool)

  // The Turns of this Session in which a model was used.
  function ActiveTurns(session: Session, n: nat): seq<Id>
    requires n <= |session.turns|
  {
    if n == 0 then []
    else
      var t := session.turns[n - 1];
      ActiveTurns(session, n - 1) + (if t.sessionId == session.sessionId && t.modelInteractions > 0 then [t.turnId]
        else [])
  }

  predicate Resumes(session: Session, c: Capture) {
    c.kind.SessionResume? && c.kind.sessionId == Some(session.sessionId)
  }

  ghost predicate FirstResume(session: Session, captures: seq<Capture>, r: Option<Option<Id>>) {
    if r.None? then forall i :: 0 <= i < |captures| ==> !Resumes(session, captures[i])
    else
      exists i ::
        0 <= i < |captures| && Resumes(session, captures[i]) && captures[i].captureId == r.value
        && forall j :: 0 <= j < i ==> !Resumes(session, captures[j])
  }

  ghost predicate Summarizes(session: Session, captures: seq<Capture>, s: Summary, f: Option<Key>, p: Option<Pair>) {
    var m := Undisputed(session, captures);
    var active := ActiveTurns(session, |session.turns|);
    && FirstFailed(m, f) && FirstDelayed(m, p) && FirstResume(session, captures, s.resume)
    && s.secondTurn == (if |active| < 2 then None else Some((active[0], active[1])))
    && s.failed == (if f.None? then None else Some(m[f.value]))
    && s.delayed == (if p.None? then None else Some((m[p.value.launch], m[p.value.terminal])))
    && (SecondTurn in s.missing <==> s.secondTurn.None?) && (Resume in s.missing <==> s.resume.None?)
    && (FailedToolProcess in s.missing <==> s.failed.None?) && (DelayedWriteStdin in s.missing <==> s.delayed.None?)
    && (s.complete <==> s.missing == {})
  }

  // Two summaries that differ at most in which Captures they name.
  predicate SameBut(x: Summary, y: Summary) {
    && x.secondTurn == y.secondTurn && x.resume.Some? == y.resume.Some? && x.missing == y.missing
    && x.complete == y.complete
    && x.failed.Some? == y.failed.Some? && (x.failed.Some? ==> Stripped(x.failed.value) == Stripped(y.failed.value))
    && x.delayed.Some? == y.delayed.Some?
    && (x.delayed.Some? ==> Stripped(x.delayed.value.0) == Stripped(y.delayed.value.0))
    && (x.delayed.Some? ==> Stripped(x.delayed.value.1) == Stripped(y.delayed.value.1))
  }

  lemma ResumeIsFound(session: Session, captures: seq<Capture>, r: Option<Option<Id>>)
    requires FirstResume(session, captures, r)
    ensures r.Some? <==> exists c :: c in captures && Resumes(session, c)
  {
    hide Resumes;
    if r.Some? {
      var i :| 0 <= i < |captures| && Resumes(session, captures[i]);
      assert captures[i] in captures;
    }
  }

  // ---------- what a summary says ----------

  // A Turn of this Session in which a model was used.
  predicate Used(session: Session, i: nat) {
    i < |session.turns| && session.turns[i].sessionId == session.sessionId && session.turns[i].modelInteractions > 0
  }

  // The first used Turn, or the first one after another.
  predicate FirstUsed(session: Session, from: nat, i: nat) {
    from <= i && Used(session, i) && forall h :: from <= h < i ==> !Used(session, h)
  }

  lemma {:induction false} TurnsInOrder(session: Session, n: nat)
    requires n <= |session.turns|
    ensures var a := ActiveTurns(session, n);
      && (a == [] <==> forall h :: 0 <= h < n ==> !Used(session, h))
      && (|a| >= 1 ==> exists i: nat :: i < n && FirstUsed(session, 0, i) && a[0] == session.turns[i].turnId)
      && (|a| == 1 ==> exists i: nat :: i < n && FirstUsed(session, 0, i)
                         && forall h :: i < h < n ==> !Used(session, h))
      && (|a| >= 2 ==> exists i: nat, j: nat :: i < j < n && FirstUsed(session, 0, i) && FirstUsed(session, i + 1, j)
                         && a[0] == session.turns[i].turnId && a[1] == session.turns[j].turnId)
  {
    if n > 0 {
      TurnsInOrder(session, n - 1);
      var before := ActiveTurns(session, n - 1);
      if Used(session, n - 1) {
        if before == [] {
          assert FirstUsed(session, 0, n - 1);
        } else if |before| == 1 {
          var i: nat :| i < n - 1 && FirstUsed(session, 0, i) && forall h :: i < h < n - 1 ==> !Used(session, h);
          assert FirstUsed(session, i + 1, n - 1);
        }
      }
    }
  }

  /** Main result: a summary reports a second Turn exactly when two Turns of the Session used a model, and then
      the first two; the first Capture that resumes the Session; and a failed process exactly when some
      undisputed call ended with a code other than zero, by an example of it. */
  lemma SummaryMeans(session: Session, captures: seq<Capture>, s: Summary, f: Option<Key>, p: Option<Pair>)
    requires Summarizes(session, captures, s, f, p)
    ensures s.secondTurn.Some? <==> exists i: nat, j: nat :: i < j && Used(session, i) && Used(session, j)
    ensures s.secondTurn.Some? ==>
      exists i: nat, j: nat :: FirstUsed(session, 0, i) && FirstUsed(session, i + 1, j)
                     && s.secondTurn.value == (session.turns[i].turnId, session.turns[j].turnId)
    ensures s.resume.Some? <==>
      exists c :: c in captures && c.kind == SessionResume(Some(session.sessionId))
    ensures s.failed.Some? ==>
      Settled(session, captures, s.failed.value) && s.failed.value.process.Exited?
      && s.failed.value.process.exitCode != 0
    ensures s.failed.Some? ==>
      forall w :: Settled(session, captures, w) && w.process.Exited? && w.process.exitCode != 0 ==>
        NotLater(s.failed.value, w)
    ensures s.failed.None? ==>
      forall w :: Settled(session, captures, w) && w.process.Exited? ==> w.process.exitCode == 0
    ensures s.complete <==> s.secondTurn.Some? && s.resume.Some? && s.failed.Some? && s.delayed.Some?
  {
    TurnsInOrder(session, |session.turns|);
    OneUsed(session);
    ResumeIsFound(session, captures, s.resume);
    FailedMeans(session, captures, f);
    MissingMeans(s);
    hide Undisputed, FirstFailed, FirstDelayed, FirstResume, FirstUsed, Used, Settled, ActiveTurns;
  }

  // By Turn, then by call.
  predicate NotLater(a: Witness, b: Witness) {
    a.turnId < b.turnId || (a.turnId == b.turnId && a.callId <= b.callId)
  }

  lemma OneUsed(session: Session)
    ensures |ActiveTurns(session, |session.turns|)| < 2 ==>
      !exists i: nat, j: nat :: i < j && Used(session, i) && Used(session, j)
    ensures |ActiveTurns(session, |session.turns|)| >= 2 ==>
      exists i: nat, j: nat :: i < j && Used(session, i) && Used(session, j)
  {
    TurnsInOrder(session, |session.turns|);
  }

  lemma FailedMeans(session: Session, captures: seq<Capture>, f: Option<Key>)
    requires FirstFailed(Undisputed(session, captures), f)
    ensures f.Some? ==>
      var w := Undisputed(session, captures)[f.value];
      Settled(session, captures, w) && w.process.Exited? && w.process.exitCode != 0
      && forall v :: Settled(session, captures, v) && v.process.Exited? && v.process.exitCode != 0 ==> NotLater(w, v)
    ensures f.None? ==>
      forall w :: Settled(session, captures, w) && w.process.Exited? ==> w.process.exitCode == 0
  {
    var m := Undisputed(session, captures);
    hide Undisputed, Settled;
    if f.Some? {
      UndisputedIsSettled(session, captures, f.value);
      forall v | Settled(session, captures, v) && v.process.Exited? && v.process.exitCode != 0
        ensures NotLater(m[f.value], v)
      {
        SettledIsUndisputed(session, captures, v);
        assert FailedAt(m, KeyOf(v));
      }
    } else {
      forall w | Settled(session, captures, w) && w.process.Exited? ensures w.process.exitCode == 0 {
        SettledIsUndisputed(session, captures, w);
        assert !FailedAt(m, KeyOf(w));
      }
    }
  }

  lemma MissingMeans(s: Summary)
    ensures s.missing == {} <==> SecondTurn !in s.missing && Resume !in s.missing && FailedToolProcess !in s.missing
                                 && DelayedWriteStdin !in s.missing
  {
    if s.missing != {} {
      var v :| v in s.missing;
      assert v == SecondTurn || v == Resume || v == FailedToolProcess || v == DelayedWriteStdin;
    }
  }

  /** Main result: summaries of the same Captures in any order differ only in which duplicate's Capture
      they name. */
  lemma SummaryIgnoresOrder(session: Session, x: seq<Capture>, y: seq<Capture>, s: Summary, f: Option<Key>,
                            p: Option<Pair>,
                            t: Summary, g: Option<Key>, q: Option<Pair>)
    requires SameCaptures(x, y) && Summarizes(session, x, s, f, p) && Summarizes(session, y, t, g, q)
    ensures SameBut(s, t)
  {
    var m, n := Undisputed(session, x), Undisputed(session, y);
    OrderDoesNotMatter(session, x, y);
    ResumeIsFound(session, x, s.resume);
    ResumeIsFound(session, y, t.resume);
    FirstIsUnique(m, n, f, g, p, q);
    assert forall k :: k in m ==> AllStripped(m)[k] == Stripped(m[k]);
    assert forall k :: k in n ==> AllStripped(n)[k] == Stripped(n[k]);
    assert DelayedPairIn(m, p) && DelayedPairIn(n, q);
    hide Undisputed, DelayedPair, FailedAt, Resumes;
    forall v: Scenario
      ensures v in s.missing <==> v in t.missing
    {
      match v
      case SecondTurn =>
      case Resume =>
      case FailedToolProcess =>
      case DelayedWriteStdin =>
    }
  }

  predicate DelayedPairIn(m: map<Key, Witness>, p: Option<Pair>) {
    p.Some? ==> p.value.launch in m && p.value.terminal in m
  }

  // ---------- what a reported pair proves ----------

  // Some Capture witnesses the call so, and no Capture witnesses it otherwise.
  ghost predicate Settled(session: Session, captures: seq<Capture>, w: Witness) {
    Agreed(session, captures, KeyOf(w), w)
  }

  predicate Launches(w: Witness, turnId: Id, processId: int) {
    w.turnId == turnId && w.tool.ExecCommand? && w.process.Running? && w.process.processId == processId
  }

  predicate SawEnd(w: Witness, turnId: Id, processId: int, after: nat) {
    w.turnId == turnId && w.tool.WriteStdin? && w.process.Exited? && w.requested == Some(processId)
      && w.sequence > after
  }

  // An undisputed call that launches the same process is the launch itself; one that saw it end is no earlier.
  predicate Beside(w: Witness, launch: Witness, terminal: Witness)
    requires launch.process.Running?
  {
    && (Launches(w, launch.turnId, launch.process.processId) ==> KeyOf(w) == KeyOf(launch))
    && (SawEnd(w, launch.turnId, launch.process.processId, launch.sequence) ==> terminal.sequence <= w.sequence)
  }

  lemma SettledIsUndisputed(session: Session, captures: seq<Capture>, w: Witness)
    requires Settled(session, captures, w)
    ensures var m := Undisputed(session, captures); KeyOf(w) in m && Stripped(m[KeyOf(w)]) == Stripped(w)
  {
    hide Undisputed, Attests;
    UndisputedExactly(session, captures, KeyOf(w));
  }

  lemma UndisputedIsSettled(session: Session, captures: seq<Capture>, k: Key)
    requires k in Undisputed(session, captures)
    ensures var w := Undisputed(session, captures)[k]; KeyOf(w) == k && Settled(session, captures, w)
  {
    hide Undisputed, Attests;
    UndisputedExactly(session, captures, k);
  }

  /** A launch and a poll that the Captures prove: both calls are attested without contradiction, the poll
      saw the launched process end later in the same Turn, no other undisputed call of that Turn launched a
      process of that number, and no undisputed later poll that saw the end comes before it. */
  ghost predicate ProvesDelayedEnd(session: Session, captures: seq<Capture>, launch: Witness, terminal: Witness) {
    && Settled(session, captures, launch) && Settled(session, captures, terminal) && launch.process.Running?
    && Launches(launch, launch.turnId, launch.process.processId)
    && SawEnd(terminal, launch.turnId, launch.process.processId, launch.sequence)
    && forall w :: Settled(session, captures, w) ==> Beside(w, launch, terminal)
  }

  lemma PairIsProven(session: Session, captures: seq<Capture>, m: map<Key, Witness>, a: Key, b: Key)
    requires m == Undisputed(session, captures) && DelayedPair(m, a, b)
    ensures ProvesDelayedEnd(session, captures, m[a], m[b])
  {
    hide Undisputed, Settled;
    UndisputedIsSettled(session, captures, a);
    UndisputedIsSettled(session, captures, b);
    forall w | Settled(session, captures, w)
      ensures Beside(w, m[a], m[b])
    {
      SettledIsUndisputed(session, captures, w);
      var k := KeyOf(w);
      if Launches(w, m[a].turnId, m[a].process.processId) {
        assert k in Launchers(m, m[a].turnId, m[a].process.processId);
      }
      if SawEnd(w, m[a].turnId, m[a].process.processId, m[a].sequence) {
        assert TerminalFor(m, a, k);
      }
    }
  }

  // A proven launch is the only launcher among the undisputed calls.
  lemma ProvenLaunchIsOnly(session: Session, captures: seq<Capture>, m: map<Key, Witness>, launch: Witness,
                           terminal: Witness)
    requires m == Undisputed(session, captures) && ProvesDelayedEnd(session, captures, launch, terminal)
    ensures var a := KeyOf(launch); LaunchAt(m, a) && Launchers(m, m[a].turnId, m[a].process.processId) == {a}
    ensures TerminalFor(m, KeyOf(launch), KeyOf(terminal))
  {
    hide Undisputed, Settled;
    SettledIsUndisputed(session, captures, launch);
    SettledIsUndisputed(session, captures, terminal);
    var a := KeyOf(launch);
    forall k | k in Launchers(m, m[a].turnId, m[a].process.processId)
      ensures k == a
    {
      UndisputedIsSettled(session, captures, k);
      assert Launches(m[k], launch.turnId, launch.process.processId);
    }
    assert a in Launchers(m, m[a].turnId, m[a].process.processId);
  }

  // Among the polls that saw the end there is a soonest one.
  lemma SoonestTerminal(m: map<Key, Witness>, launch: Key, some: Key) returns (t: Key)
    requires LaunchAt(m, launch) && TerminalFor(m, launch, some)
    ensures TerminalFor(m, launch, t)
    ensures forall j :: j in m && TerminalFor(m, launch, j) && j != t ==> Sooner(m, t, j)
  {
    t := some;
    var left := m.Keys - {some};
    while |left| > 0
      invariant left <= m.Keys && TerminalFor(m, launch, t)
      invariant forall j :: j in m && TerminalFor(m, launch, j) && j != t ==> j in left || Sooner(m, t, j)
      decreases |left|
    {
      Inhabited(left);
      var k :| k in left;
      left := left - {k};
      if TerminalFor(m, launch, k) && Sooner(m, k, t) {
        t := k;
      }
    }
  }

  // A proven launch is one that the summary could have reported.
  lemma ProvenIsDelayed(session: Session, captures: seq<Capture>, launch: Witness, terminal: Witness) returns (t: Key)
    requires ProvesDelayedEnd(session, captures, launch, terminal)
    ensures DelayedPair(Undisputed(session, captures), KeyOf(launch), t)
  {
    hide ProvesDelayedEnd, Undisputed, DelayedPair;
    var m := Undisputed(session, captures);
    ProvenLaunchIsOnly(session, captures, m, launch, terminal);
    t := SoonestTerminal(m, KeyOf(launch), KeyOf(terminal));
    PairOf(m, KeyOf(launch), t);
  }

  /** Main result: a summary reports a delayed pair if and only if the Captures prove one; the reported pair is
      proven by them, and its launch is the first that is, by Turn and call. */
  lemma DelayedPairMeans(session: Session, captures: seq<Capture>, s: Summary, f: Option<Key>, p: Option<Pair>)
    requires Summarizes(session, captures, s, f, p)
    ensures s.delayed.Some? ==> ProvesDelayedEnd(session, captures, s.delayed.value.0, s.delayed.value.1)
    ensures s.delayed.Some? <==> exists launch, terminal :: ProvesDelayedEnd(session, captures, launch, terminal)
    ensures s.delayed.Some? ==> forall launch, terminal ::
      ProvesDelayedEnd(session, captures, launch, terminal) ==> NotLater(s.delayed.value.0, launch)
  {
    hide ProvesDelayedEnd, Undisputed, DelayedPair;
    var m := Undisputed(session, captures);
    if p.Some? {
      PairIsProven(session, captures, m, p.value.launch, p.value.terminal);
      DelayedKeys(m, p.value);
      UndisputedIsSettled(session, captures, p.value.launch);
      forall launch, terminal | ProvesDelayedEnd(session, captures, launch, terminal)
        ensures NotLater(m[p.value.launch], launch)
      {
        var t := ProvenIsDelayed(session, captures, launch, terminal);
      }
    } else if launch, terminal :| ProvesDelayedEnd(session, captures, launch, terminal) {
      var t := ProvenIsDelayed(session, captures, launch, terminal);
    }
  }

  lemma DelayedKeys(m: map<Key, Witness>, p: Pair)
    requires DelayedPair(m, p.launch, p.terminal)
    ensures p.launch in m && p.terminal in m
  {
  }

  lemma PairOf(m: map<Key, Witness>, a: Key, t: Key)
    requires LaunchAt(m, a) && Launchers(m, m[a].turnId, m[a].process.processId) == {a} && TerminalFor(m, a, t)
    requires forall j :: j in m && TerminalFor(m, a, j) && j != t ==> Sooner(m, t, j)
    ensures DelayedPair(m, a, t)
  {
  }

  // ---------- the loops ----------

  method ObserveAll(session: Session, captures: seq<Capture>) returns (m: map<Key, Witness>)
    ensures m == Undisputed(session, captures)
  {
    var first: map<Key, Witness> := map[];
    var conflicts: set<Key> := {};
    for n := 0 to |captures|
      invariant Seen(first, conflicts) == SeenAfter(session, captures, n)
    {
      var w := WitnessOf(session, captures[n]);
      if w.Some? {
        var key := KeyOf(w.value);
        if key !in first {
          first := first[key := w.value];
        } else if first[key] != w.value.(captureId := first[key].captureId) {
          conflicts := conflicts + {key};
        }
      }
    }
    m := map k | k in first && k !in conflicts :: first[k];
  }

  method FindFailed(m: map<Key, Witness>) returns (f: Option<Key>)
    ensures FirstFailed(m, f)
  {
    f := None;
    var left := m.Keys;
    while |left| > 0
      invariant left <= m.Keys
      invariant f.None? ==> forall j :: FailedAt(m, j) ==> j in left
      invariant f.Some? ==> FailedAt(m, f.value) && forall j :: FailedAt(m, j) && j != f.value ==>
        j in left || Before(f.value, j)
      decreases |left|
    {
      Inhabited(left);
      var k :| k in left;
      left := left - {k};
      if FailedAt(m, k) && (f.None? || Before(k, f.value)) {
        f := Some(k);
      }
    }
  }

  lemma Inhabited(s: set<Key>)
    requires |s| > 0
    ensures exists k :: k in s
  {
    assert (forall k :: k !in s) ==> s == {};
  }

  method FindTerminal(m: map<Key, Witness>, launch: Key) returns (t: Option<Key>)
    requires LaunchAt(m, launch)
    ensures t.None? ==> forall j :: !TerminalFor(m, launch, j)
    ensures t.Some? ==> TerminalFor(m, launch, t.value)
    ensures t.Some? ==> forall j :: j in m && TerminalFor(m, launch, j) && j != t.value ==> Sooner(m, t.value, j)
  {
    t := None;
    var left := m.Keys;
    while |left| > 0
      invariant left <= m.Keys
      invariant t.None? ==> forall j :: TerminalFor(m, launch, j) ==> j in left
      invariant t.Some? ==> TerminalFor(m, launch, t.value)
      invariant t.Some? ==> forall j :: j in m && TerminalFor(m, launch, j) && j != t.value ==>
        j in left || Sooner(m, t.value, j)
      decreases |left|
    {
      Inhabited(left);
      var k :| k in left;
      left := left - {k};
      if TerminalFor(m, launch, k) && (t.None? || Sooner(m, k, t.value)) {
        t := Some(k);
      }
    }
  }

  method FindDelayed(m: map<Key, Witness>) returns (p: Option<Pair>)
    ensures FirstDelayed(m, p)
  {
    p := None;
    var left := m.Keys;
    while |left| > 0
      invariant left <= m.Keys
      invariant p.None? ==> forall a, b :: DelayedPair(m, a, b) ==> a in left
      invariant p.Some? ==> DelayedPair(m, p.value.launch, p.value.terminal)
      invariant p.Some? ==> forall a, b :: DelayedPair(m, a, b) && a != p.value.launch ==>
        a in left || Before(p.value.launch, a)
      decreases |left|
    {
      Inhabited(left);
      var k :| k in left;
      left := left - {k};
      if LaunchAt(m, k) && Launchers(m, m[k].turnId, m[k].process.processId) == {k}
        && (p.None? || Before(k, p.value.launch)) {
        var t := FindTerminal(m, k);
        if t.Some? {
          p := Some(Pair(k, t.value));
        }
      }
    }
  }

  method FindResume(session: Session, captures: seq<Capture>) returns (r: Option<Option<Id>>)
    ensures FirstResume(session, captures, r)
  {
    for i := 0 to |captures|
      invariant forall j :: 0 <= j < i ==> !Resumes(session, captures[j])
    {
      if Resumes(session, captures[i]) {
        return Some(captures[i].captureId);
      }
      assert captures[..i + 1] == captures[..i] + [captures[i]];
    }
    assert captures[..|captures|] == captures;
    r := None;
  }

  method Summarize(session: Session, captures: seq<Capture>) returns (s: Summary, f: Option<Key>, p: Option<Pair>)
    ensures Summarizes(session, captures, s, f, p)
  {
    hide Undisputed, FirstFailed, FirstDelayed, FirstResume;
    var m := ObserveAll(session, captures);
    var active := ActiveTurns(session, |session.turns|);
    var second := if |active| < 2 then None else Some((active[0], active[1]));
    var resume := FindResume(session, captures);
    var failed := FindFailed(m);
    var delayed := FindDelayed(m);
    f, p := failed, delayed;
    FoundKeys(m, failed, delayed);
    var w := if failed.None? then None else Some(m[failed.value]);
    var pair := if delayed.None? then None else Some((m[delayed.value.launch], m[delayed.value.terminal]));
    var missing := (if second.None? then {SecondTurn} else {}) + (if resume.None? then {Resume} else {})
                 + (if w.None? then {FailedToolProcess} else {}) + (if pair.None? then {DelayedWriteStdin} else {});
    s := Summary(second, resume, w, pair, missing, missing == {});
  }

  lemma FoundKeys(m: map<Key, Witness>, f: Option<Key>, p: Option<Pair>)
    requires FirstFailed(m, f) && FirstDelayed(m, p)
    ensures (f.Some? ==> f.value in m) && DelayedPairIn(m, p)
  {
  }
}
