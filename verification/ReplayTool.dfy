/** The replay command: one pass over the failed files, creating the missing pending copies. */
module ReplayTool {
  import opened CaptureStore
  import opened Options
  import opened ReplayRecovery

  // What a record of the report says about one selected file.
  datatype State = Planned | Copied | Present | Blocked

  datatype Report = Report(planned: nat, copied: nat, alreadyPresent: nat, blocked: nat, records: seq<State>)

  // What other processes do to pending/ while one failed file is handled: before the tool looks for its
  // target, between that look and the creation, and between a failed creation and the second look.
  datatype Change = Put(file: QueueFile) | Take(id: string)
  datatype Others = Others(early: seq<Change>, late: seq<Change>, last: seq<Change>, denied: bool)

  const NOBODY := Others([], [], [], false)

  function Changed(pending: map<string, QueueFile>, changes: seq<Change>): map<string, QueueFile>
    decreases |changes|
  {
    if changes == [] then pending
    else
      var rest := if changes[0].Put? then pending[changes[0].file.id := changes[0].file] else pending - {changes[0].id};
      Changed(rest, changes[1..])
  }

  // The outcome for one file; `lost` when the creation was tried and did not happen.
  datatype Fate = Fate(state: State, lost: bool)

  function AtCreation(pending: map<string, QueueFile>, o: Others): map<string, QueueFile> {
    Changed(Changed(pending, o.early), o.late)
  }

  function FateOf(pending: map<string, QueueFile>, failed: map<string, QueueFile>, name: string, bytes: Option<Bytes>,
                  o: Others, apply: bool): Fate
  {
    if name !in failed || bytes.None? then Fate(Blocked, false)
    else
      var copy := CopyOf(name, failed[name], bytes.value);
      match Inspect(Find(Changed(pending, o.early), copy.id), copy)
      case TargetConflict => Fate(Blocked, false)
      case AlreadyPresent => Fate(Present, false)
      case Absent =>
        if !apply then Fate(Planned, false)
        else if !o.denied && copy.id !in AtCreation(pending, o) then Fate(Copied, false)
        else if !o.denied && Inspect(Find(Changed(AtCreation(pending, o), o.last), copy.id), copy).AlreadyPresent?
          then Fate(Present, true)
        else Fate(Blocked, true)
  }

  // The pending files after that file: what the others did, and the copy if it was made. Changes that
  // the tool does not wait for are part of the next file's early ones.
  function PendingAfter(pending: map<string, QueueFile>, failed: map<string, QueueFile>, name: string,
                        bytes: Option<Bytes>,
                        o: Others, apply: bool): map<string, QueueFile>
  {
    var fate := FateOf(pending, failed, name, bytes, o, apply);
    if fate == Fate(Copied, false) && name in failed && bytes.Some? then
      var copy := CopyOf(name, failed[name], bytes.value);
      AtCreation(pending, o)[copy.id := copy]
    else if fate.lost then if o.denied then AtCreation(pending, o) else Changed(AtCreation(pending, o), o.last)
    else Changed(pending, o.early)
  }

  // A whole pass: what becomes of the files, and of pending/.
  datatype Pass = Pass(fates: seq<Fate>, pending: map<string, QueueFile>)

  function PassOver(pending: map<string, QueueFile>, failed: map<string, QueueFile>, names: seq<string>,
                    derived: seq<Option<Bytes>>, others: seq<Others>, apply: bool): (p: Pass)
    requires |names| == |derived| == |others|
    ensures |p.fates| == |names|
    decreases |names|
  {
    if names == [] then Pass([], pending)
    else
      var n := |names| - 1;
      var before := PassOver(pending, failed, names[..n], derived[..n], others[..n], apply);
      Pass(before.fates + [FateOf(before.pending, failed, names[n], derived[n], others[n], apply)],
           PendingAfter(before.pending, failed, names[n], derived[n], others[n], apply))
  }

  lemma PassOverNext(pending: map<string, QueueFile>, failed: map<string, QueueFile>, names: seq<string>,
                     derived: seq<Option<Bytes>>, others: seq<Others>, apply: bool, i: nat)
    requires i < |names| == |derived| == |others|
    ensures var before := PassOver(pending, failed, names[..i], derived[..i], others[..i], apply);
      PassOver(pending, failed, names[..i + 1], derived[..i + 1], others[..i + 1], apply)
        == Pass(before.fates + [FateOf(before.pending, failed, names[i], derived[i], others[i], apply)],
                PendingAfter(before.pending, failed, names[i], derived[i], others[i], apply))
  {
    hide FateOf, PendingAfter;
    assert names[..i + 1][..i] == names[..i] && derived[..i + 1][..i] == derived[..i]
      && others[..i + 1][..i] == others[..i];
  }

  function Lost(fates: seq<Fate>): nat {
    if fates == [] then 0 else Lost(fates[..|fates| - 1]) + (if fates[|fates| - 1].lost then 1 else 0)
  }

  function InState(fates: seq<Fate>, state: State): nat {
    if fates == [] then 0
    else InState(fates[..|fates| - 1], state) + (if fates[|fates| - 1].state == state then 1 else 0)
  }

  /** The counters of the report, each file in its state, and every lost creation also as planned. */
  predicate Reports(report: Report, fates: seq<Fate>) {
    && report.copied == InState(fates, Copied)
    && report.alreadyPresent == InState(fates, Present)
    && report.blocked == InState(fates, Blocked)
    && report.planned == InState(fates, Planned) + InState(fates, Copied) + Lost(fates)
    && |report.records| == |fates| && forall i :: 0 <= i < |fates| ==> report.records[i] == fates[i].state
  }

  lemma {:induction false} StatesPartition(fates: seq<Fate>)
    ensures InState(fates, Planned) + InState(fates, Copied) + InState(fates, Present) + InState(fates, Blocked)
      == |fates|
  {
    if fates != [] {
      StatesPartition(fates[..|fates| - 1]);
    }
  }

  /** Main result: planned, present and blocked together count every selected file once, and every lost
      creation a second time; so they add up exactly when no creation was lost. */
  lemma CountsAreExact(report: Report, fates: seq<Fate>)
    requires Reports(report, fates)
    ensures report.planned + report.alreadyPresent + report.blocked == |fates| + Lost(fates)
    ensures report.planned + report.alreadyPresent + report.blocked == |fates| <==> Lost(fates) == 0
  {
    StatesPartition(fates);
  }

  // The counters after one more file.
  predicate Counted(report: Report, next: Fate, after: Report) {
    && after.records == report.records + [next.state]
    && after.copied == report.copied + (if next.state.Copied? then 1 else 0)
    && after.alreadyPresent == report.alreadyPresent + (if next.state.Present? then 1 else 0)
    && after.blocked == report.blocked + (if next.state.Blocked? then 1 else 0)
    && after.planned == report.planned + (if next.state.Planned? || next.state.Copied? || next.lost then 1 else 0)
    && (next.lost ==> next.state.Present? || next.state.Blocked?)
  }

  lemma StillReports(report: Report, fates: seq<Fate>, next: Fate, after: Report)
    requires Reports(report, fates) && Counted(report, next, after)
    ensures Reports(after, fates + [next])
  {
    assert (fates + [next])[..|fates|] == fates;
  }

  // The report and the pending files after the first i files.
  predicate SoFar(start: map<string, QueueFile>, failed: map<string, QueueFile>, names: seq<string>,
                  derived: seq<Option<Bytes>>, others: seq<Others>, apply: bool, i: nat,
                  report: Report, pending: map<string, QueueFile>)
    requires i <= |names| == |derived| == |others|
  {
    var p := PassOver(start, failed, names[..i], derived[..i], others[..i], apply);
    Reports(report, p.fates) && pending == p.pending
  }

  lemma SoFarNext(start: map<string, QueueFile>, failed: map<string, QueueFile>, names: seq<string>,
                  derived: seq<Option<Bytes>>, others: seq<Others>, apply: bool, i: nat,
                  report: Report, pending: map<string, QueueFile>, after: Report, next: map<string, QueueFile>)
    requires i < |names| == |derived| == |others|
    requires SoFar(start, failed, names, derived, others, apply, i, report, pending)
    requires Counted(report, FateOf(pending, failed, names[i], derived[i], others[i], apply), after)
    requires next == PendingAfter(pending, failed, names[i], derived[i], others[i], apply)
    ensures SoFar(start, failed, names, derived, others, apply, i + 1, after, next)
  {
    hide FateOf, PendingAfter, Counted, Reports, PassOver;
    var p := PassOver(start, failed, names[..i], derived[..i], others[..i], apply);
    PassOverNext(start, failed, names, derived, others, apply, i);
    StillReports(report, p.fates, FateOf(pending, failed, names[i], derived[i], others[i], apply), after);
  }

  // The pending files after one failed file has been looked at; `bytes` is its normalised record, if any.
  function WithCopy(pending: map<string, QueueFile>, failed: map<string, QueueFile>, name: string,
                    bytes: Option<Bytes>): map<string, QueueFile> {
    if name !in failed || bytes.None? then pending
    else
      var copy := CopyOf(name, failed[name], bytes.value);
      if copy.id in pending then pending else pending[copy.id := copy]
  }

  function WithCopies(pending: map<string, QueueFile>, failed: map<string, QueueFile>, names: seq<string>,
                      derived: seq<Option<Bytes>>): map<string, QueueFile>
    requires |derived| == |names|
    decreases |names|
  {
    if names == [] then pending
    else
      var last := |names| - 1;
      WithCopy(WithCopies(pending, failed, names[..last], derived[..last]), failed, names[last], derived[last])
  }

  class OutboxDirectory {
    const failed: map<string, QueueFile>
    var pending: map<string, QueueFile>

    constructor (failed: map<string, QueueFile>, pending: map<string, QueueFile>)
      ensures this.failed == failed && this.pending == pending
    {
      this.failed, this.pending := failed, pending;
    }

    /** Plans and, when asked to, makes the copies, while other processes work in pending/. */
    method ReplayFailed(names: seq<string>, derived: seq<Option<Bytes>>, others: seq<Others>, apply: bool)
      returns (report: Report)
      requires |names| == |derived| == |others|
      modifies this`pending
      ensures Reports(report, PassOver(old(pending), failed, names, derived, others, apply).fates)
      ensures pending == PassOver(old(pending), failed, names, derived, others, apply).pending
      ensures report.planned + report.alreadyPresent + report.blocked
        == |names| + Lost(PassOver(old(pending), failed, names, derived, others, apply).fates)
    {
      report := Report(0, 0, 0, 0, []);
      assert SoFar(pending, failed, names, derived, others, apply, 0, report, pending);
      for i := 0 to |names|
        invariant SoFar(old(pending), failed, names, derived, others, apply, i, report, pending)
      {
        hide SoFar, FateOf, PendingAfter, Counted;
        ghost var was, before := report, pending;
        report := ReplayFile(names[i], derived[i], others[i], apply, report);
        SoFarNext(old(pending), failed, names, derived, others, apply, i, was, before, report, pending);
      }
      assert names[..|names|] == names && derived[..|derived|] == derived && others[..|others|] == others;
      CountsAreExact(report, PassOver(old(pending), failed, names, derived, others, apply).fates);
    }

    // The body of the loop: one failed file. The first and the last step of the others come before a look.
    method ReplayFile(name: string, bytes: Option<Bytes>, o: Others, apply: bool, report: Report)
      returns (after: Report)
      modifies this`pending
      ensures pending == PendingAfter(old(pending), failed, name, bytes, o, apply)
      ensures Counted(report, FateOf(old(pending), failed, name, bytes, o, apply), after)
    {
      hide CopyOf, Changed;
      pending := Changed(pending, o.early);
      if name !in failed || bytes.None? {
        return report.(blocked := report.blocked + 1, records := report.records + [Blocked]);
      }
      var copy := CopyOf(name, failed[name], bytes.value);
      var target := Inspect(Find(pending, copy.id), copy);
      if target.TargetConflict? {
        return report.(blocked := report.blocked + 1, records := report.records + [Blocked]);
      }
      if target.AlreadyPresent? {
        return report.(alreadyPresent := report.alreadyPresent + 1, records := report.records + [Present]);
      }
      after := report.(planned := report.planned + 1);
      if !apply {
        return after.(records := after.records + [Planned]);
      }
      pending := Changed(pending, o.late);
      if !o.denied && copy.id !in pending {
        pending := pending[copy.id := copy];
        return after.(copied := after.copied + 1, records := after.records + [Copied]);
      }
      if !o.denied {
        pending := Changed(pending, o.last);
        if Inspect(Find(pending, copy.id), copy).AlreadyPresent? {
          return after.(alreadyPresent := after.alreadyPresent + 1, records := after.records + [Present]);
        }
      }
      after := after.(blocked := after.blocked + 1, records := after.records + [Blocked]);
    }
  }

  // The file under the copy's name is the copy: the same bytes, or made from the same failed file.
  predicate IsCopy(files: map<string, QueueFile>, copy: QueueFile)
    requires copy.origin.Some?
  {
    copy.id in files
    && (files[copy.id].bytes == copy.bytes
        || (files[copy.id].id == copy.id && files[copy.id].origin.Some?
            && files[copy.id].origin.value.sha256 == copy.origin.value.sha256))
  }

  /** What becomes of one failed file. One that cannot be derived is blocked. One whose copy's name is taken is
      present when the file there is the copy, and else blocked. A free name is planned in a dry run; otherwise
      it is copied if it is still free, and if it is not, looked at once more. */
  lemma FateMeans(pending: map<string, QueueFile>, failed: map<string, QueueFile>, name: string, bytes: Option<Bytes>,
                  o: Others, apply: bool)
    ensures var fate := FateOf(pending, failed, name, bytes, o, apply);
      if name !in failed || bytes.None? then fate == Fate(Blocked, false)
      else
        var copy := CopyOf(name, failed[name], bytes.value);
        var seen, later := Changed(pending, o.early), AtCreation(pending, o);
        if copy.id in seen then fate == Fate(if IsCopy(seen, copy) then Present else Blocked, false)
        else if !apply then fate == Fate(Planned, false)
        else if copy.id !in later && !o.denied then fate == Fate(Copied, false)
        else fate == Fate(if !o.denied && IsCopy(Changed(later, o.last), copy) then Present else Blocked, true)
  {
    if name in failed && bytes.Some? {
      var copy := CopyOf(name, failed[name], bytes.value);
      var seen, last := Changed(pending, o.early), Changed(AtCreation(pending, o), o.last);
      if copy.id in seen {
        TargetMeans(seen[copy.id], copy);
      }
      if copy.id in last {
        TargetMeans(last[copy.id], copy);
      }
    }
    hide RecoveryCaptureId, Changed;
  }

  /** Another replay that makes the copy of the same original in between, whatever its bytes, is never
      in the way: the file counts as present. */
  lemma RivalCopyIsPresent(pending: map<string, QueueFile>, failed: map<string, QueueFile>, name: string, bytes: Bytes,
                           rival: Bytes)
    requires name in failed && CopyOf(name, failed[name], bytes).id !in pending
    ensures FateOf(pending, failed, name, Some(bytes), Others([], [Put(CopyOf(name, failed[name], rival))], [], false),
                   true)
      == Fate(Present, true)
  {
    hide RecoveryCaptureId;
    var copy := CopyOf(name, failed[name], rival);
    var o := Others([], [Put(copy)], [], false);
    assert o.late[1..] == [];
    assert Changed(pending[copy.id := copy], []) == pending[copy.id := copy];
    assert Changed(pending, o.late) == pending[copy.id := copy];
  }

  // One file when nobody interferes.
  lemma AloneOne(pending: map<string, QueueFile>, failed: map<string, QueueFile>, name: string, bytes: Option<Bytes>,
                 apply: bool)
    ensures !FateOf(pending, failed, name, bytes, NOBODY, apply).lost
    ensures PendingAfter(pending, failed, name, bytes, NOBODY, apply) == if apply
      then WithCopy(pending, failed, name, bytes) else pending
    ensures var after := PendingAfter(pending, failed, name, bytes, NOBODY, apply);
      && |after.Keys| == |pending.Keys|
        + (if FateOf(pending, failed, name, bytes, NOBODY, apply).state.Copied? then 1 else 0)
      && forall id :: id in pending ==> id in after && after[id] == pending[id]
  {
    hide CopyOf;
    if name in failed && bytes.Some? {
      var copy := CopyOf(name, failed[name], bytes.value);
      assert pending[copy.id := copy].Keys == pending.Keys + {copy.id};
    }
  }

  /** A pass that nobody interferes with loses no creation, adds exactly the missing copies, one file for
      each that is counted as copied, and leaves every pending file as it was; a dry run changes nothing. */
  lemma {:induction false} AlonePass(pending: map<string, QueueFile>, failed: map<string, QueueFile>,
                                     names: seq<string>,
                                     derived: seq<Option<Bytes>>, others: seq<Others>, apply: bool)
    requires |names| == |derived| == |others| && forall i :: 0 <= i < |others| ==> others[i] == NOBODY
    ensures var p := PassOver(pending, failed, names, derived, others, apply);
      && Lost(p.fates) == 0
      && p.pending == (if apply then WithCopies(pending, failed, names, derived) else pending)
      && |p.pending.Keys| == |pending.Keys| + InState(p.fates, Copied)
      && forall id :: id in pending ==> id in p.pending && p.pending[id] == pending[id]
    decreases |names|
  {
    hide FateOf, PendingAfter, WithCopy;
    if names != [] {
      var n := |names| - 1;
      AlonePass(pending, failed, names[..n], derived[..n], others[..n], apply);
      var before := PassOver(pending, failed, names[..n], derived[..n], others[..n], apply);
      AloneOne(before.pending, failed, names[n], derived[n], apply);
      var fates := PassOver(pending, failed, names, derived, others, apply).fates;
      assert fates[..n] == before.fates;
    }
  }

  function CopyId(failed: map<string, QueueFile>, name: string): string
    requires name in failed
  {
    RecoveryCaptureId(failed[name].id, Sha256(failed[name].bytes))
  }

  // No two of the files have both ID and bytes in common.
  predicate Different(failed: map<string, QueueFile>, names: seq<string>)
    requires forall i :: 0 <= i < |names| ==> names[i] in failed
  {
    forall i, j :: 0 <= i < j < |names| ==>
      failed[names[i]].id != failed[names[j]].id || failed[names[i]].bytes != failed[names[j]].bytes
  }

  // The copy of this failed file, with all that tells where it comes from.
  ghost predicate HasCopy(pending: map<string, QueueFile>, failed: map<string, QueueFile>, name: string, bytes: Bytes)
    requires name in failed
  {
    exists id ::
      id in pending
      && pending[id] == QueueFile(id, bytes, Some(Origin(failed[name].id, name, Sha256(failed[name].bytes))))
  }

  lemma OneMoreCopied(before: Pass, failed: map<string, QueueFile>, name: string, bytes: Bytes)
    requires name in failed && CopyId(failed, name) !in before.pending
    ensures FateOf(before.pending, failed, name, Some(bytes), NOBODY, true) == Fate(Copied, false)
    ensures var after := PendingAfter(before.pending, failed, name, Some(bytes), NOBODY, true);
      && after.Keys == before.pending.Keys + {CopyId(failed, name)} && HasCopy(after, failed, name, bytes)
      && forall id :: id in before.pending ==> after[id] == before.pending[id]
  {
    hide RecoveryCaptureId;
    var id := CopyId(failed, name);
    var after := PendingAfter(before.pending, failed, name, Some(bytes), NOBODY, true);
    assert after[id] == QueueFile(id, bytes, Some(Origin(failed[name].id, name, Sha256(failed[name].bytes))));
  }

  ghost predicate AllHaveCopies(pending: map<string, QueueFile>, failed: map<string, QueueFile>, names: seq<string>,
                                derived: seq<Option<Bytes>>)
    requires |names| == |derived| && forall i :: 0 <= i < |names| ==> names[i] in failed && derived[i].Some?
  {
    forall i :: 0 <= i < |names| ==> HasCopy(pending, failed, names[i], derived[i].value)
  }

  predicate OnlyCopies(pending: map<string, QueueFile>, before: map<string, QueueFile>, failed: map<string, QueueFile>,
                       names: seq<string>)
    requires forall i :: 0 <= i < |names| ==> names[i] in failed
  {
    forall id :: id in pending ==> id in before || exists i :: 0 <= i < |names| && id == CopyId(failed, names[i])
  }

  // Every file was copied, each into a pending file of its own, and nothing else was added.
  ghost predicate AllCopied(p: Pass, before: map<string, QueueFile>, failed: map<string, QueueFile>, names: seq<string>,
                            derived: seq<Option<Bytes>>)
    requires |names| == |derived| && forall i :: 0 <= i < |names| ==> names[i] in failed && derived[i].Some?
  {
    && |p.fates| == |names| && (forall i :: 0 <= i < |names| ==> p.fates[i] == Fate(Copied, false))
    && AllHaveCopies(p.pending, failed, names, derived) && OnlyCopies(p.pending, before, failed, names)
  }

  lemma CopyStays(before: map<string, QueueFile>, after: map<string, QueueFile>, failed: map<string, QueueFile>,
                  name: string, bytes: Bytes)
    requires name in failed && HasCopy(before, failed, name, bytes)
    requires forall id :: id in before ==> id in after && after[id] == before[id]
    ensures HasCopy(after, failed, name, bytes)
  {
    var id :| id in before
              && before[id] == QueueFile(id, bytes, Some(Origin(failed[name].id, name, Sha256(failed[name].bytes))));
    assert id in after && after[id] == before[id];
  }

  lemma MoreHaveCopies(before: map<string, QueueFile>, after: map<string, QueueFile>, failed: map<string, QueueFile>,
                       names: seq<string>, derived: seq<Option<Bytes>>)
    requires 0 < |names| == |derived| && forall i :: 0 <= i < |names| ==> names[i] in failed && derived[i].Some?
    requires AllHaveCopies(before, failed, names[..|names| - 1], derived[..|names| - 1])
    requires HasCopy(after, failed, names[|names| - 1], derived[|names| - 1].value)
    requires forall id :: id in before ==> id in after && after[id] == before[id]
    ensures AllHaveCopies(after, failed, names, derived)
  {
    hide HasCopy;
    var n := |names| - 1;
    forall i | 0 <= i < |names| ensures HasCopy(after, failed, names[i], derived[i].value) {
      if i < n {
        assert HasCopy(before, failed, names[..n][i], derived[..n][i].value);
        CopyStays(before, after, failed, names[i], derived[i].value);
      }
    }
  }

  lemma OneMoreOnly(before: map<string, QueueFile>, after: map<string, QueueFile>, start: map<string, QueueFile>,
                    failed: map<string, QueueFile>, names: seq<string>)
    requires 0 < |names| && forall i :: 0 <= i < |names| ==> names[i] in failed
    requires OnlyCopies(before, start, failed, names[..|names| - 1])
    requires after.Keys == before.Keys + {CopyId(failed, names[|names| - 1])}
    ensures OnlyCopies(after, start, failed, names)
  {
    hide CopyId;
    var n := |names| - 1;
    forall id | id in after && id !in start
      ensures exists i :: 0 <= i < |names| && id == CopyId(failed, names[i])
    {
      if id in before {
        var i :| 0 <= i < n && id == CopyId(failed, names[..n][i]);
        assert id == CopyId(failed, names[i]);
      } else {
        assert id == CopyId(failed, names[n]);
      }
    }
  }

  // A copy that only later files could have has not been made yet.
  lemma NotYetCopied(pending: map<string, QueueFile>, start: map<string, QueueFile>, failed: map<string, QueueFile>,
                     names: seq<string>)
    requires 0 < |names| && (forall i :: 0 <= i < |names| ==> names[i] in failed) && Different(failed, names)
    requires CopyId(failed, names[|names| - 1]) !in start && OnlyCopies(pending, start, failed, names[..|names| - 1])
    ensures CopyId(failed, names[|names| - 1]) !in pending
  {
    var n := |names| - 1;
    forall i | 0 <= i < n ensures CopyId(failed, names[..n][i]) != CopyId(failed, names[n]) {
      CopiesDiffer(failed[names[i]].id, Sha256(failed[names[i]].bytes),
                   failed[names[n]].id, Sha256(failed[names[n]].bytes));
    }
    hide RecoveryCaptureId, CopyId;
  }

  lemma {:induction false} PassCopiesAll(pending: map<string, QueueFile>, failed: map<string, QueueFile>,
                                         names: seq<string>, derived: seq<Option<Bytes>>, others: seq<Others>)
    requires |names| == |derived| == |others| && forall i :: 0 <= i < |others| ==> others[i] == NOBODY
    requires forall i :: 0 <= i < |names| ==> names[i] in failed && derived[i].Some?
    requires forall i :: 0 <= i < |names| ==> CopyId(failed, names[i]) !in pending
    requires Different(failed, names)
    ensures AllCopied(PassOver(pending, failed, names, derived, others, true), pending, failed, names, derived)
    decreases |names|
  {
    hide CopyId, FateOf, PendingAfter, HasCopy;
    if names != [] {
      var n := |names| - 1;
      PassCopiesAll(pending, failed, names[..n], derived[..n], others[..n]);
      var before := PassOver(pending, failed, names[..n], derived[..n], others[..n], true);
      NotYetCopied(before.pending, pending, failed, names);
      OneMoreCopied(before, failed, names[n], derived[n].value);
      var p := PassOver(pending, failed, names, derived, others, true);
      MoreHaveCopies(before.pending, p.pending, failed, names, derived);
      OneMoreOnly(before.pending, p.pending, pending, failed, names);
      assert p.fates == before.fates + [Fate(Copied, false)];
    }
  }

  lemma {:induction false} OnlyCopied(fates: seq<Fate>)
    requires forall i :: 0 <= i < |fates| ==> fates[i] == Fate(Copied, false)
    ensures InState(fates, Copied) == |fates| && InState(fates, Blocked) == 0 && InState(fates, Present) == 0
  {
    if fates != [] {
      OnlyCopied(fates[..|fates| - 1]);
    }
  }

  /** Main result: an undisturbed pass over files that can all be derived, no two with ID and bytes in
      common and none with something under its copy's name in pending, blocks none: every file is copied,
      each into its own pending file that carries the original's ID, file name and hash. */
  lemma DifferentFilesAreAllCopied(pending: map<string, QueueFile>, failed: map<string, QueueFile>, names: seq<string>,
                                   derived: seq<Option<Bytes>>, others: seq<Others>, report: Report)
    requires |names| == |derived| == |others| && forall i :: 0 <= i < |others| ==> others[i] == NOBODY
    requires forall i :: 0 <= i < |names| ==> names[i] in failed && derived[i].Some?
    requires forall i :: 0 <= i < |names| ==> CopyId(failed, names[i]) !in pending
    requires Different(failed, names)
    requires Reports(report, PassOver(pending, failed, names, derived, others, true).fates)
    ensures report.copied == |names| && report.blocked == 0 && report.alreadyPresent == 0
    ensures AllCopied(PassOver(pending, failed, names, derived, others, true), pending, failed, names, derived)
    ensures |PassOver(pending, failed, names, derived, others, true).pending.Keys| == |pending.Keys| + |names|
  {
    PassCopiesAll(pending, failed, names, derived, others);
    OnlyCopied(PassOver(pending, failed, names, derived, others, true).fates);
    AlonePass(pending, failed, names, derived, others, true);
    hide PassOver, WithCopies;
  }

  lemma {:induction false} CopiesExist(pending: map<string, QueueFile>, failed: map<string, QueueFile>,
                                       names: seq<string>,
                                       derived: seq<Option<Bytes>>, i: nat)
    requires |derived| == |names| && i < |names|
    requires names[i] in failed && derived[i].Some?
    ensures CopyId(failed, names[i]) in WithCopies(pending, failed, names, derived)
    decreases |names|
  {
    hide RecoveryCaptureId;
    var last := |names| - 1;
    if i < last {
      CopiesExist(pending, failed, names[..last], derived[..last], i);
    }
  }

  lemma {:induction false} NothingToAdd(pending: map<string, QueueFile>, failed: map<string, QueueFile>,
                                        names: seq<string>,
                                        derived: seq<Option<Bytes>>)
    requires |derived| == |names|
    requires forall i :: 0 <= i < |names| && names[i] in failed && derived[i].Some? ==>
      CopyId(failed, names[i]) in pending
    ensures WithCopies(pending, failed, names, derived) == pending
    decreases |names|
  {
    hide RecoveryCaptureId;
    if names != [] {
      var last := |names| - 1;
      NothingToAdd(pending, failed, names[..last], derived[..last]);
    }
  }

  /** Main result: a second pass over the same files adds nothing, though its records carry other
      timestamps and so other bytes. */
  lemma SecondPassAddsNothing(pending: map<string, QueueFile>, failed: map<string, QueueFile>, names: seq<string>,
                              first: seq<Option<Bytes>>, second: seq<Option<Bytes>>)
    requires |first| == |names| == |second|
    requires forall i :: 0 <= i < |names| && second[i].Some? ==> first[i].Some?
    ensures var once := WithCopies(pending, failed, names, first); WithCopies(once, failed, names, second) == once
  {
    hide WithCopies, RecoveryCaptureId;
    var once := WithCopies(pending, failed, names, first);
    forall i | 0 <= i < |names| && names[i] in failed && second[i].Some?
      ensures CopyId(failed, names[i]) in once
    {
      CopiesExist(pending, failed, names, first, i);
    }
    NothingToAdd(once, failed, names, second);
  }
}
