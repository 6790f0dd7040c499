/** Every step of the job engine keeps its invariant. */
module JobEngineSteps {
  import opened Options
  import opened JobEngine

  // ---------- the pump ----------

  lemma {:induction false} FilterAppend(x: seq<string>, y: seq<string>, jobs: map<string, Job>, a: string)
    ensures Filter(x + y, jobs, a) == Filter(x, jobs, a) + Filter(y, jobs, a)
  {
    if y == [] {
      assert x + y == x;
    } else {
      assert (x + y)[..|x + y| - 1] == x + y[..|y| - 1];
      FilterAppend(x, y[..|y| - 1], jobs, a);
    }
  }

  lemma {:induction false} FilterFrame(ids: seq<string>, x: map<string, Job>, y: map<string, Job>, a: string)
    requires forall id :: id in ids ==> ArchiveOf(x, id) == ArchiveOf(y, id)
    ensures Filter(ids, x, a) == Filter(ids, y, a)
    decreases |ids|
  {
    if ids != [] {
      assert ids[|ids| - 1] in ids;
      FilterFrame(ids[..|ids| - 1], x, y, a);
    }
  }

  lemma {:induction false} FilterNone(ids: seq<string>, jobs: map<string, Job>, a: string)
    requires forall id :: id in ids ==> ArchiveOf(jobs, id) != a
    ensures Filter(ids, jobs, a) == []
    decreases |ids|
  {
    if ids != [] {
      assert ids[|ids| - 1] in ids;
      FilterNone(ids[..|ids| - 1], jobs, a);
    }
  }

  lemma FilterOne(id: string, jobs: map<string, Job>, a: string)
    ensures Filter([id], jobs, a) == if ArchiveOf(jobs, id) == a then [id] else []
  {
    assert [id][..0] == [];
  }

  lemma BeginKeepsOrder(e: Engine, i: nat, a: string)
    requires i < |e.queue| && e.queue[i] in e.jobs
    requires Filter(e.begun, e.jobs, a) + Filter(e.queue, e.jobs, a) == Filter(e.pushed, e.jobs, a)
    requires forall j :: 0 <= j < i ==> ArchiveOf(e.jobs, e.queue[j]) != ArchiveOf(e.jobs, e.queue[i])
    ensures Filter(e.begun + [e.queue[i]], e.jobs, a) + Filter(e.queue[..i] + e.queue[i + 1..], e.jobs, a)
      == Filter(e.pushed, e.jobs, a)
  {
    hide Filter;
    var id, before, after := e.queue[i], e.queue[..i], e.queue[i + 1..];
    assert e.queue == before + ([id] + after);
    FilterAppend(before, [id] + after, e.jobs, a);
    FilterAppend([id], after, e.jobs, a);
    FilterAppend(before, after, e.jobs, a);
    FilterAppend(e.begun, [id], e.jobs, a);
    FilterOne(id, e.jobs, a);
    if a == ArchiveOf(e.jobs, id) {
      FilterNone(before, e.jobs, a);
    }
  }

  lemma BeginFair(e: Engine, i: nat)
    requires i < |e.queue| && e.queue[i] in e.jobs && Fair(e)
    requires forall j :: 0 <= j < i ==> ArchiveOf(e.jobs, e.queue[j]) != ArchiveOf(e.jobs, e.queue[i])
    ensures Fair(Begin(e, i))
  {
    var b := Begin(e, i);
    forall a
      ensures Filter(b.begun, b.jobs, a) + Filter(b.queue, b.jobs, a) == Filter(b.pushed, b.jobs, a)
    {
      BeginKeepsOrder(e, i, a);
    }
  }

  lemma BeginLined(e: Engine, i: nat)
    requires i < |e.queue| && Lined(e) && e.queue[i] in e.jobs
    ensures Lined(Begin(e, i))
  {
    var b := Begin(e, i);
    forall x | x in b.queue
      ensures Waiting(b, x)
    {
      assert x in e.queue && Waiting(e, x) && x != e.queue[i];
    }
  }

  lemma BeginDiskFirst(e: Engine, i: nat)
    requires i < |e.queue| && DiskFirst(e) && e.queue[i] in e.jobs
    ensures DiskFirst(Begin(e, i))
  {
    var b := Begin(e, i);
    forall x | x in b.files
      ensures Traced(b, x)
    {
      assert Traced(e, x);
    }
    forall x | x in b.jobs
      ensures Readable(b, x)
    {
      assert Readable(e, x);
    }
  }

  lemma BeginModeSound(e: Engine, i: nat)
    requires i < |e.queue| && ModeSound(e) && e.queue[i] in e.jobs && e.mode.Up?
    ensures ModeSound(Begin(e, i))
  {
    var b := Begin(e, i);
    forall x | Healthy(b) && x in b.jobs
      ensures Placed(b, x)
    {
      assert Placed(e, x);
      if x in e.queue && x != e.queue[i] {
        assert x in b.queue;
      }
    }
  }

  lemma BeginSound(e: Engine)
    requires CanBegin(e) && Core(e) && e.mode.Up?
    ensures Core(Begin(e, FirstIdle(e.queue, e.jobs, e.active)))
  {
    var i := FirstIdle(e.queue, e.jobs, e.active);
    assert Waiting(e, e.queue[i]) by {
      assert e.queue[i] in e.queue;
    }
    hide Lined, DiskFirst, ModeSound, Exclusive, Fair, Waiting;
    BeginFair(e, i);
    BeginLined(e, i);
    BeginDiskFirst(e, i);
    BeginExclusive(e, i);
    BeginModeSound(e, i);
  }

  lemma BeginActive(e: Engine, i: nat)
    requires i < |e.queue| && e.queue[i] in e.jobs && e.queue[i] !in e.running && ActiveExact(e)
    ensures ActiveExact(Begin(e, i))
  {
    var b := Begin(e, i);
    var id := e.queue[i];
    forall a
      ensures a in b.active <==> Busy(b, a)
    {
      assert a in e.active <==> Busy(e, a);
      if Busy(e, a) {
        var x :| x in e.running && e.running[x].job.request.archive == a;
        assert x in b.running && b.running[x].job.request.archive == a;
      }
      if a == b.running[id].job.request.archive {
        assert Busy(b, a);
      }
    }
  }

  lemma BeginApart(e: Engine, i: nat)
    requires i < |e.queue| && e.queue[i] in e.jobs && ActiveExact(e) && Apart(e)
    requires ArchiveOf(e.jobs, e.queue[i]) !in e.active
    ensures Apart(Begin(e, i))
  {
    var b := Begin(e, i);
    var id := e.queue[i];
    forall x, y | x in b.running && y in b.running && x != y
      ensures b.running[x].job.request.archive != b.running[y].job.request.archive
    {
      if x == id {
        assert Busy(e, b.running[y].job.request.archive);
      } else if y == id {
        assert Busy(e, b.running[x].job.request.archive);
      }
    }
  }

  lemma BeginEmployed(e: Engine, i: nat)
    requires i < |e.queue| && Waiting(e, e.queue[i]) && Employed(e)
    ensures Employed(Begin(e, i))
  {
    var b := Begin(e, i);
    forall x | x in b.running
      ensures x in b.jobs && x in b.files && WorkSound(b, x, b.running[x])
    {
      assert x != e.queue[i] ==> WorkSound(e, x, e.running[x]);
    }
  }

  lemma BeginExclusive(e: Engine, i: nat)
    requires i < |e.queue| && Waiting(e, e.queue[i]) && Exclusive(e)
    requires ArchiveOf(e.jobs, e.queue[i]) !in e.active && |e.running.Keys| < e.limits.concurrency
    ensures Exclusive(Begin(e, i))
  {
    assert Begin(e, i).running.Keys == e.running.Keys + {e.queue[i]};
    BeginActive(e, i);
    BeginApart(e, i);
    BeginEmployed(e, i);
  }

  lemma {:induction false} PumpSound(e: Engine)
    requires Core(e) && e.mode.Up?
    ensures Sound(Pumped(e)) && Pumped(e).files == e.files && Pumped(e).mode == e.mode
    decreases |e.queue|
  {
    hide Fair, DiskFirst, ModeSound;
    if CanBegin(e) {
      BeginSound(e);
      PumpSound(Begin(e, FirstIdle(e.queue, e.jobs, e.active)));
    } else {
      var i := FirstIdle(e.queue, e.jobs, e.active);
      if i < |e.queue| {
        assert Waiting(e, e.queue[i]);
      }
    }
  }

  // ---------- every step ----------

  lemma CrashSound(e: Engine)
    requires Sound(e)
    ensures Sound(Crashed(e))
  {
    var f := Crashed(e);
    forall x | x in f.files
      ensures Traced(f, x)
    {
      assert Traced(e, x);
    }
  }

  lemma BootSound(e: Engine, names: seq<string>)
    requires Sound(e) && Enabled(e, Boot(names))
    ensures Sound(Booted(e, names))
  {
    var f := Booted(e, names);
    forall x | x in f.files
      ensures Traced(f, x)
    {
      assert Traced(e, x);
    }
  }

  lemma RecordDiskFirst(e: Engine, job: Job)
    requires DiskFirst(e) && (job.request.id in e.files ==> job.request == e.files[job.request.id].request)
    ensures DiskFirst(Record(e, job))
  {
    var f := Record(e, job);
    forall x | x in f.files
      ensures Traced(f, x)
    {
      assert x != job.request.id ==> Traced(e, x);
    }
    forall x | x in f.jobs
      ensures Readable(f, x)
    {
      assert Readable(e, x);
    }
  }

  lemma SaveDiskFirst(e: Engine, job: Job, w: Write)
    requires DiskFirst(e) && (job.request.id in e.files ==> job.request == e.files[job.request.id].request)
    ensures DiskFirst(Save(e, job, w))
  {
    RecordDiskFirst(e, job);
    var f := if Lands(w) then Record(e, job) else e;
    FrameDiskFirst(f, Save(e, job, w));
  }

  // Only the disk and what is readable matter.
  lemma FrameDiskFirst(e: Engine, f: Engine)
    requires DiskFirst(e) && f.files == e.files && f.trail == e.trail
    requires forall id :: id in f.jobs ==> id in e.files
    requires forall id :: id in f.jobs ==> (id in e.jobs && f.jobs[id] == e.jobs[id]) || f.jobs[id] == e.files[id]
    ensures DiskFirst(f)
  {
    forall x | x in f.files
      ensures Traced(f, x)
    {
      assert Traced(e, x);
    }
    forall x | x in f.jobs
      ensures Readable(f, x)
    {
      assert Traced(e, x);
      assert x in e.jobs ==> Readable(e, x);
    }
  }

  lemma FairFrame(e: Engine, f: Engine)
    requires Fair(e) && f.begun == e.begun && f.queue == e.queue && f.pushed == e.pushed
    requires forall id :: id in e.jobs ==> id in f.jobs && f.jobs[id].request == e.jobs[id].request
    ensures Fair(f)
  {
    forall a
      ensures Filter(f.begun, f.jobs, a) + Filter(f.queue, f.jobs, a) == Filter(f.pushed, f.jobs, a)
    {
      FilterFrame(e.begun, e.jobs, f.jobs, a);
      FilterFrame(e.queue, e.jobs, f.jobs, a);
      FilterFrame(e.pushed, e.jobs, f.jobs, a);
    }
  }

  // Queueing a new job at the end.
  lemma FairPush(e: Engine, f: Engine, id: string)
    requires Fair(e) && id !in e.jobs && id in f.jobs && f.begun == e.begun
    requires f.queue == e.queue + [id] && f.pushed == e.pushed + [id]
    requires forall x :: x in e.jobs ==> x in f.jobs && f.jobs[x].request == e.jobs[x].request
    ensures Fair(f)
  {
    forall a
      ensures Filter(f.begun, f.jobs, a) + Filter(f.queue, f.jobs, a) == Filter(f.pushed, f.jobs, a)
    {
      hide Filter;
      FilterFrame(e.begun, e.jobs, f.jobs, a);
      FilterFrame(e.queue, e.jobs, f.jobs, a);
      FilterFrame(e.pushed, e.jobs, f.jobs, a);
      FilterAppend(e.queue, [id], f.jobs, a);
      FilterAppend(e.pushed, [id], f.jobs, a);
    }
  }

  lemma LoadedSound(e: Engine, w: Write)
    requires Sound(e) && Enabled(e, LoadNext(w))
    ensures Sound(Loaded(e, w))
  {
    var f := Loaded(e, w);
    var id := e.mode.rest[0];
    var job := Reloaded(e.files[id]);
    assert Traced(e, id);
    SaveDiskFirst(e, job, w);
    if Over(e.files[id].status) {
      FrameDiskFirst(e, f);
      FairFrame(e, f);
    } else if w.Saved? {
      FrameDiskFirst(Save(e, job, w), f);
      FairPush(e, f, id);
    } else {
      FrameDiskFirst(Save(e, job, w), f);
      FairFrame(e, f);
    }
    hide DiskFirst, Fair;
    LoadedQueue(e, w);
  }

  lemma LoadedQueue(e: Engine, w: Write)
    requires Lined(e) && ModeSound(e) && Exclusive(e) && DiskFirst(e) && Enabled(e, LoadNext(w))
    ensures var f := Loaded(e, w); Lined(f) && ModeSound(f) && Exclusive(f) && Conserving(f)
  {
    var f := Loaded(e, w);
    assert Traced(e, e.mode.rest[0]);
    LoadedLined(e, w);
    if f.mode.Loading? {
      LoadedRest(e);
    }
    forall a
      ensures a in f.active <==> Busy(f, a)
    {
      assert a in e.active <==> Busy(e, a);
    }
  }

  lemma LoadedLined(e: Engine, w: Write)
    requires Lined(e) && ModeSound(e) && DiskFirst(e) && Enabled(e, LoadNext(w))
    ensures Lined(Loaded(e, w))
  {
    var f := Loaded(e, w);
    var id := e.mode.rest[0];
    assert Traced(e, id);
    assert id in e.mode.rest && id !in e.queue by {
      assert id in e.queue ==> Waiting(e, id);
    }
    forall x | x in f.queue
      ensures Waiting(f, x)
    {
      assert x in e.queue ==> Waiting(e, x);
    }
  }

  lemma TailMembers(s: seq<string>)
    requires |s| > 0 && NoDuplicates(s)
    ensures NoDuplicates(s[1..]) && s[0] !in s[1..]
    ensures forall x :: x in s <==> x == s[0] || x in s[1..]
  {
    assert s == [s[0]] + s[1..];
  }

  lemma LoadedRest(e: Engine)
    requires Enabled(e, LoadNext(Saved)) && LoadSound(e, e.mode.rest) && Lined(e)
    requires e.files[e.mode.rest[0]].request.id == e.mode.rest[0]
    ensures var f := Loaded(e, Saved); LoadSound(f, f.mode.rest)
  {
    var id := e.mode.rest[0];
    assert id !in e.queue by {
      assert id in e.queue ==> Waiting(e, id);
    }
    assert id !in e.jobs;
    hide Lined;
    LoadedUnread(e);
    LoadedMirrored(e);
    hide Unread, Mirrored;
  }

  lemma LoadedUnread(e: Engine)
    requires Enabled(e, LoadNext(Saved)) && Unread(e, e.mode.rest)
    requires e.files[e.mode.rest[0]].request.id == e.mode.rest[0]
    ensures var f := Loaded(e, Saved); Unread(f, f.mode.rest)
  {
    TailMembers(e.mode.rest);
    hide NoDuplicates;
  }

  lemma LoadedMirrored(e: Engine)
    requires Enabled(e, LoadNext(Saved)) && Mirrored(e) && e.mode.rest[0] !in e.queue && e.mode.rest[0] !in e.jobs
    requires e.files[e.mode.rest[0]].request.id == e.mode.rest[0]
    ensures Mirrored(Loaded(e, Saved))
  {
  }

  lemma OpenUpSound(e: Engine)
    requires Sound(e) && Enabled(e, OpenUp)
    ensures Sound(Apply(e, OpenUp))
  {
    hide DiskFirst, Fair, Exclusive, Lined;
    var f := if e.failed then e.(mode := Down) else e.(mode := Up);
    Frame(e, f);
    if !e.failed {
      forall x | Healthy(f) && x in f.jobs
        ensures Placed(f, x)
      {
      }
      assert Core(f);
      hide Core;
      PumpSound(f);
    }
  }

  lemma LinedFrame(e: Engine, f: Engine)
    requires Lined(e) && f.queue == e.queue
    requires forall id :: Waiting(e, id) ==> Waiting(f, id)
    ensures Lined(f)
  {
    forall x | x in f.queue
      ensures Waiting(f, x)
    {
      assert Waiting(e, x);
    }
  }

  // Neither disk nor readable jobs nor running jobs move.
  lemma Frame(e: Engine, f: Engine)
    requires DiskFirst(e) && Fair(e) && Exclusive(e) && Lined(e)
    requires f.files == e.files && f.trail == e.trail && f.jobs == e.jobs && f.queue == e.queue
    requires f.running == e.running && f.active == e.active && f.limits == e.limits
    requires f.begun == e.begun && f.pushed == e.pushed && (e.failed ==> f.failed) && (e.closing ==> f.closing)
    ensures DiskFirst(f) && Fair(f) && Exclusive(f) && Lined(f)
  {
    hide Exclusive, Lined, Fair;
    assert DiskFirst(f) by {
      assert forall id :: id in e.jobs ==> Readable(e, id);
      FrameDiskFirst(e, f);
    }
    hide DiskFirst;
    FairFrame(e, f);
    ExclusiveFrame(e, f);
    LinedFrame(e, f);
  }

  // The running jobs stay as they were, and nothing they rest on moves.
  lemma ExclusiveFrame(e: Engine, f: Engine)
    requires Exclusive(e) && f.running == e.running && f.active == e.active && f.limits == e.limits
    requires (e.failed ==> f.failed) && (e.closing ==> f.closing)
    requires forall id :: id in e.running && id in e.jobs ==> id in f.jobs
    requires forall id :: id in e.running && id in e.files ==> id in f.files && f.files[id] == e.files[id]
    ensures Exclusive(f)
  {
    forall a
      ensures a in f.active <==> Busy(f, a)
    {
      assert a in e.active <==> Busy(e, a);
    }
    forall id | id in f.running
      ensures id in f.jobs && id in f.files && WorkSound(f, id, f.running[id])
    {
      assert id in e.jobs && id in e.files && WorkSound(e, id, e.running[id]);
    }
  }

  lemma SubmitSound(e: Engine, request: Request)
    requires Sound(e) && Enabled(e, Submit(request))
    ensures Sound(Submitted(e, request))
  {
    hide DiskFirst, Fair, Exclusive, Lined;
    var f := Submitted(e, request);
    Frame(e, f);
    forall x | Healthy(f) && x in f.jobs
      ensures Placed(f, x)
    {
      assert Placed(e, x);
    }
  }

  lemma SubmitWriteSound(e: Engine, w: Write)
    requires Sound(e) && Enabled(e, SubmitWrite(w))
    ensures Sound(SubmissionSaved(e, w))
  {
    var f := SubmissionSaved(e, w);
    SubmitWriteDisk(e, w);
    SubmitWriteEffect(e, w);
    JobsStored(e);
    hide DiskFirst, Fair, Exclusive, Lined, Save, Placed;
    FairFrame(e, f);
    ExclusiveFrame(e, f);
    LinedFrame(e, f);
    SubmitWritePlaced(e, w);
  }

  lemma SubmitWritePlaced(e: Engine, w: Write)
    requires Enabled(e, SubmitWrite(w)) && ModeSound(e)
    requires forall x :: x in e.jobs ==> x in e.files
    ensures ModeSound(SubmissionSaved(e, w)) && (Conserving(e) ==> Conserving(SubmissionSaved(e, w)))
  {
    var f := SubmissionSaved(e, w);
    forall x | Healthy(f) && x in f.jobs
      ensures Placed(f, x)
    {
      assert Placed(e, x);
    }
  }

  lemma SubmitWriteDisk(e: Engine, w: Write)
    requires DiskFirst(e) && Enabled(e, SubmitWrite(w))
    ensures DiskFirst(SubmissionSaved(e, w))
  {
    var job := e.pending.value.job;
    var f := SubmissionSaved(e, w);
    JobsStored(e);
    if Lands(w) {
      SaveDiskFirst(e, job, w);
      hide DiskFirst;
      FrameDiskFirst(Save(e, job, w), f);
    } else {
      hide DiskFirst;
      FrameDiskFirst(e, f);
    }
  }

  lemma SubmitWriteEffect(e: Engine, w: Write)
    requires Enabled(e, SubmitWrite(w))
    ensures var f := SubmissionSaved(e, w);
      && f.jobs == e.jobs && f.queue == e.queue && f.pushed == e.pushed && f.begun == e.begun
      && f.running == e.running && f.active == e.active && f.limits == e.limits
      && f.closing == e.closing && (e.failed ==> f.failed)
      && (forall x :: x in e.files ==> x in f.files && f.files[x] == e.files[x])
  {
  }

  lemma JobsStored(e: Engine)
    requires DiskFirst(e)
    ensures forall x :: x in e.jobs ==> x in e.files && e.jobs[x].request == e.files[x].request
    ensures forall x :: x in e.files ==> e.files[x].request.id == x
  {
    assert forall x :: x in e.jobs ==> Readable(e, x);
    assert forall x :: x in e.files ==> Traced(e, x);
  }

  lemma SubmitPublishSound(e: Engine)
    requires Sound(e) && Enabled(e, SubmitPublish)
    ensures Sound(SubmissionPublished(e))
  {
    var job := e.pending.value.job;
    var id := job.request.id;
    var f := e.(pending := None, jobs := e.jobs[id := job], queue := e.queue + [id], pushed := e.pushed + [id]);
    assert forall x :: x in e.jobs ==> Readable(e, x);
    FrameDiskFirst(e, f);
    hide DiskFirst, Fair, Readable;
    FairPush(e, f, id);
    ExclusiveFrame(e, f);
    PublishLined(e, f, id);
    hide Exclusive, Lined;
    forall x | Healthy(f) && x in f.jobs
      ensures Placed(f, x)
    {
      assert x in e.jobs ==> Placed(e, x);
    }
    assert Core(f);
    hide Core;
    PumpSound(f);
  }

  lemma PublishLined(e: Engine, f: Engine, id: string)
    requires Lined(e) && id !in e.jobs && id !in f.running && id in f.files && id in f.jobs
    requires f.files == e.files && f.running == e.running && f.queue == e.queue + [id]
    requires f.jobs == e.jobs[id := f.files[id]] && f.files[id].status == Queued
    ensures Lined(f)
  {
    forall x | x in f.queue
      ensures Waiting(f, x)
    {
      assert x in e.queue ==> Waiting(e, x);
    }
    assert id !in e.queue by {
      assert id in e.queue ==> Waiting(e, id);
    }
  }

  // A running job writes a new record of itself.
  function Rewritten(e: Engine, job: Job, w: Write, stage: Stage): Engine {
    Save(e, job, w).(running := e.running[job.request.id := Work(job, stage)])
  }

  lemma RewrittenSound(e: Engine, job: Job, w: Write, stage: Stage)
    requires var id := job.request.id;
      && Sound(e) && id in e.running && id in e.jobs && id in e.files && e.files[id].request == job.request
      && WorkSound(Rewritten(e, job, w, stage), id, Work(job, stage))
    ensures Sound(Rewritten(e, job, w, stage))
  {
    hide DiskFirst, Fair, Exclusive, Lined, Waiting, ModeSound, Conserving, WorkSound, Save;
    var f := Rewritten(e, job, w, stage);
    JobsStored(e);
    RewrittenEffect(e, job, w, stage);
    FairFrame(e, f);
    RewrittenExclusive(e, job, w, stage);
    LinedFrame(e, f);
    RewrittenPlaced(e, job, w, stage);
  }

  lemma RewrittenEffect(e: Engine, job: Job, w: Write, stage: Stage)
    requires DiskFirst(e) && job.request.id in e.files && e.files[job.request.id].request == job.request
    requires job.request.id in e.running
    ensures var f := Rewritten(e, job, w, stage);
      && f.jobs == e.jobs && f.queue == e.queue && f.pushed == e.pushed && f.begun == e.begun
      && DiskFirst(f) && forall x :: Waiting(e, x) ==> Waiting(f, x)
  {
    JobsStored(e);
    SaveDiskFirst(e, job, w);
    hide DiskFirst;
    FrameDiskFirst(Save(e, job, w), Rewritten(e, job, w, stage));
  }

  lemma RewrittenPlaced(e: Engine, job: Job, w: Write, stage: Stage)
    requires job.request.id in e.running && ModeSound(e) && job.request.id in e.files && job.request.id in e.jobs
    ensures ModeSound(Rewritten(e, job, w, stage))
    ensures Conserving(e) ==> Conserving(Rewritten(e, job, w, stage))
  {
    var f := Rewritten(e, job, w, stage);
    forall x | Healthy(f) && x in f.jobs
      ensures Placed(f, x)
    {
      assert Placed(e, x);
    }
    assert f.running.Keys == e.running.Keys;
  }

  lemma RewrittenExclusive(e: Engine, job: Job, w: Write, stage: Stage)
    requires var id := job.request.id;
      && Exclusive(e) && id in e.running && id in e.jobs && id in e.files && e.files[id].request == job.request
      && WorkSound(Rewritten(e, job, w, stage), id, Work(job, stage))
    ensures Exclusive(Rewritten(e, job, w, stage))
  {
    var f := Rewritten(e, job, w, stage);
    var id := job.request.id;
    assert WorkSound(e, id, e.running[id]);
    assert f.running.Keys == e.running.Keys;
    assert forall x :: x in e.running ==> f.running[x].job.request == e.running[x].job.request;
    RewrittenEmployed(e, job, w, stage);
    hide Employed, WorkSound;
    ActiveFrame(e, f);
    hide ActiveExact, Apart;
  }

  lemma RewrittenEmployed(e: Engine, job: Job, w: Write, stage: Stage)
    requires var id := job.request.id;
      && Employed(e) && id in e.running && id in e.jobs && id in e.files
      && WorkSound(Rewritten(e, job, w, stage), id, Work(job, stage))
    ensures Employed(Rewritten(e, job, w, stage))
  {
    var f := Rewritten(e, job, w, stage);
    forall x | x in f.running
      ensures x in f.jobs && x in f.files && WorkSound(f, x, f.running[x])
    {
      assert WorkSound(e, x, e.running[x]);
    }
  }

  lemma ActiveFrame(e: Engine, f: Engine)
    requires ActiveExact(e) && Apart(e) && f.active == e.active && f.running.Keys == e.running.Keys
    requires forall x :: x in e.running ==> f.running[x].job.request == e.running[x].job.request
    ensures ActiveExact(f) && Apart(f)
  {
    forall a
      ensures a in f.active <==> Busy(f, a)
    {
      assert a in e.active <==> Busy(e, a);
      if Busy(e, a) {
        var x :| x in e.running && e.running[x].job.request.archive == a;
        assert x in f.running && f.running[x].job.request.archive == a;
      }
    }
  }

  lemma WritePhaseSound(e: Engine, id: string, step: string, w: Write)
    requires Sound(e) && Enabled(e, WritePhase(id, step, w))
    ensures Sound(PhaseWritten(e, id, step, w))
  {
    var job := e.running[id].job.(phase := Working(step));
    assert WorkSound(e, id, e.running[id]) && Traced(e, id);
    RewrittenSound(e, job, w, if w.Saved? then Written else Executing);
  }

  lemma WriteFinalSound(e: Engine, id: string, succeeded: bool, w: Write)
    requires Sound(e) && Enabled(e, WriteFinal(id, succeeded, w))
    ensures Sound(FinalWritten(e, id, succeeded, w))
  {
    var job := Final(e, e.running[id].job, succeeded);
    assert WorkSound(e, id, e.running[id]) && Traced(e, id);
    RewrittenSound(e, job, w, if w.Saved? then Written else Ended);
  }

  lemma PublishSound(e: Engine, id: string)
    requires Sound(e) && Enabled(e, Publish(id))
    ensures Sound(Published(e, id))
  {
    assert WorkSound(e, id, e.running[id]);
    hide DiskFirst, Fair, Exclusive, Lined, ModeSound, Conserving, Waiting, WorkSound;
    PublishDisk(e, id);
    PublishExclusive(e, id);
    LinedFrame(e, Published(e, id));
    PublishPlaced(e, id);
  }

  lemma PublishDisk(e: Engine, id: string)
    requires DiskFirst(e) && Fair(e) && id in e.running && id in e.files && id in e.jobs
    requires e.running[id].job == e.files[id]
    ensures var f := Published(e, id); DiskFirst(f) && Fair(f) && forall x :: Waiting(e, x) ==> Waiting(f, x)
  {
    var f := Published(e, id);
    JobsStored(e);
    hide DiskFirst, Fair;
    FrameDiskFirst(e, f);
    FairFrame(e, f);
  }

  lemma PublishExclusive(e: Engine, id: string)
    requires Exclusive(e) && At(e, id, Written)
    ensures Exclusive(Published(e, id))
  {
    var f := Published(e, id);
    assert WorkSound(e, id, e.running[id]);
    assert f.running.Keys == e.running.Keys;
    ActiveFrame(e, f);
    hide ActiveExact, Apart;
    forall x | x in f.running
      ensures x in f.jobs && x in f.files && WorkSound(f, x, f.running[x])
    {
      assert WorkSound(e, x, e.running[x]);
    }
  }

  lemma PublishPlaced(e: Engine, id: string)
    requires id in e.running && id in e.jobs && ModeSound(e) && e.running[id].job.request == e.jobs[id].request
    ensures ModeSound(Published(e, id)) && (Conserving(e) ==> Conserving(Published(e, id)))
  {
    var f := Published(e, id);
    forall x | Healthy(f) && x in f.jobs
      ensures Placed(f, x)
    {
      assert Placed(e, x);
    }
    assert f.running.Keys == e.running.Keys;
    assert forall x :: ArchiveOf(f.jobs, x) == ArchiveOf(e.jobs, x);
  }

  // The state in which the pump finds the engine after a job is gone.
  function Released(e: Engine, id: string): Engine
    requires id in e.running
  {
    e.(running := e.running - {id}, active := e.active - {e.running[id].job.request.archive})
  }

  lemma ReleasedCore(e: Engine, id: string)
    requires Sound(e) && Enabled(e, Retire(id))
    ensures Core(Released(e, id)) && e.mode.Up?
  {
    assert WorkSound(e, id, e.running[id]);
    hide DiskFirst, Fair, Exclusive, Lined, ModeSound, Conserving, Waiting, WorkSound;
    RetireDisk(e, Released(e, id));
    RetireExclusive(e, id);
    LinedFrame(e, Released(e, id));
    RetirePlaced(e, id);
  }

  lemma RetireSound(e: Engine, id: string)
    requires Sound(e) && Enabled(e, Retire(id))
    ensures Sound(Retired(e, id))
  {
    hide Sound, Core;
    ReleasedCore(e, id);
    PumpSound(Released(e, id));
  }

  lemma RetireDisk(e: Engine, f: Engine)
    requires DiskFirst(e) && Fair(e) && f.files == e.files && f.trail == e.trail && f.jobs == e.jobs
    requires f.queue == e.queue && f.begun == e.begun && f.pushed == e.pushed
    requires f.running.Keys <= e.running.Keys
    ensures DiskFirst(f) && Fair(f) && forall x :: Waiting(e, x) ==> Waiting(f, x)
  {
    JobsStored(e);
    hide DiskFirst, Fair;
    FrameDiskFirst(e, f);
    FairFrame(e, f);
  }

  lemma RetirePlaced(e: Engine, id: string)
    requires id in e.running && id in e.files && ModeSound(e) && (Healthy(e) ==> Over(e.files[id].status))
    ensures e.mode.Up? && ModeSound(Released(e, id))
  {
    var f := Released(e, id);
    forall x | Healthy(f) && x in f.jobs
      ensures Placed(f, x)
    {
      assert Placed(e, x);
    }
  }

  lemma RetireExclusive(e: Engine, id: string)
    requires Exclusive(e) && id in e.running
    ensures Exclusive(Released(e, id))
  {
    var f := Released(e, id);
    forall a
      ensures a in f.active <==> Busy(f, a)
    {
      assert a in e.active <==> Busy(e, a);
      if Busy(e, a) && a != e.running[id].job.request.archive {
        var x :| x in e.running && e.running[x].job.request.archive == a;
        assert x in f.running && f.running[x].job.request.archive == a;
      }
    }
    forall x | x in f.running
      ensures x in f.jobs && x in f.files && WorkSound(f, x, f.running[x])
    {
      assert WorkSound(e, x, e.running[x]);
    }
    assert f.running.Keys == e.running.Keys - {id};
  }

  // Losing the lock, closing and having closed touch no job.
  lemma StopSound(e: Engine, a: Action)
    requires Sound(e) && Enabled(e, a) && (a == LoseLock || a == Close || a == Closed)
    ensures Sound(Apply(e, a))
  {
    hide DiskFirst, Fair, Exclusive, Lined;
    Frame(e, Apply(e, a));
  }

  /** Every step keeps every part of the invariant. */
  lemma StepSound(e: Engine, a: Action)
    requires Sound(e) && Enabled(e, a)
    ensures Sound(Apply(e, a))
  {
    hide Sound;
    match a
    case Boot(names) => BootSound(e, names);
    case LoadNext(w) => LoadedSound(e, w);
    case OpenUp => OpenUpSound(e);
    case Submit(request) => SubmitSound(e, request);
    case SubmitWrite(w) => SubmitWriteSound(e, w);
    case SubmitPublish => SubmitPublishSound(e);
    case WritePhase(id, step, w) => WritePhaseSound(e, id, step, w);
    case WriteFinal(id, succeeded, w) => WriteFinalSound(e, id, succeeded, w);
    case Publish(id) => PublishSound(e, id);
    case Retire(id) => RetireSound(e, id);
    case LoseLock => StopSound(e, a);
    case Close => StopSound(e, a);
    case Closed => StopSound(e, a);
    case Crash => CrashSound(e);
  }
}
