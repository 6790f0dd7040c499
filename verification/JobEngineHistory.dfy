/** What the job engine promises over whole runs, with crashes and restarts anywhere. */
module JobEngineHistory {
  import opened Options
  import opened JobEngine
  import opened JobEngineSteps

  /** The actions, taken in turn, lead from one state to another. */
  ghost predicate Leads(e: Engine, actions: seq<Action>, f: Engine)
    decreases |actions|
  {
    if actions == [] then f == e else Enabled(e, actions[0]) && Leads(Apply(e, actions[0]), actions[1..], f)
  }

  function Fresh(limits: Limits): Engine {
    Engine(limits, map[], map[], Down, map[], [], map[], {}, None, false, false, [], [])
  }

  lemma FreshIsSound(limits: Limits)
    ensures Sound(Fresh(limits))
  {
    var e := Fresh(limits);
    assert !exists a :: Busy(e, a);
    assert forall a :: Filter([], e.jobs, a) == [];
  }

  lemma {:induction false} RunSound(e: Engine, actions: seq<Action>, f: Engine)
    requires Sound(e) && Leads(e, actions, f)
    ensures Sound(f)
    decreases |actions|
  {
    hide Sound;
    if actions != [] {
      StepSound(e, actions[0]);
      RunSound(Apply(e, actions[0]), actions[1..], f);
    }
  }

  /** Main result: in every reachable state running jobs have pairwise different archives, exactly the
      active ones, never more than the limit; and a healthy plugin leaves a slot idle only when every
      queued archive is already being worked on. */
  lemma SchedulerIsSafeAndConserving(limits: Limits, actions: seq<Action>, e: Engine)
    requires Leads(Fresh(limits), actions, e)
    ensures |e.running.Keys| <= limits.concurrency
    ensures Apart(e)
    ensures forall a :: a in e.active <==> exists id :: id in e.running && e.running[id].job.request.archive == a
    ensures forall id :: id in e.queue ==> id !in e.running
    ensures Healthy(e) ==> |e.running.Keys| == limits.concurrency || forall id :: id in e.queue ==>
      ArchiveOf(e.jobs, id) in e.active
  {
    FreshIsSound(limits);
    RunSound(Fresh(limits), actions, e);
    LimitsStay(Fresh(limits), actions, e);
    assert forall id :: id in e.queue ==> Waiting(e, id);
    assert forall a :: a in e.active <==> Busy(e, a);
  }

  lemma {:induction false} LimitsStay(e: Engine, actions: seq<Action>, f: Engine)
    requires Leads(e, actions, f)
    ensures f.limits == e.limits
    decreases |actions|
  {
    if actions != [] {
      StepLimits(e, actions[0]);
      LimitsStay(Apply(e, actions[0]), actions[1..], f);
    }
  }

  lemma StepLimits(e: Engine, a: Action)
    requires Enabled(e, a)
    ensures Apply(e, a).limits == e.limits
  {
    if a.OpenUp? {
      PumpFrame(e.(mode := Up));
    } else if a.SubmitPublish? {
      var job := e.pending.value.job;
      PumpFrame(e.(pending := None, jobs := e.jobs[job.request.id := job], queue := e.queue + [job.request.id],
                   pushed := e.pushed + [job.request.id]));
    } else if a.Retire? {
      PumpFrame(e.(running := e.running - {a.id}, active := e.active - {e.running[a.id].job.request.archive}));
    }
  }

  // The pump touches neither disk nor readable jobs, and starts jobs in the executing stage.
  lemma {:induction false} PumpFrame(e: Engine)
    ensures var p := Pumped(e);
      && p.limits == e.limits && p.files == e.files && p.trail == e.trail && p.jobs == e.jobs && p.failed == e.failed
      && (forall id :: At(p, id, Written) ==> At(e, id, Written))
    decreases |e.queue|
  {
    if CanBegin(e) {
      PumpFrame(Begin(e, FirstIdle(e.queue, e.jobs, e.active)));
    }
  }

  /** Main result: jobs of one archive begin in the order in which they were queued, each once. */
  lemma ArchivesAreServedInOrder(limits: Limits, actions: seq<Action>, e: Engine, a: string)
    requires Leads(Fresh(limits), actions, e)
    ensures NoDuplicates(e.pushed) && Filter(e.begun, e.jobs, a) <= Filter(e.pushed, e.jobs, a)
    ensures Filter(e.pushed, e.jobs, a)[|Filter(e.begun, e.jobs, a)|..] == Filter(e.queue, e.jobs, a)
  {
    FreshIsSound(limits);
    RunSound(Fresh(limits), actions, e);
    assert Filter(e.begun, e.jobs, a) + Filter(e.queue, e.jobs, a) == Filter(e.pushed, e.jobs, a);
  }

  // ---------- what readers see ----------

  /** Unless a store failed, a reader sees the newest stored record, or the one before while the newest
      is being made readable. */
  ghost predicate Current(e: Engine) {
    !e.failed ==> forall id :: id in e.jobs && !At(e, id, Written) ==> id in e.files && e.jobs[id] == e.files[id]
  }

  lemma PumpCurrent(e: Engine)
    requires Current(e) && forall id :: id in e.queue ==> id !in e.running
    ensures Current(Pumped(e))
  {
    PumpFrame(e);
    var p := Pumped(e);
    forall id | !p.failed && id in p.jobs && !At(p, id, Written)
      ensures id in p.files && p.jobs[id] == p.files[id]
    {
      if At(e, id, Written) {
        WrittenStays(e, id);
      }
    }
  }

  lemma {:induction false} WrittenStays(e: Engine, id: string)
    requires At(e, id, Written) && id !in e.queue
    ensures At(Pumped(e), id, Written)
    decreases |e.queue|
  {
    if CanBegin(e) {
      var i := FirstIdle(e.queue, e.jobs, e.active);
      assert e.queue[i] in e.queue;
      WrittenStays(Begin(e, i), id);
    }
  }

  lemma StepCurrent(e: Engine, a: Action)
    requires Sound(e) && Current(e) && Enabled(e, a)
    ensures Current(Apply(e, a))
  {
    QueueIdle(e);
    hide Sound, Current;
    match a
    case Boot(_) => CurrentControl(e, a);
    case LoadNext(w) => CurrentLoad(e, w);
    case OpenUp => CurrentOpenUp(e);
    case Submit(_) => CurrentControl(e, a);
    case SubmitWrite(w) => CurrentSubmitWrite(e, w);
    case SubmitPublish => CurrentSubmitPublish(e);
    case WritePhase(id, step, w) => CurrentWrite(e, a);
    case WriteFinal(id, ok, w) => CurrentWrite(e, a);
    case Publish(id) => CurrentPublish(e, id);
    case Retire(id) => CurrentRetire(e, id);
    case LoseLock => CurrentControl(e, a);
    case Close => CurrentControl(e, a);
    case Closed => CurrentControl(e, a);
    case Crash => CurrentControl(e, a);
  }

  lemma QueueIdle(e: Engine)
    requires Sound(e)
    ensures forall id :: id in e.queue ==> id !in e.running
  {
    assert forall id :: id in e.queue ==> Waiting(e, id);
  }

  lemma CurrentControl(e: Engine, a: Action)
    requires Current(e) && Enabled(e, a) && (a.Boot? || a.Submit? || a.LoseLock? || a.Close? || a.Closed? || a.Crash?)
    ensures Current(Apply(e, a))
  {
  }

  lemma CurrentOpenUp(e: Engine)
    requires Current(e) && Enabled(e, OpenUp) && forall id :: id in e.queue ==> id !in e.running
    ensures Current(Apply(e, OpenUp))
  {
    if !e.failed {
      PumpCurrent(e.(mode := Up));
    }
  }

  lemma CurrentLoad(e: Engine, w: Write)
    requires Sound(e) && Current(e) && Enabled(e, LoadNext(w))
    ensures Current(Loaded(e, w))
  {
    JobsStored(e);
    hide Sound;
  }

  lemma CurrentSubmitWrite(e: Engine, w: Write)
    requires Sound(e) && Current(e) && Enabled(e, SubmitWrite(w))
    ensures Current(SubmissionSaved(e, w))
  {
    assert e.pending.value.job.request.id !in e.jobs;
    hide Sound;
  }

  lemma CurrentSubmitPublish(e: Engine)
    requires Sound(e) && Current(e) && Enabled(e, SubmitPublish)
    ensures Current(SubmissionPublished(e))
  {
    QueueIdle(e);
    var job := e.pending.value.job;
    var id := job.request.id;
    assert id !in e.running && e.files[id] == job && id in e.files;
    hide Sound;
    PumpCurrent(e.(pending := None, jobs := e.jobs[id := job], queue := e.queue + [id], pushed := e.pushed + [id]));
  }

  lemma CurrentWrite(e: Engine, a: Action)
    requires Sound(e) && Current(e) && Enabled(e, a) && (a.WritePhase? || a.WriteFinal?)
    ensures Current(Apply(e, a))
  {
    assert WorkSound(e, a.id, e.running[a.id]);
    JobsStored(e);
    hide Sound, Current;
    var job := if a.WritePhase? then e.running[a.id].job.(phase := Working(a.step))
      else Final(e, e.running[a.id].job, a.succeeded);
    CurrentRewritten(e, job, a.write, if a.WritePhase? then Executing else Ended);
  }

  lemma CurrentRewritten(e: Engine, job: Job, w: Write, otherwise: Stage)
    requires Current(e) && otherwise != Written && forall id :: id in e.jobs ==> id in e.files
    ensures Current(Save(e, job, w).(running :=
      e.running[job.request.id := Work(job, if w.Saved? then Written else otherwise)]))
  {
  }

  lemma CurrentPublish(e: Engine, id: string)
    requires Sound(e) && Current(e) && At(e, id, Written)
    ensures Current(Published(e, id))
  {
    PublishedRecord(e, id);
    hide Sound, Current;
    CurrentPublished(e, id);
  }

  lemma CurrentPublished(e: Engine, id: string)
    requires Current(e) && id in e.running && id in e.files && e.running[id].job == e.files[id]
    ensures Current(Published(e, id))
  {
  }

  lemma PublishedRecord(e: Engine, id: string)
    requires Sound(e) && At(e, id, Written)
    ensures id in e.files && e.running[id].job == e.files[id]
  {
    assert WorkSound(e, id, e.running[id]);
  }

  lemma CurrentRetire(e: Engine, id: string)
    requires Current(e) && Enabled(e, Retire(id)) && forall x :: x in e.queue ==> x !in e.running
    ensures Current(Retired(e, id))
  {
    PumpCurrent(e.(running := e.running - {id}, active := e.active - {e.running[id].job.request.archive}));
  }

  lemma {:induction false} RunCurrent(e: Engine, actions: seq<Action>, f: Engine)
    requires Sound(e) && Current(e) && Leads(e, actions, f)
    ensures Current(f)
    decreases |actions|
  {
    hide Sound, Current;
    if actions != [] {
      StepSound(e, actions[0]);
      StepCurrent(e, actions[0]);
      RunCurrent(Apply(e, actions[0]), actions[1..], f);
    }
  }

  /** Main result: every job state a reader can see was written to disk first, and it is the newest one
      there unless a store failed or the job is just between a write and its publication. */
  lemma ReadersSeeStoredStates(limits: Limits, actions: seq<Action>, e: Engine, id: string)
    requires Leads(Fresh(limits), actions, e) && id in e.jobs
    ensures id in e.trail && e.jobs[id] in e.trail[id]
    ensures id in e.files && e.files[id] == e.trail[id][|e.trail[id]| - 1]
    ensures e.failed || At(e, id, Written) || e.jobs[id] == e.files[id]
  {
    FreshIsSound(limits);
    RunSound(Fresh(limits), actions, e);
    RunCurrent(Fresh(limits), actions, e);
    assert Readable(e, id);
    assert Traced(e, id);
  }

  // ---------- finished jobs ----------

  /** The file a step may write, if any. */
  function Target(e: Engine, a: Action): Option<string> {
    if a.LoadNext? then
      if e.mode.Loading? && |e.mode.rest| > 0 && e.mode.rest[0] in e.files && !Over(e.files[e.mode.rest[0]].status)
      then Some(e.files[e.mode.rest[0]].request.id) else None
    else if a.SubmitWrite? then
      if e.pending.Some? && Lands(a.write) then Some(e.pending.value.job.request.id) else None
    else if a.WritePhase? || a.WriteFinal? then
      if a.id in e.running then Some(e.running[a.id].job.request.id) else None
    else None
  }

  lemma OnlyTargetIsWritten(e: Engine, a: Action, id: string)
    requires Enabled(e, a) && id in e.files && id in e.trail && Target(e, a) != Some(id)
    ensures var f := Apply(e, a);
      id in f.files && id in f.trail && f.files[id] == e.files[id] && f.trail[id] == e.trail[id]
  {
    if a.OpenUp? {
      PumpFrame(e.(mode := Up));
    } else if a.SubmitPublish? {
      var job := e.pending.value.job;
      PumpFrame(e.(pending := None, jobs := e.jobs[job.request.id := job], queue := e.queue + [job.request.id],
                   pushed := e.pushed + [job.request.id]));
    } else if a.Retire? {
      PumpFrame(e.(running := e.running - {a.id}, active := e.active - {e.running[a.id].job.request.archive}));
    }
  }

  lemma TargetIsUnfinished(e: Engine, a: Action, id: string)
    requires Sound(e) && Enabled(e, a) && Target(e, a) == Some(id)
    ensures id in e.files ==> !Over(e.files[id].status)
  {
    JobsStored(e);
    if a.WritePhase? || a.WriteFinal? {
      assert WorkSound(e, a.id, e.running[a.id]);
    }
  }

  lemma StepKeepsFinished(e: Engine, a: Action, id: string)
    requires Sound(e) && Enabled(e, a) && id in e.files && Over(e.files[id].status)
    ensures var f := Apply(e, a);
      id in f.files && id in f.trail && f.files[id] == e.files[id] && f.trail[id] == e.trail[id]
  {
    hide Apply, Enabled;
    assert Traced(e, id);
    if Target(e, a) == Some(id) {
      TargetIsUnfinished(e, a, id);
    }
    OnlyTargetIsWritten(e, a, id);
  }

  /** Main result: once a job is stored as completed or failed, nothing is ever written to it again, and
      it is never queued or executed again, through any crashes, restarts and resubmissions. */
  lemma {:induction false} FinishedJobsStayFinished(e: Engine, actions: seq<Action>, f: Engine, id: string)
    requires Sound(e) && Leads(e, actions, f) && id in e.files && Over(e.files[id].status)
    ensures id in f.files && id in f.trail && f.files[id] == e.files[id] && f.trail[id] == e.trail[id]
    ensures id !in f.queue && !At(f, id, Executing)
    decreases |actions|
  {
    if actions == [] {
      assert Traced(e, id);
      assert id in e.queue ==> Waiting(e, id);
      assert id in e.running ==> WorkSound(e, id, e.running[id]);
    } else {
      hide Sound;
      StepSound(e, actions[0]);
      StepKeepsFinished(e, actions[0], id);
      FinishedJobsStayFinished(Apply(e, actions[0]), actions[1..], f, id);
    }
  }

  // ---------- how jobs end ----------

  // The file says that the job is over in this way.
  predicate StoredAs(e: Engine, id: string, status: Status) {
    id in e.files && e.files[id].status == status
  }

  lemma RunningIsItself(e: Engine, id: string)
    requires Sound(e) && At(e, id, Executing)
    ensures id in e.files && e.running[id].job.request.id == id && e.running[id].job.status == Running
  {
    assert WorkSound(e, id, e.running[id]);
    JobsStored(e);
  }

  lemma OnlyFinalEnds(e: Engine, a: Action, id: string, succeeded: bool)
    requires Sound(e) && Enabled(e, a)
    requires var status := if succeeded then Completed else Failed;
      !StoredAs(e, id, status) && StoredAs(Apply(e, a), id, status)
    ensures a.WriteFinal? && a.id == id && a.succeeded == succeeded && Lands(a.write)
    ensures !e.closing && !e.failed
  {
    if a.WriteFinal? || a.WritePhase? {
      RunningIsItself(e, a.id);
      WrittenEnds(e, a, id, succeeded);
    } else if a.LoadNext? {
      JobsStored(e);
      ReadEnds(e, a.write, id);
    } else if a.SubmitWrite? {
      SubmittedEnds(e, a.write, id);
    } else {
      OthersWriteNothing(e, a);
    }
  }

  lemma WrittenEnds(e: Engine, a: Action, id: string, succeeded: bool)
    requires Enabled(e, a) && (a.WriteFinal? || a.WritePhase?)
    requires e.running[a.id].job.request.id == a.id && e.running[a.id].job.status == Running
    requires var status := if succeeded then Completed else Failed;
      !StoredAs(e, id, status) && StoredAs(Apply(e, a), id, status)
    ensures a.WriteFinal? && a.id == id && a.succeeded == succeeded && Lands(a.write)
    ensures !e.closing && !e.failed
  {
  }

  lemma ReadEnds(e: Engine, w: Write, id: string)
    requires Enabled(e, LoadNext(w)) && e.files[e.mode.rest[0]].request.id == e.mode.rest[0]
    requires StoredAs(Loaded(e, w), id, Completed) || StoredAs(Loaded(e, w), id, Failed)
    ensures id in e.files && e.files[id] == Loaded(e, w).files[id]
  {
  }

  lemma SubmittedEnds(e: Engine, w: Write, id: string)
    requires Sound(e) && Enabled(e, SubmitWrite(w))
    requires StoredAs(SubmissionSaved(e, w), id, Completed) || StoredAs(SubmissionSaved(e, w), id, Failed)
    ensures id in e.files && e.files[id] == SubmissionSaved(e, w).files[id]
  {
    assert e.pending.value.job.status == Queued;
    hide Sound;
  }

  lemma OthersWriteNothing(e: Engine, a: Action)
    requires Enabled(e, a) && !a.WriteFinal? && !a.WritePhase? && !a.LoadNext? && !a.SubmitWrite?
    ensures Apply(e, a).files == e.files
  {
    if a.OpenUp? {
      PumpFrame(e.(mode := Up));
    } else if a.SubmitPublish? {
      var job := e.pending.value.job;
      PumpFrame(e.(pending := None, jobs := e.jobs[job.request.id := job], queue := e.queue + [job.request.id],
                   pushed := e.pushed + [job.request.id]));
    } else if a.Retire? {
      PumpFrame(e.(running := e.running - {a.id}, active := e.active - {e.running[a.id].job.request.archive}));
    }
  }

  // The step with which an attempt of this job ended in this way.
  predicate Ends(a: Action, id: string, succeeded: bool) {
    a.WriteFinal? && a.id == id && a.succeeded == succeeded && Lands(a.write)
  }

  lemma {:induction false} EndedByFinal(e: Engine, actions: seq<Action>, f: Engine, id: string, succeeded: bool)
    requires Sound(e) && Leads(e, actions, f)
    requires var status := if succeeded then Completed else Failed;
      !StoredAs(e, id, status) && StoredAs(f, id, status)
    ensures exists k :: 0 <= k < |actions| && Ends(actions[k], id, succeeded)
    decreases |actions|
  {
    var status := if succeeded then Completed else Failed;
    StepSound(e, actions[0]);
    var n := Apply(e, actions[0]);
    if StoredAs(n, id, status) {
      OnlyFinalEnds(e, actions[0], id, succeeded);
    } else {
      hide Sound, Apply, Enabled, StoredAs;
      EndedByFinal(n, actions[1..], f, id, succeeded);
      var k :| 0 <= k < |actions[1..]| && Ends(actions[1..][k], id, succeeded);
      assert actions[k + 1] == actions[1..][k];
    }
  }

  /** Main result: in every run, with crashes and restarts anywhere, a job stored as completed had an
      attempt that succeeded, and one stored as failed an attempt that did not. */
  lemma StoredEndIsTrue(limits: Limits, actions: seq<Action>, e: Engine, id: string)
    requires Leads(Fresh(limits), actions, e) && id in e.files
    ensures e.files[id].status == Completed ==>
      exists k :: 0 <= k < |actions| && Ends(actions[k], id, true)
    ensures e.files[id].status == Failed ==>
      exists k :: 0 <= k < |actions| && Ends(actions[k], id, false)
  {
    FreshIsSound(limits);
    if e.files[id].status == Completed {
      EndedByFinal(Fresh(limits), actions, e, id, true);
    } else if e.files[id].status == Failed {
      EndedByFinal(Fresh(limits), actions, e, id, false);
    }
  }

  // The job's file after the last record of an attempt.
  predicate EndsAs(job: Job, was: Job, interrupted: bool, succeeded: bool) {
    && job.request == was.request && job.attempt == was.attempt
    && (interrupted ==> job.status == Queued && job.phase == Interrupted)
    && (!interrupted && succeeded ==> job.status == Completed && job.phase == Ready)
    && (!interrupted && !succeeded ==> job.status == Failed && job.phase == Broken)
  }

  lemma FinalMeans(e: Engine, id: string, succeeded: bool, w: Write)
    requires id in e.running && e.running[id].job.request.id == id && id in e.files && Lands(w)
    ensures var f := FinalWritten(e, id, succeeded, w);
      && f.files.Keys == e.files.Keys && (forall x :: x in e.files && x != id ==> f.files[x] == e.files[x])
      && EndsAs(f.files[id], e.running[id].job, e.closing || e.failed, succeeded)
  {
  }

  /** What the last record of an attempt says: an interrupted attempt leaves the job queued, a successful
      one completed, any other failed. The request and the attempt number stay as they were, and so does
      every other file. */
  lemma LastRecordMeans(e: Engine, id: string, succeeded: bool, w: Write)
    requires Sound(e) && Enabled(e, WriteFinal(id, succeeded, w)) && Lands(w)
    ensures var f := Apply(e, WriteFinal(id, succeeded, w));
      && id in e.running && id in f.files && f.files.Keys == e.files.Keys
      && (forall x :: x in e.files && x != id ==> f.files[x] == e.files[x])
      && EndsAs(f.files[id], e.running[id].job, e.closing || e.failed, succeeded)
  {
    RunningIsItself(e, id);
    FinalMeans(e, id, succeeded, w);
    hide Sound, EndsAs, FinalWritten;
  }

  // ---------- restart ----------

  /** What is left of start-up, when every save succeeds. */
  ghost function LoadRest(e: Engine): Engine
    requires Sound(e) && e.mode.Loading?
    decreases if e.mode.Loading? then |e.mode.rest| else 0
  {
    if e.mode.rest == [] then e
    else
      NextIsEnabled(e);
      StepSound(e, LoadNext(Saved));
      LoadRest(Loaded(e, Saved))
  }

  lemma LoadedReads(e: Engine)
    requires Enabled(e, LoadNext(Saved)) && e.files[e.mode.rest[0]].request.id == e.mode.rest[0]
    ensures var f := Loaded(e, Saved); var id := e.mode.rest[0];
      && f.files.Keys == e.files.Keys && f.jobs.Keys == e.jobs.Keys + {id}
      && f.files[id] == Reloaded(e.files[id])
      && (forall x :: x in e.files && x != id ==> f.files[x] == e.files[x])
      && f.mode == Loading(e.mode.rest[1..])
  {
  }

  /** What start-up has made of the stored jobs it had not read yet. */
  ghost predicate Reads(e: Engine, f: Engine) {
    && f.files.Keys == e.files.Keys
    && forall id :: id in e.files ==> f.files[id] == if id in e.jobs then e.files[id] else Reloaded(e.files[id])
  }

  lemma ReadsThen(e: Engine, f: Engine)
    requires Enabled(e, LoadNext(Saved)) && e.files[e.mode.rest[0]].request.id == e.mode.rest[0]
    requires e.mode.rest[0] !in e.jobs && Reads(Loaded(e, Saved), f)
    ensures Reads(e, f)
  {
    LoadedReads(e);
    hide Loaded;
    var g := Loaded(e, Saved);
    forall id | id in e.files
      ensures f.files[id] == if id in e.jobs then e.files[id] else Reloaded(e.files[id])
    {
      assert id in g.files;
    }
  }

  lemma {:induction false} LoadRestReads(e: Engine)
    requires Sound(e) && e.mode.Loading?
    ensures var f := LoadRest(e); Sound(f) && f.mode == Loading([]) && Reads(e, f)
    decreases |e.mode.rest|
  {
    if e.mode.rest == [] {
      LoadRestDone(e);
    } else {
      NextIsEnabled(e);
      StepSound(e, LoadNext(Saved));
      LoadedReads(e);
      hide Sound, Loaded, Reads, Enabled;
      LoadRestReads(Loaded(e, Saved));
      ReadsThen(e, LoadRest(e));
    }
  }

  lemma NextIsEnabled(e: Engine)
    requires Sound(e) && e.mode.Loading? && e.mode.rest != []
    ensures Enabled(e, LoadNext(Saved))
    ensures e.mode.rest[0] !in e.jobs && e.files[e.mode.rest[0]].request.id == e.mode.rest[0]
  {
    assert e.mode.rest[0] in e.mode.rest;
    JobsStored(e);
  }

  lemma LoadRestDone(e: Engine)
    requires Sound(e) && e.mode == Loading([])
    ensures LoadRest(e) == e && Reads(e, e)
  {
    assert Unread(e, []);
  }

  /** Main result: after a crash anywhere, a start-up that completes holds exactly the stored jobs, with
      the finished ones as they were and each unfinished one queued exactly once, as recovered. */
  lemma RestartQueuesUnfinishedOnce(e: Engine, names: seq<string>)
    requires Sound(e) && Lists(names, e.files) && |names| <= e.limits.maxJobs
    ensures Enabled(Crashed(e), Boot(names)) && Sound(Booted(Crashed(e), names))
    ensures var f := LoadRest(Booted(Crashed(e), names));
      && (forall id :: id in f.files <==> id in e.files)
      && (forall id :: id in e.files && Over(e.files[id].status) ==> f.files[id] == e.files[id])
      && (forall id :: id in e.files && !Over(e.files[id].status) ==>
            f.files[id] == Job(e.files[id].request, Queued, Recovered, e.files[id].attempt))
      && f.jobs == f.files && f.running == map[]
      && NoDuplicates(f.queue) && (forall id :: id in f.queue <==> id in e.files && !Over(e.files[id].status))
  {
    CrashSound(e);
    BootSound(Crashed(e), names);
    var b := Booted(Crashed(e), names);
    LoadRestReads(b);
    assert b.jobs == map[] && b.files == e.files;
    assert Reads(b, LoadRest(b));
    var f := LoadRest(b);
    RestartContents(f);
  }

  lemma RestartContents(f: Engine)
    requires Sound(f) && f.mode == Loading([])
    ensures f.jobs == f.files && f.running == map[] && NoDuplicates(f.queue)
    ensures forall id :: id in f.queue <==> id in f.files && !Over(f.files[id].status)
  {
    assert Mirrored(f) && Unread(f, []);
    assert forall id :: id in f.queue ==> Waiting(f, id);
  }

  /** Main result: sending a request for a stored job again changes nothing: the answer repeats the job,
      or reports the conflict when the request differs. */
  lemma ResubmissionChangesNothing(e: Engine, request: Request)
    requires Sound(e) && Enabled(e, Submit(request)) && request.id in e.files
    ensures Apply(e, Submit(request)) == e
    ensures Healthy(e) ==> Answer(e, request) == (if e.files[request.id].request == request
      then Duplicate(e.jobs[request.id]) else Conflict)
  {
    JobsStored(e);
  }

  // ---------- shutdown ----------

  predicate Stopped(e: Engine) {
    e.closing || e.failed
  }

  lemma StoppedPump(e: Engine)
    requires Stopped(e)
    ensures Pumped(e) == e
  {
  }

  lemma StoppedStep(e: Engine, a: Action)
    requires Stopped(e) && Enabled(e, a) && !a.Boot? && !a.Crash?
    ensures Stopped(Apply(e, a)) && Apply(e, a).begun == e.begun
  {
    if a.OpenUp? {
      StoppedPump(e.(mode := Up));
    } else if a.SubmitPublish? {
      var job := e.pending.value.job;
      StoppedPump(e.(pending := None, jobs := e.jobs[job.request.id := job], queue := e.queue + [job.request.id],
                     pushed := e.pushed + [job.request.id]));
    } else if a.Retire? {
      StoppedPump(e.(running := e.running - {a.id}, active := e.active - {e.running[a.id].job.request.archive}));
    }
    hide Pumped;
  }

  lemma {:induction false} StoppedRun(e: Engine, actions: seq<Action>, f: Engine)
    requires Stopped(e) && Leads(e, actions, f)
    requires forall k :: 0 <= k < |actions| ==> !actions[k].Boot? && !actions[k].Crash?
    ensures Stopped(f) && f.begun == e.begun
    decreases |actions|
  {
    if actions != [] {
      StoppedStep(e, actions[0]);
      hide Apply, Enabled, Stopped;
      StoppedRun(Apply(e, actions[0]), actions[1..], f);
    }
  }

  /** Main result: once the plugin closes or loses its lock, no job begins and no request is answered with
      anything but not ready, until it starts again. */
  lemma NothingBeginsAfterStop(e: Engine, stop: Action, actions: seq<Action>, f: Engine, request: Request)
    requires Enabled(e, stop) && (stop.Close? || stop.LoseLock?) && Leads(Apply(e, stop), actions, f)
    requires forall k :: 0 <= k < |actions| ==> !actions[k].Boot? && !actions[k].Crash?
    ensures f.begun == e.begun && Answer(f, request) == NotReady
  {
    StoppedRun(Apply(e, stop), actions, f);
  }

  // ---------- admission ----------

  /** Main result: a request is accepted exactly by a healthy plugin that does not know the ID and has room
      both among waiting and running jobs and among all jobs; a known one is answered with its job, or with
      the conflict when it asks for something else. */
  lemma AnswerMeans(e: Engine, request: Request)
    ensures var serving := e.mode == Up && !e.closing && !e.failed;
      var room := |e.queue| + |e.running.Keys| < e.limits.maxQueued && |e.jobs.Keys| < e.limits.maxJobs;
      && (Answer(e, request) == NotReady <==> !serving)
      && (Answer(e, request) == Accepted <==> serving && request.id !in e.jobs && room)
      && (Answer(e, request) == Full <==> serving && request.id !in e.jobs && !room)
      && (Answer(e, request) == Conflict <==> serving && request.id in e.jobs && e.jobs[request.id].request != request)
      && (serving && request.id in e.jobs && e.jobs[request.id].request == request ==>
            Answer(e, request) == Duplicate(e.jobs[request.id]))
  {
  }

  /** An accepted request waits to be stored as a new job that was never tried; a job that begins is running, with
      one attempt more, and only in memory. */
  lemma NewJobMeans(e: Engine, request: Request)
    requires Enabled(e, Submit(request)) && Answer(e, request) == Accepted
    ensures Apply(e, Submit(request))
      == e.(pending := Some(Submission(Job(request, Queued, JobEngine.Fresh, 0), false)))
  {
  }

  lemma BegunJobMeans(e: Engine, i: nat)
    requires i < |e.queue| && e.queue[i] in e.jobs
    ensures var id := e.queue[i]; var was := e.jobs[id];
      Begin(e, i).running == e.running[id := Work(Job(was.request, Running, was.phase, was.attempt + 1), Executing)]
      && Begin(e, i).files == e.files && Begin(e, i).jobs == e.jobs
  {
  }

  // The jobs that are known, and one that is being stored or read.
  ghost predicate Bounded(e: Engine) {
    && |e.jobs.Keys| + (if e.pending.Some? then 1 else 0) <= e.limits.maxJobs
    && (e.mode.Loading? ==> |e.jobs.Keys| + |e.mode.rest| <= e.limits.maxJobs)
  }

  lemma ReplacedKeepsCount(jobs: map<string, Job>, id: string, job: Job)
    ensures |jobs[id := job].Keys| == |jobs.Keys| + (if id in jobs then 0 else 1)
  {
    assert jobs[id := job].Keys == jobs.Keys + {id};
  }

  // Only its jobs, its limits, a pending submission and what start-up has left to read matter.
  lemma PumpBounded(e: Engine)
    requires Bounded(e)
    ensures Bounded(Pumped(e))
  {
    PumpFrame(e);
    PumpedKeepsPending(e);
    hide Pumped;
  }

  lemma LoadBounded(e: Engine, w: Write)
    requires Sound(e) && Bounded(e) && Enabled(e, LoadNext(w))
    ensures Bounded(Loaded(e, w))
  {
    var id := e.mode.rest[0];
    ReplacedKeepsCount(e.jobs, id, e.files[id]);
    ReplacedKeepsCount(e.jobs, id, Reloaded(e.files[id]));
    hide Sound, Reloaded;
  }

  lemma PublishBounded(e: Engine, id: string)
    requires Sound(e) && Bounded(e) && Enabled(e, Publish(id))
    ensures Bounded(Published(e, id))
  {
    assert id in e.jobs;
    ReplacedKeepsCount(e.jobs, id, e.running[id].job);
    hide Sound;
  }

  lemma SubmissionBounded(e: Engine)
    requires Sound(e) && Bounded(e) && Enabled(e, SubmitPublish)
    ensures Bounded(SubmissionPublished(e))
  {
    var job := e.pending.value.job;
    ReplacedKeepsCount(e.jobs, job.request.id, job);
    hide Sound, Pumped;
    PumpBounded(e.(pending := None, jobs := e.jobs[job.request.id := job], queue := e.queue + [job.request.id],
                   pushed := e.pushed + [job.request.id]));
  }

  lemma OpenBounded(e: Engine)
    requires Bounded(e) && Enabled(e, OpenUp)
    ensures Bounded(Apply(e, OpenUp))
  {
    hide Pumped;
    PumpBounded(e.(mode := Up));
  }

  lemma RetireBounded(e: Engine, id: string)
    requires Bounded(e) && Enabled(e, Retire(id))
    ensures Bounded(Retired(e, id))
  {
    hide Pumped;
    PumpBounded(e.(running := e.running - {id}, active := e.active - {e.running[id].job.request.archive}));
  }

  lemma WriteBounded(e: Engine, a: Action)
    requires Bounded(e) && Enabled(e, a) && (a.SubmitWrite? || a.WritePhase? || a.WriteFinal?)
    ensures Bounded(Apply(e, a))
  {
    hide Final;
  }

  lemma OtherBounded(e: Engine, a: Action)
    requires Bounded(e) && Enabled(e, a)
    requires a.Boot? || a.Submit? || a.LoseLock? || a.Close? || a.Closed? || a.Crash?
    ensures Bounded(Apply(e, a))
  {
  }

  lemma StepBounded(e: Engine, a: Action)
    requires Sound(e) && Bounded(e) && Enabled(e, a)
    ensures Bounded(Apply(e, a))
  {
    hide Sound, Bounded, Pumped, Loaded, Published, SubmissionPublished, Retired;
    match a
    case OpenUp => OpenBounded(e);
    case LoadNext(w) => LoadBounded(e, w);
    case SubmitPublish => SubmissionBounded(e);
    case Publish(id) => PublishBounded(e, id);
    case Retire(id) => RetireBounded(e, id);
    case SubmitWrite(_) => WriteBounded(e, a);
    case WritePhase(_, _, _) => WriteBounded(e, a);
    case WriteFinal(_, _, _) => WriteBounded(e, a);
    case _ => OtherBounded(e, a);
  }

  lemma {:induction false} PumpedKeepsPending(e: Engine)
    ensures Pumped(e).pending == e.pending && Pumped(e).mode == e.mode
    decreases |e.queue|
  {
    if CanBegin(e) {
      PumpedKeepsPending(Begin(e, FirstIdle(e.queue, e.jobs, e.active)));
    }
  }

  lemma {:induction false} RunBounded(e: Engine, actions: seq<Action>, f: Engine)
    requires Sound(e) && Bounded(e) && Leads(e, actions, f)
    ensures Bounded(f)
    decreases |actions|
  {
    hide Sound, Bounded, Apply, Enabled;
    if actions != [] {
      StepSound(e, actions[0]);
      StepBounded(e, actions[0]);
      RunBounded(Apply(e, actions[0]), actions[1..], f);
    }
  }

  /** Main result: in every reachable state, restarts included, there are never more jobs than the limit. */
  lemma JobsStayBelowLimit(limits: Limits, actions: seq<Action>, e: Engine)
    requires Leads(Fresh(limits), actions, e)
    ensures |e.jobs.Keys| <= limits.maxJobs
  {
    FreshIsSound(limits);
    RunBounded(Fresh(limits), actions, e);
    LimitsStay(Fresh(limits), actions, e);
  }
}
