/** The plugin object. Each method is one stretch of code between two awaits; `State` reads the fields
    as a value of the job engine, and each method is proved to take exactly the engine's step. */
module JobPlugin {
  import opened Options
  import opened JobEngine
  import opened JobEngineSteps
  import JobEngineHistory

  class ChipTracePlugin {
    const limits: Limits
    // The directory of job files.
    var files: map<string, Job>
    var mode: Mode
    var jobs: map<string, Job>
    var queue: seq<string>
    var running: map<string, Work>
    var activeArchives: set<string>
    var pending: Option<Submission>
    var closing: bool
    var failure: bool
    ghost var trail: map<string, seq<Job>>
    ghost var pushed: seq<string>
    ghost var begun: seq<string>

    ghost function State(): Engine
      reads this
    {
      Engine(limits, files, trail, mode, jobs, queue, running, activeArchives, pending, closing, failure, pushed, begun)
    }

    ghost predicate Valid()
      reads this
    {
      Sound(State())
    }

    /** The index of the first queued job whose archive is idle, or -1. */
    method FindIdle() returns (index: int)
      requires forall id :: id in queue ==> id in jobs
      ensures index == -1 ==> FirstIdle(queue, jobs, activeArchives) == |queue|
      ensures index != -1 ==> 0 <= index < |queue| && index == FirstIdle(queue, jobs, activeArchives)
    {
      var i := 0;
      assert queue[0..] == queue;
      while i < |queue|
        invariant 0 <= i <= |queue|
        invariant FirstIdle(queue, jobs, activeArchives) == i + FirstIdle(queue[i..], jobs, activeArchives)
      {
        if jobs[queue[i]].request.archive !in activeArchives {
          return i;
        }
        assert queue[i..][1..] == queue[i + 1..];
        i := i + 1;
      }
      return -1;
    }

    /** Starts queued jobs while there is a free slot and an idle archive. */
    method Pump()
      requires forall id :: id in queue ==> id in jobs
      modifies this`queue, this`running, this`activeArchives, this`begun
      ensures State() == Pumped(old(State()))
    {
      while !closing && !failure && |running.Keys| < limits.concurrency && |queue| > 0
        invariant Pumped(State()) == Pumped(old(State()))
        invariant forall id :: id in queue ==> id in jobs
        decreases |queue|
      {
        var index := FindIdle();
        if index < 0 {
          break;
        }
        assert queue[index] in queue;
        assert CanBegin(State());
        StartQueued(index);
      }
    }

    method StartQueued(index: nat)
      requires index < |queue| && queue[index] in jobs
      modifies this`queue, this`running, this`activeArchives, this`begun
      ensures State() == Begin(old(State()), index)
      ensures forall id :: id in queue ==> id in old(queue)
    {
      var id := queue[index];
      var job := jobs[id];
      queue := queue[..index] + queue[index + 1..];
      activeArchives := activeArchives + {job.request.archive};
      running := running[id := Work(job.(status := Running, attempt := job.attempt + 1), Executing)];
      begun := begun + [id];
    }

    /** Stores a record; `write` is how the store behaves. */
    method SaveJob(job: Job, write: Write)
      modifies this`files, this`trail, this`failure
      ensures State() == Save(old(State()), job, write)
    {
      if Lands(write) {
        files := files[job.request.id := job];
        trail := trail[job.request.id := (if job.request.id in trail then trail[job.request.id] else []) + [job]];
      }
      if write.Failing? {
        failure := true;
      }
    }

    /** Start-up: reads every stored job in the listed order and queues the unfinished ones again. */
    method Start(names: seq<string>, writes: seq<Write>)
      requires Valid() && Enabled(State(), Boot(names)) && |writes| == |names|
      modifies this
      ensures Valid() && State() == Started(old(State()), names, writes)
    {
      BootSound(State(), names);
      hide Sound, Apply, LoadAll, Loaded;
      Clear(names);
      if |names| > limits.maxJobs {
        return;
      }
      ghost var booted := State();
      assert writes[0..] == writes && names[0..] == names;
      for i := 0 to |names|
        invariant Valid() && mode == Loading(names[i..])
        invariant LoadAll(booted, writes) == LoadAll(State(), writes[i..])
      {
        NextWrites(State(), writes, i);
        LoadJob(names[i], writes[i]);
        if mode.Down? {
          return;
        }
      }
      LoadedAll(State(), writes[|names|..]);
      Open();
    }

    method Clear(names: seq<string>)
      modifies this
      ensures State() == Booted(old(State()), names)
    {
      jobs, queue, activeArchives, closing, failure := map[], [], {}, false, false;
      pushed, begun := [], [];
      if |names| <= limits.maxJobs {
        mode := Loading(names);
      }
    }

    method LoadJob(id: string, write: Write)
      requires Valid() && mode.Loading? && |mode.rest| > 0 && mode.rest[0] == id && id in files
      modifies this
      ensures Valid() && State() == Loaded(old(State()), Effective(old(State()), write))
    {
      NextInDirectory(State());
      assert Sound(Loaded(State(), Effective(State(), write))) by {
        StepSound(State(), LoadNext(Effective(State(), write)));
      }
      hide Sound, Apply, Enabled;
      var stored := files[id];
      if Over(stored.status) {
        jobs := jobs[id := stored];
        mode := Loading(mode.rest[1..]);
      } else {
        Recover(id, stored, write);
      }
    }

    method Recover(id: string, stored: Job, write: Write)
      requires mode.Loading? && |mode.rest| > 0 && mode.rest[0] == id && id in files
      requires files[id] == stored && !Over(stored.status)
      modifies this
      ensures State() == Loaded(old(State()), write)
    {
      SaveJob(Reloaded(stored), write);
      if write.Failing? {
        mode := Down;
        return;
      }
      jobs := jobs[id := Reloaded(stored)];
      queue := queue + [id];
      pushed := pushed + [id];
      mode := Loading(mode.rest[1..]);
    }

    method Open()
      requires Valid() && Enabled(State(), OpenUp)
      modifies this
      ensures Valid() && State() == Apply(old(State()), OpenUp)
    {
      StepSound(State(), OpenUp);
      QueuedAreKnown(State());
      hide Sound;
      if failure {
        mode := Down;
        return;
      }
      mode := Up;
      Pump();
    }

    /** Answers a request; an accepted one waits to be stored. */
    method SubmitRequest(request: Request) returns (reply: Reply)
      requires Valid() && Enabled(State(), Submit(request))
      modifies this`pending
      ensures Valid() && State() == Apply(old(State()), Submit(request))
      ensures reply == Answer(old(State()), request)
    {
      StepSound(State(), Submit(request));
      assert Apply(State(), Submit(request)) == Submitted(State(), request);
      hide Sound, Apply, Enabled, Pumped;
      if !mode.Up? || closing || failure {
        return NotReady;
      }
      if request.id in jobs {
        return if jobs[request.id].request == request then Duplicate(jobs[request.id]) else Conflict;
      }
      if |queue| + |running.Keys| >= limits.maxQueued || |jobs.Keys| >= limits.maxJobs {
        return Full;
      }
      pending := Some(Submission(Job(request, Queued, Fresh, 0), false));
      return Accepted;
    }

    method WriteSubmission(write: Write)
      requires Valid() && Enabled(State(), SubmitWrite(write))
      modifies this`pending, this`files, this`trail, this`failure
      ensures Valid() && State() == Apply(old(State()), SubmitWrite(write))
    {
      StepSound(State(), SubmitWrite(write));
      assert Apply(State(), SubmitWrite(write)) == SubmissionSaved(State(), write) && pending.Some?;
      hide Sound, Apply, Enabled, Pumped;
      var job := pending.value.job;
      SaveJob(job, write);
      pending := if write.Saved? then Some(Submission(job, true)) else None;
    }

    method PublishSubmission()
      requires Valid() && Enabled(State(), SubmitPublish)
      modifies this
      ensures Valid() && State() == Apply(old(State()), SubmitPublish)
    {
      StepSound(State(), SubmitPublish);
      QueuedAreKnown(State());
      assert Apply(State(), SubmitPublish) == SubmissionPublished(State()) && pending.Some?;
      hide Sound, Apply, Enabled, Pumped;
      Enqueue(pending.value.job);
      Pump();
    }

    method Enqueue(job: Job)
      modifies this`pending, this`jobs, this`queue, this`pushed
      ensures State() == old(State()).(pending := None, jobs := old(jobs)[job.request.id := job],
                                       queue := old(queue) + [job.request.id], pushed := old(pushed) + [job.request.id])
    {
      pending := None;
      jobs := jobs[job.request.id := job];
      queue := queue + [job.request.id];
      pushed := pushed + [job.request.id];
    }

    method StoreRunning(id: string, job: Job, write: Write, otherwise: Stage)
      modifies this`running, this`files, this`trail, this`failure
      ensures State() == Save(old(State()), job, write).(running :=
        old(running)[id := Work(job, if write.Saved? then Written else otherwise)])
    {
      SaveJob(job, write);
      running := running[id := Work(job, if write.Saved? then Written else otherwise)];
    }

    method EnterPhase(id: string, step: string, write: Write)
      requires Valid() && Enabled(State(), WritePhase(id, step, write))
      modifies this`running, this`files, this`trail, this`failure
      ensures Valid() && State() == Apply(old(State()), WritePhase(id, step, write))
    {
      StepSound(State(), WritePhase(id, step, write));
      assert Apply(State(), WritePhase(id, step, write)) == PhaseWritten(State(), id, step, write) && id in running;
      hide Sound, Apply, Enabled, Pumped;
      var job := running[id].job.(phase := Working(step));
      StoreRunning(id, job, write, Executing);
    }

    method LastRecord(job: Job, succeeded: bool) returns (last: Job)
      ensures last == Final(State(), job, succeeded)
    {
      if closing || failure {
        return job.(status := Queued, phase := Interrupted);
      } else if succeeded {
        return job.(status := Completed, phase := Ready);
      } else {
        return job.(status := Failed, phase := Broken);
      }
    }

    method Conclude(id: string, succeeded: bool, write: Write)
      requires Valid() && Enabled(State(), WriteFinal(id, succeeded, write))
      modifies this`running, this`files, this`trail, this`failure
      ensures Valid() && State() == Apply(old(State()), WriteFinal(id, succeeded, write))
      ensures write.Saved? ==>
        id in files
        && files[id].status == if old(closing) || old(failure) then Queued else if succeeded then Completed else Failed
      ensures write.Saved? ==> files[id].request == old(running)[id].job.request
    {
      FinalStep(State(), id, succeeded, write);
      hide Sound, Apply, Enabled, Pumped, Final;
      var job := LastRecord(running[id].job, succeeded);
      StoreRunning(id, job, write, Ended);
    }

    method PublishRunning(id: string)
      requires Valid() && Enabled(State(), Publish(id))
      modifies this`running, this`jobs
      ensures Valid() && State() == Apply(old(State()), Publish(id))
    {
      PublishStep(State(), id);
      hide Sound, Apply, Enabled, Pumped;
      var job := running[id].job;
      jobs := jobs[id := job];
      running := running[id := Work(job, if job.status == Running then Executing else Ended)];
    }

    method RetireRunning(id: string)
      requires Valid() && Enabled(State(), Retire(id))
      modifies this
      ensures Valid() && State() == Apply(old(State()), Retire(id))
    {
      StepSound(State(), Retire(id));
      QueuedAreKnown(State());
      assert Apply(State(), Retire(id)) == Retired(State(), id) && id in running;
      hide Sound, Apply, Enabled, Pumped;
      Release(id);
      Pump();
    }

    method Release(id: string)
      requires id in running
      modifies this`running, this`activeArchives
      ensures State() == old(State()).(running := old(running) - {id},
                                       active := old(activeArchives) - {old(running)[id].job.request.archive})
    {
      var archive := running[id].job.request.archive;
      running := running - {id};
      activeArchives := activeArchives - {archive};
    }
  }

  lemma FinalStep(e: Engine, id: string, succeeded: bool, w: Write)
    requires Sound(e) && Enabled(e, WriteFinal(id, succeeded, w))
    ensures id in e.running
    ensures var f := FinalWritten(e, id, succeeded, w);
      && Apply(e, WriteFinal(id, succeeded, w)) == f && Sound(f)
      && (w.Saved? ==>
            && id in f.files && f.files[id].request == e.running[id].job.request
            && f.files[id].status ==
               if e.closing || e.failed then Queued else if succeeded then Completed else Failed)
  {
    StepSound(e, WriteFinal(id, succeeded, w));
    FinalIsApplied(e, id, succeeded, w);
    hide Sound, Apply, Enabled, FinalWritten;
    if w.Saved? {
      JobEngineHistory.LastRecordMeans(e, id, succeeded, w);
    }
  }

  lemma FinalIsApplied(e: Engine, id: string, succeeded: bool, w: Write)
    requires Enabled(e, WriteFinal(id, succeeded, w))
    ensures id in e.running && Apply(e, WriteFinal(id, succeeded, w)) == FinalWritten(e, id, succeeded, w)
  {
    hide FinalWritten;
  }

  lemma PublishStep(e: Engine, id: string)
    requires Sound(e) && Enabled(e, Publish(id))
    ensures id in e.running && Apply(e, Publish(id)) == Published(e, id) && Sound(Published(e, id))
  {
    StepSound(e, Publish(id));
    PublishIsApplied(e, id);
    hide Sound, Apply, Enabled, Published;
  }

  lemma PublishIsApplied(e: Engine, id: string)
    requires Enabled(e, Publish(id))
    ensures id in e.running && Apply(e, Publish(id)) == Published(e, id)
  {
    hide Published;
  }

  lemma QueuedAreKnown(e: Engine)
    requires Sound(e)
    ensures forall id :: id in e.queue ==> id in e.jobs
  {
    assert forall id :: id in e.queue ==> Waiting(e, id);
  }

  lemma NextInDirectory(e: Engine)
    requires Sound(e) && e.mode.Loading? && |e.mode.rest| > 0
    ensures e.mode.rest[0] in e.files && e.files[e.mode.rest[0]].request.id == e.mode.rest[0]
  {
    assert e.mode.rest[0] in e.mode.rest;
    JobsStored(e);
  }

  /** The write that matters for the next job: a finished one is only read. */
  function Effective(e: Engine, w: Write): Write
    requires e.mode.Loading? && |e.mode.rest| > 0 && e.mode.rest[0] in e.files
  {
    if Over(e.files[e.mode.rest[0]].status) then Saved else w
  }

  /** Start-up as a whole: stops at the first failing save, else opens and pumps. */
  ghost function Started(e: Engine, names: seq<string>, writes: seq<Write>): Engine
    requires Sound(e) && Enabled(e, Boot(names)) && |writes| == |names|
  {
    BootSound(e, names);
    if |names| > e.limits.maxJobs then Booted(e, names) else LoadAll(Booted(e, names), writes)
  }

  ghost function LoadAll(e: Engine, writes: seq<Write>): Engine
    requires Sound(e) && e.mode.Loading? && |writes| == |e.mode.rest|
    decreases |writes|
  {
    if writes == [] then Apply(e, OpenUp)
    else
      NextInDirectory(e);
      StepSound(e, LoadNext(Effective(e, writes[0])));
      var f := Loaded(e, Effective(e, writes[0]));
      if f.mode.Down? then f else LoadAll(f, writes[1..])
  }

  lemma LoadedAll(e: Engine, writes: seq<Write>)
    requires Sound(e) && e.mode.Loading? && e.mode.rest == [] && writes == []
    ensures Enabled(e, OpenUp) && LoadAll(e, writes) == Apply(e, OpenUp)
  {
  }

  lemma NextWrites(e: Engine, writes: seq<Write>, i: nat)
    requires i < |writes| && Sound(e) && e.mode.Loading? && |writes| - i == |e.mode.rest|
    ensures e.mode.rest[0] in e.files
    ensures var f := Loaded(e, Effective(e, writes[i]));
      && Sound(f) && (f.mode.Down? || f.mode == Loading(e.mode.rest[1..]))
      && LoadAll(e, writes[i..]) == if f.mode.Down? then f else LoadAll(f, writes[i + 1..])
  {
    NextInDirectory(e);
    StepSound(e, LoadNext(Effective(e, writes[i])));
    assert writes[i..][1..] == writes[i + 1..];
  }
}
