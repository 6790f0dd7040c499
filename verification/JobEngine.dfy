/** The platform's durable job queue: one job per archive at a time, bounded concurrency, every state
    written to disk before it can be read, recovery by queueing again. One step of the machine is one
    stretch of code between two awaits; a crash may fall between any two steps. */
module JobEngine {
  import opened Options

  // ---------- data ----------

  // `details` stands for the normalised fields beyond the name and the archive.
  datatype Request = Request(id: string, archive: string, details: string)

  datatype Status = Queued | Running | Completed | Failed

  datatype Phase = Fresh | Recovered | Working(step: string) | Ready | Broken | Interrupted

  datatype Job = Job(request: Request, status: Status, phase: Phase, attempt: nat)

  // Executing: between writes. Written: on disk, not yet readable. Ended: over, not yet removed.
  datatype Stage = Executing | Written | Ended

  // A running job holds its own copy of the record.
  datatype Work = Work(job: Job, stage: Stage)

  datatype Submission = Submission(job: Job, written: bool)

  datatype Mode = Down | Loading(rest: seq<string>) | Up

  datatype Limits = Limits(concurrency: nat, maxQueued: nat, maxJobs: nat)

  /** `files` is the disk and `trail` everything ever written to it; `pushed` and `begun` record the
      order in which this start queued and began jobs; the rest is the plugin's memory. */
  datatype Engine = Engine(limits: Limits, files: map<string, Job>, trail: map<string, seq<Job>>, mode: Mode,
                           jobs: map<string, Job>, queue: seq<string>, running: map<string, Work>, active: set<string>,
                           pending: Option<Submission>, closing: bool, failed: bool,
                           pushed: seq<string>, begun: seq<string>)

  predicate Over(status: Status) {
    status == Completed || status == Failed
  }

  function ArchiveOf(jobs: map<string, Job>, id: string): string {
    if id in jobs then jobs[id].request.archive else ""
  }

  // ---------- the scheduler ----------

  /** The first queued job whose archive is idle, or the queue's length. */
  function FirstIdle(queue: seq<string>, jobs: map<string, Job>, active: set<string>): (i: nat)
    ensures i <= |queue| && (forall j :: 0 <= j < i ==> ArchiveOf(jobs, queue[j]) in active)
    ensures i < |queue| ==> ArchiveOf(jobs, queue[i]) !in active
    decreases |queue|
  {
    if queue == [] || ArchiveOf(jobs, queue[0]) !in active then 0 else FirstIdle(queue[1..], jobs, active) + 1
  }

  function Begin(e: Engine, i: nat): Engine
    requires i < |e.queue| && e.queue[i] in e.jobs
  {
    var id := e.queue[i];
    var job := e.jobs[id].(status := Running, attempt := e.jobs[id].attempt + 1);
    e.(queue := e.queue[..i] + e.queue[i + 1..], active := e.active + {job.request.archive},
       running := e.running[id := Work(job, Executing)], begun := e.begun + [id])
  }

  predicate CanBegin(e: Engine) {
    && !e.closing && !e.failed && |e.running.Keys| < e.limits.concurrency
    && FirstIdle(e.queue, e.jobs, e.active) < |e.queue|
    && e.queue[FirstIdle(e.queue, e.jobs, e.active)] in e.jobs
  }

  function Pumped(e: Engine): Engine
    decreases |e.queue|
  {
    if CanBegin(e) then Pumped(Begin(e, FirstIdle(e.queue, e.jobs, e.active))) else e
  }

  // ---------- steps ----------

  // A failing write may or may not have reached the disk; either way the plugin stops taking work.
  datatype Write = Saved | Failing(durable: bool)

  predicate Lands(w: Write) {
    w.Saved? || w.durable
  }

  function Record(e: Engine, job: Job): Engine {
    var id := job.request.id;
    e.(files := e.files[id := job], trail := e.trail[id := (if id in e.trail then e.trail[id] else []) + [job]])
  }

  function Save(e: Engine, job: Job, w: Write): Engine {
    var stored := if Lands(w) then Record(e, job) else e;
    if w.Saved? then stored else stored.(failed := true)
  }

  datatype Action =
    | Boot(names: seq<string>)
    | LoadNext(write: Write)
    | OpenUp
    | Submit(request: Request)
    | SubmitWrite(write: Write)
    | SubmitPublish
    | WritePhase(id: string, step: string, write: Write)
    | WriteFinal(id: string, succeeded: bool, write: Write)
    | Publish(id: string)
    | Retire(id: string)
    | LoseLock
    | Close
    | Closed
    | Crash

  datatype Reply = Accepted | Duplicate(job: Job) | Conflict | Full | NotReady

  predicate Healthy(e: Engine) {
    e.mode.Up? && !e.closing && !e.failed
  }

  function Answer(e: Engine, request: Request): Reply {
    if !Healthy(e) then NotReady
    else if request.id in e.jobs then
      if e.jobs[request.id].request == request then Duplicate(e.jobs[request.id]) else Conflict
    else if |e.queue| + |e.running.Keys| >= e.limits.maxQueued || |e.jobs.Keys| >= e.limits.maxJobs then Full
    else Accepted
  }

  ghost predicate NoDuplicates(s: seq<string>) {
    forall i, j :: 0 <= i < j < |s| ==> s[i] != s[j]
  }

  // The directory listing: every stored job once, in some order.
  ghost predicate Lists(names: seq<string>, files: map<string, Job>) {
    NoDuplicates(names) && forall id :: id in names <==> id in files
  }

  predicate At(e: Engine, id: string, stage: Stage) {
    id in e.running && e.running[id].stage == stage
  }

  ghost predicate Enabled(e: Engine, a: Action) {
    match a
    case Boot(names) => e.mode.Down? && Lists(names, e.files)
    case LoadNext(w) => e.mode.Loading? && |e.mode.rest| > 0 && e.mode.rest[0] in e.files
      && (Over(e.files[e.mode.rest[0]].status) ==> w.Saved?)
    case OpenUp => e.mode.Loading? && e.mode.rest == []
    case Submit(_) => e.pending.None?
    // Creating a file that exists cannot succeed.
    case SubmitWrite(w) => e.pending.Some? && !e.pending.value.written
      && (Lands(w) ==> e.pending.value.job.request.id !in e.files)
    case SubmitPublish => e.pending.Some? && e.pending.value.written
    case WritePhase(id, _, _) => At(e, id, Executing)
    case WriteFinal(id, _, _) => At(e, id, Executing)
    case Publish(id) => At(e, id, Written)
    case Retire(id) => At(e, id, Ended)
    case LoseLock => true
    case Close => e.mode.Up?
    case Closed => e.mode.Up? && e.closing && e.running == map[] && e.pending.None?
    case Crash => true
  }

  /** What start-up makes of a stored job. */
  function Reloaded(job: Job): Job {
    if Over(job.status) then job else job.(status := Queued, phase := Recovered)
  }

  function Booted(e: Engine, names: seq<string>): Engine {
    var clear := e.(jobs := map[], queue := [], active := {}, closing := false, failed := false, pushed := [],
                    begun := []);
    if |names| > e.limits.maxJobs then clear else clear.(mode := Loading(names))
  }

  function Loaded(e: Engine, w: Write): Engine
    requires e.mode.Loading? && |e.mode.rest| > 0 && e.mode.rest[0] in e.files
  {
    var id := e.mode.rest[0];
    var job := e.files[id];
    if Over(job.status) then e.(jobs := e.jobs[id := job], mode := Loading(e.mode.rest[1..]))
    else
      var stored := Save(e, Reloaded(job), w);
      if w.Failing? then stored.(mode := Down)
      else stored.(jobs := e.jobs[id := Reloaded(job)], queue := e.queue + [id], pushed := e.pushed + [id],
                   mode := Loading(e.mode.rest[1..]))
  }

  function Submitted(e: Engine, request: Request): Engine {
    if Answer(e, request).Accepted? then e.(pending := Some(Submission(Job(request, Queued, Fresh, 0), false))) else e
  }

  function SubmissionSaved(e: Engine, w: Write): Engine
    requires e.pending.Some?
  {
    var job := e.pending.value.job;
    Save(e, job, w).(pending := if w.Saved? then Some(Submission(job, true)) else None)
  }

  function SubmissionPublished(e: Engine): Engine
    requires e.pending.Some?
  {
    var job := e.pending.value.job;
    Pumped(e.(pending := None, jobs := e.jobs[job.request.id := job], queue := e.queue + [job.request.id],
              pushed := e.pushed + [job.request.id]))
  }

  function PhaseWritten(e: Engine, id: string, step: string, w: Write): Engine
    requires id in e.running
  {
    var job := e.running[id].job.(phase := Working(step));
    Save(e, job, w).(running := e.running[id := Work(job, if w.Saved? then Written else Executing)])
  }

  /** The last record of an attempt: a job interrupted by shutdown or a failed store stays queued. */
  function Final(e: Engine, job: Job, succeeded: bool): Job {
    if e.closing || e.failed then job.(status := Queued, phase := Interrupted)
    else if succeeded then job.(status := Completed, phase := Ready)
    else job.(status := Failed, phase := Broken)
  }

  function FinalWritten(e: Engine, id: string, succeeded: bool, w: Write): Engine
    requires id in e.running
  {
    var job := Final(e, e.running[id].job, succeeded);
    Save(e, job, w).(running := e.running[id := Work(job, if w.Saved? then Written else Ended)])
  }

  function Published(e: Engine, id: string): Engine
    requires id in e.running
  {
    var job := e.running[id].job;
    e.(jobs := e.jobs[id := job], running :=
      e.running[id := Work(job, if job.status == Running then Executing else Ended)])
  }

  function Retired(e: Engine, id: string): Engine
    requires id in e.running
  {
    Pumped(e.(running := e.running - {id}, active := e.active - {e.running[id].job.request.archive}))
  }

  function Crashed(e: Engine): Engine {
    e.(mode := Down, jobs := map[], queue := [], running := map[], active := {}, pending := None, pushed := [],
       begun := [])
  }

  function Apply(e: Engine, a: Action): Engine
    requires Enabled(e, a)
  {
    match a
    case Boot(names) => Booted(e, names)
    case LoadNext(w) => Loaded(e, w)
    case OpenUp => if e.failed then e.(mode := Down) else Pumped(e.(mode := Up))
    case Submit(request) => Submitted(e, request)
    case SubmitWrite(w) => SubmissionSaved(e, w)
    case SubmitPublish => SubmissionPublished(e)
    case WritePhase(id, step, w) => PhaseWritten(e, id, step, w)
    case WriteFinal(id, succeeded, w) => FinalWritten(e, id, succeeded, w)
    case Publish(id) => Published(e, id)
    case Retire(id) => Retired(e, id)
    case LoseLock => e.(failed := true)
    case Close => e.(closing := true)
    case Closed => e.(mode := Down)
    case Crash => Crashed(e)
  }

  // ---------- what every step keeps ----------

  ghost predicate Traced(e: Engine, id: string)
    requires id in e.files
  {
    && e.files[id].request.id == id && id in e.trail && |e.trail[id]| > 0
    && e.files[id] == e.trail[id][|e.trail[id]| - 1]
  }

  ghost predicate Readable(e: Engine, id: string)
    requires id in e.jobs
  {
    id in e.files && id in e.trail && e.jobs[id] in e.trail[id] && e.jobs[id].request == e.files[id].request
  }

  /** Disk and memory agree on what a job is, and what can be read was written first. */
  ghost predicate DiskFirst(e: Engine) {
    && (forall id :: id in e.files ==> Traced(e, id))
    && (forall id :: id in e.jobs ==> Readable(e, id))
  }

  ghost predicate Waiting(e: Engine, id: string) {
    id in e.jobs && id !in e.running && id in e.files && e.jobs[id] == e.files[id] && e.jobs[id].status == Queued
  }

  ghost predicate Lined(e: Engine) {
    && NoDuplicates(e.queue)
    && (forall id :: id in e.queue ==> Waiting(e, id))
  }

  ghost predicate WorkSound(e: Engine, id: string, w: Work)
    requires id in e.files
  {
    && w.job.request == e.files[id].request
    && (w.stage.Executing? ==> w.job.status == Running && !Over(e.files[id].status))
    && (w.stage.Written? ==> w.job == e.files[id])
    && (!w.stage.Executing? && !e.failed && !e.closing ==> w.job == e.files[id] && w.job.status != Queued)
    && (w.stage.Ended? && !e.failed && !e.closing ==> Over(e.files[id].status))
  }

  ghost predicate Busy(e: Engine, a: string) {
    exists id :: id in e.running && e.running[id].job.request.archive == a
  }

  ghost predicate Employed(e: Engine) {
    forall id :: id in e.running ==> id in e.jobs && id in e.files && WorkSound(e, id, e.running[id])
  }

  ghost predicate ActiveExact(e: Engine) {
    forall a :: a in e.active <==> Busy(e, a)
  }

  ghost predicate Apart(e: Engine) {
    forall i, j :: i in e.running && j in e.running && i != j
      ==> e.running[i].job.request.archive != e.running[j].job.request.archive
  }

  /** Scheduler safety: running jobs are on pairwise different archives, which are the active ones,
      and never more than the limit. */
  ghost predicate Exclusive(e: Engine) {
    Employed(e) && ActiveExact(e) && Apart(e) && |e.running.Keys| <= e.limits.concurrency
  }

  function Filter(ids: seq<string>, jobs: map<string, Job>, a: string): seq<string>
    decreases |ids|
  {
    if ids == [] then [] else
    var rest := Filter(ids[..|ids| - 1], jobs, a);
    if ArchiveOf(jobs, ids[|ids| - 1]) == a then rest + [ids[|ids| - 1]] else rest
  }

  /** Jobs of one archive begin in the order they were queued, each once. */
  ghost predicate Fair(e: Engine) {
    && (forall a :: Filter(e.begun, e.jobs, a) + Filter(e.queue, e.jobs, a) == Filter(e.pushed, e.jobs, a))
    && NoDuplicates(e.pushed) && (forall id :: id in e.begun || id in e.queue ==> id in e.pushed)
    && (forall id :: id in e.pushed ==> id in e.jobs)
  }

  ghost predicate PendingSound(e: Engine) {
    e.pending.Some? ==>
      var job := e.pending.value.job;
      && e.mode.Up? && job.request.id !in e.jobs && job.status == Queued
      && (e.pending.value.written ==> job.request.id in e.files && e.files[job.request.id] == job)
      && (!e.pending.value.written ==> job.request.id !in e.files)
  }

  ghost predicate Unread(e: Engine, rest: seq<string>) {
    && NoDuplicates(rest) && (forall id :: id in rest ==> id !in e.jobs)
    && (forall id :: id in e.files <==> id in e.jobs || id in rest)
  }

  // What has been read is on disk as read, and queued exactly when unfinished.
  ghost predicate Mirrored(e: Engine) {
    forall id :: id in e.jobs ==>
      id in e.files && e.jobs[id] == e.files[id] && (id in e.queue <==> !Over(e.jobs[id].status))
  }

  /** Start-up has read `jobs` and has `rest` still to read; it queues exactly the unfinished. */
  ghost predicate LoadSound(e: Engine, rest: seq<string>) {
    e.begun == [] && e.pushed == e.queue && !e.closing && Unread(e, rest) && Mirrored(e)
  }

  ghost predicate Placed(e: Engine, id: string) {
    id in e.files && !Over(e.files[id].status) ==> id in e.queue || id in e.running
  }

  ghost predicate ModeSound(e: Engine) {
    && PendingSound(e)
    && (!e.mode.Up? ==> e.running == map[])
    && (e.mode.Loading? ==> LoadSound(e, e.mode.rest))
    && (e.mode.Up? && !e.failed
        ==> forall id :: id in e.files ==> id in e.jobs || (e.pending.Some? && e.pending.value.job.request.id == id))
    && (Healthy(e) ==> forall id :: id in e.jobs ==> Placed(e, id))
  }

  /** Work conservation: a healthy plugin leaves a slot idle only when every queued archive is busy. */
  ghost predicate Conserving(e: Engine) {
    Healthy(e) ==> |e.running.Keys| == e.limits.concurrency || forall id :: id in e.queue ==>
      ArchiveOf(e.jobs, id) in e.active
  }

  // Everything but work conservation, which only the pump restores.
  ghost predicate Core(e: Engine) {
    DiskFirst(e) && Lined(e) && Exclusive(e) && Fair(e) && ModeSound(e)
  }

  ghost predicate Sound(e: Engine) {
    Core(e) && Conserving(e)
  }
}
