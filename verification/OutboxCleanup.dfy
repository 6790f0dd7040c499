/** No record of a Capture is claimed while its open metadata is on disk. This needs two rules only:
    direct enqueues of a begun Capture and every timing of recovery are allowed. */
module OutboxCleanup {
  import opened Options
  import opened CaptureStore
  import opened RelayReceipt
  import opened OutboxProtocol
  import opened OutboxConvergence

  predicate Careful(c: Capture, a: Action) {
    Obeys(PublishOnce, c, a) && Obeys(AwaitBegin, c, a)
  }

  ghost predicate CarefulRun(c: Capture, run: seq<Action>, d: Capture)
    decreases |run|
  {
    if run == [] then c == d
    else Enabled(c, run[0]) && Careful(c, run[0]) && CarefulRun(Apply(c, run[0]), run[1..], d)
  }

  // ---------- the invariant ----------

  predicate EmptyQueues(d: Disk) {
    d.pending.None? && d.processing.None? && d.failed.None? && d.temps == map[]
  }

  // Metadata was never published: no activity that needs it, and without direct enqueues nothing at all.
  predicate NeverOpened(c: Capture) {
    var d, m, h := c.disk, c.memory, c.history;
    && d.metadata.None? && m.txn.None? && m.recoveries == map[] && !Unsynced(c)
    && (!h.submitted ==> EmptyQueues(d) && m.enqueues == map[] && m.job == Idle && h.acked == {})
  }

  // A finished sweep has removed the metadata, so while metadata is there no sweep is finished.
  predicate NoFinishedSweep(m: Memory) {
    && (m.txn.Some? && m.txn.value.stage.TxnSweep? ==> !m.txn.value.stage.done.metadata)
    && (forall k :: k in m.recoveries && m.recoveries[k].stage.RecSweep? ==> !m.recoveries[k].stage.done.metadata)
  }

  // Between publishing and registering nothing can put a record into pending.
  ghost predicate Guarded(c: Capture) {
    var m := c.memory;
    && c.phase == Running && c.disk.pending.None? && m.enqueues == map[] && m.txn.None?
    && (forall i, j :: Writing(m.begins, i) && Writing(m.begins, j) ==> i == j)
    && (forall k :: k in m.recoveries ==>
          m.recoveries[k].periodic && (m.recoveries[k].stage.Listed? || m.recoveries[k].stage.Owned?))
  }

  predicate Unclaimed(c: Capture) {
    c.memory.job == Idle && c.disk.processing.None? && c.disk.failed.None? && c.history.acked == {}
  }

  ghost predicate StillOpen(c: Capture) {
    && Unclaimed(c) && NoFinishedSweep(c.memory)
    && (if Unsynced(c) then Guarded(c) else Started(c) ==> c.memory.tracked)
  }

  /** While metadata is on disk nothing is claimed, and a drain would find the name tracked. */
  ghost predicate Tidy(c: Capture) {
    && (!Started(c) ==> c.memory == FRESH_MEMORY)
    && (c.history.begun.None? ==> NeverOpened(c))
    && (c.disk.metadata.Some? ==> StillOpen(c))
  }

  lemma StartupTidy(c: Capture, a: StartAction)
    requires Tidy(c) && StartupEnabled(c, a)
    ensures Tidy(StartupApply(c, a))
  {
  }

  lemma BeginTidy(c: Capture, a: CaptureAction)
    requires Tidy(c) && CaptureEnabled(c, a) && Careful(c, OnCapture(a)) && IsBegin(a)
    ensures Tidy(CaptureApply(c, a))
  {
    var d := CaptureApply(c, a);
    forall i ensures Writing(d.memory.begins, i) <==> WritingNext(c, a, i) {
      WritingAfter(c, a, i);
    }
    if a.BeginRegister? {
      assert Writing(c.memory.begins, a.i);
    } else if Unsynced(c) {
      StillUnsynced(c, a);
    } else if a.BeginPublish? && c.disk.metadata.None? {
      assert Writing(d.memory.begins, a.i);
    }
  }

  lemma TransactionTidy(c: Capture, a: CaptureAction)
    requires Tidy(c) && CaptureEnabled(c, a) && !IsBegin(a)
    ensures Tidy(CaptureApply(c, a))
  {
  }

  lemma EnqueueTidy(c: Capture, a: EnqueueAction)
    requires Tidy(c) && EnqueueEnabled(c, a) && Careful(c, OnEnqueue(a))
    ensures Tidy(EnqueueApply(c, a))
  {
  }

  lemma RecoveryTidy(c: Capture, a: RecoveryAction)
    requires Tidy(c) && RecoveryEnabled(c, a)
    ensures Tidy(RecoveryApply(c, a))
  {
  }

  lemma DeliveryTidy(c: Capture, a: DeliveryAction)
    requires Tidy(c) && DeliveryEnabled(c, a)
    ensures Tidy(DeliveryApply(c, a))
  {
  }

  /** Every careful step keeps it, whatever else interleaves. */
  lemma StepTidy(c: Capture, a: Action)
    requires Tidy(c) && Enabled(c, a) && Careful(c, a)
    ensures Tidy(Apply(c, a))
  {
    match a
    case Startup(s) => StartupTidy(c, s);
    case OnCapture(b) => if IsBegin(b) { BeginTidy(c, b); } else { TransactionTidy(c, b); }
    case OnEnqueue(e) => EnqueueTidy(c, e);
    case OnRecovery(r) => RecoveryTidy(c, r);
    case OnDelivery(d) => DeliveryTidy(c, d);
  }

  lemma {:induction false} RunTidy(c: Capture, run: seq<Action>, d: Capture)
    requires Tidy(c) && CarefulRun(c, run, d)
    ensures Tidy(d)
    decreases |run|
  {
    if run != [] {
      StepTidy(c, run[0]);
      RunTidy(Apply(c, run[0]), run[1..], d);
    }
  }

  /** Main result: no record is claimed for delivery, let alone delivered, while the open metadata
      of its Capture is on disk, and the only step delivery can take is a rescan. */
  lemma CleanupBeforeDelivery(id: string, run: seq<Action>, d: Capture)
    requires CarefulRun(Initial(id), run, d) && d.disk.metadata.Some?
    ensures d.memory.job == Idle && d.disk.processing.None? && d.disk.failed.None? && d.history.acked == {}
    ensures forall a :: DeliveryEnabled(d, a) ==> a == Rescan
  {
    RunTidy(Initial(id), run, d);
  }

  // ---------- what callers can check ----------

  /** The same rules at the call: an ID is begun once, after start() has returned and never enqueued
      before; it is not enqueued directly while a begin for it has not returned. */
  predicate CallerKeeps(c: Capture, a: Action) {
    && (a.OnCapture? && a.a.BeginCall? ==>
          c.phase == Running && c.history.begun.None? && !c.history.submitted && c.memory.begins == map[])
    && (a.OnEnqueue? && a.e.Submit? ==> c.memory.begins == map[])
  }

  ghost predicate CallerRun(c: Capture, run: seq<Action>, d: Capture)
    decreases |run|
  {
    if run == [] then c == d
    else Enabled(c, run[0]) && CallerKeeps(c, run[0]) && CallerRun(Apply(c, run[0]), run[1..], d)
  }

  // At most one begin is in flight, and until it publishes the ID is new.
  predicate OneBegin(c: Capture) {
    && (!Started(c) ==> c.memory == FRESH_MEMORY)
    && (forall i, j :: i in c.memory.begins && j in c.memory.begins ==> i == j)
    && (forall i :: i in c.memory.begins && !c.memory.begins[i].Registering? ==>
          c.phase == Running && c.history.begun.None? && !c.history.submitted)
  }

  // What OneBegin speaks of is untouched.
  predicate SameBegins(c: Capture, d: Capture) {
    && d.phase == c.phase && d.memory.begins == c.memory.begins
    && d.history.begun == c.history.begun && d.history.submitted == c.history.submitted
  }

  lemma CaptureKeepsBegins(c: Capture, a: CaptureAction)
    requires CaptureEnabled(c, a) && !IsBegin(a)
    ensures SameBegins(c, CaptureApply(c, a))
  {
  }

  lemma EnqueueKeepsBegins(c: Capture, a: EnqueueAction)
    requires EnqueueEnabled(c, a) && !a.Submit?
    ensures SameBegins(c, EnqueueApply(c, a))
  {
  }

  lemma RecoveryKeepsBegins(c: Capture, a: RecoveryAction)
    requires RecoveryEnabled(c, a)
    ensures SameBegins(c, RecoveryApply(c, a))
  {
  }

  lemma DeliveryKeepsBegins(c: Capture, a: DeliveryAction)
    requires DeliveryEnabled(c, a)
    ensures SameBegins(c, DeliveryApply(c, a))
  {
    hide Classify;
  }

  lemma StartupKeepsOneBegin(c: Capture, a: StartAction)
    requires OneBegin(c) && StartupEnabled(c, a)
    ensures OneBegin(StartupApply(c, a))
  {
  }

  // Activities other than start-up exist only once start-up has begun recovery.
  lemma ActiveMeansStarted(c: Capture, a: Action)
    requires OneBegin(c) && Enabled(c, a) && !a.Startup?
    ensures Started(c)
  {
  }

  lemma OthersKeepOneBegin(c: Capture, a: Action)
    requires OneBegin(c) && Enabled(c, a) && !(a.OnCapture? && IsBegin(a.a)) && !(a.OnEnqueue? && a.e.Submit?)
    ensures OneBegin(Apply(c, a))
  {
    if !a.Startup? {
      ActiveMeansStarted(c, a);
    }
    hide CaptureApply, EnqueueApply, RecoveryApply, DeliveryApply, StartupApply;
    hide CaptureEnabled, EnqueueEnabled, RecoveryEnabled, DeliveryEnabled, StartupEnabled;
    match a
    case Startup(s) => StartupKeepsOneBegin(c, s);
    case OnCapture(b) => CaptureKeepsBegins(c, b);
    case OnEnqueue(e) => EnqueueKeepsBegins(c, e);
    case OnRecovery(r) => RecoveryKeepsBegins(c, r);
    case OnDelivery(d) => DeliveryKeepsBegins(c, d);
  }

  lemma BeginKeepsOneBegin(c: Capture, a: CaptureAction)
    requires OneBegin(c) && CaptureEnabled(c, a) && CallerKeeps(c, OnCapture(a)) && IsBegin(a)
    ensures Careful(c, OnCapture(a)) && OneBegin(CaptureApply(c, a))
  {
  }

  lemma CallerStep(c: Capture, a: Action)
    requires OneBegin(c) && Enabled(c, a) && CallerKeeps(c, a)
    ensures Careful(c, a) && OneBegin(Apply(c, a))
  {
    if a.OnCapture? && IsBegin(a.a) {
      BeginKeepsOneBegin(c, a.a);
    } else if !(a.OnEnqueue? && a.e.Submit?) {
      hide CaptureApply, EnqueueApply, RecoveryApply, DeliveryApply, StartupApply, Enabled, OneBegin, Apply;
      OthersKeepOneBegin(c, a);
    }
  }

  /** Callers who keep these two rules make careful runs. */
  lemma {:induction false} CallersAreCareful(c: Capture, run: seq<Action>, d: Capture)
    requires OneBegin(c) && CallerRun(c, run, d)
    ensures CarefulRun(c, run, d)
    decreases |run|
  {
    if run != [] {
      CallerStep(c, run[0]);
      CallersAreCareful(Apply(c, run[0]), run[1..], d);
    }
  }

  /** The main result for such callers: an ID may be enqueued directly as soon as its begin has returned. */
  lemma CleanupForCallers(id: string, run: seq<Action>, d: Capture)
    requires CallerRun(Initial(id), run, d) && d.disk.metadata.Some?
    ensures d.memory.job == Idle && d.disk.processing.None? && d.disk.failed.None? && d.history.acked == {}
    ensures forall a :: DeliveryEnabled(d, a) ==> a == Rescan
  {
    CallersAreCareful(Initial(id), run, d);
    CleanupBeforeDelivery(id, run, d);
  }
}
