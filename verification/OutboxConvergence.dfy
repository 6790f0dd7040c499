/** One outcome per begun Capture, whatever crashes happen, when callers keep three rules. */
module OutboxConvergence {
  import opened Options
  import opened CaptureStore
  import opened RelayReceipt
  import opened OutboxProtocol
  import opened OutboxSafety

  // What the process that uses the outbox has to respect.
  datatype Rule =
    | PublishOnce    // metadata of an ID is published once at most, after start() has returned, the ID never enqueued
    | AwaitBegin     // no direct enqueue of an ID between the publishing of its metadata and the return of the begin
    | OneEntry       // an ID whose metadata was ever published is not also enqueued directly
    | StillOnDisk    // periodic recovery finds the metadata it read still there when it asks for the owner

  predicate Obeys(rule: Rule, c: Capture, a: Action) {
    match rule
    case PublishOnce =>
      a.OnCapture? && a.a.BeginPublish? && c.disk.metadata.None? ==>
        c.phase == Running && c.history.begun.None? && !c.history.submitted
    case AwaitBegin => a.OnEnqueue? && a.e.Submit? ==> !Unsynced(c)
    case OneEntry => a.OnEnqueue? && a.e.Submit? ==> c.history.begun.None?
    case StillOnDisk => a.OnRecovery? && a.r.RecOwner? ==> c.disk.metadata.Some?
  }

  // The three rules for convergence. AwaitBegin follows from OneEntry.
  predicate Orderly(c: Capture, a: Action) {
    Obeys(PublishOnce, c, a) && Obeys(OneEntry, c, a) && Obeys(StillOnDisk, c, a)
  }

  // ---------- the invariant ----------

  // The record tells what was spooled under the metadata that was published.
  predicate Faithful(h: History, r: Record) {
    && r.state != Submitted && h.begun == Some(r.metadata)
    && r.request == h.request && r.response == h.response
  }

  predicate SpoolIs(spool: Option<Bytes>, appended: Bytes) {
    if appended == [] then spool.None? else spool == Some(appended)
  }

  predicate SpoolOrGone(spool: Option<Bytes>, appended: Bytes) {
    spool.None? || SpoolIs(spool, appended)
  }

  predicate Only(s: set<Record>, r: Record) {
    s == {r}
  }

  ghost predicate OneOutcome(c: Capture) {
    var d, h := c.disk, c.history;
    && (forall r, q :: r in h.linked && q in h.linked ==> r == q)
    && (forall r :: r in h.linked ==> Faithful(h, r) && (r.state == Finalized <==> h.finalized))
    && (d.pending.Some? ==> d.pending.value in h.linked)
    && (d.processing.Some? ==> d.processing.value in h.linked)
    && (d.failed.Some? ==> d.failed.value in h.linked)
    && h.acked <= h.linked
  }

  ghost predicate Unbegun(c: Capture) {
    var d, m, h := c.disk, c.memory, c.history;
    && d.metadata.None? && d.request.None? && d.response.None? && h.request == [] && h.response == []
    && m.txn.None? && m.recoveries == map[]
    && !Unsynced(c)
    && (forall i :: i in m.enqueues ==> m.enqueues[i].owner == Caller)
    && (!h.submitted ==>
          d.pending.None? && d.processing.None? && d.failed.None? && d.temps == map[] && m.enqueues == map[]
          && h.linked == {} && h.acked == {} && !h.finalized && m.job == Idle)
  }

  predicate SweepDone(s: Sweep) {
    s.request && s.response && s.metadata
  }

  // Metadata gone: the outcome exists, nothing else of the open Capture is left.
  ghost predicate Closed(c: Capture) {
    var d, m := c.disk, c.memory;
    && d.metadata.None? && d.request.None? && d.response.None? && d.temps == map[]
    && c.history.linked != {}
    && !Unsynced(c) && m.enqueues == map[]
    && (m.txn.Some? ==> m.txn.value.stage.TxnSweep? && SweepDone(m.txn.value.stage.done))
    && (forall k :: k in m.recoveries ==>
          var s := m.recoveries[k].stage;
          (m.recoveries[k].periodic && (s.Listed? || s.Owned?)) || (s.RecSweep? && SweepDone(s.done)))
  }

  // Before the combined record is visible: the spools hold exactly what was appended.
  ghost predicate NotStored(c: Capture) {
    && c.history.linked == {}
    && SpoolIs(c.disk.request, c.history.request) && SpoolIs(c.disk.response, c.history.response)
  }

  ghost predicate Stored(c: Capture) {
    && c.disk.pending.Some?
    && SpoolOrGone(c.disk.request, c.history.request) && SpoolOrGone(c.disk.response, c.history.response)
  }

  ghost predicate Storing1(c: Capture, i: nat, owner: Owner, state: RecordState) {
    var d, m, h := c.disk, c.memory, c.history;
    && m.enqueues.Keys == {i}
    && var e := m.enqueues[i];
    && e.owner == owner && e.record.state == state && Faithful(h, e.record)
    && match e.stage
       case Scan(_) => NotStored(c) && d.temps == map[] && !h.finalized
       case Reserve => NotStored(c) && d.temps == map[] && !h.finalized
       case Create => NotStored(c) && d.temps == map[] && !h.finalized
       case Fill(t) => NotStored(c) && d.temps == map[t := Torn] && !h.finalized
       case Link(t) => NotStored(c) && d.temps == map[t := Whole(e.record)] && (h.finalized <==> state == Finalized)
       case DropLinked(t) => Stored(c) && d.temps == map[t := Whole(e.record)] && e.record in h.linked
       case DropRaced(_) => false
       case RaceScan(_) => false
       case Durable => Stored(c) && d.temps == map[]
       case Refused => NotStored(c) && d.temps == map[] && !h.finalized
  }

  predicate SweepMatches(d: Disk, s: Sweep) {
    !s.metadata && (s.request ==> d.request.None?) && (s.response ==> d.response.None?)
  }

  ghost predicate Idle0(c: Capture) {
    c.memory.enqueues == map[] && c.disk.temps == map[]
  }

  ghost predicate TxnSound(c: Capture, t: Txn) {
    && c.history.begun == Some(t.metadata)
    && match t.stage
       case Open => Idle0(c) && NotStored(c) && !c.history.finalized
       case Finalizing(i) => Storing1(c, i, Transaction, Finalized)
       case TxnSweep(done) => Idle0(c) && Stored(c) && SweepMatches(c.disk, done)
       case Broken => Idle0(c) && NotStored(c) && !c.history.finalized
  }

  ghost predicate RecoverySound(c: Capture, s: RecoveryStage) {
    var d, h := c.disk, c.history;
    match s
    case Listed => Idle0(c)
    case Owned(_) => false
    case Spools(m) => Idle0(c) && h.begun == Some(m)
    case Compare(m, req, resp, at, found) =>
      && Idle0(c) && h.begun == Some(m) && req == d.request && resp == d.response
      && (found.Some? ==> found == d.pending)
      && (if at == Pending then found.None? else found == d.pending)
    case Compose(m, req, resp) => Idle0(c) && NotStored(c) && h.begun == Some(m) && req == d.request
      && resp == d.response
    case Storing(i) => Storing1(c, i, Recoverer(0), RecoveredIncomplete)
    case RecSweep(done) => Idle0(c) && Stored(c) && SweepMatches(d, done)
    case Aborted(conflict) => !conflict && Idle0(c) && NotStored(c)
  }

  ghost predicate TempsSound(c: Capture) {
    var d, h := c.disk, c.history;
    && (forall t, u :: t in d.temps && u in d.temps ==> t == u)
    && (forall t :: t in d.temps && d.temps[t].Whole? ==>
          var r := d.temps[t].record;
          Faithful(h, r) && (r.state == Finalized <==> h.finalized) && (h.linked != {} ==> r in h.linked))
    && (h.finalized && h.linked == {} ==> exists t :: t in d.temps && d.temps[t].Whole?)
  }

  // One begin has written the metadata and not yet registered its transaction; others may be searching.
  ghost predicate JustPublished(c: Capture) {
    && Unsynced(c)
    && (forall i, j :: Writing(c.memory.begins, i) && Writing(c.memory.begins, j) ==> i == j)
    && (forall i :: Writing(c.memory.begins, i) ==> c.history.begun == Some(c.memory.begins[i].metadata))
  }

  // Metadata on disk: nothing has been claimed, and exactly one activity owns the Capture.
  ghost predicate OpenSound(c: Capture) {
    var d, m, h := c.disk, c.memory, c.history;
    && d.metadata == h.begun
    && d.processing.None? && d.failed.None? && h.acked == {} && m.job == Idle
    && (NotStored(c) || Stored(c)) && (d.pending.Some? <==> h.linked != {})
    && TempsSound(c)
    && match c.phase
       case Down => true
       case Temps => true
       case Return => d.temps == map[]
       case Recovering(listed) =>
         && !Unsynced(c) && m.txn.None? && m.tracked
         && (!listed ==> m.recoveries == map[] && Idle0(c))
         && (listed ==>
           m.recoveries.Keys == {0} && !m.recoveries[0].periodic && RecoverySound(c, m.recoveries[0].stage))
       case Running =>
         && (forall k :: k in m.recoveries ==>
           m.recoveries[k].periodic && (m.recoveries[k].stage.Listed? || m.recoveries[k].stage.Owned?))
         && (if m.txn.Some? then !Unsynced(c) && m.tracked && TxnSound(c, m.txn.value)
             else Idle0(c) && NotStored(c) && !h.finalized && h.request == [] && h.response == []
                  && JustPublished(c))
  }

  ghost predicate Shape(c: Capture) {
    (!Started(c) ==> c.memory == FRESH_MEMORY) &&
    if c.history.begun.None? then Unbegun(c)
    else !c.history.submitted && OneOutcome(c) && if c.disk.metadata.None? then Closed(c) else OpenSound(c)
  }

  ghost predicate Sound(c: Capture) {
    Safe(c) && Shape(c)
  }

  lemma InitialIsSound(id: string)
    ensures Sound(Initial(id))
  {
  }

  lemma StartupSound(c: Capture, a: StartAction)
    requires Shape(c) && StartupEnabled(c, a)
    ensures Shape(StartupApply(c, a))
  {
  }

  lemma CaptureSound(c: Capture, a: CaptureAction)
    requires Shape(c) && CaptureEnabled(c, a) && Orderly(c, OnCapture(a))
    ensures Shape(CaptureApply(c, a))
  {
    if IsBegin(a) {
      BeginSound(c, a);
    } else {
      TransactionSound(c, a);
    }
  }

  predicate IsBegin(a: CaptureAction) {
    a.BeginCall? || a.BeginSearch? || a.BeginRefuse? || a.BeginPublish? || a.BeginRegister?
  }

  predicate WritingNext(c: Capture, a: CaptureAction, i: nat) {
    (a == BeginPublish(i) && c.disk.metadata.None?) || (Writing(c.memory.begins, i) && a != BeginRegister(i))
  }

  // Which begins have written the metadata and not registered yet, after one step.
  lemma WritingAfter(c: Capture, a: CaptureAction, i: nat)
    requires CaptureEnabled(c, a) && IsBegin(a)
    ensures Writing(CaptureApply(c, a).memory.begins, i) <==> WritingNext(c, a, i)
  {
  }

  lemma StillUnsynced(c: Capture, a: CaptureAction)
    requires CaptureEnabled(c, a) && IsBegin(a) && Unsynced(c) && !a.BeginRegister?
    ensures Unsynced(CaptureApply(c, a))
  {
    var i: nat :| Writing(c.memory.begins, i);
    WritingAfter(c, a, i);
  }

  lemma PublishSound(c: Capture, i: nat)
    requires Shape(c) && CaptureEnabled(c, BeginPublish(i)) && Orderly(c, OnCapture(BeginPublish(i)))
    ensures Shape(CaptureApply(c, BeginPublish(i)))
  {
    var d := CaptureApply(c, BeginPublish(i));
    forall j ensures Writing(d.memory.begins, j) <==> WritingNext(c, BeginPublish(i), j) {
      WritingAfter(c, BeginPublish(i), j);
    }
    if c.disk.metadata.None? {
      assert Writing(d.memory.begins, i);
    } else if Unsynced(c) {
      StillUnsynced(c, BeginPublish(i));
    }
  }

  lemma RegisterSound(c: Capture, i: nat)
    requires Shape(c) && CaptureEnabled(c, BeginRegister(i)) && Orderly(c, OnCapture(BeginRegister(i)))
    ensures Shape(CaptureApply(c, BeginRegister(i)))
  {
    var d := CaptureApply(c, BeginRegister(i));
    assert Writing(c.memory.begins, i);
    forall j ensures Writing(d.memory.begins, j) <==> WritingNext(c, BeginRegister(i), j) {
      WritingAfter(c, BeginRegister(i), j);
    }
  }

  // Begins that have not written the metadata come and go without harm.
  lemma BeginsMayChange(c: Capture, d: Capture)
    requires Shape(c) && Started(c) && d == c.(memory := c.memory.(begins := d.memory.begins))
    requires forall i :: Writing(d.memory.begins, i) <==> Writing(c.memory.begins, i)
    requires forall i :: Writing(c.memory.begins, i) ==>
      i in d.memory.begins && d.memory.begins[i] == c.memory.begins[i]
    ensures Shape(d)
  {
    if Unsynced(c) {
      var i: nat :| Writing(c.memory.begins, i);
      assert Writing(d.memory.begins, i);
    }
  }

  lemma SearchSound(c: Capture, a: CaptureAction)
    requires Shape(c) && CaptureEnabled(c, a) && (a.BeginCall? || a.BeginSearch? || a.BeginRefuse?)
    ensures Shape(CaptureApply(c, a))
  {
    var d := CaptureApply(c, a);
    assert Started(c);
    hide Shape;
    forall i ensures Writing(d.memory.begins, i) <==> Writing(c.memory.begins, i) {
      WritingAfter(c, a, i);
    }
    BeginsMayChange(c, d);
  }

  lemma BeginSound(c: Capture, a: CaptureAction)
    requires Shape(c) && CaptureEnabled(c, a) && Orderly(c, OnCapture(a)) && IsBegin(a)
    ensures Shape(CaptureApply(c, a))
  {
    hide Shape, CaptureApply, CaptureEnabled, Orderly;
    match a
    case BeginPublish(i) => PublishSound(c, i);
    case BeginRegister(i) => RegisterSound(c, i);
    case _ => SearchSound(c, a);
  }

  lemma AppendSound(c: Capture, a: CaptureAction)
    requires Shape(c) && CaptureEnabled(c, a) && a.Append?
    ensures Shape(CaptureApply(c, a))
  {
  }

  lemma FinalizeSound(c: Capture, a: CaptureAction)
    requires Shape(c) && CaptureEnabled(c, a) && a.Finalize?
    ensures Shape(CaptureApply(c, a))
  {
  }

  lemma CleanupSound(c: Capture, a: CaptureAction)
    requires Shape(c) && CaptureEnabled(c, a) && (a.TxnDrop? || a.TxnRelease?)
    ensures Shape(CaptureApply(c, a))
  {
  }

  lemma TransactionSound(c: Capture, a: CaptureAction)
    requires Shape(c) && CaptureEnabled(c, a) && !IsBegin(a)
    ensures Shape(CaptureApply(c, a))
  {
    hide Shape, CaptureApply, CaptureEnabled;
    match a
    case Append(_, _) => AppendSound(c, a);
    case Finalize(_, _) => FinalizeSound(c, a);
    case _ => CleanupSound(c, a);
  }

  // ---------- enqueue ----------

  lemma SubmittedEnqueueSound(c: Capture, a: EnqueueAction)
    requires Shape(c) && c.history.begun.None? && EnqueueEnabled(c, a) && Orderly(c, OnEnqueue(a))
    ensures Shape(EnqueueApply(c, a))
  {
  }

  lemma OpenEnqueueScan(c: Capture, a: EnqueueAction)
    requires Shape(c) && c.history.begun.Some? && EnqueueEnabled(c, a) && a.EnqScan?
    ensures Shape(EnqueueApply(c, a))
  {
    var d := EnqueueApply(c, a);
    assert d.memory.enqueues.Keys == c.memory.enqueues.Keys;
    assert d == c.(memory := c.memory.(enqueues := d.memory.enqueues));
  }

  // The one record of an open Capture never loses a race for its name.
  lemma NoRace(c: Capture, a: EnqueueAction)
    requires Shape(c) && c.history.begun.Some? && EnqueueEnabled(c, a)
    ensures !a.EnqRaceScan?
  {
  }

  lemma OpenEnqueueReserve(c: Capture, a: EnqueueAction)
    requires Shape(c) && c.history.begun.Some? && EnqueueEnabled(c, a) && a.EnqReserve?
    ensures Shape(EnqueueApply(c, a))
  {
    var d := EnqueueApply(c, a);
    assert d.memory.enqueues.Keys == c.memory.enqueues.Keys;
    assert d == c.(memory := c.memory.(enqueues := d.memory.enqueues));
  }

  lemma OpenEnqueueCreate(c: Capture, i: nat, t: nat)
    requires Shape(c) && c.history.begun.Some? && EnqueueEnabled(c, EnqCreate(i, t))
    ensures Shape(EnqueueApply(c, EnqCreate(i, t)))
  {
    var d := EnqueueApply(c, EnqCreate(i, t));
    assert d.memory.enqueues.Keys == c.memory.enqueues.Keys;
    assert d.disk.temps == map[t := Torn];
  }

  lemma OpenEnqueueFill(c: Capture, i: nat)
    requires Shape(c) && c.history.begun.Some? && EnqueueEnabled(c, EnqFill(i))
    ensures Shape(EnqueueApply(c, EnqFill(i)))
  {
    var d := EnqueueApply(c, EnqFill(i));
    assert d.memory.enqueues.Keys == c.memory.enqueues.Keys;
    assert c.memory.enqueues[i].stage.temp in d.disk.temps;
  }

  lemma OpenEnqueueLink(c: Capture, i: nat)
    requires Shape(c) && c.history.begun.Some? && EnqueueEnabled(c, EnqLink(i))
    ensures Shape(EnqueueApply(c, EnqLink(i)))
  {
    var d := EnqueueApply(c, EnqLink(i));
    assert d.memory.enqueues.Keys == c.memory.enqueues.Keys;
    assert d.history.linked == {c.memory.enqueues[i].record};
  }

  lemma OpenEnqueueDrop(c: Capture, i: nat)
    requires Shape(c) && c.history.begun.Some? && EnqueueEnabled(c, EnqDrop(i))
    ensures Shape(EnqueueApply(c, EnqDrop(i)))
  {
    var d := EnqueueApply(c, EnqDrop(i));
    assert d.memory.enqueues.Keys == c.memory.enqueues.Keys;
    assert d.disk.temps == map[];
  }

  lemma TransactionSettle(c: Capture, i: nat)
    requires Shape(c) && c.history.begun.Some? && EnqueueEnabled(c, EnqSettle(i)) && c.phase == Running
    ensures Shape(EnqueueApply(c, EnqSettle(i)))
  {
  }

  lemma RecovererSettle(c: Capture, i: nat)
    requires Shape(c) && c.history.begun.Some? && EnqueueEnabled(c, EnqSettle(i)) && c.phase != Running
    ensures Shape(EnqueueApply(c, EnqSettle(i)))
  {
  }

  lemma OpenEnqueueSettle(c: Capture, i: nat)
    requires Shape(c) && c.history.begun.Some? && EnqueueEnabled(c, EnqSettle(i))
    ensures Shape(EnqueueApply(c, EnqSettle(i)))
  {
    hide Shape, EnqueueApply;
    if c.phase == Running {
      TransactionSettle(c, i);
    } else {
      RecovererSettle(c, i);
    }
  }

  lemma EnqueueSound(c: Capture, a: EnqueueAction)
    requires Shape(c) && EnqueueEnabled(c, a) && Orderly(c, OnEnqueue(a))
    ensures Shape(EnqueueApply(c, a))
  {
    if c.history.begun.None? {
      SubmittedEnqueueSound(c, a);
    } else {
      NoRace(c, a);
      match a
      case EnqSettle(i) => OpenEnqueueSettle(c, i);
      case EnqFill(i) => OpenEnqueueFill(c, i);
      case EnqLink(i) => OpenEnqueueLink(c, i);
      case EnqDrop(i) => OpenEnqueueDrop(c, i);
      case EnqScan(_) => OpenEnqueueScan(c, a);
      case EnqReserve(_, _) => OpenEnqueueReserve(c, a);
      case EnqCreate(i, t) => OpenEnqueueCreate(c, i, t);
    }
  }

  // ---------- recovery ----------

  // In a running outbox an orderly recovery that asks for the owner always finds one.
  lemma PeriodicOwner(c: Capture, a: RecoveryAction)
    requires Shape(c) && RecoveryEnabled(c, a) && Orderly(c, OnRecovery(a))
    requires c.phase == Running && a.RecOwner?
    ensures c.history.begun.Some? && RecoveryApply(c, a) == EndRecovery(c, a.k)
  {
    if JustPublished(c) {
      assert Unsynced(c);
    }
  }

  lemma PeriodicEnds(c: Capture, k: nat)
    requires Shape(c) && c.phase == Running && c.history.begun.Some?
    ensures Shape(EndRecovery(c, k))
  {
  }

  lemma PeriodicSound(c: Capture, a: RecoveryAction)
    requires Shape(c) && RecoveryEnabled(c, a) && Orderly(c, OnRecovery(a))
    requires c.phase == Running
    ensures Shape(RecoveryApply(c, a))
  {
    if a.RecOwner? {
      PeriodicOwner(c, a);
      hide Shape, RecoveryApply;
      PeriodicEnds(c, a.k);
    } else {
      PeriodicOther(c, a);
    }
  }

  lemma PeriodicListed(c: Capture, k: nat)
    requires Shape(c) && RecoveryEnabled(c, PeriodicList(k)) && c.phase == Running
    ensures Shape(RecoveryApply(c, PeriodicList(k)))
  {
  }

  lemma PeriodicReleased(c: Capture, k: nat)
    requires Shape(c) && RecoveryEnabled(c, RecRelease(k)) && c.phase == Running
    ensures Shape(RecoveryApply(c, RecRelease(k)))
  {
  }

  lemma PeriodicRead(c: Capture, k: nat)
    requires Shape(c) && RecoveryEnabled(c, RecRead(k)) && c.phase == Running
    ensures Shape(RecoveryApply(c, RecRead(k)))
  {
  }

  // The stages behind the owner's question are never reached in an orderly running outbox.
  lemma PeriodicStages(c: Capture, a: RecoveryAction)
    requires Shape(c) && RecoveryEnabled(c, a) && c.phase == Running
    ensures a.PeriodicList? || a.RecRead? || a.RecOwner? || a.RecRelease?
  {
  }

  lemma PeriodicOther(c: Capture, a: RecoveryAction)
    requires Shape(c) && RecoveryEnabled(c, a) && c.phase == Running && !a.RecOwner?
    ensures Shape(RecoveryApply(c, a))
  {
    PeriodicStages(c, a);
    hide Shape, RecoveryApply, RecoveryEnabled;
    match a
    case PeriodicList(k) => PeriodicListed(c, k);
    case RecRead(k) => PeriodicRead(c, k);
    case RecRelease(k) => PeriodicReleased(c, k);
  }

  lemma StartupReadSound(c: Capture, a: RecoveryAction)
    requires Shape(c) && RecoveryEnabled(c, a) && c.phase != Running
    requires a.RecRead? || a.RecSpools? || a.RecCompare?
    ensures Shape(RecoveryApply(c, a))
  {
    var d := RecoveryApply(c, a);
    assert d == c.(memory := c.memory.(recoveries := d.memory.recoveries));
    if c.disk.metadata.Some? {
      assert d.memory.recoveries.Keys == {0};
    }
  }

  lemma StartupStoreSound(c: Capture, a: RecoveryAction)
    requires Shape(c) && RecoveryEnabled(c, a) && c.phase != Running && a.RecStore?
    ensures Shape(RecoveryApply(c, a))
  {
    var d := RecoveryApply(c, a);
    assert d.memory.recoveries.Keys == {0};
    assert d.memory.enqueues.Keys == {a.i};
  }

  lemma StartupSweepSound(c: Capture, a: RecoveryAction)
    requires Shape(c) && RecoveryEnabled(c, a) && c.phase != Running
    requires a.RecDrop? || a.RecRelease?
    ensures Shape(RecoveryApply(c, a))
  {
    var d := RecoveryApply(c, a);
    if a.RecDrop? {
      assert d.memory.recoveries.Keys == c.memory.recoveries.Keys;
    }
  }

  lemma StartupRecoverySound(c: Capture, a: RecoveryAction)
    requires Shape(c) && RecoveryEnabled(c, a) && Orderly(c, OnRecovery(a))
    requires c.phase != Running
    ensures Shape(RecoveryApply(c, a))
  {
    match a
    case RecRead(_) => StartupReadSound(c, a);
    case RecSpools(_) => StartupReadSound(c, a);
    case RecCompare(_) => StartupReadSound(c, a);
    case RecStore(_, _, _) => StartupStoreSound(c, a);
    case RecDrop(_, _) => StartupSweepSound(c, a);
    case RecRelease(_) => StartupSweepSound(c, a);
    case RecOwner(_, _) =>
    case RecGiveUp(_) =>
    case PeriodicList(_) =>
  }

  lemma RecoverySoundStep(c: Capture, a: RecoveryAction)
    requires Shape(c) && RecoveryEnabled(c, a) && Orderly(c, OnRecovery(a))
    ensures Shape(RecoveryApply(c, a))
  {
    if c.phase == Running {
      PeriodicSound(c, a);
    } else {
      StartupRecoverySound(c, a);
    }
  }

  // ---------- delivery ----------

  // Deliveries move the one record between the queues; nothing else of a closed Capture changes.
  lemma ClosedFrame(c: Capture, d: Capture)
    requires Shape(c) && c.history.begun.Some? && c.disk.metadata.None? && Started(c)
    requires d == c.(disk := c.disk.(pending := d.disk.pending, processing := d.disk.processing,
                                     failed := d.disk.failed),
                     memory := c.memory.(job := d.memory.job, tracked := d.memory.tracked),
                     history := c.history.(acked := d.history.acked))
    requires d.disk.pending.Some? ==> d.disk.pending.value in c.history.linked
    requires d.disk.processing.Some? ==> d.disk.processing.value in c.history.linked
    requires d.disk.failed.Some? ==> d.disk.failed.value in c.history.linked
    requires d.history.acked <= c.history.linked
    ensures Shape(d)
  {
  }

  lemma ClosedMoves(c: Capture, a: DeliveryAction)
    requires JobHolds(c) && OneOutcome(c) && DeliveryEnabled(c, a)
    ensures var d := DeliveryApply(c, a);
            && d.history.acked <= c.history.linked
            && (d.disk.pending.Some? ==> d.disk.pending.value in c.history.linked)
            && (d.disk.processing.Some? ==> d.disk.processing.value in c.history.linked)
            && (d.disk.failed.Some? ==> d.disk.failed.value in c.history.linked)
  {
  }

  // The two states differ at most in the queues, the job, the tracking and the acknowledgements.
  predicate MovesOnly(c: Capture, d: Capture) {
    d == c.(disk := c.disk.(pending := d.disk.pending, processing := d.disk.processing, failed := d.disk.failed),
            memory := c.memory.(job := d.memory.job, tracked := d.memory.tracked),
            history := c.history.(acked := d.history.acked))
  }

  lemma ClosedSteps(c: Capture, a: DeliveryAction)
    requires DeliveryEnabled(c, a)
    ensures MovesOnly(c, DeliveryApply(c, a))
  {
    hide Classify, MovesOnly;
    if a.FailLink? || a.FailCompare? || a.FailDrop? || a.BackLink? || a.BackCompare? || a.BackDrop? {
      LateSteps(c, a);
    } else {
      EarlySteps(c, a);
    }
  }

  lemma EarlySteps(c: Capture, a: DeliveryAction)
    requires DeliveryEnabled(c, a)
    requires !(a.FailLink? || a.FailCompare? || a.FailDrop? || a.BackLink? || a.BackCompare? || a.BackDrop?)
    ensures MovesOnly(c, DeliveryApply(c, a))
  {
    hide Classify;
  }

  lemma LateSteps(c: Capture, a: DeliveryAction)
    requires DeliveryEnabled(c, a)
    requires a.FailLink? || a.FailCompare? || a.FailDrop? || a.BackLink? || a.BackCompare? || a.BackDrop?
    ensures MovesOnly(c, DeliveryApply(c, a))
  {
  }

  lemma ClosedDeliverySound(c: Capture, a: DeliveryAction)
    requires Sound(c) && DeliveryEnabled(c, a) && c.history.begun.Some? && c.disk.metadata.None?
    ensures Shape(DeliveryApply(c, a))
  {
    ClosedMoves(c, a);
    ClosedSteps(c, a);
    hide DeliveryApply;
    ClosedFrame(c, DeliveryApply(c, a));
  }

  lemma OpenDeliverySound(c: Capture, a: DeliveryAction)
    requires Sound(c) && DeliveryEnabled(c, a) && c.history.begun.Some? && c.disk.metadata.Some?
    ensures a == Rescan
    ensures Shape(DeliveryApply(c, a))
  {
  }

  lemma SubmittedDeliverySound(c: Capture, a: DeliveryAction)
    requires Shape(c) && DeliveryEnabled(c, a) && c.history.begun.None?
    ensures Shape(DeliveryApply(c, a))
  {
    if a.FailLink? || a.FailCompare? || a.FailDrop? || a.BackLink? || a.BackCompare? || a.BackDrop? {
      SubmittedMoveSound(c, a);
    }
  }

  lemma SubmittedMoveSound(c: Capture, a: DeliveryAction)
    requires Shape(c) && DeliveryEnabled(c, a) && c.history.begun.None?
    requires a.FailLink? || a.FailCompare? || a.FailDrop? || a.BackLink? || a.BackCompare? || a.BackDrop?
    ensures Shape(DeliveryApply(c, a))
  {
  }

  lemma DeliverySound(c: Capture, a: DeliveryAction)
    requires Sound(c) && DeliveryEnabled(c, a)
    ensures Shape(DeliveryApply(c, a))
  {
    hide Shape, DeliveryApply;
    if c.history.begun.None? {
      SubmittedDeliverySound(c, a);
    } else if c.disk.metadata.None? {
      ClosedDeliverySound(c, a);
    } else {
      OpenDeliverySound(c, a);
    }
  }

  // ---------- whole runs ----------

  /** A run in which every step respects the callers' rules. */
  ghost predicate OrderlyRun(c: Capture, run: seq<Action>, d: Capture)
    decreases |run|
  {
    if run == [] then c == d
    else Enabled(c, run[0]) && Orderly(c, run[0]) && OrderlyRun(Apply(c, run[0]), run[1..], d)
  }

  lemma StepSound(c: Capture, a: Action)
    requires Sound(c) && Enabled(c, a) && Orderly(c, a)
    ensures Sound(Apply(c, a))
  {
    StepPreserves(c, a);
    match a
    case Startup(s) => StartupSound(c, s);
    case OnCapture(b) => CaptureSound(c, b);
    case OnEnqueue(e) => EnqueueSound(c, e);
    case OnRecovery(r) => RecoverySoundStep(c, r);
    case OnDelivery(d) => DeliverySound(c, d);
  }

  lemma {:induction false} RunSound(c: Capture, run: seq<Action>, d: Capture)
    requires Sound(c) && OrderlyRun(c, run, d)
    ensures Sound(d)
    decreases |run|
  {
    if run != [] {
      StepSound(c, run[0]);
      RunSound(Apply(c, run[0]), run[1..], d);
    }
  }

  /** The one record a begun Capture ends in. */
  ghost predicate Outcome(c: Capture, r: Record) {
    && c.history.linked == {r} && Kept(c, r)
    && c.history.begun == Some(r.metadata) && r.request == c.history.request && r.response == c.history.response
    && r.state == (if c.history.finalized then Finalized else RecoveredIncomplete)
    && (forall q :: Kept(c, q) ==> q == r)
  }

  ghost predicate NothingOpen(c: Capture) {
    c.disk.metadata.None? && c.disk.request.None? && c.disk.response.None? && c.disk.temps == map[]
  }

  lemma ClosedHasOutcome(c: Capture) returns (r: Record)
    requires Sound(c) && c.history.begun.Some? && c.disk.metadata.None?
    ensures NothingOpen(c) && Outcome(c, r)
  {
    r :| r in c.history.linked;
    assert forall q :: Kept(c, q) ==> q in c.history.linked;
  }

  /** When start-up recovery may declare itself done, no begun Capture is open any more. */
  lemma DoneMeansClosed(c: Capture) returns (r: Record)
    requires Sound(c) && c.history.begun.Some? && StartupEnabled(c, StartupDone)
    ensures NothingOpen(StartupApply(c, StartupDone)) && Outcome(StartupApply(c, StartupDone), r)
  {
    StepSound(c, Startup(StartupDone));
    r := ClosedHasOutcome(StartupApply(c, StartupDone));
  }

  /** Main result: after any orderly run, crashes included, the moment start-up recovery completes
      every begun Capture has no open file left and exactly one outcome: the finalized record if
      its write had become complete, otherwise one recovered record with the spooled bodies. */
  lemma StartupRecoveryConverges(id: string, run: seq<Action>, d: Capture) returns (r: Record)
    requires OrderlyRun(Initial(id), run, d)
    requires d.history.begun.Some? && Enabled(d, Startup(StartupDone))
    ensures NothingOpen(Apply(d, Startup(StartupDone))) && Outcome(Apply(d, Startup(StartupDone)), r)
  {
    InitialIsSound(id);
    RunSound(Initial(id), run, d);
    r := DoneMeansClosed(d);
  }

  /** Recovery never finds a stored record it must refuse. */
  lemma RecoveryMeetsNoConflict(id: string, run: seq<Action>, d: Capture, k: nat)
    requires OrderlyRun(Initial(id), run, d)
    requires d.history.begun.Some? && k in d.memory.recoveries
    ensures d.memory.recoveries[k].stage != Aborted(true)
  {
    InitialIsSound(id);
    RunSound(Initial(id), run, d);
  }

  // While the metadata is gone no step of this Capture brings it back or publishes a record.
  lemma ClosedStays(c: Capture, a: Action)
    requires Shape(c) && c.history.begun.Some? && c.disk.metadata.None?
    requires Enabled(c, a) && Orderly(c, a)
    ensures Apply(c, a).disk.metadata.None? && Apply(c, a).history.begun == c.history.begun
    ensures Apply(c, a).history.linked == c.history.linked
  {
  }

  lemma ClosedStep(c: Capture, a: Action)
    requires Sound(c) && c.history.begun.Some? && c.disk.metadata.None?
    requires Enabled(c, a) && Orderly(c, a)
    ensures Sound(Apply(c, a)) && NothingOpen(Apply(c, a))
    ensures Apply(c, a).history.linked == c.history.linked && Apply(c, a).history.begun == c.history.begun
  {
    hide Apply, Enabled, Safe, OneOutcome, OpenSound, Unbegun;
    StepSound(c, a);
    ClosedStays(c, a);
  }

  /** Running recovery again changes nothing: once the open files are gone they stay gone and the
      outcome stays the same record, through every later crash, restart and recovery. */
  lemma {:induction false} OutcomeIsFinal(c: Capture, run: seq<Action>, d: Capture, r: Record)
    requires Sound(c) && c.history.begun.Some? && c.disk.metadata.None? && Outcome(c, r)
    requires OrderlyRun(c, run, d)
    ensures NothingOpen(d) && Outcome(d, r)
    decreases |run|
  {
    if run == [] {
      var q := ClosedHasOutcome(c);
    } else {
      ClosedStep(c, run[0]);
      var n := Apply(c, run[0]);
      var q := ClosedHasOutcome(n);
      assert q in n.history.linked;
      OutcomeIsFinal(n, run[1..], d, r);
    }
  }
}
