/** No stored bytes are lost or overwritten, at any crash point and under every interleaving. */
module OutboxSafety {
  import opened Options
  import opened CaptureStore
  import opened RelayReceipt
  import opened OutboxProtocol

  predicate Holds(c: Capture, r: Record) {
    c.disk.pending == Some(r) || c.disk.processing == Some(r) || c.disk.failed == Some(r)
  }

  // Stored under the Capture's own name, or settled by an accepted Relay receipt.
  predicate Kept(c: Capture, r: Record) {
    Holds(c, r) || r in c.history.acked
  }

  /** What the delivery job relies on while it works on processing/. */
  predicate JobHolds(c: Capture) {
    var d := c.disk;
    match c.memory.job
    case Idle => true
    case Checked => true
    case ClaimRace => true
    case ClaimLinked => d.pending.Some? && d.processing == d.pending
    case Reading => d.processing.Some?
    case Sending(r) => d.processing == Some(r)
    case Acked(r) => d.processing == Some(r) && r in c.history.acked
    case Failing(r) => d.processing == Some(r)
    case FailRace(r) => d.processing == Some(r)
    case FailLinked(r) => d.processing == Some(r) && d.failed == Some(r)
    case Returning(r, _) => d.processing == Some(r)
    case ReturnRace(r, _) => d.processing == Some(r)
    case ReturnLinked(r) => d.processing == Some(r) && d.pending == Some(r)
  }

  ghost predicate EnqueuesKept(c: Capture) {
    forall i :: i in c.memory.enqueues
      && (c.memory.enqueues[i].stage.Durable? || c.memory.enqueues[i].stage.DropLinked?)
      ==> Kept(c, c.memory.enqueues[i].record)
  }

  ghost predicate Safe(c: Capture) {
    && (!Started(c) ==> c.memory == FRESH_MEMORY)
    && JobHolds(c)
    && EnqueuesKept(c)
    && (forall r :: r in c.history.reported ==> Kept(c, r))
    && (forall r :: r in c.history.linked ==> Kept(c, r))
  }

  /** A queue slot changes only from empty to a record or from a record to empty. */
  predicate NotOverwritten(before: Option<Record>, after: Option<Record>) {
    before.None? || after.None? || before == after
  }

  ghost predicate Preserves(c: Capture, d: Capture) {
    && (forall r :: Kept(c, r) ==> Kept(d, r))
    && NotOverwritten(c.disk.pending, d.disk.pending)
    && NotOverwritten(c.disk.processing, d.disk.processing)
    && NotOverwritten(c.disk.failed, d.disk.failed)
    && c.history.acked <= d.history.acked && c.history.reported <= d.history.reported
    && c.history.linked <= d.history.linked
  }

  lemma StartupPreserves(c: Capture, a: StartAction)
    requires Safe(c) && StartupEnabled(c, a)
    ensures Safe(StartupApply(c, a)) && Preserves(c, StartupApply(c, a))
  {
    var d := StartupApply(c, a);
    assert forall r :: Kept(c, r) ==> Kept(d, r);
  }

  lemma CapturePreserves(c: Capture, a: CaptureAction)
    requires Safe(c) && CaptureEnabled(c, a)
    ensures Safe(CaptureApply(c, a)) && Preserves(c, CaptureApply(c, a))
  {
    if a.Finalize? {
      FinalizePreserves(c, a);
    } else {
      var d := CaptureApply(c, a);
      assert forall r :: Kept(c, r) ==> Kept(d, r);
    }
  }

  lemma FinalizePreserves(c: Capture, a: CaptureAction)
    requires Safe(c) && CaptureEnabled(c, a) && a.Finalize?
    ensures Safe(CaptureApply(c, a)) && Preserves(c, CaptureApply(c, a))
  {
    var d := CaptureApply(c, a);
    assert forall r :: Kept(c, r) ==> Kept(d, r);
  }

  // An enqueue moves on; it may call itself durable only while its record is kept.
  lemma AdvancePreserves(c: Capture, i: nat, stage: EnqueueStage)
    requires Started(c) && JobHolds(c) && i in c.memory.enqueues
    requires EnqueuesKept(c) && forall r :: r in c.history.reported || r in c.history.linked ==> Kept(c, r)
    requires stage.Durable? || stage.DropLinked? ==> Kept(c, c.memory.enqueues[i].record)
    ensures Safe(Advance(c, i, stage)) && Preserves(c, Advance(c, i, stage))
  {
    var d := Advance(c, i, stage);
    assert forall r :: Kept(c, r) <==> Kept(d, r);
  }

  // The two steps of an enqueue that write to the disk before it advances.
  lemma EnqueueWritePreserves(c: Capture, d: Capture)
    requires Safe(c) && d.phase == c.phase && d.memory == c.memory
    requires d.history.acked == c.history.acked && d.history.reported == c.history.reported
    requires d.disk.processing == c.disk.processing && d.disk.failed == c.disk.failed
    requires d.disk.pending == c.disk.pending || c.disk.pending.None?
    requires c.history.linked <= d.history.linked && forall r :: r in d.history.linked - c.history.linked ==>
      d.disk.pending == Some(r)
    ensures JobHolds(d) && EnqueuesKept(d) && Preserves(c, d)
    ensures forall r :: r in d.history.reported || r in d.history.linked ==> Kept(d, r)
  {
    assert forall r :: Kept(c, r) ==> Kept(d, r);
  }

  lemma SettlePreserves(c: Capture, i: nat)
    requires Safe(c) && EnqueueEnabled(c, EnqSettle(i))
    ensures Safe(EnqueueApply(c, EnqSettle(i))) && Preserves(c, EnqueueApply(c, EnqSettle(i)))
  {
    var d := EnqueueApply(c, EnqSettle(i));
    assert d.memory.enqueues == c.memory.enqueues - {i};
    assert forall r :: Kept(c, r) <==> Kept(d, r);
  }

  lemma SubmitPreserves(c: Capture, i: nat, record: Record)
    requires Safe(c) && EnqueueEnabled(c, Submit(i, record))
    ensures Safe(EnqueueApply(c, Submit(i, record))) && Preserves(c, EnqueueApply(c, Submit(i, record)))
  {
    var d := EnqueueApply(c, Submit(i, record));
    assert forall r :: Kept(c, r) <==> Kept(d, r);
  }

  lemma SearchPreserves(c: Capture, a: EnqueueAction)
    requires Safe(c) && EnqueueEnabled(c, a) && (a.EnqScan? || a.EnqRaceScan?)
    ensures Safe(EnqueueApply(c, a)) && Preserves(c, EnqueueApply(c, a))
  {
    var d := EnqueueApply(c, a);
    AdvancePreserves(c, a.i, d.memory.enqueues[a.i].stage);
  }

  lemma WritingPreserves(c: Capture, a: EnqueueAction)
    requires Safe(c) && EnqueueEnabled(c, a) && (a.EnqCreate? || a.EnqFill? || a.EnqLink? || a.EnqDrop?)
    ensures Safe(EnqueueApply(c, a)) && Preserves(c, EnqueueApply(c, a))
  {
    var d := EnqueueApply(c, a);
    var w := d.(memory := c.memory);
    EnqueueWritePreserves(c, w);
    AdvancePreserves(w, a.i, d.memory.enqueues[a.i].stage);
  }

  lemma EnqueuePreserves(c: Capture, a: EnqueueAction)
    requires Safe(c) && EnqueueEnabled(c, a)
    ensures Safe(EnqueueApply(c, a)) && Preserves(c, EnqueueApply(c, a))
  {
    match a
    case EnqSettle(i) => SettlePreserves(c, i);
    case EnqCreate(i, t) => WritingPreserves(c, a);
    case EnqFill(i) => WritingPreserves(c, a);
    case EnqLink(i) => WritingPreserves(c, a);
    case EnqDrop(i) => WritingPreserves(c, a);
    case Submit(i, record) => SubmitPreserves(c, i, record);
    case EnqReserve(i, ok) => AdvancePreserves(c, i, if ok then Create else Refused);
    case EnqScan(i) => SearchPreserves(c, a);
    case EnqRaceScan(i) => SearchPreserves(c, a);
  }

  lemma RecoveryPreserves(c: Capture, a: RecoveryAction)
    requires Safe(c) && RecoveryEnabled(c, a)
    ensures Safe(RecoveryApply(c, a)) && Preserves(c, RecoveryApply(c, a))
  {
    var d := RecoveryApply(c, a);
    assert forall r :: Kept(c, r) ==> Kept(d, r);
  }

  // A delivery step that keeps the records, the slots and the job's own assumption is harmless.
  lemma DeliveryFrame(c: Capture, d: Capture)
    requires Safe(c) && Started(c) && JobHolds(d)
    requires d == c.(disk := d.disk, memory := c.memory.(job := d.memory.job, tracked := d.memory.tracked),
                     history := c.history.(acked := d.history.acked))
    requires forall r :: Kept(c, r) ==> Kept(d, r)
    ensures Safe(d)
  {
  }

  lemma ClaimPreserves(c: Capture, a: DeliveryAction)
    requires Safe(c) && DeliveryEnabled(c, a)
    requires a.DrainCheck? || a.ClaimLink? || a.ClaimCompare? || a.ClaimDrop? || a.JobRead? || a.Rescan?
    ensures Safe(DeliveryApply(c, a)) && Preserves(c, DeliveryApply(c, a))
  {
    var d := DeliveryApply(c, a);
    assert JobHolds(d);
    assert forall r :: Kept(c, r) ==> Kept(d, r);
    DeliveryFrame(c, d);
  }

  lemma SettledPreserves(c: Capture, a: DeliveryAction)
    requires Safe(c) && DeliveryEnabled(c, a)
    requires a.RelayReply? || a.RelayExhausted? || a.AckDrop? || a.FailLink? || a.FailCompare? || a.FailDrop?
    ensures Safe(DeliveryApply(c, a)) && Preserves(c, DeliveryApply(c, a))
  {
    hide Classify;
    var d := DeliveryApply(c, a);
    assert JobHolds(d);
    assert forall r :: Kept(c, r) ==> Kept(d, r);
    DeliveryFrame(c, d);
  }

  lemma ReturnPreserves(c: Capture, a: DeliveryAction)
    requires Safe(c) && DeliveryEnabled(c, a) && (a.BackLink? || a.BackCompare? || a.BackDrop?)
    ensures Safe(DeliveryApply(c, a)) && Preserves(c, DeliveryApply(c, a))
  {
    var d := DeliveryApply(c, a);
    assert JobHolds(d);
    assert forall r :: Kept(c, r) ==> Kept(d, r);
    DeliveryFrame(c, d);
  }

  lemma DeliveryPreserves(c: Capture, a: DeliveryAction)
    requires Safe(c) && DeliveryEnabled(c, a)
    ensures Safe(DeliveryApply(c, a)) && Preserves(c, DeliveryApply(c, a))
  {
    hide Safe, DeliveryApply, Preserves;
    if a.DrainCheck? || a.ClaimLink? || a.ClaimCompare? || a.ClaimDrop? || a.JobRead? || a.Rescan? {
      ClaimPreserves(c, a);
    } else if a.BackLink? || a.BackCompare? || a.BackDrop? {
      ReturnPreserves(c, a);
    } else {
      SettledPreserves(c, a);
    }
  }

  /** Every single step keeps every stored record and overwrites nothing. */
  lemma StepPreserves(c: Capture, a: Action)
    requires Safe(c) && Enabled(c, a)
    ensures Safe(Apply(c, a)) && Preserves(c, Apply(c, a))
  {
    match a
    case Startup(s) => StartupPreserves(c, s);
    case OnCapture(b) => CapturePreserves(c, b);
    case OnEnqueue(e) => EnqueuePreserves(c, e);
    case OnRecovery(r) => RecoveryPreserves(c, r);
    case OnDelivery(d) => DeliveryPreserves(c, d);
  }

  /** Main result. In every state of every run, with crashes anywhere: what enqueue reported
      durable is stored under the Capture's name in pending, processing or failed until a Relay
      receipt for it was accepted, and whatever was kept earlier in the run still is. */
  lemma {:induction false} NoReportedRecordIsLost(c: Capture, run: seq<Action>, d: Capture)
    requires Safe(c) && Leads(c, run, d)
    ensures Safe(d)
    ensures forall r :: Kept(c, r) ==> Kept(d, r)
    ensures forall r :: r in d.history.reported ==> Kept(d, r)
    ensures forall r :: r in d.history.linked ==> Kept(d, r)
    decreases |run|
  {
    if run != [] {
      StepPreserves(c, run[0]);
      NoReportedRecordIsLost(Apply(c, run[0]), run[1..], d);
    }
  }

  // The one step that acknowledges a record is the Relay's accepted reply to it.
  lemma AckNeedsReply(c: Capture, a: Action, r: Record)
    requires Enabled(c, a) && r !in c.history.acked
    ensures Apply(c, a).id == c.id
    ensures r in Apply(c, a).history.acked ==>
      a.OnDelivery? && a.d.RelayReply? && a == OnDelivery(RelayReply(a.d.reply))
        && Classify(a.d.reply, c.id, r.raw) == Accepted
  {
  }

  /** Removal is earned: a record counts as acknowledged only after a Relay reply that names this
      Capture and the length and SHA-256 of exactly its bytes. */
  lemma {:induction false} AcknowledgedByMatchingReceipt(c: Capture, run: seq<Action>, d: Capture, r: Record)
    requires Leads(c, run, d) && r in d.history.acked && r !in c.history.acked
    ensures exists k, reply ::
              0 <= k < |run| && run[k] == OnDelivery(RelayReply(reply)) && Classify(reply, c.id, r.raw) == Accepted
    decreases |run|
  {
    if run != [] {
      var n := Apply(c, run[0]);
      AckNeedsReply(c, run[0], r);
      hide Apply, Enabled, Classify;
      if r !in n.history.acked {
        AcknowledgedByMatchingReceipt(n, run[1..], d, r);
        var k, reply :| 0 <= k < |run[1..]| && run[1..][k] == OnDelivery(RelayReply(reply))
          && Classify(reply, n.id, r.raw) == Accepted;
        assert run[k + 1] == run[1..][k];
      }
    }
  }

  lemma InitialIsSafe(id: string)
    ensures Safe(Initial(id))
  {
  }

  /** The same for every run of an outbox that starts from empty directories: a record that was reported
      durable or ever visible in pending is stored, or the run holds the Relay's receipt for it. */
  lemma ReportedIsStoredOrReceipted(id: string, run: seq<Action>, d: Capture, r: Record)
    requires Leads(Initial(id), run, d) && (r in d.history.reported || r in d.history.linked)
    ensures Holds(d, r) || exists k, reply ::
              0 <= k < |run| && run[k] == OnDelivery(RelayReply(reply)) && Classify(reply, id, r.raw) == Accepted
  {
    InitialIsSafe(id);
    NoReportedRecordIsLost(Initial(id), run, d);
    if r in d.history.acked {
      AcknowledgedByMatchingReceipt(Initial(id), run, d, r);
    }
  }
}
