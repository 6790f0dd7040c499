/** What the Relay's replies make of a claimed record: acknowledged and removed, kept aside in failed/,
    returned to pending/, or sent again. Stated from the fields of the replies and the files alone. */
module OutboxDelivery {
  import opened Options
  import opened CaptureStore
  import opened RelayReceipt
  import opened OutboxProtocol
  import opened OutboxSafety

  // ---------- one reply ----------

  /** A reply removes nothing by itself: it decides what becomes of the record, and a reply that neither
      acknowledges it nor refuses it for good leaves everything as it was. */
  lemma ReplyDecides(c: Capture, reply: Reply)
    requires c.memory.job.Sending?
    ensures Enabled(c, OnDelivery(RelayReply(reply)))
    ensures var r := c.memory.job.record; var d := Apply(c, OnDelivery(RelayReply(reply)));
      && d.disk == c.disk
      && (Acknowledged(reply, c.id, r.raw) ==> d.memory.job == Acked(r) && d.history.acked == c.history.acked + {r})
      && (Hopeless(reply) ==> d.memory.job == Failing(r) && d.history == c.history)
      && (!Hopeless(reply) && !Acknowledged(reply, c.id, r.raw) ==> d == c)
  {
    VerdictMeans(reply, c.id, c.memory.job.record.raw);
    hide Classify, Acknowledged, Hopeless;
  }

  // ---------- failed/ over whole runs ----------

  // Stored in failed/, or on its way there.
  predicate Refused(c: Capture, r: Record) {
    c.disk.failed == Some(r)
    || c.memory.job == Failing(r) || c.memory.job == FailRace(r) || c.memory.job == FailLinked(r)
  }

  lemma OnlyRefusalFails(c: Capture, a: Action, r: Record)
    requires Safe(c) && Enabled(c, a) && !Refused(c, r) && Refused(Apply(c, a), r)
    ensures a.OnDelivery? && a.d.RelayReply? && Hopeless(a.d.reply) && c.memory.job == Sending(r)
    ensures a == OnDelivery(RelayReply(a.d.reply))
  {
    if a.OnDelivery? {
      if a.d.RelayReply? {
        ReplyDecides(c, a.d.reply);
      } else {
        OtherDeliveriesDoNotFail(c, a.d, r);
      }
    } else {
      OthersDoNotFail(c, a, r);
    }
  }

  lemma OtherDeliveriesDoNotFail(c: Capture, a: DeliveryAction, r: Record)
    requires JobHolds(c) && DeliveryEnabled(c, a) && !a.RelayReply? && !Refused(c, r)
    ensures !Refused(DeliveryApply(c, a), r)
  {
    hide Classify;
  }

  // Nothing but delivery touches failed/ or, a crash apart, the job.
  predicate JobKept(c: Capture, d: Capture) {
    d.disk.failed == c.disk.failed && (d.memory.job == c.memory.job || d.memory.job == Idle)
  }

  lemma EnqueueKeepsJob(c: Capture, a: EnqueueAction)
    requires EnqueueEnabled(c, a)
    ensures JobKept(c, EnqueueApply(c, a))
  {
  }

  lemma CaptureKeepsJob(c: Capture, a: CaptureAction)
    requires CaptureEnabled(c, a)
    ensures JobKept(c, CaptureApply(c, a))
  {
  }

  lemma RecoveryKeepsJob(c: Capture, a: RecoveryAction)
    requires RecoveryEnabled(c, a)
    ensures JobKept(c, RecoveryApply(c, a))
  {
    hide Matches;
  }

  lemma StartupKeepsJob(c: Capture, a: StartAction)
    requires StartupEnabled(c, a)
    ensures JobKept(c, StartupApply(c, a))
  {
  }

  lemma OthersDoNotFail(c: Capture, a: Action, r: Record)
    requires Enabled(c, a) && !a.OnDelivery? && !Refused(c, r)
    ensures !Refused(Apply(c, a), r)
  {
    hide CaptureApply, EnqueueApply, RecoveryApply, DeliveryApply, StartupApply;
    hide CaptureEnabled, EnqueueEnabled, RecoveryEnabled, DeliveryEnabled, StartupEnabled;
    match a
    case Startup(s) => StartupKeepsJob(c, s);
    case OnCapture(b) => CaptureKeepsJob(c, b);
    case OnEnqueue(e) => EnqueueKeepsJob(c, e);
    case OnRecovery(k) => RecoveryKeepsJob(c, k);
    case OnDelivery(_) =>
  }

  lemma {:induction false} RefusedBySomeReply(c: Capture, run: seq<Action>, d: Capture, r: Record)
    requires Safe(c) && Leads(c, run, d) && !Refused(c, r) && Refused(d, r)
    ensures exists k, reply :: 0 <= k < |run| && run[k] == OnDelivery(RelayReply(reply)) && Hopeless(reply)
    decreases |run|
  {
    var n := Apply(c, run[0]);
    StepPreserves(c, run[0]);
    if Refused(n, r) {
      OnlyRefusalFails(c, run[0], r);
    } else {
      hide Safe, Apply, Enabled, Hopeless, Refused;
      RefusedBySomeReply(n, run[1..], d, r);
      var k, reply :| 0 <= k < |run[1..]| && run[1..][k] == OnDelivery(RelayReply(reply)) && Hopeless(reply);
      assert run[k + 1] == run[1..][k];
    }
  }

  /** Main result: in every run from empty directories a record lies in failed/ only after a reply for
      this Capture that was no success and whose status is none of 408, 425, 429 and below 500. */
  lemma FailedOnlyByRefusal(id: string, run: seq<Action>, d: Capture)
    requires Leads(Initial(id), run, d) && d.disk.failed.Some?
    ensures exists k, reply ::
      0 <= k < |run| && run[k] == OnDelivery(RelayReply(reply))
      && !reply.httpOk && reply.status < 500 && reply.status !in {408, 425, 429}
  {
    InitialIsSafe(id);
    RefusedBySomeReply(Initial(id), run, d, d.disk.failed.value);
    var k, reply :| 0 <= k < |run| && run[k] == OnDelivery(RelayReply(reply)) && Hopeless(reply);
    assert run[k] == OnDelivery(RelayReply(reply)) && !reply.httpOk && reply.status < 500;
  }

  // ---------- whole deliveries that nobody disturbs ----------

  lemma Two(c: Capture, a: Action, b: Action)
    requires Enabled(c, a) && Enabled(Apply(c, a), b)
    ensures Leads(c, [a, b], Apply(Apply(c, a), b))
  {
    assert [a, b][1..] == [b] && [b][1..] == [];
    assert Leads(Apply(Apply(c, a), b), [], Apply(Apply(c, a), b));
  }

  lemma Three(c: Capture, a: Action, b: Action, e: Action)
    requires Enabled(c, a) && Enabled(Apply(c, a), b) && Enabled(Apply(Apply(c, a), b), e)
    ensures Leads(c, [a, b, e], Apply(Apply(Apply(c, a), b), e))
  {
    hide Apply, Enabled;
    Two(Apply(c, a), b, e);
    assert [a, b, e][1..] == [b, e];
  }

  /** The claim moves a record that is not tracked from pending/ to processing/, whatever it is, and
      then it is being sent. */
  lemma ClaimMoves(c: Capture, r: Record)
    requires Started(c) && c.memory.job == Idle && !c.memory.tracked
    requires c.disk.pending == Some(r) && c.disk.processing.None?
    ensures Leads(c, CLAIM, c.(disk := c.disk.(pending := None, processing := Some(r)),
                               memory := c.memory.(job := Sending(r))))
  {
    var a, b := OnDelivery(DrainCheck), OnDelivery(ClaimLink);
    var d := Apply(Apply(c, a), b);
    assert d == c.(disk := c.disk.(processing := Some(r)), memory := c.memory.(job := ClaimLinked));
    Two(d, OnDelivery(ClaimDrop), OnDelivery(JobRead));
    assert CLAIM[1..] == [b, OnDelivery(ClaimDrop), OnDelivery(JobRead)];
    assert CLAIM[1..][1..] == [OnDelivery(ClaimDrop), OnDelivery(JobRead)];
  }

  const CLAIM := [OnDelivery(DrainCheck), OnDelivery(ClaimLink), OnDelivery(ClaimDrop), OnDelivery(JobRead)]

  /** Once the open files are gone, a scan of a quiet outbox releases the name, and a waiting record can be
      claimed; while they are there it cannot. */
  lemma ScanReleases(c: Capture)
    requires Enabled(c, OnDelivery(Rescan)) && c.memory.job == Idle && c.disk.pending.Some?
    ensures Enabled(Apply(c, OnDelivery(Rescan)), OnDelivery(DrainCheck)) <==> c.disk.metadata.None?
    ensures Apply(c, OnDelivery(Rescan)).disk == c.disk
  {
  }

  /** A claim that finds another record in processing/ gives up and changes no file; finding the same one
      it goes on to drop the pending file. */
  lemma ClaimMeetsAnother(c: Capture)
    requires Started(c) && c.memory.job == Idle && !c.memory.tracked
    requires c.disk.pending.Some? && c.disk.processing.Some?
    ensures Leads(c, [OnDelivery(DrainCheck), OnDelivery(ClaimLink), OnDelivery(ClaimCompare)],
                  if c.disk.pending == c.disk.processing then c.(memory := c.memory.(job := ClaimLinked)) else c)
  {
    Three(c, OnDelivery(DrainCheck), OnDelivery(ClaimLink), OnDelivery(ClaimCompare));
  }

  /** An acknowledged record is removed and nothing else changes. */
  lemma AcknowledgedIsRemoved(c: Capture, reply: Reply, r: Record)
    requires c.memory.job == Sending(r) && Acknowledged(reply, c.id, r.raw)
    ensures Leads(c, [OnDelivery(RelayReply(reply)), OnDelivery(AckDrop)],
                  c.(disk := c.disk.(processing := None), memory := c.memory.(job := Idle),
                     history := c.history.(acked := c.history.acked + {r})))
  {
    ReplyDecides(c, reply);
    hide Classify, Acknowledged;
    Two(c, OnDelivery(RelayReply(reply)), OnDelivery(AckDrop));
  }

  /** A refused record ends in failed/ when that name is free there. */
  lemma RefusedIsKeptAside(c: Capture, reply: Reply, r: Record)
    requires c.memory.job == Sending(r) && c.disk.processing == Some(r) && c.disk.failed.None? && Hopeless(reply)
    ensures Leads(c, [OnDelivery(RelayReply(reply)), OnDelivery(FailLink), OnDelivery(FailDrop)],
                  c.(disk := c.disk.(processing := None, failed := Some(r)), memory := c.memory.(job := Idle)))
  {
    ReplyDecides(c, reply);
    hide Classify, Hopeless;
    Three(c, OnDelivery(RelayReply(reply)), OnDelivery(FailLink), OnDelivery(FailDrop));
  }

  /** With the same record there already the claimed file is dropped; with another one the record is sent
      again and no file changes. */
  lemma RefusedMeetsAnother(c: Capture, reply: Reply, r: Record)
    requires c.memory.job == Sending(r) && c.disk.processing == Some(r) && c.disk.failed.Some? && Hopeless(reply)
    ensures Leads(c, [OnDelivery(RelayReply(reply)), OnDelivery(FailLink), OnDelivery(FailCompare)],
                  if c.disk.failed == Some(r) then c.(memory := c.memory.(job := FailLinked(r))) else c)
  {
    ReplyDecides(c, reply);
    hide Classify, Hopeless;
    Three(c, OnDelivery(RelayReply(reply)), OnDelivery(FailLink), OnDelivery(FailCompare));
  }

  /** When the attempts are used up the record goes back to pending/ for a later drain. */
  lemma ExhaustedGoesBack(c: Capture, r: Record)
    requires c.memory.job == Sending(r) && c.disk.processing == Some(r) && c.disk.pending.None?
    ensures Leads(c, [OnDelivery(RelayExhausted), OnDelivery(BackLink), OnDelivery(BackDrop)],
                  c.(disk := c.disk.(processing := None, pending := Some(r)), memory := c.memory.(job := Idle)))
  {
    Three(c, OnDelivery(RelayExhausted), OnDelivery(BackLink), OnDelivery(BackDrop));
  }

  // One attempt to move the record back that finds pending/ taken.
  lemma BackOnce(c: Capture, r: Record, again: bool)
    requires c.memory.job == Returning(r, again) && c.disk.processing == Some(r) && c.disk.pending.Some?
    ensures Enabled(c, OnDelivery(BackLink)) && Enabled(Apply(c, OnDelivery(BackLink)), OnDelivery(BackCompare))
    ensures Apply(Apply(c, OnDelivery(BackLink)), OnDelivery(BackCompare)) == WithJob(c,
      if c.disk.pending == Some(r) then ReturnLinked(r) else if again then Idle else Returning(r, true))
  {
  }

  /** With the same record in pending/ the claim is dropped; with another one there the move is tried once
      more and then given up, with no file changed. */
  lemma ExhaustedMeetsAnother(c: Capture, r: Record)
    requires c.memory.job == Sending(r) && c.disk.processing == Some(r) && c.disk.pending.Some?
    ensures Enabled(c, OnDelivery(RelayExhausted))
    ensures var back := [OnDelivery(BackLink), OnDelivery(BackCompare)];
      var n := Apply(c, OnDelivery(RelayExhausted));
      if c.disk.pending == Some(r) then
        Leads(n, back + [OnDelivery(BackDrop)],
              c.(disk := c.disk.(processing := None), memory := c.memory.(job := Idle)))
      else Leads(n, back + back, c.(memory := c.memory.(job := Idle)))
  {
    var n := Apply(c, OnDelivery(RelayExhausted));
    BackOnce(n, r, false);
    var a, b := OnDelivery(BackLink), OnDelivery(BackCompare);
    var m := WithJob(n, if c.disk.pending == Some(r) then ReturnLinked(r) else Returning(r, true));
    if c.disk.pending == Some(r) {
      var e := OnDelivery(BackDrop);
      assert Enabled(m, e) && Apply(m, e) == c.(disk := c.disk.(processing := None), memory := c.memory.(job := Idle));
      Three(n, a, b, e);
      assert [a, b] + [e] == [a, b, e];
    } else {
      BackOnce(m, r, true);
      Four(n, a, b);
      assert [a, b] + [a, b] == [a, b, a, b];
    }
  }

  lemma Four(c: Capture, a: Action, b: Action)
    requires Enabled(c, a) && Enabled(Apply(c, a), b)
    requires var m := Apply(Apply(c, a), b); Enabled(m, a) && Enabled(Apply(m, a), b)
    ensures var m := Apply(Apply(c, a), b); Leads(c, [a, b, a, b], Apply(Apply(m, a), b))
  {
    hide Apply, Enabled;
    Three(Apply(c, a), b, a, b);
    assert [a, b, a, b][1..] == [b, a, b];
  }

  // ---------- temporary files at start-up ----------

  // Found again: its record is the pending one, or the file itself was set aside.
  predicate Accounted(d: Disk, temp: Temp) {
    (temp.Whole? && d.pending == Some(temp.record)) || temp in d.quarantine
  }

  // What has become of a temporary file so far.
  predicate Followed(d: Disk, t: nat, temp: Temp) {
    (t in d.temps && d.temps[t] == temp) || Accounted(d, temp)
  }

  lemma TempStep(c: Capture, a: Action, t: nat, temp: Temp)
    requires Safe(c) && c.phase == Temps && Enabled(c, a) && a != Startup(Crash) && Followed(c.disk, t, temp)
    ensures Followed(Apply(c, a).disk, t, temp)
    ensures Apply(c, a).phase == Temps || Apply(c, a).phase == Return
  {
  }

  /** Only torn files and files of a different record are set aside; nothing is ever taken out again. */
  lemma QuarantineMeans(c: Capture, a: Action, temp: Temp)
    requires Enabled(c, a)
    ensures c.disk.quarantine <= Apply(c, a).disk.quarantine
    ensures temp in Apply(c, a).disk.quarantine - c.disk.quarantine ==>
      temp == Torn || (c.disk.pending.Some? && c.disk.pending != Some(temp.record))
  {
    hide Classify;
  }

  // Without a crash nothing leads back to the recovery of temporaries.
  lemma {:induction false} NotBackToTemps(c: Capture, run: seq<Action>, d: Capture)
    requires c.phase != Temps && c.phase != Down && Leads(c, run, d) && Startup(Crash) !in run
    ensures d.phase != Temps
    decreases |run|
  {
    if run != [] {
      PhaseStep(c, run[0]);
      hide Apply, Enabled;
      NotBackToTemps(Apply(c, run[0]), run[1..], d);
    }
  }

  lemma PhaseStep(c: Capture, a: Action)
    requires c.phase != Temps && c.phase != Down && Enabled(c, a) && a != Startup(Crash)
    ensures Apply(c, a).phase != Temps && Apply(c, a).phase != Down
  {
    hide Classify;
  }

  lemma {:induction false} TempsFollowed(c: Capture, run: seq<Action>, d: Capture, t: nat, temp: Temp)
    requires Safe(c) && c.phase == Temps && Followed(c.disk, t, temp)
    requires Leads(c, run, d) && d.phase == Temps && Startup(Crash) !in run
    ensures Followed(d.disk, t, temp)
    decreases |run|
  {
    if run != [] {
      TempStep(c, run[0], t, temp);
      StepPreserves(c, run[0]);
      hide Safe, Apply, Enabled, Followed;
      var n := Apply(c, run[0]);
      if n.phase == Temps {
        TempsFollowed(n, run[1..], d, t, temp);
      } else {
        NotBackToTemps(n, run[1..], d);
      }
    }
  }

  /** Main result: when start-up is done with temporary files, none is left in its place, and each that a
      crash had left is accounted for: a complete one became the pending record or equals it, every other
      is in quarantine, torn ones included. Nothing that was written is thrown away. */
  lemma TemporariesAreAccounted(id: string, before: seq<Action>, c: Capture, run: seq<Action>, d: Capture)
    requires Leads(Initial(id), before, c) && c.phase == Temps
    requires Leads(c, run, d) && Startup(Crash) !in run && Enabled(d, Startup(TempsDone))
    ensures d.disk.temps == map[] && forall t :: t in c.disk.temps ==> Accounted(d.disk, c.disk.temps[t])
  {
    InitialIsSafe(id);
    NoReportedRecordIsLost(Initial(id), before, c);
    forall t | t in c.disk.temps ensures Accounted(d.disk, c.disk.temps[t]) {
      TempsFollowed(c, run, d, t, c.disk.temps[t]);
    }
  }
}
