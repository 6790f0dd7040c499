/** Each rule is needed: a run that keeps the others ends in an acknowledged record whose open metadata
    is still on disk, in two records for one Capture, or in lost spool bytes. A fourth run keeps all
    rules and never gets past start-up, because the recovered record is refused. */
module OutboxCounterexamples {
  import opened Options
  import opened CaptureStore
  import opened RelayReceipt
  import opened OutboxProtocol
  import opened OutboxSafety
  import opened OutboxConvergence
  import opened OutboxProgress

  const ID := "cap-a"
  const META: Bytes := [1]
  const BODY: Bytes := [2]

  function Zeros(n: nat): (s: string)
    ensures |s| == n && forall i :: 0 <= i < n ==> s[i] == '0'
  {
    if n == 0 then "" else Zeros(n - 1) + "0"
  }

  // An acknowledgement for these bytes.
  function Accepting(raw: Bytes): (r: Reply)
    ensures Classify(r, ID, raw) == Accepted
  {
    Reply(true, 200, Payload(true, true, true, Some(false),
      Some(InputReceipt(Some("chiptrace.capture-input-receipt.v1"), Some(|raw|), Some(Sha256(raw)))),
      Some(CaptureAck(Some(ID), true, Some(false), Some("accepted"), Some(Zeros(64)), Some(1), Some(1), Some(0)))))
  }

  /** A run from an empty disk in which every step obeys the given rules. */
  ghost predicate RunUnder(rules: set<Rule>, run: seq<Action>, d: Capture)
    decreases |run|
  {
    if run == [] then d == Initial(ID)
    else
      exists c {:trigger RunUnder(rules, run[..|run| - 1], c)} :: RunUnder(rules, run[..|run| - 1], c)
                  && Enabled(c, run[|run| - 1]) && (forall rule :: rule in rules ==> Obeys(rule, c, run[|run| - 1]))
                  && d == Apply(c, run[|run| - 1])
  }

  lemma Then(rules: set<Rule>, run: seq<Action>, c: Capture, a: Action) returns (longer: seq<Action>)
    requires RunUnder(rules, run, c) && Enabled(c, a) && forall rule :: rule in rules ==> Obeys(rule, c, a)
    ensures RunUnder(rules, longer, Apply(c, a))
  {
    longer := run + [a];
    assert longer[..|longer| - 1] == run;
  }

  const STARTED := Initial(ID).(phase := Running)

  lemma Booted(rules: set<Rule>) returns (run: seq<Action>)
    ensures RunUnder(rules, run, STARTED)
  {
    hide RunUnder;
    var c3;
    run, c3 := HalfBooted(rules);
    run := Then(rules, run, c3, Startup(ListOpen));
    var c4 := Apply(c3, Startup(ListOpen));
    run := Then(rules, run, c4, Startup(StartupDone));
  }

  lemma HalfBooted(rules: set<Rule>) returns (run: seq<Action>, d: Capture)
    ensures RunUnder(rules, run, d) && d == Initial(ID).(phase := Recovering(false))
  {
    hide RunUnder;
    var c := Initial(ID);
    run := Then(rules, [], c, Startup(Boot));
    var c1 := Apply(c, Startup(Boot));
    run := Then(rules, run, c1, Startup(TempsDone));
    var c2 := Apply(c1, Startup(TempsDone));
    run := Then(rules, run, c2, Startup(ReturnDone));
    d := Apply(c2, Startup(ReturnDone));
  }

  predicate NoQueueFile(d: Disk) {
    d.pending.None? && d.processing.None? && d.failed.None? && d.temps == map[]
  }

  // Searching the three directories and reserving capacity changes only the enqueue's own stage.
  lemma Searches(rules: set<Rule>, run0: seq<Action>, c: Capture, i: nat, record: Record, owner: Owner)
      returns (run: seq<Action>, d: Capture)
    requires RunUnder(rules, run0, c) && NoQueueFile(c.disk)
    requires c.memory.enqueues == map[i := Enqueue(record, owner, Scan(Pending))]
    ensures RunUnder(rules, run, d)
    ensures d == c.(memory := c.memory.(enqueues := map[i := Enqueue(record, owner, Create)]))
  {
    hide RunUnder;
    run := Then(rules, run0, c, OnEnqueue(EnqScan(i)));
    var c1 := Apply(c, OnEnqueue(EnqScan(i)));
    run := Then(rules, run, c1, OnEnqueue(EnqScan(i)));
    var c2 := Apply(c1, OnEnqueue(EnqScan(i)));
    run := Then(rules, run, c2, OnEnqueue(EnqScan(i)));
    var c3 := Apply(c2, OnEnqueue(EnqScan(i)));
    run := Then(rules, run, c3, OnEnqueue(EnqReserve(i, true)));
    d := Apply(c3, OnEnqueue(EnqReserve(i, true)));
  }

  lemma Writes(rules: set<Rule>, run0: seq<Action>, c: Capture, i: nat, record: Record, owner: Owner)
      returns (run: seq<Action>, d: Capture)
    requires RunUnder(rules, run0, c) && NoQueueFile(c.disk)
    requires c.memory.enqueues == map[i := Enqueue(record, owner, Create)]
    ensures RunUnder(rules, run, d)
    ensures d == c.(disk := c.disk.(pending := Some(record)),
                    memory := c.memory.(enqueues := map[i := Enqueue(record, owner, Durable)]),
                    history := c.history.(linked := c.history.linked + {record},
                                          finalized := c.history.finalized || record.state == Finalized))
  {
    hide RunUnder;
    var c6;
    run, c6 := WritesTemp(rules, run0, c, i, record, owner);
    run := Then(rules, run, c6, OnEnqueue(EnqLink(i)));
    var c7 := Apply(c6, OnEnqueue(EnqLink(i)));
    run := Then(rules, run, c7, OnEnqueue(EnqDrop(i)));
    d := Apply(c7, OnEnqueue(EnqDrop(i)));
    assert d.disk.temps == map[];
  }

  lemma WritesTemp(rules: set<Rule>, run0: seq<Action>, c: Capture, i: nat, record: Record, owner: Owner)
      returns (run: seq<Action>, d: Capture)
    requires RunUnder(rules, run0, c) && NoQueueFile(c.disk)
    requires c.memory.enqueues == map[i := Enqueue(record, owner, Create)]
    ensures RunUnder(rules, run, d)
    ensures d == c.(disk := c.disk.(temps := map[0 := Whole(record)]),
                    memory := c.memory.(enqueues := map[i := Enqueue(record, owner, Link(0))]),
                    history := c.history.(finalized := c.history.finalized || record.state == Finalized))
  {
    hide RunUnder;
    run := Then(rules, run0, c, OnEnqueue(EnqCreate(i, 0)));
    var c5 := Apply(c, OnEnqueue(EnqCreate(i, 0)));
    run := Then(rules, run, c5, OnEnqueue(EnqFill(i)));
    d := Apply(c5, OnEnqueue(EnqFill(i)));
  }

  /** An enqueue that nobody disturbs makes its record durable in pending. */
  lemma Stores(rules: set<Rule>, run0: seq<Action>, c: Capture, i: nat, record: Record, owner: Owner)
      returns (run: seq<Action>, d: Capture)
    requires RunUnder(rules, run0, c) && NoQueueFile(c.disk)
    requires c.memory.enqueues == map[i := Enqueue(record, owner, Scan(Pending))]
    ensures RunUnder(rules, run, d)
    ensures d == c.(disk := c.disk.(pending := Some(record)),
                    memory := Continue(c.memory.(enqueues := map[]), owner, true),
                    history := c.history.(linked := c.history.linked + {record},
                                          reported := c.history.reported + {record},
                                          finalized := c.history.finalized || record.state == Finalized))
  {
    hide RunUnder;
    var c4, c8;
    run, c4 := Searches(rules, run0, c, i, record, owner);
    run, c8 := Writes(rules, run, c4, i, record, owner);
    run := Then(rules, run, c8, OnEnqueue(EnqSettle(i)));
    d := Apply(c8, OnEnqueue(EnqSettle(i)));
    assert c8.memory.enqueues - {i} == map[];
  }

  /** A drain that finds the name untracked claims the record, sends it and has it acknowledged. */
  lemma Delivers(rules: set<Rule>, run0: seq<Action>, c: Capture, record: Record)
      returns (run: seq<Action>, d: Capture)
    requires RunUnder(rules, run0, c) && c.id == ID && Started(c)
    requires c.memory.job == Idle && !c.memory.tracked
    requires c.disk.pending == Some(record) && c.disk.processing.None?
    ensures RunUnder(rules, run, d)
    ensures d == c.(disk := c.disk.(pending := None), history := c.history.(acked := c.history.acked + {record}))
  {
    hide RunUnder;
    var c4;
    run, c4 := Claims(rules, run0, c, record);
    AcceptingIsAccepted(record.raw);
    hide Classify, Accepting;
    run := Then(rules, run, c4, OnDelivery(RelayReply(Accepting(record.raw))));
    var c5 := Apply(c4, OnDelivery(RelayReply(Accepting(record.raw))));
    run := Then(rules, run, c5, OnDelivery(AckDrop));
    d := Apply(c5, OnDelivery(AckDrop));
  }

  lemma AcceptingIsAccepted(raw: Bytes)
    ensures Classify(Accepting(raw), ID, raw) == Accepted
  {
  }

  // The claim: the record moves from pending to processing and is read.
  lemma Claims(rules: set<Rule>, run0: seq<Action>, c: Capture, record: Record) returns (run: seq<Action>, d: Capture)
    requires RunUnder(rules, run0, c) && c.id == ID && Started(c)
    requires c.memory.job == Idle && !c.memory.tracked
    requires c.disk.pending == Some(record) && c.disk.processing.None?
    ensures RunUnder(rules, run, d)
    ensures d == c.(disk := c.disk.(pending := None, processing := Some(record)),
                    memory := c.memory.(job := Sending(record)))
  {
    hide RunUnder;
    run := Then(rules, run0, c, OnDelivery(DrainCheck));
    var c1 := Apply(c, OnDelivery(DrainCheck));
    run := Then(rules, run, c1, OnDelivery(ClaimLink));
    var c2 := Apply(c1, OnDelivery(ClaimLink));
    run := Then(rules, run, c2, OnDelivery(ClaimDrop));
    var c3 := Apply(c2, OnDelivery(ClaimDrop));
    run := Then(rules, run, c3, OnDelivery(JobRead));
    d := Apply(c3, OnDelivery(JobRead));
  }

  // A begin that looks into the three directories and finds no record.
  lemma LooksFor(rules: set<Rule>, run0: seq<Action>, c: Capture, meta: Bytes) returns (run: seq<Action>, d: Capture)
    requires RunUnder(rules, run0, c) && Started(c) && NoQueueFile(c.disk)
    requires c.memory.begins == map[] && c.memory.txn.None?
    ensures RunUnder(rules, run, d)
    ensures d == c.(memory := c.memory.(begins := map[0 := Publishing(meta)]))
  {
    hide RunUnder;
    run := Then(rules, run0, c, OnCapture(BeginCall(0, meta)));
    var c1 := Apply(c, OnCapture(BeginCall(0, meta)));
    run := Then(rules, run, c1, OnCapture(BeginSearch(0)));
    var c2 := Apply(c1, OnCapture(BeginSearch(0)));
    run := Then(rules, run, c2, OnCapture(BeginSearch(0)));
    var c3 := Apply(c2, OnCapture(BeginSearch(0)));
    run := Then(rules, run, c3, OnCapture(BeginSearch(0)));
    d := Apply(c3, OnCapture(BeginSearch(0)));
  }

  /** beginCapture up to the published metadata; the transaction is not registered yet. */
  lemma Publishes(rules: set<Rule>, run0: seq<Action>, c: Capture, meta: Bytes) returns (run: seq<Action>, d: Capture)
    requires RunUnder(rules, run0, c) && Started(c) && NoQueueFile(c.disk) && c.disk.metadata.None?
    requires c.memory.begins == map[] && c.memory.txn.None?
    requires PublishOnce in rules ==> c.phase == Running && c.history.begun.None? && !c.history.submitted
    ensures RunUnder(rules, run, d)
    ensures d == c.(disk := c.disk.(metadata := Some(meta)), memory := c.memory.(begins := map[0 := Registering(meta)]),
                    history := c.history.(begun := Some(meta)))
  {
    hide RunUnder;
    var c4;
    run, c4 := LooksFor(rules, run0, c, meta);
    run := Then(rules, run, c4, OnCapture(BeginPublish(0)));
    d := Apply(c4, OnCapture(BeginPublish(0)));
  }

  lemma Registers(rules: set<Rule>, run0: seq<Action>, c: Capture, meta: Bytes) returns (run: seq<Action>, d: Capture)
    requires RunUnder(rules, run0, c) && c.memory.begins == map[0 := Registering(meta)]
    ensures RunUnder(rules, run, d)
    ensures d == c.(memory := c.memory.(begins := map[], txn := Some(Txn(meta, Open)), tracked := true))
  {
    hide RunUnder;
    run := Then(rules, run0, c, OnCapture(BeginRegister(0)));
    d := Apply(c, OnCapture(BeginRegister(0)));
    assert d.memory.begins == map[];
  }

  /** finalize with the cleanup that follows it. */
  lemma Finalizes(rules: set<Rule>, run0: seq<Action>, c: Capture, record: Record)
    returns (run: seq<Action>, d: Capture)
    requires RunUnder(rules, run0, c) && NoQueueFile(c.disk) && c.disk.metadata == Some(record.metadata)
    requires c.memory.txn == Some(Txn(record.metadata, Open)) && c.memory.enqueues == map[]
    requires record == Record(record.raw, Finalized, record.metadata, OrEmpty(c.disk.request), OrEmpty(c.disk.response))
    ensures RunUnder(rules, run, d)
    ensures d == c.(disk := c.disk.(metadata := None, request := None, response := None, pending := Some(record)),
                    memory := c.memory.(txn := None, tracked := false),
                    history := c.history.(linked := c.history.linked + {record},
                                          reported := c.history.reported + {record}, finalized := true))
  {
    hide RunUnder;
    run := Then(rules, run0, c, OnCapture(Finalize(0, record.raw)));
    var c1 := Apply(c, OnCapture(Finalize(0, record.raw)));
    var c2;
    run, c2 := Stores(rules, run, c1, 0, record, Transaction);
    run, d := CleansUp(rules, run, c2);
  }

  /** removeCaptureFiles after a finalization, and the end of that transaction. */
  lemma CleansUp(rules: set<Rule>, run0: seq<Action>, c: Capture) returns (run: seq<Action>, d: Capture)
    requires RunUnder(rules, run0, c)
    requires c.memory.txn.Some? && c.memory.txn.value.stage == TxnSweep(Sweep(false, false, false))
    ensures RunUnder(rules, run, d)
    ensures d == c.(disk := c.disk.(metadata := None, request := None, response := None),
                    memory := c.memory.(txn := None, tracked := false))
  {
    hide RunUnder;
    run := Then(rules, run0, c, OnCapture(TxnDrop(RequestSpool)));
    var c3 := Apply(c, OnCapture(TxnDrop(RequestSpool)));
    run := Then(rules, run, c3, OnCapture(TxnDrop(ResponseSpool)));
    var c4 := Apply(c3, OnCapture(TxnDrop(ResponseSpool)));
    run := Then(rules, run, c4, OnCapture(TxnDrop(Metadata)));
    var c5 := Apply(c4, OnCapture(TxnDrop(Metadata)));
    run := Then(rules, run, c5, OnCapture(TxnRelease));
    d := Apply(c5, OnCapture(TxnRelease));
  }

  lemma FindsNothing(rules: set<Rule>, run0: seq<Action>, c: Capture, k: nat) returns (run: seq<Action>, d: Capture)
    requires RunUnder(rules, run0, c) && NoQueueFile(c.disk)
    requires k in c.memory.recoveries && c.memory.recoveries[k].stage == Spools(META)
    ensures RunUnder(rules, run, d)
    ensures d == Restage(c, k, Compose(META, c.disk.request, c.disk.response))
  {
    hide RunUnder;
    run := Then(rules, run0, c, OnRecovery(RecSpools(k)));
    var c1 := Apply(c, OnRecovery(RecSpools(k)));
    run := Then(rules, run, c1, OnRecovery(RecCompare(k)));
    var c2 := Apply(c1, OnRecovery(RecCompare(k)));
    run := Then(rules, run, c2, OnRecovery(RecCompare(k)));
    var c3 := Apply(c2, OnRecovery(RecCompare(k)));
    run := Then(rules, run, c3, OnRecovery(RecCompare(k)));
    d := Apply(c3, OnRecovery(RecCompare(k)));
  }

  /** A recovery that has read the metadata and finds no stored record stores an incomplete one. */
  lemma Recreates(rules: set<Rule>, run0: seq<Action>, c: Capture, k: nat, record: Record)
    returns (run: seq<Action>, d: Capture)
    requires RunUnder(rules, run0, c) && NoQueueFile(c.disk) && c.memory.enqueues == map[]
    requires k in c.memory.recoveries && c.memory.recoveries[k].stage == Spools(META)
    requires record == Record(record.raw, RecoveredIncomplete, META, OrEmpty(c.disk.request), OrEmpty(c.disk.response))
    ensures RunUnder(rules, run, d)
    ensures d == Restage(c.(disk := c.disk.(pending := Some(record)),
                            history := c.history.(linked := c.history.linked + {record},
                                                  reported := c.history.reported + {record})),
                         k, RecSweep(Sweep(false, false, false)))
  {
    hide RunUnder;
    var c4;
    run, c4 := FindsNothing(rules, run0, c, k);
    run := Then(rules, run, c4, OnRecovery(RecStore(k, 0, record.raw)));
    var c5 := Apply(c4, OnRecovery(RecStore(k, 0, record.raw)));
    run, d := Stores(rules, run, c5, 0, record, Recoverer(k));
  }

  /** removeCaptureFiles after a recovery, and the end of that recovery. */
  lemma Sweeps(rules: set<Rule>, run0: seq<Action>, c: Capture, k: nat) returns (run: seq<Action>, d: Capture)
    requires RunUnder(rules, run0, c)
    requires k in c.memory.recoveries && c.memory.recoveries[k].stage == RecSweep(Sweep(false, false, false))
    ensures RunUnder(rules, run, d)
    ensures d == c.(disk := c.disk.(metadata := None, request := None, response := None),
                    memory := c.memory.(tracked := false, recoveries := c.memory.recoveries - {k}))
  {
    hide RunUnder;
    run := Then(rules, run0, c, OnRecovery(RecDrop(k, RequestSpool)));
    var c6 := Apply(c, OnRecovery(RecDrop(k, RequestSpool)));
    run := Then(rules, run, c6, OnRecovery(RecDrop(k, ResponseSpool)));
    var c7 := Apply(c6, OnRecovery(RecDrop(k, ResponseSpool)));
    run := Then(rules, run, c7, OnRecovery(RecDrop(k, Metadata)));
    var c8 := Apply(c7, OnRecovery(RecDrop(k, Metadata)));
    run := Then(rules, run, c8, OnRecovery(RecRelease(k)));
    d := Apply(c8, OnRecovery(RecRelease(k)));
    assert c8.memory.recoveries - {k} == c.memory.recoveries - {k};
  }

  /** Without AwaitBegin (and OneEntry): the ID is enqueued directly while its begin has published the
      metadata and not returned. The record is claimed and acknowledged while the open metadata is on
      disk. */
  lemma DirectEnqueueRacesBegin() returns (run: seq<Action>, d: Capture)
    ensures RunUnder({PublishOnce, StillOnDisk}, run, d)
    ensures d.disk.metadata.Some? && d.history.acked != {}
  {
    hide RunUnder;
    var rules := {PublishOnce, StillOnDisk};
    run := Booted(rules);
    var c1, c3;
    run, c1 := Publishes(rules, run, STARTED, META);
    var record := Record([7], Submitted, [], [], []);
    run := Then(rules, run, c1, OnEnqueue(Submit(0, record)));
    var c2 := Apply(c1, OnEnqueue(Submit(0, record)));
    run, c3 := Stores(rules, run, c2, 0, record, Caller);
    run, d := Delivers(rules, run, c3, record);
    assert record in d.history.acked;
  }

  // The process dies and the next one lists the open Capture, with whatever pending record there is.
  lemma Restarts(rules: set<Rule>, run0: seq<Action>, c: Capture) returns (run: seq<Action>, d: Capture)
    requires RunUnder(rules, run0, c) && c.phase == Running
    requires c.disk.metadata == Some(META) && c.disk.temps == map[] && c.disk.processing.None?
    ensures RunUnder(rules, run, d)
    ensures d == c.(phase := Recovering(true),
                    memory := FRESH_MEMORY.(tracked := true, recoveries := map[0 := Recovery(false, Spools(META))]))
  {
    hide RunUnder;
    run := Then(rules, run0, c, Startup(Crash));
    var c2 := Apply(c, Startup(Crash));
    run := Then(rules, run, c2, Startup(Boot));
    var c3 := Apply(c2, Startup(Boot));
    run := Then(rules, run, c3, Startup(TempsDone));
    var c4 := Apply(c3, Startup(TempsDone));
    run := Then(rules, run, c4, Startup(ReturnDone));
    var c5 := Apply(c4, Startup(ReturnDone));
    run := Then(rules, run, c5, Startup(ListOpen));
    var c6 := Apply(c5, Startup(ListOpen));
    run := Then(rules, run, c6, OnRecovery(RecRead(0)));
    d := Apply(c6, OnRecovery(RecRead(0)));
  }

  /** Without OneEntry, AwaitBegin kept: the ID is enqueued directly after its begin has returned. The next
      start-up finds a record that is not the Capture's, gives up on the conflict and cannot complete. */
  lemma DirectEnqueueBlocksRecovery() returns (run: seq<Action>, d: Capture)
    ensures RunUnder({PublishOnce, AwaitBegin, StillOnDisk}, run, d)
    ensures d.memory.recoveries == map[0 := Recovery(false, Aborted(true))] && d.disk.metadata.Some?
    ensures d.phase == Recovering(true) && !StartupEnabled(d, StartupDone)
  {
    hide RunUnder;
    var rules := {PublishOnce, AwaitBegin, StillOnDisk};
    run := Booted(rules);
    var c1, c2, c4, c5;
    run, c1 := Publishes(rules, run, STARTED, META);
    run, c2 := Registers(rules, run, c1, META);
    var record := Record([7], Submitted, [], [], []);
    run := Then(rules, run, c2, OnEnqueue(Submit(0, record)));
    var c3 := Apply(c2, OnEnqueue(Submit(0, record)));
    run, c4 := Stores(rules, run, c3, 0, record, Caller);
    run, c5 := Restarts(rules, run, c4);
    run, d := MeetsStranger(rules, run, c5, record);
  }

  // Recovery compares the stored record with what it has read and gives up.
  lemma MeetsStranger(rules: set<Rule>, run0: seq<Action>, c: Capture, record: Record)
    returns (run: seq<Action>, d: Capture)
    requires RunUnder(rules, run0, c) && c.phase == Recovering(true) && c.disk.pending == Some(record)
    requires c.memory.recoveries == map[0 := Recovery(false, Spools(META))]
    requires !Matches(record, META, c.disk.request, c.disk.response)
    ensures RunUnder(rules, run, d)
    ensures d == c.(memory := c.memory.(recoveries := map[0 := Recovery(false, Aborted(true))]))
    ensures !StartupEnabled(d, StartupDone)
  {
    hide RunUnder;
    run := Then(rules, run0, c, OnRecovery(RecSpools(0)));
    var c1 := Apply(c, OnRecovery(RecSpools(0)));
    run := Then(rules, run, c1, OnRecovery(RecCompare(0)));
    d := Apply(c1, OnRecovery(RecCompare(0)));
    assert 0 in d.memory.recoveries;
  }

  /** Without StillOnDisk: periodic recovery has read the metadata, then the Capture is finalized,
      cleaned up and delivered; recovery finds neither owner nor record and stores a second one. */
  lemma PeriodicRecoveryRecreates() returns (run: seq<Action>, d: Capture, first: Record, second: Record)
    ensures RunUnder({PublishOnce, AwaitBegin, OneEntry}, run, d)
    ensures first in d.history.acked && first.state == Finalized
    ensures d.disk.pending == Some(second) && second.state == RecoveredIncomplete
  {
    hide RunUnder;
    var rules := {PublishOnce, AwaitBegin, OneEntry};
    run := Booted(rules);
    var c1, c2, c4, c5, c6;
    run, c1 := Publishes(rules, run, STARTED, META);
    run, c2 := Registers(rules, run, c1, META);
    run := Then(rules, run, c2, OnRecovery(PeriodicList(0)));
    var c3 := Apply(c2, OnRecovery(PeriodicList(0)));
    run := Then(rules, run, c3, OnRecovery(RecRead(0)));
    c4 := Apply(c3, OnRecovery(RecRead(0)));
    first := Record([9], Finalized, META, [], []);
    run, c5 := Finalizes(rules, run, c4, first);
    run, c6 := Delivers(rules, run, c5, first);
    run := Then(rules, run, c6, OnRecovery(RecOwner(0, true)));
    var c7 := Apply(c6, OnRecovery(RecOwner(0, true)));
    second := Record([8], RecoveredIncomplete, META, [], []);
    run, d := Recreates(rules, run, c7, 0, second);
  }

  /** Start-up recovery has read the metadata of a transaction that is alive. */
  lemma ListsLiveCapture(rules: set<Rule>) returns (run: seq<Action>, d: Capture)
    requires PublishOnce !in rules
    ensures RunUnder(rules, run, d)
    ensures d == Initial(ID).(
                   phase := Recovering(true), disk := Initial(ID).disk.(metadata := Some(META)),
                   memory := FRESH_MEMORY.(txn := Some(Txn(META, Open)), tracked := true,
                                           recoveries := map[0 := Recovery(false, Spools(META))]),
                   history := Initial(ID).history.(begun := Some(META)))
  {
    hide RunUnder;
    var b3, c1, c2;
    run, b3 := HalfBooted(rules);
    run, c1 := Publishes(rules, run, b3, META);
    run, c2 := Registers(rules, run, c1, META);
    run := Then(rules, run, c2, Startup(ListOpen));
    var c3 := Apply(c2, Startup(ListOpen));
    run := Then(rules, run, c3, OnRecovery(RecRead(0)));
    d := Apply(c3, OnRecovery(RecRead(0)));
  }

  /** A live transaction whose files recovery has taken goes on appending and cannot finalize. */
  lemma AppendsIntoNothing(rules: set<Rule>, run0: seq<Action>, c: Capture, record: Record)
    returns (run: seq<Action>, d: Capture)
    requires RunUnder(rules, run0, c) && c.phase == Recovering(true) && c.memory.recoveries == map[]
      && c.memory.enqueues == map[]
    requires c.memory.txn == Some(Txn(META, Open)) && c.disk.metadata.None? && c.disk.request.None?
      && c.history.request == []
    requires c.history.linked == {record} && record.request == []
    ensures RunUnder(rules, run, d)
    ensures d.phase == Running && d.disk.metadata.None? && d.disk.request == Some(BODY) && d.history.request == BODY
    ensures d.memory.txn == Some(Txn(META, Broken)) && d.history.linked == {record}
  {
    hide RunUnder;
    run := Then(rules, run0, c, Startup(StartupDone));
    var c10 := Apply(c, Startup(StartupDone));
    run := Then(rules, run, c10, OnCapture(Append(RequestSpool, BODY)));
    var c11 := Apply(c10, OnCapture(Append(RequestSpool, BODY)));
    assert [] + BODY == BODY;
    run := Then(rules, run, c11, OnCapture(Finalize(0, [9])));
    d := Apply(c11, OnCapture(Finalize(0, [9])));
  }

  /** Without PublishOnce: a Capture begun before start() has returned is listed by start-up
      recovery, which takes the files of the live transaction. What is appended afterwards is
      in no record and stays in a spool that has no metadata. */
  lemma BeginDuringStartup() returns (run: seq<Action>, d: Capture)
    ensures RunUnder({AwaitBegin, OneEntry, StillOnDisk}, run, d)
    ensures d.phase == Running && d.disk.metadata.None? && d.disk.request == Some(BODY) && d.history.request == BODY
    ensures d.memory.txn == Some(Txn(META, Broken))
    ensures d.history.linked != {} && forall r :: r in d.history.linked ==> r.request == []
  {
    hide RunUnder;
    var rules := {AwaitBegin, OneEntry, StillOnDisk};
    var c4, c5, c9;
    run, c4 := ListsLiveCapture(rules);
    var record := Record([8], RecoveredIncomplete, META, [], []);
    run, c5 := Recreates(rules, run, c4, 0, record);
    run, c9 := Sweeps(rules, run, c5, 0);
    run, d := AppendsIntoNothing(rules, run, c9, record);
  }

  // One Capture from its begin to its accepted receipt, with empty spools.
  lemma CaptureDelivered(rules: set<Rule>, run0: seq<Action>, c: Capture, record: Record)
    returns (run: seq<Action>, d: Capture)
    requires RunUnder(rules, run0, c) && PublishOnce !in rules && c.id == ID && c.phase == Running
    requires c.disk == Initial(ID).disk && c.memory == FRESH_MEMORY
    requires record == Record(record.raw, Finalized, record.metadata, [], [])
    ensures RunUnder(rules, run, d) && d.id == ID && d.phase == Running
    ensures d.disk == Initial(ID).disk && d.memory == FRESH_MEMORY
    ensures d.history.linked == c.history.linked + {record} && d.history.acked == c.history.acked + {record}
  {
    hide RunUnder;
    var c1, c2, c3;
    run, c1 := Publishes(rules, run0, c, record.metadata);
    run, c2 := Registers(rules, run, c1, record.metadata);
    run, c3 := Finalizes(rules, run, c2, record);
    run, d := Delivers(rules, run, c3, record);
  }

  /** Without PublishOnce, second part: an ID begun twice is delivered twice, as two records. */
  lemma ReusedId() returns (run: seq<Action>, d: Capture, first: Record, second: Record)
    ensures RunUnder({AwaitBegin, OneEntry, StillOnDisk}, run, d)
    ensures d.history.linked == {first, second} && d.history.acked == {first, second} && first != second
  {
    hide RunUnder;
    var rules := {AwaitBegin, OneEntry, StillOnDisk};
    run := Booted(rules);
    first := Record([7], Finalized, META, [], []);
    second := Record([9], Finalized, BODY, [], []);
    var c;
    run, c := CaptureDelivered(rules, run, STARTED, first);
    run, d := CaptureDelivered(rules, run, c, second);
  }

  /** And while such a second begin is open, the first record is acknowledged already. */
  lemma ReusedIdIsOpen() returns (run: seq<Action>, d: Capture)
    ensures RunUnder({AwaitBegin, OneEntry, StillOnDisk}, run, d)
    ensures d.disk.metadata.Some? && d.history.acked != {}
  {
    hide RunUnder;
    var rules := {AwaitBegin, OneEntry, StillOnDisk};
    run := Booted(rules);
    var first := Record([7], Finalized, META, [], []);
    var c;
    run, c := CaptureDelivered(rules, run, STARTED, first);
    run, d := Publishes(rules, run, c, BODY);
    assert first in d.history.acked;
  }

  // An enqueue that finds nothing and is refused the space ends its recovery.
  lemma Refuses(rules: set<Rule>, run0: seq<Action>, c: Capture, record: Record) returns (run: seq<Action>, d: Capture)
    requires RunUnder(rules, run0, c) && NoQueueFile(c.disk)
    requires c.memory.enqueues == map[0 := Enqueue(record, Recoverer(0), Scan(Pending))]
    requires c.memory.recoveries == map[0 := Recovery(false, Storing(0))]
    ensures RunUnder(rules, run, d)
    ensures d == c.(memory := c.memory.(enqueues := map[], recoveries := map[0 := Recovery(false, Aborted(false))]))
  {
    hide RunUnder;
    run := Then(rules, run0, c, OnEnqueue(EnqScan(0)));
    var c1 := Apply(c, OnEnqueue(EnqScan(0)));
    run := Then(rules, run, c1, OnEnqueue(EnqScan(0)));
    var c2 := Apply(c1, OnEnqueue(EnqScan(0)));
    run := Then(rules, run, c2, OnEnqueue(EnqScan(0)));
    var c3 := Apply(c2, OnEnqueue(EnqScan(0)));
    run := Then(rules, run, c3, OnEnqueue(EnqReserve(0, false)));
    var c4 := Apply(c3, OnEnqueue(EnqReserve(0, false)));
    run := Then(rules, run, c4, OnEnqueue(EnqSettle(0)));
    d := Apply(c4, OnEnqueue(EnqSettle(0)));
    assert d.memory.enqueues == map[];
  }

  /** All rules kept, and yet start-up is stuck: the recovered record is refused, so recovery of the
      open Capture has ended without a record and start-up cannot complete. */
  lemma RefusedStartup() returns (run: seq<Action>, d: Capture)
    ensures RunUnder({PublishOnce, AwaitBegin, OneEntry, StillOnDisk}, run, d)
    ensures d.phase == Recovering(true) && d.memory.recoveries == map[0 := Recovery(false, Aborted(false))]
    ensures d.memory.enqueues == map[] && NeedsRecord(d) && !StartupEnabled(d, StartupDone)
  {
    hide RunUnder;
    var rules := {PublishOnce, AwaitBegin, OneEntry, StillOnDisk};
    var c0, c1, c2;
    run := Booted(rules);
    run, c0 := Publishes(rules, run, STARTED, META);
    run, c1 := Restarts(rules, run, c0);
    run, c2 := FindsNothing(rules, run, c1, 0);
    run := Then(rules, run, c2, OnRecovery(RecStore(0, 0, [8])));
    var c3 := Apply(c2, OnRecovery(RecStore(0, 0, [8])));
    run, d := Refuses(rules, run, c3, Record([8], RecoveredIncomplete, META, [], []));
    assert 0 in d.memory.recoveries;
  }
}
