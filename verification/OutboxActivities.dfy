/** What a begin, an enqueue, a finalization and a recovery come to when nobody disturbs them, from the files
    they find. */
module OutboxActivities {
  import opened Options
  import opened CaptureStore
  import opened RelayReceipt
  import opened OutboxProtocol

  lemma {:induction false} LeadsThen(c: Capture, run: seq<Action>, m: Capture, a: Action)
    requires Leads(c, run, m) && Enabled(m, a)
    ensures Leads(c, run + [a], Apply(m, a))
    decreases |run|
  {
    hide Apply, Enabled;
    if run == [] {
      assert run + [a] == [a] && [a][1..] == [];
      assert Leads(Apply(m, a), [], Apply(m, a));
    } else {
      LeadsThen(Apply(c, run[0]), run[1..], m, a);
      assert (run + [a])[1..] == run[1..] + [a];
    }
  }

  // The record in the first directory that has one, in the order in which they are searched.
  function Stored(d: Disk): Option<Record> {
    if d.pending.Some? then d.pending else if d.processing.Some? then d.processing else d.failed
  }

  // ---------- begin ----------

  /** A begin that finds a record of its ID anywhere ends without a trace; otherwise it may publish. */
  lemma BeginSearches(c: Capture, i: nat, metadata: Bytes) returns (run: seq<Action>, d: Capture)
    requires i in c.memory.begins && c.memory.begins[i] == Searching(metadata, Pending)
    ensures Leads(c, run, d)
    ensures d == c.(memory := c.memory.(begins :=
      if Stored(c.disk).Some? then c.memory.begins - {i} else c.memory.begins[i := Publishing(metadata)]))
  {
    var a := OnCapture(BeginSearch(i));
    run, d := [a], Apply(c, a);
    LeadsThen(c, [], c, a);
    assert [] + [a] == [a];
    if c.disk.pending.None? {
      LeadsThen(c, run, d, a);
      run, d := run + [a], Apply(d, a);
      if c.disk.processing.None? {
        LeadsThen(c, run, d, a);
        run, d := run + [a], Apply(d, a);
      }
    }
  }

  /** Publishing writes the metadata when there is none, and never replaces any. */
  lemma PublishingMeans(c: Capture, i: nat, metadata: Bytes)
    requires i in c.memory.begins && c.memory.begins[i] == Publishing(metadata)
    ensures Enabled(c, OnCapture(BeginPublish(i)))
    ensures var d := Apply(c, OnCapture(BeginPublish(i)));
      && d.disk == c.disk.(metadata := if c.disk.metadata.Some? then c.disk.metadata else Some(metadata))
      && (c.disk.metadata.Some? ==> i !in d.memory.begins && d.memory.txn == c.memory.txn)
      && (c.disk.metadata.None? ==> i in d.memory.begins && d.memory.begins[i] == Registering(metadata))
  {
  }

  // ---------- enqueue ----------

  /** An enqueue is decided by the first record found under its name: the same bytes are durable already,
      others are refused, and only a free name goes on to ask for space. No file changes. */
  lemma EnqueueSearches(c: Capture, i: nat) returns (run: seq<Action>, d: Capture)
    requires i in c.memory.enqueues && c.memory.enqueues[i].stage == Scan(Pending)
    ensures Leads(c, run, d)
    ensures d == Advance(c, i, match Stored(c.disk)
                               case None => Reserve
                               case Some(r) => if r == c.memory.enqueues[i].record then Durable else Refused)
  {
    var a := OnEnqueue(EnqScan(i));
    assert Leads(c, [], c);
    hide Leads;
    run, d := [] + [a], ScanStep(c, i);
    LeadsThen(c, [], c, a);
    if c.disk.pending.None? {
      LeadsThen(c, run, d, a);
      run, d := run + [a], ScanStep(d, i);
      if c.disk.processing.None? {
        LeadsThen(c, run, d, a);
        run, d := run + [a], ScanStep(d, i);
      }
    }
  }

  // One look of the first search.
  function ScanStep(c: Capture, i: nat): (d: Capture)
    requires i in c.memory.enqueues && c.memory.enqueues[i].stage.Scan?
    ensures Enabled(c, OnEnqueue(EnqScan(i))) && d == Apply(c, OnEnqueue(EnqScan(i)))
  {
    var at, seen := c.memory.enqueues[i].stage.at, Look(c.disk, c.memory.enqueues[i].stage.at);
    Advance(c, i, if seen.Some? then if seen.value == c.memory.enqueues[i].record then Durable else Refused
                  else if at.Pending? then Scan(Processing) else if at.Processing? then Scan(Failed) else Reserve)
  }

  /** An enqueue that has lost the race for the name is durable if the winner wrote the same record, and
      refused in every other case, also when nothing is found any more. */
  lemma LostRaceIsDecided(c: Capture, i: nat) returns (run: seq<Action>, d: Capture)
    requires i in c.memory.enqueues && c.memory.enqueues[i].stage == RaceScan(Pending)
    ensures Leads(c, run, d)
    ensures d == Advance(c, i, if Stored(c.disk) == Some(c.memory.enqueues[i].record) then Durable else Refused)
  {
    var a := OnEnqueue(EnqRaceScan(i));
    assert Leads(c, [], c);
    hide Leads;
    run, d := [] + [a], RaceStep(c, i);
    LeadsThen(c, [], c, a);
    if c.disk.pending.None? {
      LeadsThen(c, run, d, a);
      run, d := run + [a], RaceStep(d, i);
      if c.disk.processing.None? {
        LeadsThen(c, run, d, a);
        run, d := run + [a], RaceStep(d, i);
      }
    }
  }

  // One look of the second search.
  function RaceStep(c: Capture, i: nat): (d: Capture)
    requires i in c.memory.enqueues && c.memory.enqueues[i].stage.RaceScan?
    ensures Enabled(c, OnEnqueue(EnqRaceScan(i))) && d == Apply(c, OnEnqueue(EnqRaceScan(i)))
  {
    var at, seen := c.memory.enqueues[i].stage.at, Look(c.disk, c.memory.enqueues[i].stage.at);
    Advance(c, i, if seen.Some? then if seen.value == c.memory.enqueues[i].record then Durable else Refused
                  else if at.Pending? then RaceScan(Processing)
                  else if at.Processing? then RaceScan(Failed) else Refused)
  }

  /** A granted enqueue leaves its record in pending and no temporary file; a name taken meanwhile is left as it
      is and searched again. */
  lemma EnqueueStores(c: Capture, i: nat, t: nat) returns (run: seq<Action>, d: Capture)
    requires i in c.memory.enqueues && c.memory.enqueues[i].stage == Reserve && t !in c.disk.temps
    ensures Leads(c, run, d)
    ensures d.disk
      == c.disk.(pending := if c.disk.pending.Some? then c.disk.pending else Some(c.memory.enqueues[i].record))
    ensures d.memory == Advance(c, i, if c.disk.pending.Some? then RaceScan(Pending) else Durable).memory
    ensures d.history.linked
      == c.history.linked + (if c.disk.pending.Some? then {} else {c.memory.enqueues[i].record})
  {
    var reserve, create := OnEnqueue(EnqReserve(i, true)), OnEnqueue(EnqCreate(i, t));
    var fill, link, drop := OnEnqueue(EnqFill(i)), OnEnqueue(EnqLink(i)), OnEnqueue(EnqDrop(i));
    assert Filled(c, i, t).memory.enqueues[i].stage == Link(t);
    var c3 := Filled(c, i, t);
    assert Linked(c3, i, t).memory.enqueues[i].stage in {DropLinked(t), DropRaced(t)};
    var c4 := Linked(c3, i, t);
    d := Unlinked(c4, i, t);
    run := [] + [reserve] + [create] + [fill];
    StoresWhat(c, i, t);
    hide Leads, Enabled, Apply, Filled, Linked, Unlinked;
    FilledLeads(c, i, t);
    LeadsThen(c, run, c3, link);
    LeadsThen(c, run + [link], c4, drop);
    run := run + [link] + [drop];
  }

  lemma StoresWhat(c: Capture, i: nat, t: nat)
    requires i in c.memory.enqueues && t !in c.disk.temps
    ensures var record, taken := c.memory.enqueues[i].record, c.disk.pending.Some?;
      var d := Unlinked(Linked(Filled(c, i, t), i, t), i, t);
      && d.disk == c.disk.(pending := if taken then c.disk.pending else Some(record))
      && d.memory == Advance(c, i, if taken then RaceScan(Pending) else Durable).memory
      && d.history.linked == c.history.linked + (if taken then {} else {record})
  {
    assert c.disk.temps[t := Whole(c.memory.enqueues[i].record)] - {t} == c.disk.temps;
    hide Apply, Enabled;
  }

  // The temporary file written completely.
  function Filled(c: Capture, i: nat, t: nat): Capture
    requires i in c.memory.enqueues
  {
    var record := c.memory.enqueues[i].record;
    Advance(c.(disk := c.disk.(temps := c.disk.temps[t := Whole(record)]),
               history := c.history.(finalized := c.history.finalized || record.state == Finalized)), i, Link(t))
  }

  function Reserved(c: Capture, i: nat): (d: Capture)
    requires i in c.memory.enqueues && c.memory.enqueues[i].stage == Reserve
    ensures Enabled(c, OnEnqueue(EnqReserve(i, true))) && d == Apply(c, OnEnqueue(EnqReserve(i, true)))
  {
    Advance(c, i, Create)
  }

  function Created(c: Capture, i: nat, t: nat): (d: Capture)
    requires i in c.memory.enqueues && c.memory.enqueues[i].stage == Create && t !in c.disk.temps
    ensures Enabled(c, OnEnqueue(EnqCreate(i, t))) && d == Apply(c, OnEnqueue(EnqCreate(i, t)))
  {
    Advance(c.(disk := c.disk.(temps := c.disk.temps[t := Torn])), i, Fill(t))
  }

  lemma FillsLast(c: Capture, i: nat, t: nat)
    requires i in c.memory.enqueues && c.memory.enqueues[i].stage == Reserve && t !in c.disk.temps
    ensures var b := Created(Reserved(c, i), i, t);
      Enabled(b, OnEnqueue(EnqFill(i))) && Apply(b, OnEnqueue(EnqFill(i))) == Filled(c, i, t)
  {
  }

  lemma FilledLeads(c: Capture, i: nat, t: nat)
    requires i in c.memory.enqueues && c.memory.enqueues[i].stage == Reserve && t !in c.disk.temps
    ensures Leads(c, [] + [OnEnqueue(EnqReserve(i, true))] + [OnEnqueue(EnqCreate(i, t))] + [OnEnqueue(EnqFill(i))],
                  Filled(c, i, t))
  {
    var reserve, create, fill := OnEnqueue(EnqReserve(i, true)), OnEnqueue(EnqCreate(i, t)), OnEnqueue(EnqFill(i));
    assert Leads(c, [], c);
    var c1 := Reserved(c, i);
    var c2 := Created(c1, i, t);
    FillsLast(c, i, t);
    hide Leads, Enabled, Apply, Filled;
    LeadsThen(c, [], c, reserve);
    LeadsThen(c, [] + [reserve], c1, create);
    LeadsThen(c, [] + [reserve] + [create], c2, fill);
  }

  function Linked(c: Capture, i: nat, t: nat): (d: Capture)
    requires i in c.memory.enqueues && c.memory.enqueues[i].stage == Link(t)
    ensures Enabled(c, OnEnqueue(EnqLink(i))) && d == Apply(c, OnEnqueue(EnqLink(i)))
  {
    var record := c.memory.enqueues[i].record;
    if c.disk.pending.Some? then Advance(c, i, DropRaced(t))
    else Advance(c.(disk := c.disk.(pending := Some(record)),
                    history := c.history.(linked := c.history.linked + {record})), i, DropLinked(t))
  }

  function Unlinked(c: Capture, i: nat, t: nat): (d: Capture)
    requires i in c.memory.enqueues
    requires c.memory.enqueues[i].stage == DropLinked(t) || c.memory.enqueues[i].stage == DropRaced(t)
    ensures Enabled(c, OnEnqueue(EnqDrop(i))) && d == Apply(c, OnEnqueue(EnqDrop(i)))
  {
    Advance(c.(disk := c.disk.(temps := c.disk.temps - {t})), i,
            if c.memory.enqueues[i].stage.DropLinked? then Durable else RaceScan(Pending))
  }

  // ---------- finalize ----------

  /** A finalization composes its record from the files on disk as they are, and only while the metadata there
      is still its own; otherwise the transaction is over and nothing is enqueued. */
  lemma FinalizeComposes(c: Capture, i: nat, raw: Bytes)
    requires Enabled(c, OnCapture(Finalize(i, raw)))
    ensures var d := Apply(c, OnCapture(Finalize(i, raw)));
      && d.disk == c.disk && d.history == c.history && d.memory.txn.Some?
      && (c.disk.metadata == Some(c.memory.txn.value.metadata) ==>
            && d.memory.txn.value.stage == Finalizing(i)
            && d.memory.enqueues == c.memory.enqueues[i := Enqueue(
                 Record(raw, Finalized, c.disk.metadata.value, OrEmpty(c.disk.request), OrEmpty(c.disk.response)),
                 Transaction, Scan(Pending))])
      && (c.disk.metadata != Some(c.memory.txn.value.metadata) ==>
            d.memory.txn.value.stage == Broken && d.memory.enqueues == c.memory.enqueues)
  {
  }

  // ---------- recovery ----------

  // The stored record, if there is one, stands for these files.
  predicate Fits(stored: Option<Record>, metadata: Bytes, request: Option<Bytes>, response: Option<Bytes>) {
    stored.Some? ==> Matches(stored.value, metadata, request, response)
  }

  predicate SameOrNone(a: Option<Record>, b: Option<Record>) {
    a.Some? && b.Some? ==> a == b
  }

  /** Every record that is stored stands for the open files, and there is at most one. */
  predicate NoStranger(d: Disk, metadata: Bytes) {
    && Fits(d.pending, metadata, d.request, d.response) && Fits(d.processing, metadata, d.request, d.response)
    && Fits(d.failed, metadata, d.request, d.response)
    && SameOrNone(d.pending, d.processing) && SameOrNone(d.pending, d.failed) && SameOrNone(d.processing, d.failed)
  }

  /** Main result: a recovery that has read the metadata looks into all three directories. A record that does not
      stand for the open files, or two different ones, end it with a conflict; one that does lets it remove the
      open files; none makes it compose a record from the spools it has read. No file changes meanwhile. */
  lemma RecoveryDecides(c: Capture, k: nat, metadata: Bytes) returns (run: seq<Action>, d: Capture)
    requires k in c.memory.recoveries && c.memory.recoveries[k].stage == Spools(metadata)
    ensures Leads(c, run, d)
    ensures d == Restage(c, k, if !NoStranger(c.disk, metadata) then Aborted(true)
                               else if Stored(c.disk).Some? then RecSweep(Sweep(false, false, false))
                               else Compose(metadata, c.disk.request, c.disk.response))
  {
    var read, compare := OnRecovery(RecSpools(k)), OnRecovery(RecCompare(k));
    assert Leads(c, [], c);
    LeadsThen(c, [], c, read);
    run, d := [] + [read], Comparing(c, k, metadata, Pending, None);
    hide Leads, Matches, Apply, Enabled, Restage;
    LooksOnce(c, k, metadata, Pending, None);
    LeadsThen(c, run, d, compare);
    run, d := run + [compare], Apply(d, compare);
    if Goes(c.disk, metadata, Pending, None) {
      LooksOnce(c, k, metadata, Processing, c.disk.pending);
      LeadsThen(c, run, d, compare);
      run, d := run + [compare], Apply(d, compare);
      var found := if c.disk.processing.Some? then c.disk.processing else c.disk.pending;
      if Goes(c.disk, metadata, Processing, c.disk.pending) {
        LooksOnce(c, k, metadata, Failed, found);
        LeadsThen(c, run, d, compare);
        run, d := run + [compare], Apply(d, compare);
      }
    }
  }

  function Comparing(c: Capture, k: nat, metadata: Bytes, at: Queue, found: Option<Record>): Capture
    requires k in c.memory.recoveries
  {
    Restage(c, k, Compare(metadata, c.disk.request, c.disk.response, at, found))
  }

  // The record of this directory gives no reason to stop.
  predicate Goes(d: Disk, metadata: Bytes, at: Queue, found: Option<Record>) {
    Fits(Look(d, at), metadata, d.request, d.response) && SameOrNone(found, Look(d, at))
  }

  // One comparison: the record found there against the files read and against the one found before.
  lemma LooksOnce(c: Capture, k: nat, metadata: Bytes, at: Queue, found: Option<Record>)
    requires k in c.memory.recoveries
    ensures var now := if Look(c.disk, at).Some? then Look(c.disk, at) else found;
      var b := Comparing(c, k, metadata, at, found);
      && Enabled(b, OnRecovery(RecCompare(k)))
      && Apply(b, OnRecovery(RecCompare(k))) ==
         if !Goes(c.disk, metadata, at, found) then Restage(c, k, Aborted(true))
         else match at
              case Pending => Comparing(c, k, metadata, Processing, now)
              case Processing => Comparing(c, k, metadata, Failed, now)
              case Failed =>
                Restage(c, k, if now.Some? then RecSweep(Sweep(false, false, false))
                              else Compose(metadata, c.disk.request, c.disk.response))
  {
    hide Matches;
  }
}
