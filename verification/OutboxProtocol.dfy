/** The crash-safe Capture outbox as a state machine over single file operations, seen from one
    Capture name. Each action is one link, unlink, append or read; between any two actions the
    process may crash, which drops everything in `Memory`. `History` only records what happened. */
module OutboxProtocol {
  import opened Options
  import opened CaptureStore
  import opened RelayReceipt

  datatype Queue = Pending | Processing | Failed

  // A temporary file of atomicWrite in pending/: torn by a crash, or complete.
  datatype Temp = Torn | Whole(record: Record)

  datatype Disk = Disk(
    metadata: Option<Bytes>, request: Option<Bytes>, response: Option<Bytes>,
    pending: Option<Record>, processing: Option<Record>, failed: Option<Record>,
    temps: map<nat, Temp>, quarantine: set<Temp>)

  function Look(d: Disk, q: Queue): Option<Record> {
    match q
    case Pending => d.pending
    case Processing => d.processing
    case Failed => d.failed
  }

  // ---------- in-memory activities ----------

  // beginCapture: look for an existing record, publish the metadata, register the transaction.
  datatype Begin = Searching(metadata: Bytes, at: Queue) | Publishing(metadata: Bytes) | Registering(metadata: Bytes)

  datatype Owner = Caller | Transaction | Recoverer(id: nat)

  // enqueueRecord, including the atomicWrite inside it.
  datatype EnqueueStage =
    | Scan(at: Queue) | Reserve | Create | Fill(temp: nat) | Link(temp: nat)
    | DropLinked(temp: nat) | DropRaced(temp: nat) | RaceScan(at: Queue)
    | Durable | Refused
  datatype Enqueue = Enqueue(record: Record, owner: Owner, stage: EnqueueStage)

  // removeCaptureFiles: which of the three open files are gone already.
  datatype Sweep = Sweep(request: bool, response: bool, metadata: bool)
  datatype OpenFile = RequestSpool | ResponseSpool | Metadata

  datatype TxnStage = Open | Finalizing(task: nat) | TxnSweep(done: Sweep) | Broken
  datatype Txn = Txn(metadata: Bytes, stage: TxnStage)

  datatype RecoveryStage =
    | Listed
    | Owned(metadata: Bytes)
    | Spools(metadata: Bytes)
    | Compare(metadata: Bytes, request: Option<Bytes>, response: Option<Bytes>, at: Queue, found: Option<Record>)
    | Compose(metadata: Bytes, request: Option<Bytes>, response: Option<Bytes>)
    | Storing(task: nat)
    | RecSweep(done: Sweep)
    | Aborted(conflict: bool)
  datatype Recovery = Recovery(periodic: bool, stage: RecoveryStage)

  // The delivery job of this name. A link that finds its target present leads to a comparison.
  datatype Job =
    | Idle
    | Checked | ClaimRace | ClaimLinked
    | Reading | Sending(record: Record) | Acked(record: Record)
    | Failing(record: Record) | FailRace(record: Record) | FailLinked(record: Record)
    | Returning(record: Record, again: bool) | ReturnRace(record: Record, again: bool) | ReturnLinked(record: Record)

  datatype Memory = Memory(
    tracked: bool,                        // the name is in openAtByName
    txn: Option<Txn>,                     // the entry in openCaptures
    begins: map<nat, Begin>, enqueues: map<nat, Enqueue>, recoveries: map<nat, Recovery>,
    job: Job)

  const FRESH_MEMORY := Memory(false, None, map[], map[], map[], Idle)

  datatype Phase = Down | Temps | Return | Recovering(listed: bool) | Running

  datatype History = History(
    begun: Option<Bytes>,                 // open metadata that was published
    submitted: bool,                      // enqueue was called directly
    request: Bytes, response: Bytes,      // everything appended to the spools
    finalized: bool,                      // a finalized record was completely written
    linked: set<Record>,                  // records that ever became visible in pending
    reported: set<Record>,                // records reported durable to a caller
    acked: set<Record>)                   // records whose Relay receipt was accepted

  datatype Capture = Capture(id: string, phase: Phase, disk: Disk, memory: Memory, history: History)

  function Initial(id: string): Capture {
    Capture(id, Down, Disk(None, None, None, None, None, None, map[], {}), FRESH_MEMORY,
            History(None, false, [], [], false, {}, {}, {}))
  }

  predicate Started(c: Capture) {
    c.phase.Recovering? || c.phase == Running
  }

  // ---------- actions ----------

  // One process life: crash, start, recover temporaries, return claims, list open captures.
  datatype StartAction =
    | Crash | Boot | TempLink(t: nat) | TempDrop(t: nat) | TempQuarantine(t: nat) | TempsDone
    | ReturnLink | ReturnDrop | ReturnDone | ListOpen | StartupDone

  // beginCapture and its transaction.
  datatype CaptureAction =
    | BeginCall(i: nat, metadata: Bytes) | BeginSearch(i: nat) | BeginRefuse(i: nat) | BeginPublish(i: nat)
      | BeginRegister(i: nat)
    | Append(side: OpenFile, chunk: Bytes) | Finalize(i: nat, raw: Bytes) | TxnDrop(file: OpenFile) | TxnRelease

  datatype EnqueueAction =
    | Submit(i: nat, record: Record) | EnqScan(i: nat) | EnqReserve(i: nat, ok: bool) | EnqCreate(i: nat, t: nat)
    | EnqFill(i: nat) | EnqLink(i: nat) | EnqDrop(i: nat) | EnqRaceScan(i: nat) | EnqSettle(i: nat)

  // Recovery of one open capture, at start-up or periodically.
  datatype RecoveryAction =
    | PeriodicList(k: nat) | RecRead(k: nat) | RecOwner(k: nat, stale: bool) | RecSpools(k: nat) | RecCompare(k: nat)
    | RecStore(k: nat, i: nat, raw: Bytes) | RecDrop(k: nat, file: OpenFile) | RecRelease(k: nat) | RecGiveUp(k: nat)

  // Drain and delivery. Rescan replaces openAtByName while no mutation is open.
  datatype DeliveryAction =
    | DrainCheck | ClaimLink | ClaimCompare | ClaimDrop
    | JobRead | RelayReply(reply: Reply) | RelayExhausted | AckDrop
    | FailLink | FailCompare | FailDrop | BackLink | BackCompare | BackDrop
    | Rescan

  datatype Action =
    | Startup(s: StartAction) | OnCapture(a: CaptureAction) | OnEnqueue(e: EnqueueAction)
    | OnRecovery(r: RecoveryAction) | OnDelivery(d: DeliveryAction)

  // ---------- start-up ----------

  predicate StartupEnabled(c: Capture, a: StartAction) {
    var d := c.disk;
    match a
    case Crash => c.phase != Down
    case Boot => c.phase == Down
    case TempLink(t) => c.phase == Temps && t in d.temps && d.temps[t].Whole? && d.pending.None?
    case TempDrop(t) => c.phase == Temps && t in d.temps && d.temps[t].Whole? && d.pending == Some(d.temps[t].record)
    case TempQuarantine(t) =>
      c.phase == Temps && t in d.temps
      && (d.temps[t].Torn? || (d.pending.Some? && d.pending.value != d.temps[t].record))
    case TempsDone => c.phase == Temps && d.temps == map[]
    case ReturnLink => c.phase == Return && d.processing.Some? && d.pending.None?
    case ReturnDrop => c.phase == Return && d.processing.Some? && d.pending == d.processing
    case ReturnDone => c.phase == Return && (d.processing.None? || (d.pending.Some? && d.pending != d.processing))
    case ListOpen => c.phase == Recovering(false)
    case StartupDone => c.phase == Recovering(true) && forall k :: k in c.memory.recoveries ==>
      c.memory.recoveries[k].periodic
  }

  function StartupApply(c: Capture, a: StartAction): Capture
    requires StartupEnabled(c, a)
  {
    var d := c.disk;
    match a
    case Crash => c.(phase := Down, memory := FRESH_MEMORY)
    case Boot => c.(phase := Temps)
    case TempLink(t) =>
      c.(disk := d.(pending := Some(d.temps[t].record)),
         history := c.history.(linked := c.history.linked + {d.temps[t].record}))
    case TempDrop(t) => c.(disk := d.(temps := d.temps - {t}))
    case TempQuarantine(t) => c.(disk := d.(temps := d.temps - {t}, quarantine := d.quarantine + {d.temps[t]}))
    case TempsDone => c.(phase := Return)
    case ReturnLink => c.(disk := d.(pending := d.processing))
    case ReturnDrop => c.(disk := d.(processing := None))
    case ReturnDone => c.(phase := Recovering(false), memory := c.memory.(tracked := d.metadata.Some?))
    case ListOpen =>
      c.(phase := Recovering(true),
         memory := if d.metadata.Some? then c.memory.(recoveries := map[0 := Recovery(false, Listed)]) else c.memory)
    case StartupDone => c.(phase := Running)
  }

  // ---------- begin, append, finalize, cleanup ----------

  // This begin has written the metadata and not yet registered its transaction.
  predicate Writing(begins: map<nat, Begin>, i: nat) {
    i in begins && begins[i].Registering?
  }

  predicate Unsynced(c: Capture) {
    exists i :: i in c.memory.begins && Writing(c.memory.begins, i)
  }

  predicate MayDrop(done: Sweep, file: OpenFile) {
    match file
    case RequestSpool => !done.request
    case ResponseSpool => !done.response
    case Metadata => done.request && done.response && !done.metadata
  }

  function Dropped(done: Sweep, file: OpenFile): Sweep {
    match file
    case RequestSpool => done.(request := true)
    case ResponseSpool => done.(response := true)
    case Metadata => done.(metadata := true)
  }

  function Without(d: Disk, file: OpenFile): Disk {
    match file
    case RequestSpool => d.(request := None)
    case ResponseSpool => d.(response := None)
    case Metadata => d.(metadata := None)
  }

  predicate CaptureEnabled(c: Capture, a: CaptureAction) {
    var d, m := c.disk, c.memory;
    match a
    case BeginCall(i, _) => Started(c) && i !in m.begins && m.txn.None?
    case BeginSearch(i) => i in m.begins && m.begins[i].Searching?
    case BeginRefuse(i) => i in m.begins && m.begins[i].Publishing?
    case BeginPublish(i) => i in m.begins && m.begins[i].Publishing?
    case BeginRegister(i) => i in m.begins && m.begins[i].Registering?
    case Append(side, chunk) => side != Metadata && |chunk| > 0 && m.txn.Some? && m.txn.value.stage == Open
    case Finalize(i, _) => m.txn.Some? && m.txn.value.stage == Open && i !in m.enqueues
    case TxnDrop(file) => m.txn.Some? && m.txn.value.stage.TxnSweep? && MayDrop(m.txn.value.stage.done, file)
    case TxnRelease => m.txn.Some? && m.txn.value.stage.TxnSweep? && m.txn.value.stage.done.metadata
  }

  function CaptureApply(c: Capture, a: CaptureAction): Capture
    requires CaptureEnabled(c, a)
  {
    var d, m, h := c.disk, c.memory, c.history;
    match a
    case BeginCall(i, metadata) => c.(memory := m.(begins := m.begins[i := Searching(metadata, Pending)]))
    case BeginSearch(i) =>
      var b := m.begins[i];
      c.(memory := m.(begins :=
        if Look(d, b.at).Some? then m.begins - {i}
        else m.begins[i := match b.at
                           case Pending => Searching(b.metadata, Processing)
                           case Processing => Searching(b.metadata, Failed)
                           case Failed => Publishing(b.metadata)]))
    case BeginRefuse(i) => c.(memory := m.(begins := m.begins - {i}))
    case BeginPublish(i) =>
      if d.metadata.Some? then c.(memory := m.(begins := m.begins - {i}))
      else
        c.(disk := d.(metadata := Some(m.begins[i].metadata)),
           memory := m.(begins := m.begins[i := Registering(m.begins[i].metadata)]),
           history := h.(begun := Some(m.begins[i].metadata)))
    case BeginRegister(i) =>
      c.(memory := m.(begins := m.begins - {i}, txn := Some(Txn(m.begins[i].metadata, Open)), tracked := true))
    case Append(side, chunk) =>
      if side == RequestSpool then
        c.(disk := d.(request := Some(OrEmpty(d.request) + chunk)), history := h.(request := h.request + chunk))
      else
        c.(disk := d.(response := Some(OrEmpty(d.response) + chunk)), history := h.(response := h.response + chunk))
    case Finalize(i, raw) =>
      var t := m.txn.value;
      if d.metadata != Some(t.metadata) then c.(memory := m.(txn := Some(t.(stage := Broken))))
      else
        var record := Record(raw, Finalized, t.metadata, OrEmpty(d.request), OrEmpty(d.response));
        c.(memory := m.(txn := Some(t.(stage := Finalizing(i))),
                        enqueues := m.enqueues[i := Enqueue(record, Transaction, Scan(Pending))]))
    case TxnDrop(file) =>
      var t := m.txn.value;
      c.(disk := Without(d, file), memory := m.(txn := Some(t.(stage := TxnSweep(Dropped(t.stage.done, file))))))
    case TxnRelease => c.(memory := m.(txn := None, tracked := false))
  }

  // ---------- enqueue ----------

  predicate EnqueueEnabled(c: Capture, a: EnqueueAction) {
    var d, m := c.disk, c.memory;
    match a
    case Submit(i, _) => Started(c) && i !in m.enqueues
    case EnqScan(i) => i in m.enqueues && m.enqueues[i].stage.Scan?
    case EnqReserve(i, _) => i in m.enqueues && m.enqueues[i].stage.Reserve?
    case EnqCreate(i, t) => i in m.enqueues && m.enqueues[i].stage.Create? && t !in d.temps
    case EnqFill(i) => i in m.enqueues && m.enqueues[i].stage.Fill?
    case EnqLink(i) => i in m.enqueues && m.enqueues[i].stage.Link?
    case EnqDrop(i) => i in m.enqueues && (m.enqueues[i].stage.DropLinked? || m.enqueues[i].stage.DropRaced?)
    case EnqRaceScan(i) => i in m.enqueues && m.enqueues[i].stage.RaceScan?
    case EnqSettle(i) => i in m.enqueues && (m.enqueues[i].stage.Durable? || m.enqueues[i].stage.Refused?)
  }

  function Advance(c: Capture, i: nat, stage: EnqueueStage): Capture
    requires i in c.memory.enqueues
  {
    c.(memory := c.memory.(enqueues := c.memory.enqueues[i := c.memory.enqueues[i].(stage := stage)]))
  }

  /** The caller of a finished enqueue continues: a transaction or a recovery starts removing the
      open files after a durable outcome and stops after a refusal. */
  function Continue(m: Memory, owner: Owner, durable: bool): Memory {
    match owner
    case Caller => m
    case Transaction =>
      if m.txn.None? then m
      else m.(txn := Some(m.txn.value.(stage := if durable then TxnSweep(Sweep(false, false, false)) else Broken)))
    case Recoverer(k) =>
      if k !in m.recoveries then m
      else m.(recoveries := m.recoveries[k := m.recoveries[k].(stage :=
        if durable then RecSweep(Sweep(false, false, false)) else Aborted(false))])
  }

  function EnqueueApply(c: Capture, a: EnqueueAction): Capture
    requires EnqueueEnabled(c, a)
  {
    var d, m, h := c.disk, c.memory, c.history;
    match a
    case Submit(i, record) =>
      c.(memory := m.(enqueues := m.enqueues[i := Enqueue(record, Caller, Scan(Pending))]),
         history := h.(submitted := true))
    case EnqScan(i) =>
      var e := m.enqueues[i];
      var seen := Look(d, e.stage.at);
      if seen.Some? then Advance(c, i, if seen.value == e.record then Durable else Refused)
      else Advance(c, i, match e.stage.at case Pending => Scan(Processing) case Processing => Scan(Failed)
        case Failed => Reserve)
    case EnqReserve(i, ok) => Advance(c, i, if ok then Create else Refused)
    case EnqCreate(i, t) => Advance(c.(disk := d.(temps := d.temps[t := Torn])), i, Fill(t))
    case EnqFill(i) =>
      var e := m.enqueues[i];
      Advance(c.(disk := d.(temps := d.temps[e.stage.temp := Whole(e.record)]),
                 history := h.(finalized := h.finalized || e.record.state == Finalized)), i, Link(e.stage.temp))
    case EnqLink(i) =>
      var e := m.enqueues[i];
      if d.pending.Some? then Advance(c, i, DropRaced(e.stage.temp))
      else Advance(c.(disk := d.(pending := Some(e.record)), history := h.(linked := h.linked + {e.record})), i,
                   DropLinked(e.stage.temp))
    case EnqDrop(i) =>
      var e := m.enqueues[i];
      Advance(c.(disk := d.(temps := d.temps - {e.stage.temp})), i,
              if e.stage.DropLinked? then Durable else RaceScan(Pending))
    case EnqRaceScan(i) =>
      var e := m.enqueues[i];
      var seen := Look(d, e.stage.at);
      if seen.Some? then Advance(c, i, if seen.value == e.record then Durable else Refused)
      else Advance(c, i, match e.stage.at case Pending => RaceScan(Processing) case Processing => RaceScan(Failed)
        case Failed => Refused)
    case EnqSettle(i) =>
      var e := m.enqueues[i];
      c.(memory := Continue(m.(enqueues := m.enqueues - {i}), e.owner, e.stage.Durable?),
         history := if e.stage.Durable? then h.(reported := h.reported + {e.record}) else h)
  }

  // ---------- recovery ----------

  predicate RecoveryEnabled(c: Capture, a: RecoveryAction) {
    var m := c.memory;
    match a
    case PeriodicList(k) => c.phase == Running && c.disk.metadata.Some? && k !in m.recoveries
    case RecRead(k) => k in m.recoveries && m.recoveries[k].stage.Listed?
    // Metadata that a running begin has just written is younger than maxOpenAgeMs.
    case RecOwner(k, stale) => k in m.recoveries && m.recoveries[k].stage.Owned? && (stale ==> !Unsynced(c))
    case RecSpools(k) => k in m.recoveries && m.recoveries[k].stage.Spools?
    case RecCompare(k) => k in m.recoveries && m.recoveries[k].stage.Compare?
    case RecStore(k, i, _) => k in m.recoveries && m.recoveries[k].stage.Compose? && i !in m.enqueues
    case RecDrop(k, file) => k in m.recoveries && m.recoveries[k].stage.RecSweep?
      && MayDrop(m.recoveries[k].stage.done, file)
    case RecRelease(k) => k in m.recoveries && m.recoveries[k].stage.RecSweep? && m.recoveries[k].stage.done.metadata
    case RecGiveUp(k) => k in m.recoveries && m.recoveries[k].periodic && m.recoveries[k].stage.Aborted?
  }

  function Restage(c: Capture, k: nat, stage: RecoveryStage): Capture
    requires k in c.memory.recoveries
  {
    c.(memory := c.memory.(recoveries := c.memory.recoveries[k := c.memory.recoveries[k].(stage := stage)]))
  }

  function EndRecovery(c: Capture, k: nat): Capture {
    c.(memory := c.memory.(recoveries := c.memory.recoveries - {k}))
  }

  function RecoveryApply(c: Capture, a: RecoveryAction): Capture
    requires RecoveryEnabled(c, a)
  {
    var d, m := c.disk, c.memory;
    match a
    case PeriodicList(k) => c.(memory := m.(recoveries := m.recoveries[k := Recovery(true, Listed)]))
    case RecRead(k) =>
      if d.metadata.None? then EndRecovery(c, k)
      else Restage(c, k, if m.recoveries[k].periodic then Owned(d.metadata.value) else Spools(d.metadata.value))
    case RecOwner(k, stale) =>
      if m.txn.Some? || !stale then EndRecovery(c, k) else Restage(c, k, Spools(m.recoveries[k].stage.metadata))
    case RecSpools(k) =>
      Restage(c, k, Compare(m.recoveries[k].stage.metadata, d.request, d.response, Pending, None))
    case RecCompare(k) =>
      var s := m.recoveries[k].stage;
      var seen := Look(d, s.at);
      if seen.Some? && (!Matches(seen.value, s.metadata, s.request, s.response)
        || (s.found.Some? && s.found != seen)) then
        Restage(c, k, Aborted(true))
      else
        var found := if seen.Some? then seen else s.found;
        Restage(c, k, match s.at
                      case Pending => s.(at := Processing, found := found)
                      case Processing => s.(at := Failed, found := found)
                      case Failed =>
                        if found.Some? then RecSweep(Sweep(false, false, false))
                        else Compose(s.metadata, s.request, s.response))
    case RecStore(k, i, raw) =>
      var s := m.recoveries[k].stage;
      var record := Record(raw, RecoveredIncomplete, s.metadata, OrEmpty(s.request), OrEmpty(s.response));
      Restage(c.(memory := m.(enqueues := m.enqueues[i := Enqueue(record, Recoverer(k), Scan(Pending))])), k,
              Storing(i))
    case RecDrop(k, file) =>
      Restage(c.(disk := Without(d, file)), k, RecSweep(Dropped(m.recoveries[k].stage.done, file)))
    case RecRelease(k) => EndRecovery(c.(memory := m.(tracked := false)), k)
    case RecGiveUp(k) => EndRecovery(c, k)
  }

  // ---------- drain and delivery ----------

  predicate QuietScan(c: Capture) {
    var m := c.memory;
    m.begins == map[] && m.enqueues == map[] && m.recoveries == map[]
    && (m.txn.Some? ==> m.txn.value.stage == Open || m.txn.value.stage == Broken)
  }

  predicate DeliveryEnabled(c: Capture, a: DeliveryAction) {
    var d, j := c.disk, c.memory.job;
    match a
    case DrainCheck => Started(c) && j == Idle && d.pending.Some? && !c.memory.tracked
    case ClaimLink => j == Checked
    case ClaimCompare => j == ClaimRace
    case ClaimDrop => j == ClaimLinked
    case JobRead => j == Reading
    case RelayReply(_) => j.Sending?
    case RelayExhausted => j.Sending?
    case AckDrop => j.Acked?
    case FailLink => j.Failing?
    case FailCompare => j.FailRace?
    case FailDrop => j.FailLinked?
    case BackLink => j.Returning?
    case BackCompare => j.ReturnRace?
    case BackDrop => j.ReturnLinked?
    case Rescan => c.phase == Running && QuietScan(c)
  }

  function WithJob(c: Capture, j: Job): Capture {
    c.(memory := c.memory.(job := j))
  }

  function DeliveryApply(c: Capture, a: DeliveryAction): Capture
    requires DeliveryEnabled(c, a)
  {
    var d, j := c.disk, c.memory.job;
    match a
    case DrainCheck => WithJob(c, Checked)
    case ClaimLink =>
      if d.pending.None? then WithJob(c, Idle)
      else if d.processing.Some? then WithJob(c, ClaimRace)
      else WithJob(c.(disk := d.(processing := d.pending)), ClaimLinked)
    case ClaimCompare =>
      WithJob(c, if d.pending.Some? && d.pending == d.processing then ClaimLinked else Idle)
    case ClaimDrop =>
      if d.pending.None? then WithJob(c, Idle) else WithJob(c.(disk := d.(pending := None)), Reading)
    case JobRead => WithJob(c, if d.processing.Some? then Sending(d.processing.value) else Idle)
    case RelayReply(reply) =>
      (match Classify(reply, c.id, j.record.raw)
       case Accepted => WithJob(c.(history := c.history.(acked := c.history.acked + {j.record})), Acked(j.record))
       case Permanent => WithJob(c, Failing(j.record))
       case TryAgain => c)
    case RelayExhausted => WithJob(c, Returning(j.record, false))
    case AckDrop => WithJob(c.(disk := d.(processing := None)), Idle)
    case FailLink =>
      if d.processing.None? then WithJob(c, Idle)
      else if d.failed.Some? then WithJob(c, FailRace(j.record))
      else WithJob(c.(disk := d.(failed := d.processing)), FailLinked(j.record))
    case FailCompare =>
      // A refused move is caught by the attempt loop, which sends the record again.
      WithJob(c, if d.processing.Some? && d.processing == d.failed then FailLinked(j.record) else Sending(j.record))
    case FailDrop => WithJob(c.(disk := d.(processing := None)), Idle)
    case BackLink =>
      if d.processing.None? then WithJob(c, Idle)
      else if d.pending.Some? then WithJob(c, ReturnRace(j.record, j.again))
      else WithJob(c.(disk := d.(pending := d.processing)), ReturnLinked(j.record))
    case BackCompare =>
      if d.processing.Some? && d.processing == d.pending then WithJob(c, ReturnLinked(j.record))
      else WithJob(c, if j.again then Idle else Returning(j.record, true))
    case BackDrop => WithJob(c.(disk := d.(processing := None)), Idle)
    case Rescan => c.(memory := c.memory.(tracked := d.metadata.Some?))
  }

  // ---------- one step and runs ----------

  predicate Enabled(c: Capture, a: Action) {
    match a
    case Startup(s) => StartupEnabled(c, s)
    case OnCapture(b) => CaptureEnabled(c, b)
    case OnEnqueue(e) => EnqueueEnabled(c, e)
    case OnRecovery(r) => RecoveryEnabled(c, r)
    case OnDelivery(d) => DeliveryEnabled(c, d)
  }

  function Apply(c: Capture, a: Action): Capture
    requires Enabled(c, a)
  {
    match a
    case Startup(s) => StartupApply(c, s)
    case OnCapture(b) => CaptureApply(c, b)
    case OnEnqueue(e) => EnqueueApply(c, e)
    case OnRecovery(r) => RecoveryApply(c, r)
    case OnDelivery(d) => DeliveryApply(c, d)
  }

  /** `run` is a schedule of actions, each enabled when its turn comes, that leads from c to d. */
  predicate Leads(c: Capture, run: seq<Action>, d: Capture)
    decreases |run|
  {
    if run == [] then c == d
    else Enabled(c, run[0]) && Leads(Apply(c, run[0]), run[1..], d)
  }
}
