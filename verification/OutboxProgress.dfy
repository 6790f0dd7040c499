/** When a crashed outbox can run again: always, unless a record has to be recovered and its admission
    is refused, by its size or by the capacity. A refused start-up never gets past recovery, however
    often it is repeated. */
module OutboxProgress {
  import opened Options
  import opened CaptureStore
  import opened RelayReceipt
  import opened OutboxProtocol
  import opened OutboxSafety
  import opened OutboxConvergence

  /** Nothing but start-up itself is active. */
  ghost predicate StartingUp(c: Capture) {
    Sound(c) && Undisturbed(c)
  }

  predicate Undisturbed(c: Capture) {
    && c.memory.job == Idle && c.memory.begins == map[] && c.memory.txn.None?
    && match c.phase
       case Running => true
       case Recovering(true) =>
         if c.memory.recoveries == map[] then c.memory.enqueues == map[]
         else c.memory.recoveries.Keys == {0} && !c.memory.recoveries[0].periodic
              && !c.memory.recoveries[0].stage.Aborted?
              && (forall i :: i in c.memory.enqueues ==> c.memory.enqueues[i].stage != Refused)
       case _ => c.memory.recoveries == map[] && c.memory.enqueues == map[]
  }

  // Fresh metadata text for a recovered record; any serialisation will do.
  const LINE: Bytes := []

  ghost function SomeTemp(d: Disk): nat
    requires d.temps != map[]
    ensures SomeTemp(d) in d.temps
  {
    var t :| t in d.temps;
    t
  }

  ghost function TempsNext(c: Capture): StartAction
    requires c.phase == Temps
  {
    if c.disk.temps == map[] then TempsDone
    else
      var t := SomeTemp(c.disk);
      if c.disk.temps[t].Torn? then TempQuarantine(t)
      else if c.disk.pending.None? then TempLink(t)
      else if c.disk.pending == Some(c.disk.temps[t].record) then TempDrop(t)
      else TempQuarantine(t)
  }

  function ReturnNext(c: Capture): StartAction {
    if c.disk.processing.None? then ReturnDone
    else if c.disk.pending.None? then ReturnLink
    else if c.disk.pending == c.disk.processing then ReturnDrop
    else ReturnDone
  }

  function SweepNext(s: Sweep): OpenFile {
    if !s.request then RequestSpool else if !s.response then ResponseSpool else Metadata
  }

  function StoreNext(i: nat, s: EnqueueStage): EnqueueAction {
    match s
    case Scan(_) => EnqScan(i)
    case Reserve => EnqReserve(i, true)
    case Create => EnqCreate(i, 0)
    case Fill(_) => EnqFill(i)
    case Link(_) => EnqLink(i)
    case DropLinked(_) => EnqDrop(i)
    case DropRaced(_) => EnqDrop(i)
    case RaceScan(_) => EnqRaceScan(i)
    case Durable => EnqSettle(i)
    case Refused => EnqSettle(i)
  }

  function RecoverNext(c: Capture): Action
    requires 0 in c.memory.recoveries
  {
    match c.memory.recoveries[0].stage
    case Listed => OnRecovery(RecRead(0))
    case Owned(_) => OnRecovery(RecOwner(0, false))
    case Spools(_) => OnRecovery(RecSpools(0))
    case Compare(_, _, _, _, _) => OnRecovery(RecCompare(0))
    case Compose(_, _, _) => OnRecovery(RecStore(0, 0, LINE))
    case Storing(i) => if i in c.memory.enqueues then OnEnqueue(StoreNext(i, c.memory.enqueues[i].stage))
      else OnRecovery(RecGiveUp(0))
    case RecSweep(s) => if s.metadata then OnRecovery(RecRelease(0)) else OnRecovery(RecDrop(0, SweepNext(s)))
    case Aborted(_) => OnRecovery(RecGiveUp(0))
  }

  /** The next step of an undisturbed start-up. */
  ghost function Next(c: Capture): Action
    requires c.phase != Running
  {
    match c.phase
    case Down => Startup(Boot)
    case Temps => Startup(TempsNext(c))
    case Return => Startup(ReturnNext(c))
    case Recovering(listed) =>
      if !listed then Startup(ListOpen)
      else if 0 in c.memory.recoveries then RecoverNext(c)
      else Startup(StartupDone)
  }

  // ---------- the measure ----------

  function PhaseRank(p: Phase): nat {
    match p
    case Down => 5
    case Temps => 4
    case Return => 3
    case Recovering(listed) => if listed then 1 else 2
    case Running => 0
  }

  function QueueRank(q: Queue): nat {
    match q case Pending => 3 case Processing => 2 case Failed => 1
  }

  function StoreRank(s: EnqueueStage): nat {
    match s
    case Scan(q) => 20 + QueueRank(q)
    case Reserve => 20
    case Create => 19
    case Fill(_) => 18
    case Link(_) => 17
    case DropLinked(_) => 16
    case DropRaced(_) => 16
    case RaceScan(q) => 10 + QueueRank(q)
    case Durable => 10
    case Refused => 10
  }

  function SweepRank(s: Sweep): nat {
    1 + (if s.request then 0 else 1) + (if s.response then 0 else 1) + (if s.metadata then 0 else 1)
  }

  function RecoveryRank(c: Capture): nat {
    if 0 !in c.memory.recoveries then 0
    else match c.memory.recoveries[0].stage
         case Listed => 40
         case Owned(_) => 39
         case Spools(_) => 38
         case Compare(_, _, _, q, _) => 30 + QueueRank(q)
         case Compose(_, _, _) => 30
         case Storing(i) => if i in c.memory.enqueues then StoreRank(c.memory.enqueues[i].stage) else 0
         case RecSweep(s) => SweepRank(s)
         case Aborted(_) => 0
  }

  function Work(c: Capture): nat {
    match c.phase
    case Temps => 2 * |c.disk.temps| + (if c.disk.pending.None? then 1 else 0)
    case Return =>
      if c.disk.processing.None? then 0 else if c.disk.pending.None? then 2 else if c.disk.pending == c.disk.processing
        then 1 else 0
    case Recovering(_) => RecoveryRank(c)
    case _ => 0
  }

  predicate Closer(c: Capture, d: Capture) {
    PhaseRank(d.phase) < PhaseRank(c.phase) || (d.phase == c.phase && Work(d) < Work(c))
  }

  lemma TempsProgress(c: Capture)
    requires StartingUp(c) && c.phase == Temps
    ensures StartupEnabled(c, TempsNext(c)) && StartingUp(StartupApply(c, TempsNext(c)))
    ensures Closer(c, StartupApply(c, TempsNext(c)))
  {
    var a := TempsNext(c);
    StartupPreserves(c, a);
    StartupSound(c, a);
    if a.TempDrop? || a.TempQuarantine? {
      assert |c.disk.temps - {a.t}| < |c.disk.temps| by {
        assert c.disk.temps.Keys == (c.disk.temps - {a.t}).Keys + {a.t};
        assert |c.disk.temps.Keys| == |c.disk.temps|;
        assert |(c.disk.temps - {a.t}).Keys| == |c.disk.temps - {a.t}|;
      }
    }
  }

  lemma QuietProgress(c: Capture)
    requires StartingUp(c) && (c.phase == Down || c.phase == Return || c.phase == Recovering(false))
    ensures Enabled(c, Next(c)) && Orderly(c, Next(c)) && StartingUp(Apply(c, Next(c))) && Closer(c, Apply(c, Next(c)))
  {
    StartupPreserves(c, Next(c).s);
    StartupSound(c, Next(c).s);
  }

  // The record of the start-up recovery is the only one being stored, at a stage it can leave.
  lemma StoreEnabled(c: Capture, i: nat)
    requires StartingUp(c) && c.phase == Recovering(true)
    requires 0 in c.memory.recoveries && c.memory.recoveries[0].stage == Storing(i)
    ensures c.memory.enqueues.Keys == {i}
    ensures Next(c) == OnEnqueue(StoreNext(i, c.memory.enqueues[i].stage))
    ensures Enabled(c, Next(c)) && Orderly(c, Next(c))
    ensures c.memory.enqueues[i].owner == Recoverer(0) && c.memory.enqueues[i].stage != Refused
    ensures c.memory.enqueues[i].stage.Scan? || c.memory.enqueues[i].stage.Reserve? ==>
              c.disk.pending.None? && c.disk.processing.None? && c.disk.failed.None?
    ensures c.memory.enqueues[i].stage.Link? ==> c.disk.pending.None?
    ensures !c.memory.enqueues[i].stage.DropRaced? && !c.memory.enqueues[i].stage.RaceScan?
  {
  }

  // A step of the enqueue that stores the recovered record leaves everything else alone.
  predicate StoreMoves(c: Capture, d: Capture, i: nat)
    requires i in c.memory.enqueues
  {
    && d.phase == c.phase && d.memory == c.memory.(enqueues := d.memory.enqueues)
    && d.memory.enqueues.Keys == {i} && d.memory.enqueues[i].stage != Refused
    && StoreRank(d.memory.enqueues[i].stage) < StoreRank(c.memory.enqueues[i].stage)
  }

  lemma StoreSearch(c: Capture, i: nat, a: EnqueueAction)
    requires c.memory.enqueues.Keys == {i} && a == StoreNext(i, c.memory.enqueues[i].stage) && EnqueueEnabled(c, a)
    requires c.memory.enqueues[i].stage.Scan? || c.memory.enqueues[i].stage.Reserve?
    requires c.disk.pending.None? && c.disk.processing.None? && c.disk.failed.None?
    ensures StoreMoves(c, EnqueueApply(c, a), i)
  {
  }

  lemma StoreWrite(c: Capture, i: nat, a: EnqueueAction)
    requires c.memory.enqueues.Keys == {i} && a == StoreNext(i, c.memory.enqueues[i].stage) && EnqueueEnabled(c, a)
    requires var s := c.memory.enqueues[i].stage; s.Create? || s.Fill? || s.Link? || s.DropLinked?
    requires c.memory.enqueues[i].stage.Link? ==> c.disk.pending.None?
    ensures StoreMoves(c, EnqueueApply(c, a), i)
  {
  }

  lemma StoreProgress(c: Capture, i: nat)
    requires StartingUp(c) && c.phase == Recovering(true)
    requires 0 in c.memory.recoveries && c.memory.recoveries[0].stage == Storing(i)
    ensures Enabled(c, Next(c)) && Orderly(c, Next(c)) && StartingUp(Apply(c, Next(c))) && Closer(c, Apply(c, Next(c)))
  {
    StoreEnabled(c, i);
    StepSound(c, Next(c));
    hide Sound, CaptureApply, RecoveryApply, StartupApply, DeliveryApply;
    if c.memory.enqueues[i].stage.Durable? {
      SettleProgress(c, i);
    } else if c.memory.enqueues[i].stage.Scan? || c.memory.enqueues[i].stage.Reserve? {
      StoreSearch(c, i, Next(c).e);
    } else {
      StoreWrite(c, i, Next(c).e);
    }
  }

  lemma SettleProgress(c: Capture, i: nat)
    requires StartingUp(c) && c.phase == Recovering(true)
    requires 0 in c.memory.recoveries && c.memory.recoveries[0].stage == Storing(i)
    requires c.memory.enqueues.Keys == {i} && c.memory.enqueues[i].stage.Durable?
      && c.memory.enqueues[i].owner == Recoverer(0)
    requires Next(c) == OnEnqueue(EnqSettle(i)) && Enabled(c, Next(c)) && Sound(Apply(c, Next(c)))
    ensures StartingUp(Apply(c, Next(c))) && Closer(c, Apply(c, Next(c)))
  {
    hide Sound;
    var d := EnqueueApply(c, EnqSettle(i));
    assert d.memory.enqueues == map[];
    assert d.memory.recoveries.Keys == {0};
  }

  lemma ReadProgress(c: Capture)
    requires StartingUp(c) && c.phase == Recovering(true) && 0 in c.memory.recoveries
    requires var s := c.memory.recoveries[0].stage; s.Listed? || s.Spools? || s.Compare? || s.Compose?
    ensures Enabled(c, Next(c)) && Orderly(c, Next(c)) && StartingUp(Apply(c, Next(c))) && Closer(c, Apply(c, Next(c)))
  {
    ReadEnabled(c);
    StepSound(c, Next(c));
    hide Sound, CaptureApply, EnqueueApply, StartupApply, DeliveryApply;
    var d := Apply(c, Next(c));
    assert d.memory.recoveries.Keys == {0};
  }

  lemma ReadEnabled(c: Capture)
    requires StartingUp(c) && c.phase == Recovering(true) && 0 in c.memory.recoveries
    requires var s := c.memory.recoveries[0].stage; s.Listed? || s.Spools? || s.Compare? || s.Compose?
    ensures Enabled(c, Next(c)) && Orderly(c, Next(c)) && c.disk.metadata.Some?
  {
  }

  lemma SweepProgress(c: Capture)
    requires StartingUp(c) && c.phase == Recovering(true) && 0 in c.memory.recoveries
    requires c.memory.recoveries[0].stage.RecSweep?
    ensures Enabled(c, Next(c)) && Orderly(c, Next(c)) && StartingUp(Apply(c, Next(c))) && Closer(c, Apply(c, Next(c)))
  {
    StepSound(c, Next(c));
    var d := Apply(c, Next(c));
    assert c.memory.enqueues == map[];
    if Next(c).r.RecRelease? {
      assert d.memory.recoveries == map[];
    } else {
      assert d.memory.recoveries.Keys == {0};
    }
  }

  /** Each next step of start-up is possible, keeps the callers' rules and brings the end closer. */
  lemma StartupProgress(c: Capture)
    requires StartingUp(c) && c.phase != Running
    ensures Enabled(c, Next(c)) && Orderly(c, Next(c)) && StartingUp(Apply(c, Next(c))) && Closer(c, Apply(c, Next(c)))
  {
    match c.phase
    case Temps => TempsProgress(c);
    case Recovering(true) =>
      if 0 in c.memory.recoveries {
        match c.memory.recoveries[0].stage
        case Storing(i) => StoreProgress(c, i);
        case RecSweep(_) => SweepProgress(c);
        case _ => ReadProgress(c);
      } else {
        StartupPreserves(c, StartupDone);
        StartupSound(c, StartupDone);
      }
    case _ => QuietProgress(c);
  }

  lemma NextKeepsBegun(c: Capture)
    requires c.phase != Running && Enabled(c, Next(c))
    ensures Apply(c, Next(c)).history.begun == c.history.begun
  {
  }

  lemma RunningIsClosed(c: Capture)
    requires StartingUp(c) && c.phase == Running && c.history.begun.Some?
    ensures NothingOpen(c)
  {
  }

  // ---------- admission ----------

  predicate Torn(d: Disk) {
    forall t :: t in d.temps ==> d.temps[t].Torn?
  }

  predicate Unreserved(m: Memory) {
    forall i :: i in m.enqueues ==>
      m.enqueues[i].stage.Scan? || m.enqueues[i].stage.Reserve? || m.enqueues[i].stage.Refused?
  }

  /** Not running, metadata on disk, no complete record of the Capture anywhere, and none being
      written. On a crashed outbox this is a condition on the files alone. */
  predicate NeedsRecord(c: Capture) {
    c.phase != Running && c.disk.metadata.Some? && c.history.linked == {} && Torn(c.disk) && Unreserved(c.memory)
  }

  /** What the files of a crashed outbox say. */
  lemma NeedsRecordOnDisk(c: Capture)
    requires StartingUp(c) && c.phase == Down
    ensures NeedsRecord(c) <==> c.disk.metadata.Some? && c.disk.pending.None? && Torn(c.disk)
  {
  }

  predicate Grants(a: Action) {
    a.OnEnqueue? && a.e.EnqReserve? && a.e.ok
  }

  predicate Reserves(a: Action) {
    a.OnEnqueue? && a.e.EnqReserve?
  }

  lemma StartupNeeds(c: Capture, a: StartAction)
    requires Sound(c) && NeedsRecord(c) && StartupEnabled(c, a)
    ensures NeedsRecord(StartupApply(c, a)) && StartupApply(c, a).disk.metadata == c.disk.metadata
  {
  }

  lemma CaptureNeeds(c: Capture, a: CaptureAction)
    requires Sound(c) && NeedsRecord(c) && CaptureEnabled(c, a)
    ensures NeedsRecord(CaptureApply(c, a)) && CaptureApply(c, a).disk.metadata == c.disk.metadata
  {
  }

  lemma EnqueueNeeds(c: Capture, a: EnqueueAction)
    requires Sound(c) && NeedsRecord(c) && EnqueueEnabled(c, a) && Orderly(c, OnEnqueue(a)) && !Grants(OnEnqueue(a))
    ensures NeedsRecord(EnqueueApply(c, a)) && EnqueueApply(c, a).disk.metadata == c.disk.metadata
  {
  }

  lemma RecoveryNeeds(c: Capture, a: RecoveryAction)
    requires Sound(c) && NeedsRecord(c) && RecoveryEnabled(c, a)
    ensures NeedsRecord(RecoveryApply(c, a)) && RecoveryApply(c, a).disk.metadata == c.disk.metadata
  {
  }

  lemma DeliveryNeeds(c: Capture, a: DeliveryAction)
    requires Sound(c) && NeedsRecord(c)
    ensures !DeliveryEnabled(c, a)
  {
  }

  lemma StepNeeds(c: Capture, a: Action)
    requires Sound(c) && NeedsRecord(c) && Enabled(c, a) && Orderly(c, a) && !Grants(a)
    ensures NeedsRecord(Apply(c, a)) && Apply(c, a).disk.metadata == c.disk.metadata
  {
    hide Sound, NeedsRecord, Orderly;
    hide CaptureApply, EnqueueApply, RecoveryApply, DeliveryApply, StartupApply;
    hide CaptureEnabled, EnqueueEnabled, RecoveryEnabled, DeliveryEnabled, StartupEnabled;
    match a
    case Startup(s) => StartupNeeds(c, s);
    case OnCapture(b) => CaptureNeeds(c, b);
    case OnEnqueue(e) => EnqueueNeeds(c, e);
    case OnRecovery(r) => RecoveryNeeds(c, r);
    case OnDelivery(d) => DeliveryNeeds(c, d);
  }

  lemma NeedsMeansStuck(c: Capture)
    requires Sound(c) && NeedsRecord(c)
    ensures c.phase != Running && !StartupEnabled(c, StartupDone)
  {
  }

  /** Main result, one half: while a record has to be recovered and no reservation is granted, no run
      gets the outbox running, whatever crashes, restarts and other calls it contains. */
  lemma {:induction false} RefusedNeverRuns(c: Capture, run: seq<Action>, d: Capture)
    requires Sound(c) && NeedsRecord(c) && OrderlyRun(c, run, d)
    requires forall k :: 0 <= k < |run| ==> !Grants(run[k])
    ensures NeedsRecord(d) && d.phase != Running && !StartupEnabled(d, StartupDone)
      && d.disk.metadata == c.disk.metadata
    decreases |run|
  {
    if run == [] {
      NeedsMeansStuck(c);
    } else {
      StepSound(c, run[0]);
      StepNeeds(c, run[0]);
      hide Sound, NeedsRecord, Apply, Enabled, Orderly, StartupEnabled;
      RefusedNeverRuns(Apply(c, run[0]), run[1..], d);
    }
  }

  // Start-up asks for a reservation only when a record has to be recovered.
  lemma NextReserves(c: Capture)
    requires StartingUp(c) && c.phase != Running
    ensures Reserves(Next(c)) ==> NeedsRecord(c) && Grants(Next(c))
  {
  }

  lemma EarlyNeedsNot(c: Capture)
    requires StartingUp(c) && c.phase != Running && c.phase != Recovering(true)
    requires !NeedsRecord(c) && Enabled(c, Next(c))
    ensures !NeedsRecord(Apply(c, Next(c)))
  {
  }

  // A stored record stays known.
  lemma LinkedStays(c: Capture, a: Action)
    requires Enabled(c, a)
    ensures c.history.linked <= Apply(c, a).history.linked
  {
  }

  // During recovery a record is needed as long as none is stored and none is being written.
  lemma RecoveringNeeds(c: Capture)
    requires StartingUp(c) && c.phase == Recovering(true) && c.disk.metadata.Some? && c.history.linked == {}
    requires !NeedsRecord(c)
    ensures 0 in c.memory.recoveries && c.memory.recoveries[0].stage.Storing?
    ensures var i := c.memory.recoveries[0].stage.task;
      c.memory.enqueues.Keys == {i} && (c.memory.enqueues[i].stage.Create? || c.memory.enqueues[i].stage.Fill?
        || c.memory.enqueues[i].stage.Link?)
  {
  }

  lemma WritingNeedsNot(c: Capture, i: nat, a: EnqueueAction)
    requires c.memory.enqueues.Keys == {i} && a == StoreNext(i, c.memory.enqueues[i].stage) && EnqueueEnabled(c, a)
    requires c.memory.enqueues[i].stage.Create? || c.memory.enqueues[i].stage.Fill? || c.memory.enqueues[i].stage.Link?
    ensures !NeedsRecord(EnqueueApply(c, a))
  {
    var d := EnqueueApply(c, a);
    assert i in d.memory.enqueues;
  }

  lemma GoneStays(c: Capture)
    requires c.phase == Recovering(true) && c.disk.metadata.None? && Enabled(c, Next(c))
    ensures !NeedsRecord(Apply(c, Next(c)))
  {
  }

  lemma RecoveringNeedsNot(c: Capture)
    requires StartingUp(c) && c.phase == Recovering(true) && !NeedsRecord(c) && Enabled(c, Next(c))
    ensures !NeedsRecord(Apply(c, Next(c)))
  {
    if c.disk.metadata.Some? && c.history.linked == {} {
      RecoveringNeeds(c);
      var i := c.memory.recoveries[0].stage.task;
      var a := StoreNext(i, c.memory.enqueues[i].stage);
      hide StartingUp, NeedsRecord;
      assert Next(c) == OnEnqueue(a);
      WritingNeedsNot(c, i, a);
    } else if c.history.linked != {} {
      hide StartingUp, Next, Apply, Enabled;
      LinkedStays(c, Next(c));
    } else {
      hide StartingUp, NeedsRecord;
      GoneStays(c);
    }
  }

  lemma NextNeedsNot(c: Capture)
    requires StartingUp(c) && c.phase != Running && !NeedsRecord(c) && Enabled(c, Next(c))
    ensures !NeedsRecord(Apply(c, Next(c)))
  {
    if c.phase == Recovering(true) {
      RecoveringNeedsNot(c);
    } else {
      EarlyNeedsNot(c);
    }
  }

  /** Main result, the other half: from any state of a start-up its own steps lead to a running outbox
      in which a begun Capture has its outcome, asking for a reservation only if a record has to be
      recovered. */
  lemma {:induction false} StartupCompletes(c: Capture) returns (run: seq<Action>, d: Capture)
    requires StartingUp(c)
    ensures OrderlyRun(c, run, d) && d.phase == Running && d.history.begun == c.history.begun
    ensures c.history.begun.Some? ==> NothingOpen(d)
    ensures forall k :: 0 <= k < |run| && Reserves(run[k]) ==> NeedsRecord(c) && Grants(run[k])
    decreases PhaseRank(c.phase), Work(c)
  {
    if c.phase == Running {
      run, d := [], c;
      if c.history.begun.Some? {
        RunningIsClosed(c);
      }
    } else {
      StartupProgress(c);
      NextKeepsBegun(c);
      NextReserves(c);
      if !NeedsRecord(c) {
        NextNeedsNot(c);
      }
      hide StartingUp, NeedsRecord, Next, Apply, Enabled, Orderly;
      var n := Apply(c, Next(c));
      assert PhaseRank(n.phase) < PhaseRank(c.phase) || (PhaseRank(n.phase) == PhaseRank(c.phase) && Work(n) < Work(c));
      var rest;
      rest, d := StartupCompletes(n);
      run := [Next(c)] + rest;
      PrependStep(c, Next(c), rest, d);
    }
  }

  lemma PrependStep(c: Capture, a: Action, rest: seq<Action>, d: Capture)
    requires Enabled(c, a) && Orderly(c, a) && OrderlyRun(Apply(c, a), rest, d)
    ensures OrderlyRun(c, [a] + rest, d)
  {
    assert ([a] + rest)[1..] == rest;
  }

  // Every reservation of the run is answered in this way.
  predicate Answered(run: seq<Action>, admitted: bool) {
    forall k :: 0 <= k < |run| && Reserves(run[k]) ==> Grants(run[k]) == admitted
  }

  ghost predicate CanRun(c: Capture, admitted: bool) {
    exists run, d :: OrderlyRun(c, run, d) && Answered(run, admitted) && d.phase == Running
  }

  /** Both together: a crashed outbox can get running if and only if reservations are granted or there
      is no record to recover. */
  lemma RunsExactlyWhenAdmitted(c: Capture, admitted: bool)
    requires StartingUp(c)
    ensures CanRun(c, admitted) <==> admitted || !NeedsRecord(c)
  {
    if admitted || !NeedsRecord(c) {
      var run, d := StartupCompletes(c);
      assert Answered(run, admitted);
    } else if CanRun(c, admitted) {
      var run, d :| OrderlyRun(c, run, d) && Answered(run, admitted) && d.phase == Running;
      RefusedNeverRuns(c, run, d);
    }
  }

  lemma CrashedCanStart(id: string, run: seq<Action>, d: Capture)
    requires OrderlyRun(Initial(id), run, d) && d.phase == Down
    ensures StartingUp(d)
  {
    InitialIsSound(id);
    RunSound(Initial(id), run, d);
  }
}
