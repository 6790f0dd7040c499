/** Shared admission of the outbox: opens, appends, enqueues and finalizations reserve capacity in
    one synchronous block and settle the reservation in another, with anything in between. */
module Capacity {
  import opened MapSum
  import opened Options

  datatype Limits = Limits(maxBytes: nat, maxFiles: nat, minFreeBytes: nat, minFreeFiles: nat)

  // Bytes and files a request is granted, and the ledger entry it settles into.
  datatype Request = Request(bytes: nat, files: nat, credit: Option<nat>)

  /** `queueBytes`, `files` and the free counters are the live metrics; `held`, `spoolBytes`,
      `spoolFiles`, `credited` and `records` say what they are made of. */
  datatype Ledger = Ledger(
    queueBytes: int, files: int, reservedBytes: int, reservedFiles: int,
    freeBytes: Option<int>, freeFiles: Option<int>,
    held: map<nat, Request>,            // reservations in flight
    spoolBytes: map<nat, nat>,          // open Captures and the bytes they have persisted
    spoolFiles: map<nat, nat>,
    credited: set<nat>,                 // open Captures whose finalization has used their credit
    records: nat, recordFiles: nat)     // bytes and files of everything that is not an open Capture

  datatype Refusal = DiskPressure | InodePressure | Full

  function Max0(n: int): int {
    if n < 0 then 0 else n
  }

  function CreditBytes(l: Ledger, r: Request): nat {
    if r.credit.Some? && r.credit.value in l.spoolBytes then l.spoolBytes[r.credit.value] else 0
  }

  function CreditFiles(l: Ledger, r: Request): nat {
    if r.credit.Some? && r.credit.value in l.spoolFiles then l.spoolFiles[r.credit.value] else 0
  }

  /** The tests of reserveQueueCapacity, in its order. */
  function Refused(lim: Limits, l: Ledger, r: Request): Option<Refusal> {
    if l.freeBytes.Some? && l.freeBytes.value - l.reservedBytes - r.bytes < lim.minFreeBytes then Some(DiskPressure)
    else if l.freeFiles.Some? && l.freeFiles.value - l.reservedFiles - r.files < lim.minFreeFiles
      then Some(InodePressure)
    else if Max0(l.queueBytes - CreditBytes(l, r)) + l.reservedBytes + r.bytes > lim.maxBytes then Some(Full)
    else if l.files + l.reservedFiles - CreditFiles(l, r) + r.files > lim.maxFiles then Some(Full)
    else None
  }

  /** A request is admitted exactly when it leaves both free-space cutoffs intact and both caps hold with it,
      the finalized Capture's own files not counted; the cutoffs are tested first, bytes before files. */
  lemma AdmissionMeans(lim: Limits, l: Ledger, r: Request)
    requires l.reservedBytes >= 0
    ensures var spaceLeft := l.freeBytes.Some? ==> l.freeBytes.value >= lim.minFreeBytes + l.reservedBytes + r.bytes;
      var inodesLeft := l.freeFiles.Some? ==> l.freeFiles.value >= lim.minFreeFiles + l.reservedFiles + r.files;
      var bytesFit := l.reservedBytes + r.bytes <= lim.maxBytes
                      && l.queueBytes + l.reservedBytes + r.bytes <= lim.maxBytes + CreditBytes(l, r);
      var filesFit := l.files + l.reservedFiles + r.files <= lim.maxFiles + CreditFiles(l, r);
      && (Refused(lim, l, r).None? <==> spaceLeft && inodesLeft && bytesFit && filesFit)
      && (Refused(lim, l, r) == Some(DiskPressure) <==> !spaceLeft)
      && (Refused(lim, l, r) == Some(InodePressure) <==> spaceLeft && !inodesLeft)
      && (Refused(lim, l, r) == Some(Full) <==> spaceLeft && inodesLeft && !(bytesFit && filesFit))
  {
  }

  datatype Target = NewCapture(capture: nat) | Spool(capture: nat) | QueueRecord

  datatype Op =
    | Reserve(id: nat, r: Request)
    | Commit(id: nat, to: Target)       // the write succeeded: release and account in one block
    | Abort(id: nat)                    // the write failed: release only
    | ReleaseSpools(capture: nat)       // removeCaptureFiles is done
    | Remove(bytes: nat)                // a delivered record of this size left the queue

  predicate Enabled(l: Ledger, op: Op) {
    match op
    case Reserve(id, r) => id !in l.held && (r.credit.Some? ==> r.credit.value in l.spoolBytes)
    case Commit(id, to) =>
      id in l.held
      && (to.NewCapture? ==> to.capture !in l.spoolBytes && l.held[id].credit.None?)
      && (to.Spool? ==> to.capture in l.spoolBytes && to.capture !in l.credited && l.held[id].credit.None?)
    case Abort(id) => id in l.held
    case ReleaseSpools(t) => t in l.spoolBytes
    case Remove(bytes) => bytes <= l.records && l.recordFiles > 0
  }

  function Less(o: Option<int>, n: int): Option<int> {
    if o.None? then None else Some(Max0(o.value - n))
  }

  function More(o: Option<int>, n: int): Option<int> {
    if o.None? then None else Some(o.value + n)
  }

  function Settled(l: Ledger, id: nat): Ledger
    requires id in l.held
  {
    l.(reservedBytes := l.reservedBytes - l.held[id].bytes, reservedFiles := l.reservedFiles - l.held[id].files,
       held := l.held - {id})
  }

  function Accounted(l: Ledger, r: Request, to: Target): Ledger
    requires to.Spool? ==> to.capture in l.spoolBytes && to.capture in l.spoolFiles
  {
    var m := l.(queueBytes := l.queueBytes + r.bytes, files := l.files + r.files,
                freeBytes := Less(l.freeBytes, r.bytes), freeFiles := Less(l.freeFiles, r.files));
    match to
    case NewCapture(t) => m.(spoolBytes := m.spoolBytes[t := r.bytes], spoolFiles := m.spoolFiles[t := r.files])
    case Spool(t) => m.(spoolBytes := m.spoolBytes[t := m.spoolBytes[t] + r.bytes],
                        spoolFiles := m.spoolFiles[t := m.spoolFiles[t] + r.files])
    case QueueRecord => m.(records := m.records + r.bytes, recordFiles := m.recordFiles + r.files)
  }

  function Apply(lim: Limits, l: Ledger, op: Op): Ledger
    requires Enabled(l, op) && l.spoolFiles.Keys == l.spoolBytes.Keys
  {
    match op
    case Reserve(id, r) =>
      if Refused(lim, l, r).Some? then l
      else l.(reservedBytes := l.reservedBytes + r.bytes, reservedFiles := l.reservedFiles + r.files,
              held := l.held[id := r], credited := if r.credit.Some? then l.credited + {r.credit.value} else l.credited)
    case Commit(id, to) => Accounted(Settled(l, id), l.held[id], to)
    case Abort(id) => Settled(l, id)
    case ReleaseSpools(t) =>
      l.(queueBytes := Max0(l.queueBytes - l.spoolBytes[t]), files := l.files - l.spoolFiles[t],
         freeBytes := More(l.freeBytes, l.spoolBytes[t]), freeFiles := More(l.freeFiles, l.spoolFiles[t]),
         spoolBytes := l.spoolBytes - {t}, spoolFiles := l.spoolFiles - {t}, credited := l.credited - {t})
    case Remove(bytes) =>
      l.(queueBytes := Max0(l.queueBytes - bytes), files := l.files - 1, records := l.records - bytes,
         recordFiles := l.recordFiles - 1,
         freeBytes := More(l.freeBytes, bytes), freeFiles := More(l.freeFiles, 1))
  }

  // ---------- the invariant ----------

  function BytesHeld(l: Ledger): map<nat, nat> {
    map id | id in l.held :: l.held[id].bytes
  }

  function FilesHeld(l: Ledger): map<nat, nat> {
    map id | id in l.held :: l.held[id].files
  }

  /** The counters are exactly the sum of their parts: every reservation is counted once while it
      is in flight and not at all afterwards. */
  ghost predicate Exact(l: Ledger) {
    && l.spoolFiles.Keys == l.spoolBytes.Keys && l.credited <= l.spoolBytes.Keys
    && l.queueBytes == l.records + Sum(l.spoolBytes)
    && l.files == l.recordFiles + Sum(l.spoolFiles)
    && l.reservedBytes == Sum(BytesHeld(l))
    && l.reservedFiles == Sum(FilesHeld(l))
  }

  /** Stored plus promised bytes exceed the cap by at most the credit of one finalization whose
      spools are still there. */
  ghost predicate BytesBounded(lim: Limits, l: Ledger) {
    || l.queueBytes + l.reservedBytes <= lim.maxBytes
    || exists t ::
      t in l.credited && t in l.spoolBytes && l.queueBytes + l.reservedBytes <= lim.maxBytes + l.spoolBytes[t]
  }

  ghost predicate FilesBounded(lim: Limits, l: Ledger) {
    || l.files + l.reservedFiles <= lim.maxFiles
    || exists t :: t in l.credited && t in l.spoolFiles && l.files + l.reservedFiles <= lim.maxFiles + l.spoolFiles[t]
  }

  ghost predicate Sound(lim: Limits, l: Ledger) {
    Exact(l) && BytesBounded(lim, l) && FilesBounded(lim, l)
  }

  lemma ReserveSound(lim: Limits, l: Ledger, id: nat, r: Request)
    requires Sound(lim, l) && Enabled(l, Reserve(id, r)) && Refused(lim, l, r).None?
    ensures Sound(lim, Apply(lim, l, Reserve(id, r)))
  {
    hide BytesHeld, FilesHeld;
    ReserveHeld(l, Apply(lim, l, Reserve(id, r)), id, r);
    ReserveBounded(lim, l, id, r);
  }

  // The promised amounts with one more reservation.
  lemma ReserveHeld(l: Ledger, m: Ledger, id: nat, r: Request)
    requires id !in l.held && m.held == l.held[id := r]
    ensures Sum(BytesHeld(m)) == Sum(BytesHeld(l)) + r.bytes && Sum(FilesHeld(m)) == Sum(FilesHeld(l)) + r.files
  {
    SumUpdate(BytesHeld(l), id, r.bytes);
    SumUpdate(FilesHeld(l), id, r.files);
    assert BytesHeld(m) == BytesHeld(l)[id := r.bytes] && BytesHeld(l) - {id} == BytesHeld(l);
    assert FilesHeld(m) == FilesHeld(l)[id := r.files] && FilesHeld(l) - {id} == FilesHeld(l);
  }

  lemma ReserveBounded(lim: Limits, l: Ledger, id: nat, r: Request)
    requires Sound(lim, l) && Enabled(l, Reserve(id, r)) && Refused(lim, l, r).None?
    ensures BytesBounded(lim, Apply(lim, l, Reserve(id, r))) && FilesBounded(lim, Apply(lim, l, Reserve(id, r)))
  {
    hide BytesHeld, FilesHeld;
    var m := Apply(lim, l, Reserve(id, r));
    if r.credit.Some? {
      var t := r.credit.value;
      assert t in m.credited && m.queueBytes + m.reservedBytes <= lim.maxBytes + m.spoolBytes[t];
      assert t in m.credited && m.files + m.reservedFiles <= lim.maxFiles + m.spoolFiles[t];
    }
  }

  lemma SettledExact(l: Ledger, id: nat)
    requires Exact(l) && id in l.held
    ensures Exact(Settled(l, id))
  {
    var m := Settled(l, id);
    SumWithout(BytesHeld(l), id);
    SumWithout(FilesHeld(l), id);
    assert BytesHeld(m) == BytesHeld(l) - {id} && FilesHeld(m) == FilesHeld(l) - {id};
  }

  lemma AccountedExact(l: Ledger, r: Request, to: Target)
    requires Exact(l) && (to.Spool? ==> to.capture in l.spoolBytes) && (to.NewCapture? ==> to.capture !in l.spoolBytes)
    ensures Exact(Accounted(l, r, to))
  {
    var m := Accounted(l, r, to);
    assert BytesHeld(m) == BytesHeld(l) && FilesHeld(m) == FilesHeld(l);
    hide BytesHeld, FilesHeld;
    if !to.QueueRecord? {
      SpoolGrows(l.spoolBytes, to.capture, r.bytes);
      SpoolGrows(l.spoolFiles, to.capture, r.files);
    }
  }

  lemma SpoolGrows(spool: map<nat, nat>, t: nat, n: nat)
    ensures Sum(spool[t := (if t in spool then spool[t] else 0) + n]) == Sum(spool) + n
  {
    SumUpdate(spool, t, (if t in spool then spool[t] else 0) + n);
    if t in spool {
      SumWithout(spool, t);
    } else {
      SumAbsent(spool, t);
    }
  }

  lemma CommitSound(lim: Limits, l: Ledger, id: nat, to: Target)
    requires Sound(lim, l) && Enabled(l, Commit(id, to))
    ensures Sound(lim, Apply(lim, l, Commit(id, to)))
  {
    SettledExact(l, id);
    AccountedExact(Settled(l, id), l.held[id], to);
    var m := Apply(lim, l, Commit(id, to));
    if t :| t in l.credited && t in l.spoolBytes && l.queueBytes + l.reservedBytes <= lim.maxBytes + l.spoolBytes[t] {
      assert t in m.credited && t in m.spoolBytes && m.spoolBytes[t] == l.spoolBytes[t];
    }
    if t :| t in l.credited && t in l.spoolFiles && l.files + l.reservedFiles <= lim.maxFiles + l.spoolFiles[t] {
      assert t in m.credited && t in m.spoolFiles && m.spoolFiles[t] == l.spoolFiles[t];
    }
  }

  lemma AbortSound(lim: Limits, l: Ledger, id: nat)
    requires Sound(lim, l) && Enabled(l, Abort(id))
    ensures Sound(lim, Apply(lim, l, Abort(id)))
  {
    SettledExact(l, id);
    var m := Apply(lim, l, Abort(id));
    if t :| t in l.credited && t in l.spoolBytes && l.queueBytes + l.reservedBytes <= lim.maxBytes + l.spoolBytes[t] {
      assert t in m.credited && t in m.spoolBytes && m.spoolBytes[t] == l.spoolBytes[t];
    }
    if t :| t in l.credited && t in l.spoolFiles && l.files + l.reservedFiles <= lim.maxFiles + l.spoolFiles[t] {
      assert t in m.credited && t in m.spoolFiles && m.spoolFiles[t] == l.spoolFiles[t];
    }
  }

  lemma ReleaseSound(lim: Limits, l: Ledger, t: nat)
    requires Sound(lim, l) && Enabled(l, ReleaseSpools(t))
    ensures Sound(lim, Apply(lim, l, ReleaseSpools(t)))
  {
    var m := Apply(lim, l, ReleaseSpools(t));
    SumWithout(l.spoolBytes, t);
    SumWithout(l.spoolFiles, t);
    assert BytesHeld(m) == BytesHeld(l) && FilesHeld(m) == FilesHeld(l);
    if u :| u in l.credited && u in l.spoolBytes && l.queueBytes + l.reservedBytes <= lim.maxBytes + l.spoolBytes[u] {
      assert u != t ==> u in m.credited && u in m.spoolBytes && m.spoolBytes[u] == l.spoolBytes[u];
    }
    if u :| u in l.credited && u in l.spoolFiles && l.files + l.reservedFiles <= lim.maxFiles + l.spoolFiles[u] {
      assert u != t ==> u in m.credited && u in m.spoolFiles && m.spoolFiles[u] == l.spoolFiles[u];
    }
  }

  lemma RemoveSound(lim: Limits, l: Ledger, bytes: nat)
    requires Sound(lim, l) && Enabled(l, Remove(bytes))
    ensures Sound(lim, Apply(lim, l, Remove(bytes)))
  {
    var m := Apply(lim, l, Remove(bytes));
    assert BytesHeld(m) == BytesHeld(l) && FilesHeld(m) == FilesHeld(l);
    if t :| t in l.credited && t in l.spoolBytes && l.queueBytes + l.reservedBytes <= lim.maxBytes + l.spoolBytes[t] {
      assert t in m.credited && t in m.spoolBytes && m.spoolBytes[t] == l.spoolBytes[t];
    }
    if t :| t in l.credited && t in l.spoolFiles && l.files + l.reservedFiles <= lim.maxFiles + l.spoolFiles[t] {
      assert t in m.credited && t in m.spoolFiles && m.spoolFiles[t] == l.spoolFiles[t];
    }
  }

  lemma StepSound(lim: Limits, l: Ledger, op: Op)
    requires Sound(lim, l) && Enabled(l, op)
    ensures Sound(lim, Apply(lim, l, op))
  {
    match op
    case Reserve(id, r) => if Refused(lim, l, r).None? { ReserveSound(lim, l, id, r); }
    case Commit(id, to) => CommitSound(lim, l, id, to);
    case Abort(id) => AbortSound(lim, l, id);
    case ReleaseSpools(t) => ReleaseSound(lim, l, t);
    case Remove(bytes) => RemoveSound(lim, l, bytes);
  }

  ghost predicate Leads(lim: Limits, l: Ledger, run: seq<Op>, m: Ledger)
    decreases |run|
  {
    if run == [] then l == m
    else Enabled(l, run[0]) && l.spoolFiles.Keys == l.spoolBytes.Keys && Leads(lim, Apply(lim, l, run[0]), run[1..], m)
  }

  /** Main result: over every interleaving of opens, appends, enqueues, finalizations, failures,
      cleanups and deliveries the bounds hold and no reservation is counted twice or forgotten. */
  lemma {:induction false} CapacityHolds(lim: Limits, l: Ledger, run: seq<Op>, m: Ledger)
    requires Sound(lim, l) && Leads(lim, l, run, m)
    ensures Sound(lim, m)
    ensures m.held == map[] ==> m.reservedBytes == 0 && m.reservedFiles == 0
    decreases |run|
  {
    if run == [] {
      if m.held == map[] {
        assert BytesHeld(m) == map[] && FilesHeld(m) == map[];
      }
    } else {
      StepSound(lim, l, run[0]);
      CapacityHolds(lim, Apply(lim, l, run[0]), run[1..], m);
    }
  }

  /** Wherever a run leaves no finalization waiting for its cleanup, the plain cap holds again. */
  lemma NoCreditNoExcess(lim: Limits, l: Ledger, run: seq<Op>, m: Ledger)
    requires Sound(lim, l) && Leads(lim, l, run, m) && m.credited == {}
    ensures m.queueBytes + m.reservedBytes <= lim.maxBytes && m.files + m.reservedFiles <= lim.maxFiles
  {
    CapacityHolds(lim, l, run, m);
  }

  /** A granted request leaves the free-space and inode cutoffs intact even after all that was promised
      to anyone has been written. */
  lemma GrantLeavesHeadroom(lim: Limits, l: Ledger, run: seq<Op>, m: Ledger, id: nat, r: Request)
    requires Sound(lim, l) && Leads(lim, l, run, m) && Enabled(m, Reserve(id, r)) && Refused(lim, m, r).None?
    ensures m.spoolFiles.Keys == m.spoolBytes.Keys
    ensures var n := Apply(lim, m, Reserve(id, r));
            && (n.freeBytes.Some? ==> n.freeBytes.value - Sum(BytesHeld(n)) >= lim.minFreeBytes)
            && (n.freeFiles.Some? ==> n.freeFiles.value - Sum(FilesHeld(n)) >= lim.minFreeFiles)
  {
    CapacityHolds(lim, l, run, m);
    StepSound(lim, m, Reserve(id, r));
  }

  // The free space known covers all that is promised.
  predicate Covered(l: Ledger) {
    && (l.freeBytes.Some? ==> l.freeBytes.value >= l.reservedBytes)
    && (l.freeFiles.Some? ==> l.freeFiles.value >= l.reservedFiles)
  }

  // Queued and free together: every file taken from one is in the other.
  predicate SameSpace(l: Ledger, m: Ledger) {
    && l.freeBytes.Some? == m.freeBytes.Some? && l.freeFiles.Some? == m.freeFiles.Some?
    && (l.freeBytes.Some? ==> m.freeBytes.value + m.queueBytes == l.freeBytes.value + l.queueBytes)
    && (l.freeFiles.Some? ==> m.freeFiles.value + m.files == l.freeFiles.value + l.files)
  }

  // No reservation is larger than all of them together.
  lemma HeldBelowReserved(l: Ledger, id: nat)
    requires Exact(l) && id in l.held
    ensures l.held[id].bytes <= l.reservedBytes && l.held[id].files <= l.reservedFiles
  {
    SumWithout(BytesHeld(l), id);
    SumWithout(FilesHeld(l), id);
  }

  lemma SpoolsBelowQueue(l: Ledger, t: nat)
    requires Exact(l) && t in l.spoolBytes
    ensures l.spoolBytes[t] <= l.queueBytes
  {
    SumWithout(l.spoolBytes, t);
  }

  lemma StepConserves(lim: Limits, l: Ledger, op: Op)
    requires Exact(l) && Enabled(l, op) && Covered(l)
    ensures SameSpace(l, Apply(lim, l, op)) && Covered(Apply(lim, l, op))
  {
    match op
    case Reserve(_, _) =>
    case Commit(id, _) => HeldBelowReserved(l, id);
    case Abort(id) => HeldBelowReserved(l, id);
    case ReleaseSpools(t) => SpoolsBelowQueue(l, t);
    case Remove(bytes) =>
  }

  /** Main result: over every run what is written leaves the free space and what is removed comes back to
      it, byte for byte and file for file, and the free space always covers what is still promised. */
  lemma {:induction false} FreeSpaceIsConserved(lim: Limits, l: Ledger, run: seq<Op>, m: Ledger)
    requires Sound(lim, l) && Covered(l) && Leads(lim, l, run, m)
    ensures SameSpace(l, m) && Covered(m)
    decreases |run|
  {
    if run != [] {
      StepSound(lim, l, run[0]);
      StepConserves(lim, l, run[0]);
      hide Sound, Apply, Enabled;
      FreeSpaceIsConserved(lim, Apply(lim, l, run[0]), run[1..], m);
    }
  }

  /** The credit is really used: with a full queue a finalization is admitted whose record is no
      larger than its own spools, and the sum then exceeds the cap by exactly that record. */
  lemma CreditIsReached(lim: Limits, l: Ledger, id: nat, t: nat, bytes: nat)
    requires Sound(lim, l) && l.held == map[] && l.freeBytes.None? && l.freeFiles.None? && id !in l.held
    requires t in l.spoolBytes && l.spoolFiles[t] >= 1 && bytes <= l.spoolBytes[t]
    requires l.queueBytes == lim.maxBytes && l.files <= lim.maxFiles
    ensures Refused(lim, l, Request(bytes, 1, Some(t))).None?
    ensures var m := Apply(lim, l, Reserve(id, Request(bytes, 1, Some(t))));
            m.queueBytes + m.reservedBytes == lim.maxBytes + bytes
  {
    SumWithout(l.spoolBytes, t);
    assert BytesHeld(l) == map[] && FilesHeld(l) == map[];
  }

  // ---------- the live object ----------

  /** The counters of the outbox with the blocks that change them between awaits. `ledger` follows
      them with the account of where each byte belongs. */
  class CapacityLedger {
    const limits: Limits
    var queueBytes: int
    var files: int
    var reservedBytes: int
    var reservedFiles: int
    var freeBytes: Option<int>
    var freeFiles: Option<int>
    ghost var ledger: Ledger

    predicate Counts(l: Ledger)
      reads this
    {
      && queueBytes == l.queueBytes && files == l.files && reservedBytes == l.reservedBytes
      && reservedFiles == l.reservedFiles && freeBytes == l.freeBytes && freeFiles == l.freeFiles
    }

    ghost predicate Valid()
      reads this
    {
      Counts(ledger) && Sound(limits, ledger)
    }

    constructor (limits: Limits)
      ensures this.limits == limits && Valid()
      ensures ledger == Ledger(0, 0, 0, 0, None, None, map[], map[], map[], {}, 0, 0)
    {
      this.limits := limits;
      queueBytes, files, reservedBytes, reservedFiles := 0, 0, 0, 0;
      freeBytes, freeFiles := None, None;
      ledger := Ledger(0, 0, 0, 0, None, None, map[], map[], map[], {}, 0, 0);
      new;
      assert BytesHeld(ledger) == map[] && FilesHeld(ledger) == map[];
    }

    /** reserveQueueCapacity: there is no await between the tests and the reservation. */
    method TryReserve(ghost id: nat, bytes: nat, nfiles: nat, creditBytes: nat, creditFiles: nat,
                      ghost credit: Option<nat>)
        returns (refusal: Option<Refusal>)
      requires Valid() && Enabled(ledger, Reserve(id, Request(bytes, nfiles, credit)))
      requires creditBytes == CreditBytes(ledger, Request(bytes, nfiles, credit))
      requires creditFiles == CreditFiles(ledger, Request(bytes, nfiles, credit))
      modifies this
      ensures Valid() && ledger == Apply(limits, old(ledger), Reserve(id, Request(bytes, nfiles, credit)))
      ensures refusal == Refused(limits, old(ledger), Request(bytes, nfiles, credit))
      ensures refusal.None? <==> id in ledger.held
    {
      StepSound(limits, ledger, Reserve(id, Request(bytes, nfiles, credit)));
      hide Sound;
      if freeBytes.Some? && freeBytes.value - reservedBytes - bytes < limits.minFreeBytes {
        return Some(DiskPressure);
      }
      if freeFiles.Some? && freeFiles.value - reservedFiles - nfiles < limits.minFreeFiles {
        return Some(InodePressure);
      }
      if Max0(queueBytes - creditBytes) + reservedBytes + bytes > limits.maxBytes {
        return Some(Full);
      }
      if files + reservedFiles - creditFiles + nfiles > limits.maxFiles {
        return Some(Full);
      }
      reservedBytes := reservedBytes + bytes;
      reservedFiles := reservedFiles + nfiles;
      ledger := Apply(limits, ledger, Reserve(id, Request(bytes, nfiles, credit)));
      refusal := None;
    }

    /** The block after a successful write. */
    method CommitWrite(ghost id: nat, bytes: nat, nfiles: nat, ghost to: Target)
      requires Valid() && Enabled(ledger, Commit(id, to)) && ledger.held[id].bytes == bytes
        && ledger.held[id].files == nfiles
      modifies this
      ensures Valid() && ledger == Apply(limits, old(ledger), Commit(id, to))
    {
      StepSound(limits, ledger, Commit(id, to));
      hide Sound;
      reservedBytes := reservedBytes - bytes;
      reservedFiles := reservedFiles - nfiles;
      queueBytes := queueBytes + bytes;
      files := files + nfiles;
      freeBytes := Less(freeBytes, bytes);
      freeFiles := Less(freeFiles, nfiles);
      ledger := Apply(limits, ledger, Commit(id, to));
    }

    /** The release after a failed write. */
    method AbortWrite(ghost id: nat, bytes: nat, nfiles: nat)
      requires Valid() && Enabled(ledger, Abort(id)) && ledger.held[id].bytes == bytes
        && ledger.held[id].files == nfiles
      modifies this
      ensures Valid() && ledger == Apply(limits, old(ledger), Abort(id))
    {
      StepSound(limits, ledger, Abort(id));
      hide Sound;
      reservedBytes := reservedBytes - bytes;
      reservedFiles := reservedFiles - nfiles;
      ledger := Apply(limits, ledger, Abort(id));
    }

    /** releaseOpenFiles, after the open files are gone. */
    method ReleaseOpenFiles(ghost t: nat, bytes: nat, nfiles: nat)
      requires Valid() && t in ledger.spoolBytes && ledger.spoolBytes[t] == bytes && ledger.spoolFiles[t] == nfiles
      modifies this
      ensures Valid() && ledger == Apply(limits, old(ledger), ReleaseSpools(t))
    {
      StepSound(limits, ledger, ReleaseSpools(t));
      hide Sound;
      queueBytes := Max0(queueBytes - bytes);
      files := files - nfiles;
      freeBytes := More(freeBytes, bytes);
      freeFiles := More(freeFiles, nfiles);
      ledger := Apply(limits, ledger, ReleaseSpools(t));
    }

    /** The accounting of an acknowledged and removed record. */
    method RemoveRecord(bytes: nat)
      requires Valid() && Enabled(ledger, Remove(bytes))
      modifies this
      ensures Valid() && ledger == Apply(limits, old(ledger), Remove(bytes))
    {
      StepSound(limits, ledger, Remove(bytes));
      hide Sound;
      queueBytes := Max0(queueBytes - bytes);
      files := files - 1;
      freeBytes := More(freeBytes, bytes);
      freeFiles := More(freeFiles, 1);
      ledger := Apply(limits, ledger, Remove(bytes));
    }
  }
}
