/** The directory scan behind the outbox metrics: it reads files one by one while enqueues, appends
    and deliveries go on, and publishes only when no mutation overlapped it. */
module QueueScan {

  datatype Dir = PendingDir | ProcessingDir | FailedDir | ReceiptDir | OpenDir

  // `marker` is the .error.json suffix, `openMetadata` the .open.json suffix, `json` any .json suffix.
  datatype File = File(dir: Dir, name: string, json: bool, marker: bool, openMetadata: bool)

  type Files = map<File, nat>

  datatype Stats = Stats(
    pending: nat, processing: nat, failed: nat, auxiliary: nat, receipts: nat, open: nat, transactions: nat,
    queueBytes: nat, activeBytes: nat, failedBytes: nat, receiptBytes: nat, openBytes: nat)

  const NOTHING := Stats(0, 0, 0, 0, 0, 0, 0, 0, 0, 0, 0, 0)

  function Plus(a: Stats, b: Stats): Stats {
    Stats(a.pending + b.pending, a.processing + b.processing, a.failed + b.failed, a.auxiliary + b.auxiliary,
          a.receipts + b.receipts, a.open + b.open, a.transactions + b.transactions,
          a.queueBytes + b.queueBytes, a.activeBytes + b.activeBytes, a.failedBytes + b.failedBytes,
          a.receiptBytes + b.receiptBytes, a.openBytes + b.openBytes)
  }

  // The order in which the scan lists the directories.
  function Rank(d: Dir): nat {
    match d
    case PendingDir => 0
    case ProcessingDir => 1
    case FailedDir => 2
    case ReceiptDir => 3
    case OpenDir => 4
  }

  /** Which directory entries a listing returns: everything in open/, error markers only in failed/. */
  predicate Listed(f: File) {
    match f.dir
    case OpenDir => true
    case FailedDir => f.json
    case _ => f.json && !f.marker
  }

  function Share(f: File, size: nat): Stats {
    match f.dir
    case PendingDir => NOTHING.(pending := 1, queueBytes := size, activeBytes := size)
    case ProcessingDir => NOTHING.(processing := 1, queueBytes := size, activeBytes := size)
    case FailedDir =>
      if f.marker then NOTHING.(auxiliary := 1, queueBytes := size, failedBytes := size)
      else NOTHING.(failed := 1, queueBytes := size, failedBytes := size)
    case ReceiptDir => NOTHING.(receipts := 1, queueBytes := size, receiptBytes := size)
    case OpenDir =>
      NOTHING.(open := 1, transactions := if f.openMetadata then 1 else 0, queueBytes := size, openBytes := size)
  }

  // ---------- what the directories amount to ----------

  ghost function Total(m: Files): Stats
    decreases |m|
  {
    if m == map[] then NOTHING
    else
      var f :| f in m;
      SmallerWithout(m, f);
      Plus(Share(f, m[f]), Total(m - {f}))
  }

  lemma SmallerWithout(m: Files, f: File)
    requires f in m
    ensures |m - {f}| == |m| - 1
  {
    assert m.Keys == (m - {f}).Keys + {f};
    assert |m.Keys| == |m| && |(m - {f}).Keys| == |m - {f}|;
  }

  /** The total does not depend on the order in which files are added up. */
  lemma {:induction false} TotalWithout(m: Files, f: File)
    requires f in m
    ensures Total(m) == Plus(Share(f, m[f]), Total(m - {f}))
    decreases |m|
  {
    var g :| g in m && Total(m) == Plus(Share(g, m[g]), Total(m - {g}));
    if f != g {
      SmallerWithout(m, g);
      SmallerWithout(m, f);
      TotalWithout(m - {g}, f);
      TotalWithout(m - {f}, g);
      assert m - {g} - {f} == m - {f} - {g};
      PlusSwap(Share(g, m[g]), Share(f, m[f]), Total(m - {f} - {g}));
    }
  }

  lemma PlusSwap(a: Stats, b: Stats, c: Stats)
    ensures Plus(a, Plus(b, c)) == Plus(b, Plus(a, c))
  {
  }

  function Visible(files: Files, n: nat): set<File> {
    set f | f in files && Listed(f) && Rank(f.dir) < n
  }

  function Restrict(files: Files, s: set<File>): Files {
    map f | f in files && f in s :: files[f]
  }

  /** The counts and byte totals that describe the five directories. */
  ghost function Describe(files: Files): Stats {
    Total(Restrict(files, Visible(files, 5)))
  }

  function InDir(files: Files, d: Dir): set<File> {
    set f | f in files && f.dir == d && Listed(f)
  }

  lemma InDirWithout(m: Files, f: File, d: Dir)
    requires f in m && Listed(f)
    ensures |InDir(m, d)| == |InDir(m - {f}, d)| + (if f.dir == d then 1 else 0)
  {
    if f.dir == d {
      assert InDir(m, d) == InDir(m - {f}, d) + {f};
    } else {
      assert InDir(m, d) == InDir(m - {f}, d);
    }
  }

  // What one summary says about one directory.
  function CountOf(t: Stats, d: Dir): nat {
    match d
    case PendingDir => t.pending
    case ProcessingDir => t.processing
    case FailedDir => t.failed + t.auxiliary
    case ReceiptDir => t.receipts
    case OpenDir => t.open
  }

  /** Read independently of any order: each count is the number of such files, and the queue's
      bytes are the bytes of its parts. */
  lemma {:induction false} CountsAreCardinalities(m: Files, d: Dir)
    requires forall f :: f in m ==> Listed(f)
    ensures CountOf(Total(m), d) == |InDir(m, d)|
    ensures Total(m).queueBytes == Total(m).activeBytes + Total(m).failedBytes + Total(m).receiptBytes
      + Total(m).openBytes
    decreases |m|
  {
    if m == map[] {
      assert InDir(m, d) == {};
    } else {
      var f :| f in m;
      TotalWithout(m, f);
      SmallerWithout(m, f);
      CountsAreCardinalities(m - {f}, d);
      InDirWithout(m, f, d);
    }
  }

  // ---------- each figure from the files themselves ----------

  // The bytes of the files in these directories.
  ghost function Bytes(m: Files, dirs: set<Dir>): nat
    decreases |m|
  {
    if m == map[] then 0
    else
      var f :| f in m;
      SmallerWithout(m, f);
      (if f.dir in dirs then m[f] else 0) + Bytes(m - {f}, dirs)
  }

  lemma {:induction false} BytesWithout(m: Files, f: File, dirs: set<Dir>)
    requires f in m
    ensures Bytes(m, dirs) == (if f.dir in dirs then m[f] else 0) + Bytes(m - {f}, dirs)
    decreases |m|
  {
    var g :| g in m && Bytes(m, dirs) == (if g.dir in dirs then m[g] else 0) + Bytes(m - {g}, dirs);
    if f != g {
      SmallerWithout(m, g);
      SmallerWithout(m, f);
      BytesWithout(m - {g}, f, dirs);
      BytesWithout(m - {f}, g, dirs);
      assert m - {g} - {f} == m - {f} - {g};
    }
  }

  predicate BytesAgree(t: Stats, active: nat, failed: nat, receipt: nat, open: nat) {
    && t.activeBytes == active && t.failedBytes == failed && t.receiptBytes == receipt && t.openBytes == open
  }

  lemma {:induction false} BytesByDirectory(m: Files)
    ensures BytesAgree(Total(m), Bytes(m, {PendingDir, ProcessingDir}), Bytes(m, {FailedDir}), Bytes(m, {ReceiptDir}),
                       Bytes(m, {OpenDir}))
    decreases |m|
  {
    if m != map[] {
      var f :| f in m;
      SmallerWithout(m, f);
      BytesByDirectory(m - {f});
      OneFilesBytes(m, f);
    }
  }

  lemma OneFilesBytes(m: Files, f: File)
    requires f in m
    requires var n := m - {f};
      BytesAgree(Total(n), Bytes(n, {PendingDir, ProcessingDir}), Bytes(n, {FailedDir}), Bytes(n, {ReceiptDir}),
                 Bytes(n, {OpenDir}))
    ensures BytesAgree(Total(m), Bytes(m, {PendingDir, ProcessingDir}), Bytes(m, {FailedDir}), Bytes(m, {ReceiptDir}),
                       Bytes(m, {OpenDir}))
  {
    hide Total, Bytes;
    TotalWithout(m, f);
    BytesWithout(m, f, {PendingDir, ProcessingDir});
    BytesWithout(m, f, {FailedDir});
    BytesWithout(m, f, {ReceiptDir});
    BytesWithout(m, f, {OpenDir});
  }

  // Error markers, failed records and open transactions, counted apart.
  lemma {:induction false} MarkersApart(m: Files)
    ensures Total(m).auxiliary == |set f | f in m && f.dir.FailedDir? && f.marker|
    ensures Total(m).failed == |set f | f in m && f.dir.FailedDir? && !f.marker|
    ensures Total(m).transactions == |set f | f in m && f.dir.OpenDir? && f.openMetadata|
    decreases |m|
  {
    if m != map[] {
      var f :| f in m;
      TotalWithout(m, f);
      SmallerWithout(m, f);
      MarkersApart(m - {f});
      var n := m - {f};
      SetWithout((set g | g in m && g.dir.FailedDir? && g.marker), (set g | g in n && g.dir.FailedDir? && g.marker), f);
      SetWithout((set g | g in m && g.dir.FailedDir? && !g.marker), (set g | g in n && g.dir.FailedDir? && !g.marker),
                 f);
      SetWithout((set g | g in m && g.dir.OpenDir? && g.openMetadata),
                 (set g | g in n && g.dir.OpenDir? && g.openMetadata), f);
    }
  }

  lemma SetWithout(a: set<File>, b: set<File>, f: File)
    requires forall g :: g in b <==> g in a && g != f
    ensures |a| == |b| + (if f in a then 1 else 0)
  {
    if f in a {
      assert a == b + {f};
    } else {
      assert a == b;
    }
  }

  // The files a listing shows: JSON files that are no error markers, both in failed/, everything in open/.
  function Shown(files: Files): Files {
    map f | f in files && (f.dir.OpenDir? || (f.json && (f.dir.FailedDir? || !f.marker))) :: files[f]
  }

  /** Main result: what each published figure counts, read off the directories: records waiting, claimed
      and failed, error markers, receipts, open files and open transactions, and the bytes of each part. */
  lemma FiguresMean(files: Files)
    ensures var d, shown := Describe(files), Shown(files);
      && d.pending == |set f | f in shown && f.dir == PendingDir|
      && d.processing == |set f | f in shown && f.dir == ProcessingDir|
      && d.failed == |set f | f in shown && f.dir.FailedDir? && !f.marker|
      && d.auxiliary == |set f | f in shown && f.dir.FailedDir? && f.marker|
      && d.receipts == |set f | f in shown && f.dir == ReceiptDir| && d.open == |set f | f in shown && f.dir == OpenDir|
      && d.transactions == |set f | f in shown && f.dir.OpenDir? && f.openMetadata|
      && d.activeBytes == Bytes(shown, {PendingDir, ProcessingDir}) && d.failedBytes == Bytes(shown, {FailedDir})
      && d.receiptBytes == Bytes(shown, {ReceiptDir}) && d.openBytes == Bytes(shown, {OpenDir})
      && d.queueBytes == d.activeBytes + d.failedBytes + d.receiptBytes + d.openBytes
  {
    var shown := Shown(files);
    assert Restrict(files, Visible(files, 5)) == shown;
    BytesByDirectory(shown);
    MarkersApart(shown);
    CountOfDirectory(shown, PendingDir);
    CountOfDirectory(shown, ProcessingDir);
    CountOfDirectory(shown, ReceiptDir);
    CountOfDirectory(shown, OpenDir);
  }

  lemma CountOfDirectory(m: Files, d: Dir)
    requires forall f :: f in m ==> Listed(f)
    ensures CountOf(Total(m), d) == |set f | f in m && f.dir == d|
    ensures Total(m).queueBytes == Total(m).activeBytes + Total(m).failedBytes + Total(m).receiptBytes
      + Total(m).openBytes
  {
    CountsAreCardinalities(m, d);
    assert InDir(m, d) == set f | f in m && f.dir == d;
  }

  // ---------- the interleaved scan ----------

  datatype Scan =
    | Resting
    | Scanning(version: nat, listed: nat, todo: set<File>, sum: Stats)

  datatype State = State(files: Files, mutations: nat, version: nat, scan: Scan, metrics: Stats)

  datatype Action =
    | BeginMutation | EndMutation
    | Change(files: Files)            // any change of the directories by an open mutation
    | Count(metrics: Stats)           // a live metrics update by an open mutation
    | ScanStart | ScanList | ScanFile(file: File) | ScanEnd

  predicate Enabled(s: State, a: Action) {
    match a
    case BeginMutation => true
    case EndMutation => s.mutations > 0
    case Change(_) => s.mutations > 0
    case Count(_) => s.mutations > 0
    case ScanStart => s.scan == Resting
    case ScanList => s.scan.Scanning? && s.scan.todo == {} && s.scan.listed < 5
    case ScanFile(f) => s.scan.Scanning? && f in s.scan.todo
    case ScanEnd => s.scan.Scanning? && s.scan.todo == {} && s.scan.listed == 5
  }

  predicate Publishes(s: State, a: Action) {
    a == ScanEnd && s.scan.Scanning? && s.mutations == 0 && s.version == s.scan.version
  }

  function Apply(s: State, a: Action): State
    requires Enabled(s, a)
  {
    match a
    case BeginMutation => s.(mutations := s.mutations + 1, version := s.version + 1)
    case EndMutation => s.(mutations := s.mutations - 1, version := s.version + 1)
    case Change(files) => s.(files := files)
    case Count(metrics) => s.(metrics := metrics)
    case ScanStart => s.(scan := Scanning(s.version, 0, {}, NOTHING))
    case ScanList =>
      s.(scan := s.scan.(listed := s.scan.listed + 1,
                         todo := set f | f in s.files && Listed(f) && Rank(f.dir) == s.scan.listed))
    case ScanFile(f) =>
      s.(scan := s.scan.(todo := s.scan.todo - {f},
                         sum := if f in s.files then Plus(s.scan.sum, Share(f, s.files[f])) else s.scan.sum))
    case ScanEnd =>
      if Publishes(s, a) then s.(scan := Resting, metrics := s.scan.sum) else s.(scan := Resting)
  }

  /** If nothing has begun or ended since the scan read the version and no mutation is open, then
      none was open at the start, no file has changed, and the sum covers what was visited. */
  ghost predicate Coherent(s: State) {
    s.scan.Scanning? ==>
      && s.scan.version <= s.version && s.scan.listed <= 5
      && (s.scan.version == s.version && s.mutations == 0 ==>
            && s.scan.todo <= Visible(s.files, s.scan.listed)
            && s.scan.sum == Total(Restrict(s.files, Visible(s.files, s.scan.listed) - s.scan.todo)))
  }

  lemma ListKeepsCoherent(s: State)
    requires Coherent(s) && Enabled(s, ScanList)
    ensures Coherent(Apply(s, ScanList))
  {
    var t := Apply(s, ScanList);
    assert Visible(s.files, t.scan.listed) - t.scan.todo == Visible(s.files, s.scan.listed);
    assert s.scan.todo == {};
    assert Visible(s.files, s.scan.listed) - s.scan.todo == Visible(s.files, s.scan.listed);
  }

  lemma FileKeepsCoherent(s: State, f: File)
    requires Coherent(s) && Enabled(s, ScanFile(f))
    ensures Coherent(Apply(s, ScanFile(f)))
  {
    if s.scan.version == s.version && s.mutations == 0 {
      var before := Restrict(s.files, Visible(s.files, s.scan.listed) - s.scan.todo);
      var after := Restrict(s.files, Visible(s.files, s.scan.listed) - (s.scan.todo - {f}));
      TotalWithout(after, f);
      assert after - {f} == before;
    }
  }

  lemma StepKeepsCoherent(s: State, a: Action)
    requires Coherent(s) && Enabled(s, a)
    ensures Coherent(Apply(s, a))
  {
    match a
    case ScanList => ListKeepsCoherent(s);
    case ScanFile(f) => FileKeepsCoherent(s, f);
    case ScanStart =>
      assert Visible(s.files, 0) - {} == {};
      assert Restrict(s.files, {}) == map[];
    case BeginMutation =>
    case EndMutation =>
    case Change(_) =>
    case Count(_) =>
    case ScanEnd =>
  }

  predicate Leads(s: State, run: seq<Action>, t: State)
    decreases |run|
  {
    if run == [] then s == t else Enabled(s, run[0]) && Leads(Apply(s, run[0]), run[1..], t)
  }

  lemma {:induction false} RunKeepsCoherent(s: State, run: seq<Action>, t: State)
    requires Coherent(s) && Leads(s, run, t)
    ensures Coherent(t)
    decreases |run|
  {
    if run != [] {
      StepKeepsCoherent(s, run[0]);
      RunKeepsCoherent(Apply(s, run[0]), run[1..], t);
    }
  }

  /** Main result: whatever mutations interleave with the scan, the metrics it publishes describe
      the directories as they are at that moment, and no mutation is open then. A live update that
      already described them is therefore left as it was. */
  lemma PublishedScanIsExact(s: State, run: seq<Action>, t: State)
    requires s.scan == Resting && Leads(s, run, t)
    requires Enabled(t, ScanEnd) && Publishes(t, ScanEnd)
    ensures t.mutations == 0 && Apply(t, ScanEnd).metrics == Describe(t.files)
    ensures t.metrics == Describe(t.files) ==> Apply(t, ScanEnd).metrics == t.metrics
  {
    RunKeepsCoherent(s, run, t);
    assert Visible(t.files, 5) - {} == Visible(t.files, 5);
  }

  /** A scan that overlapped any mutation publishes no metrics: the live ones stay as they are. */
  lemma OverlappedScanIsDiscarded(s: State, run: seq<Action>, t: State, k: nat)
    requires s.scan == Resting && Enabled(s, ScanStart) && Leads(Apply(s, ScanStart), run, t)
    requires k < |run| && (run[k] == BeginMutation || run[k] == EndMutation)
    requires forall i :: 0 <= i < |run| ==> run[i] != ScanEnd && run[i] != ScanStart
    requires Enabled(t, ScanEnd)
    ensures !Publishes(t, ScanEnd) && Apply(t, ScanEnd).metrics == t.metrics
  {
    VersionMoves(Apply(s, ScanStart), run, t, k);
  }

  lemma {:induction false} VersionMoves(s: State, run: seq<Action>, t: State, k: nat)
    requires Leads(s, run, t) && k <= |run| && s.scan.Scanning?
    requires forall i :: 0 <= i < |run| ==> run[i] != ScanEnd && run[i] != ScanStart
    ensures t.scan.Scanning? && t.scan.version == s.scan.version && s.version <= t.version
    ensures k < |run| && (run[k] == BeginMutation || run[k] == EndMutation) ==> s.version < t.version
    decreases |run|
  {
    if run != [] {
      VersionMoves(Apply(s, run[0]), run[1..], t, if k == 0 then |run| - 1 else k - 1);
    }
  }

  lemma {:induction false} LeadsThen(s: State, run: seq<Action>, t: State, a: Action)
    requires Leads(s, run, t) && Enabled(t, a)
    ensures Leads(s, run + [a], Apply(t, a))
    decreases |run|
  {
    if run == [] {
      assert ([a])[1..] == [];
    } else {
      LeadsThen(Apply(s, run[0]), run[1..], t, a);
      assert (run + [a])[1..] == run[1..] + [a];
    }
  }

  // Listing the remaining directories of an empty outbox.
  lemma {:induction false} ListsEmpty(s: State, run: seq<Action>, t: State, n: nat)
    returns (longer: seq<Action>, u: State)
    requires Leads(s, run, t) && t.files == map[] && t.scan.Scanning? && t.scan.todo == {} && t.scan.listed + n == 5
    ensures Leads(s, longer, u) && u == t.(scan := t.scan.(listed := 5))
    decreases n
  {
    longer, u := run, t;
    if n > 0 {
      LeadsThen(s, run, t, ScanList);
      assert Apply(t, ScanList).scan.todo == {};
      longer, u := ListsEmpty(s, run + [ScanList], Apply(t, ScanList), n - 1);
    }
  }

  // One pending file on an otherwise empty disk, and the scan that has listed and counted it.
  function Alone(f: File, size: nat): State {
    State(map[f := size], 0, 0, Resting, NOTHING)
  }

  function Counted(f: File, size: nat): State {
    Alone(f, size).(scan := Scanning(0, 1, {}, Plus(NOTHING, Share(f, size))))
  }

  lemma ScanCounts(f: File, size: nat) returns (run: seq<Action>)
    requires f.dir == PendingDir && Listed(f)
    ensures Leads(Alone(f, size), run, Counted(f, size))
  {
    hide Leads;
    var s := Alone(f, size);
    LeadsNowhere(s);
    LeadsThen(s, [], s, ScanStart);
    var t1 := Apply(s, ScanStart);
    LeadsThen(s, [] + [ScanStart], t1, ScanList);
    var t2 := Apply(t1, ScanList);
    assert t2.scan.todo == {f};
    LeadsThen(s, [] + [ScanStart] + [ScanList], t2, ScanFile(f));
    run := [] + [ScanStart] + [ScanList] + [ScanFile(f)];
    assert {f} - {f} == {};
  }

  lemma LeadsNowhere(s: State)
    ensures Leads(s, [], s)
  {
  }

  // A delivery removes the file in a mutation of its own.
  lemma DeliveryRemoves(s: State, run: seq<Action>, c: State) returns (longer: seq<Action>)
    requires Leads(s, run, c) && c.mutations == 0
    ensures Leads(s, longer, c.(files := map[], version := c.version + 2))
  {
    hide Leads;
    LeadsThen(s, run, c, BeginMutation);
    var t4 := Apply(c, BeginMutation);
    LeadsThen(s, run + [BeginMutation], t4, Change(map[]));
    var t5 := Apply(t4, Change(map[]));
    LeadsThen(s, run + [BeginMutation] + [Change(map[])], t5, EndMutation);
    longer := run + [BeginMutation] + [Change(map[])] + [EndMutation];
  }

  /** The open-mutation test alone would not do: a delivery that begins and ends inside the scan
      removes a file the scan has counted already. */
  lemma VersionTestIsNeeded(f: File, size: nat) returns (run: seq<Action>, t: State)
    requires f.dir == PendingDir && Listed(f)
    ensures Leads(Alone(f, size), run, t) && Enabled(t, ScanEnd)
    ensures t.mutations == 0 && t.scan.sum != Describe(t.files) && !Publishes(t, ScanEnd)
  {
    hide Leads;
    run := ScanCounts(f, size);
    run := DeliveryRemoves(Alone(f, size), run, Counted(f, size));
    run, t := ListsEmpty(Alone(f, size), run, Counted(f, size).(files := map[], version := 2), 4);
    assert Restrict(t.files, Visible(t.files, 5)) == map[];
    assert t.scan.sum.pending == 1;
  }
}
