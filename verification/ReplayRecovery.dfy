/** Replaying failed Captures: a copy under a new identity is put beside the untouched original, delivered
    like any record, and removed only after a receipt for the original is on disk. */
module ReplayRecovery {
  import opened CaptureStore
  import opened Options
  import opened RelayReceipt

  // ---------- files ----------

  // What a replay copy says about the failed original it stands for.
  datatype Origin = Origin(originalId: string, fileName: string, sha256: Digest)

  // A queue file is named by its Capture ID; ordinary records have no origin.
  datatype QueueFile = QueueFile(id: string, bytes: Bytes, origin: Option<Origin>)

  datatype ReceiptKey = ReceiptKey(captureId: string, sha256: Digest)

  // `locator` stands for the segment, offset, length and hash the Relay reported.
  datatype Receipt = Receipt(originalId: string, fileName: string, sha256: Digest, replay: Digest, duplicate: bool,
                             locator: (int, int, int), recordedAt: nat)

  // A delivery under way. It is forgotten by a crash.
  datatype Flight = Sending | Acked(duplicate: bool, locator: (int, int, int)) | Receipted

  /** `acked` records every file whose acknowledgement was accepted, `copies` every replay copy made. */
  datatype Outbox = Outbox(failed: map<string, QueueFile>, pending: map<string, QueueFile>, processing: map<string,
                           QueueFile>,
                           receipts: map<ReceiptKey, Receipt>, flights: map<string, Flight>,
                           acked: set<QueueFile>, copies: set<QueueFile>)

  function HexDigit(n: int): char
    requires 0 <= n < 16
  {
    (if n < 10 then '0' as int + n else 'a' as int + n - 10) as char
  }

  // One byte as two digits.
  function Digits(b: byte): string {
    [HexDigit(b as int / 16), HexDigit(b as int % 16)]
  }

  function Hex(bytes: Bytes): string {
    if bytes == [] then ""
    else Hex(bytes[..|bytes| - 1]) + Digits(bytes[|bytes| - 1])
  }

  /** The identity of a replay copy depends on the original's identity and bytes alone. The outer hash is
      taken to be what it hashes: the ID, a NUL and the hexadecimal hash of the failed file. */
  function RecoveryCaptureId(originalId: string, sha256: Digest): string {
    "cap-replay-" + originalId + "\0" + Hex(sha256.of)
  }

  lemma {:induction false} HexHasNoNul(a: Bytes)
    ensures '\0' !in Hex(a)
  {
    if a != [] {
      HexHasNoNul(a[..|a| - 1]);
    }
  }

  lemma SameDigits(a: byte, b: byte)
    requires Digits(a) == Digits(b)
    ensures a == b
  {
    assert Digits(a)[0] == Digits(b)[0] && Digits(a)[1] == Digits(b)[1];
    var x, y := a as int, b as int;
    assert x == 16 * (x / 16) + x % 16 && y == 16 * (y / 16) + y % 16;
    SameDigit(x / 16, y / 16);
    SameDigit(x % 16, y % 16);
  }

  lemma SameDigit(x: int, y: int)
    requires 0 <= x < 16 && 0 <= y < 16 && HexDigit(x) == HexDigit(y)
    ensures x == y
  {
  }

  lemma {:induction false} HexIsOne(a: Bytes, b: Bytes)
    requires Hex(a) == Hex(b)
    ensures a == b
  {
    if a != [] && b != [] {
      var m, n := |a| - 1, |b| - 1;
      LastDigits(Hex(a[..m]), Digits(a[m]), Hex(b[..n]), Digits(b[n]));
      SameDigits(a[m], b[n]);
      hide Hex, Digits;
      HexIsOne(a[..m], b[..n]);
      assert a == a[..m] + [a[m]] && b == b[..n] + [b[n]];
    }
  }

  lemma LastDigits(x: string, d: string, y: string, e: string)
    requires x + d == y + e && |d| == |e|
    ensures x == y && d == e
  {
    assert |x| == |y| && (x + d)[..|x|] == x && (y + e)[..|y|] == y;
    assert (x + d)[|x|..] == d && (y + e)[|y|..] == e;
  }

  /** Different originals have different copies: the IDs agree exactly when ID and hash do. */
  lemma CopiesDiffer(a: string, h: Digest, b: string, k: Digest)
    ensures RecoveryCaptureId(a, h) == RecoveryCaptureId(b, k) <==> a == b && h == k
  {
    var x, y := RecoveryCaptureId(a, h), RecoveryCaptureId(b, k);
    if x == y {
      HexHasNoNul(h.of);
      HexHasNoNul(k.of);
      EndsOf(a, Hex(h.of));
      EndsOf(b, Hex(k.of));
      assert |a| == |b|;
      assert a == x[11..11 + |a|] && b == y[11..11 + |b|];
      assert Hex(h.of) == x[12 + |a|..] && Hex(k.of) == y[12 + |b|..];
      HexIsOne(h.of, k.of);
    }
  }

  // The last NUL stands between the ID and the hash.
  lemma EndsOf(id: string, hash: string)
    requires '\0' !in hash
    ensures var s := "cap-replay-" + id + "\0" + hash;
      s[11 + |id|] == '\0' && forall i :: 11 + |id| < i < |s| ==> s[i] != '\0'
  {
    var s := "cap-replay-" + id + "\0" + hash;
    forall i | 11 + |id| < i < |s| ensures s[i] != '\0' {
      assert s[i] == hash[i - 12 - |id|];
    }
  }

  function CopyOf(fileName: string, original: QueueFile, bytes: Bytes): QueueFile {
    QueueFile(RecoveryCaptureId(original.id, Sha256(original.bytes)), bytes,
              Some(Origin(original.id, fileName, Sha256(original.bytes))))
  }

  datatype Target = Absent | AlreadyPresent | TargetConflict

  /** How a pending file of the copy's name is read: the same bytes, or a copy of the same original made
      earlier, count as present. */
  function Inspect(existing: Option<QueueFile>, copy: QueueFile): Target {
    if existing.None? then Absent
    else if Sha256(existing.value.bytes) == Sha256(copy.bytes) then AlreadyPresent
    else if existing.value.id == copy.id && existing.value.origin.Some? && copy.origin.Some?
            && existing.value.origin.value.sha256 == copy.origin.value.sha256 then AlreadyPresent
    else TargetConflict
  }

  function Find(files: map<string, QueueFile>, id: string): Option<QueueFile> {
    if id in files then Some(files[id]) else None
  }

  // ---------- steps ----------

  datatype Move = ToProcessing | ToPending | ToFailed

  datatype Action =
    // `bytes` is the normalised record, None when the original cannot be derived from.
    | Replay(fileName: string, bytes: Option<Bytes>)
    | Enqueue(file: QueueFile)
    | Shift(id: string, move: Move)
    | Send(id: string)
    | Answer(id: string, reply: Reply)
    | WriteReceipt(id: string, at: nat)
    | Remove(id: string)
    | Abandon(id: string)
    | Crash

  predicate Enabled(o: Outbox, a: Action) {
    match a
    case Replay(_, _) => true
    case Enqueue(file) => file.origin.None? && file.id !in o.pending
    case Shift(id, move) => id !in o.flights && id in (if move.ToProcessing? then o.pending else o.processing)
    case Send(id) => id in o.processing && id !in o.flights
    case Answer(id, _) => id in o.flights && o.flights[id].Sending?
    case WriteReceipt(id, _) => id in o.flights && o.flights[id].Acked?
    case Remove(id) => id in o.flights && o.flights[id].Receipted?
    case Abandon(id) => id in o.flights && id in o.processing
    case Crash => true
  }

  /** Makes the copy unless something already has its name in pending. */
  function Replayed(o: Outbox, fileName: string, bytes: Option<Bytes>): Outbox {
    if fileName !in o.failed || bytes.None? then o
    else
      var copy := CopyOf(fileName, o.failed[fileName], bytes.value);
      if Inspect(Find(o.pending, copy.id), copy).Absent?
      then o.(pending := o.pending[copy.id := copy], copies := o.copies + {copy}) else o
  }

  /** A move that replaces nothing: it stops at a different file of that name, and drops the source when
      an equal one is there. The source directory first, then the target. */
  function MoveFile(source: map<string, QueueFile>, target: map<string, QueueFile>, id: string)
    : (map<string, QueueFile>, map<string, QueueFile>)
    requires id in source
  {
    if id !in target then (source - {id}, target[id := source[id]])
    else if target[id] == source[id] then (source - {id}, target)
    else (source, target)
  }

  function Shifted(o: Outbox, id: string, move: Move): Outbox
    requires Enabled(o, Shift(id, move))
  {
    match move
    case ToProcessing => var m := MoveFile(o.pending, o.processing, id); o.(pending := m.0, processing := m.1)
    case ToPending => var m := MoveFile(o.processing, o.pending, id); o.(processing := m.0, pending := m.1)
    case ToFailed => var m := MoveFile(o.processing, o.failed, id); o.(processing := m.0, failed := m.1)
  }

  function Locator(reply: Reply): (int, int, int) {
    if reply.payload.capture.None? then (0, 0, 0)
    else
      var c := reply.payload.capture.value;
      (if c.segmentId.Some? then c.segmentId.value else 0, if c.offset.Some? then c.offset.value else 0,
       if c.length.Some? then c.length.value else 0)
  }

  function Answered(o: Outbox, id: string, reply: Reply): Outbox
    requires id in o.flights
  {
    if id in o.processing && Classify(reply, id, o.processing[id].bytes).Accepted?
    then o.(flights := o.flights[id := Acked(reply.payload.duplicate == Some(true), Locator(reply))],
            acked := o.acked + {o.processing[id]})
    else o.(flights := o.flights - {id})
  }

  function ReceiptFor(file: QueueFile, flight: Flight, at: nat): Receipt
    requires file.origin.Some? && flight.Acked?
  {
    var origin := file.origin.value;
    Receipt(origin.originalId, origin.fileName, origin.sha256, Sha256(file.bytes), flight.duplicate, flight.locator, at)
  }

  function KeyOf(file: QueueFile): ReceiptKey
    requires file.origin.Some?
  {
    ReceiptKey(file.id, file.origin.value.sha256)
  }

  /** Writes the receipt of a replay copy. One that is there already must agree in everything but its
      time; otherwise the delivery is abandoned and the copy stays. */
  function ReceiptWritten(o: Outbox, id: string, at: nat): Outbox
    requires Enabled(o, WriteReceipt(id, at))
  {
    if id !in o.processing then o.(flights := o.flights - {id})
    else if o.processing[id].origin.None? then o.(flights := o.flights[id := Receipted])
    else
      var key := KeyOf(o.processing[id]);
      var receipt := ReceiptFor(o.processing[id], o.flights[id], at);
      if key !in o.receipts then o.(receipts := o.receipts[key := receipt], flights := o.flights[id := Receipted])
      else if o.receipts[key] == receipt.(recordedAt := o.receipts[key].recordedAt)
        then o.(flights := o.flights[id := Receipted])
      else o.(flights := o.flights - {id})
  }

  function Apply(o: Outbox, a: Action): Outbox
    requires Enabled(o, a)
  {
    match a
    case Replay(fileName, bytes) => Replayed(o, fileName, bytes)
    case Enqueue(file) => o.(pending := o.pending[file.id := file])
    case Shift(id, move) => Shifted(o, id, move)
    case Send(id) => o.(flights := o.flights[id := Sending])
    case Answer(id, reply) => Answered(o, id, reply)
    case WriteReceipt(id, at) => ReceiptWritten(o, id, at)
    case Remove(id) => o.(processing := o.processing - {id}, flights := o.flights - {id})
    case Abandon(id) => o.(flights := o.flights - {id})
    case Crash => o.(flights := map[])
  }

  // ---------- what every step keeps ----------

  // A receipt on disk that settles this copy.
  predicate Settles(o: Outbox, f: QueueFile) {
    f.origin.Some? && KeyOf(f) in o.receipts
    && o.receipts[KeyOf(f)].fileName == f.origin.value.fileName && o.receipts[KeyOf(f)].sha256 == f.origin.value.sha256
    && o.receipts[KeyOf(f)].replay == Sha256(f.bytes)
  }

  predicate Stored(o: Outbox, f: QueueFile) {
    Find(o.pending, f.id) == Some(f) || Find(o.processing, f.id) == Some(f) || Find(o.failed, f.id) == Some(f)
  }

  ghost predicate Proven(o: Outbox, k: ReceiptKey)
    requires k in o.receipts
  {
    exists f :: f in o.acked && f.id == k.captureId && f.origin.Some?
      && f.origin.value.fileName == o.receipts[k].fileName && f.origin.value.originalId == o.receipts[k].originalId
      && f.origin.value.sha256 == k.sha256 == o.receipts[k].sha256 && Sha256(f.bytes) == o.receipts[k].replay
  }

  predicate FlightSound(o: Outbox, id: string)
    requires id in o.flights
  {
    && id in o.processing
    && (!o.flights[id].Sending? ==> o.processing[id] in o.acked)
    && (o.flights[id].Receipted? && o.processing[id].origin.Some? ==> Settles(o, o.processing[id]))
  }

  ghost predicate Sound(o: Outbox) {
    && (forall id :: id in o.pending ==> o.pending[id].id == id)
    && (forall id :: id in o.processing ==> o.processing[id].id == id)
    && (forall k :: k in o.receipts ==> Proven(o, k))
    && (forall id :: id in o.flights ==> FlightSound(o, id))
    && (forall f :: f in o.copies ==> f.origin.Some? && (Stored(o, f) || Settles(o, f)))
  }

  ghost predicate Receipts(o: Outbox) {
    forall k :: k in o.receipts ==> Proven(o, k)
  }

  lemma MoveFileFrame(source: map<string, QueueFile>, target: map<string, QueueFile>, id: string)
    requires id in source
    ensures var (s, t) := MoveFile(source, target, id);
      && (forall x :: x in s ==> x in source && s[x] == source[x]) && (forall x :: x != id && x in source ==> x in s)
      && (forall x :: x in target ==> x in t && t[x] == target[x])
        && (forall x :: x in t && x !in target ==> x == id && t[x] == source[id])
      && (id !in s ==> id in t && t[id] == source[id])
  {
  }

  // File x of a directory was there before, or it is the moved one from the other directory.
  predicate CameFrom(after: map<string, QueueFile>, before: map<string, QueueFile>, other: map<string, QueueFile>,
                     id: string, x: string)
    requires x in after
  {
    (x in before && after[x] == before[x]) || (x == id && id in other && after[x] == other[id])
  }

  // A move touches the three directories only, and takes or keeps names as they are.
  lemma ShiftFrame(o: Outbox, id: string, move: Move)
    requires Enabled(o, Shift(id, move))
    ensures var n := Shifted(o, id, move);
      && n.receipts == o.receipts && n.acked == o.acked && n.copies == o.copies && n.flights == o.flights
      && (forall x :: x != id && x in o.processing ==> x in n.processing && n.processing[x] == o.processing[x])
      && (forall x :: x in n.pending ==> CameFrom(n.pending, o.pending, o.processing, id, x))
      && (forall x :: x in n.processing ==> CameFrom(n.processing, o.processing, o.pending, id, x))
  {
    hide MoveFile;
    match move
    case ToProcessing => MoveFileFrame(o.pending, o.processing, id);
    case ToPending => MoveFileFrame(o.processing, o.pending, id);
    case ToFailed => MoveFileFrame(o.processing, o.failed, id);
  }

  // Receipts and acknowledgements only accumulate.
  lemma RecordsGrow(o: Outbox, a: Action)
    requires Enabled(o, a)
    ensures var n := Apply(o, a);
      && o.acked <= n.acked && (forall k :: k in o.receipts ==> k in n.receipts && n.receipts[k] == o.receipts[k])
      && (!a.WriteReceipt? ==> n.receipts == o.receipts)
  {
    hide Classify, CopyOf, Inspect, Shifted;
    if a.Shift? {
      ShiftFrame(o, a.id, a.move);
    }
  }

  lemma ReceiptsKept(o: Outbox, a: Action)
    requires Sound(o) && Enabled(o, a)
    ensures Receipts(Apply(o, a))
  {
    var n := Apply(o, a);
    RecordsGrow(o, a);
    hide Apply;
    forall k | k in n.receipts
      ensures Proven(n, k)
    {
      if k in o.receipts {
        assert Proven(o, k);
      } else {
        NewReceiptProven(o, a.id, a.at, k);
      }
    }
  }

  lemma NewReceiptProven(o: Outbox, id: string, at: nat, k: ReceiptKey)
    requires Sound(o) && Enabled(o, WriteReceipt(id, at)) && k !in o.receipts && k in ReceiptWritten(o, id, at).receipts
    ensures Proven(ReceiptWritten(o, id, at), k)
  {
    assert FlightSound(o, id);
    assert o.processing[id] in ReceiptWritten(o, id, at).acked;
  }

  lemma FlightsKept(o: Outbox, a: Action, id: string)
    requires Sound(o) && Enabled(o, a) && id in Apply(o, a).flights
    ensures FlightSound(Apply(o, a), id)
  {
    var n := Apply(o, a);
    RecordsGrow(o, a);
    assert id in o.flights ==> FlightSound(o, id);
    if a.WriteReceipt? && a.id == id {
      NewFlightSettles(o, id, a.at);
    } else if a.Answer? && a.id == id {
      hide Classify;
    } else {
      FlightUndisturbed(o, a, id);
      hide Apply;
    }
  }

  lemma NewFlightSettles(o: Outbox, id: string, at: nat)
    requires Sound(o) && Enabled(o, WriteReceipt(id, at)) && id in ReceiptWritten(o, id, at).flights
    ensures FlightSound(ReceiptWritten(o, id, at), id)
  {
    assert FlightSound(o, id);
    assert o.processing[id].origin.Some? && KeyOf(o.processing[id]) in o.receipts ==>
      Proven(o, KeyOf(o.processing[id]));
  }

  lemma FlightUndisturbed(o: Outbox, a: Action, id: string)
    requires Enabled(o, a) && id in Apply(o, a).flights && !(a.WriteReceipt? && a.id == id)
      && !(a.Answer? && a.id == id)
    ensures var n := Apply(o, a);
      if a.Send? && a.id == id then n.flights[id].Sending? && id in n.processing
      else
        && id in o.flights && n.flights[id] == o.flights[id]
        && (id in o.processing ==> id in n.processing && n.processing[id] == o.processing[id])
  {
    hide Classify, CopyOf, Inspect, Shifted;
    if a.Shift? {
      ShiftFrame(o, a.id, a.move);
    }
  }

  lemma CopiesKept(o: Outbox, a: Action, f: QueueFile)
    requires Sound(o) && Enabled(o, a) && f in Apply(o, a).copies
    ensures f.origin.Some? && (Stored(Apply(o, a), f) || Settles(Apply(o, a), f))
  {
    RecordsGrow(o, a);
    if f !in o.copies {
      CopyIsStored(o, a, f);
      hide Apply;
    } else if a.Remove? {
      assert FlightSound(o, a.id);
    } else {
      if Stored(o, f) {
        StoredStays(o, a, f);
      }
      hide Apply, Stored;
    }
  }

  lemma CopyIsStored(o: Outbox, a: Action, f: QueueFile)
    requires Enabled(o, a) && f !in o.copies && f in Apply(o, a).copies
    ensures f.origin.Some? && Stored(Apply(o, a), f)
  {
    hide Classify, Inspect, Shifted, ReceiptWritten, RecoveryCaptureId;
    if a.Shift? {
      ShiftFrame(o, a.id, a.move);
    } else if a.WriteReceipt? {
      ReceiptLeavesCopies(o, a.id, a.at);
    }
  }

  lemma ReceiptLeavesCopies(o: Outbox, id: string, at: nat)
    requires Enabled(o, WriteReceipt(id, at))
    ensures ReceiptWritten(o, id, at).copies == o.copies
  {
  }

  lemma ShiftKeepsStored(o: Outbox, id: string, move: Move, f: QueueFile)
    requires Enabled(o, Shift(id, move)) && Stored(o, f)
    ensures Stored(Shifted(o, id, move), f)
  {
  }

  lemma ReceiptKeepsFiles(o: Outbox, id: string, at: nat)
    requires Enabled(o, WriteReceipt(id, at))
    ensures var n := ReceiptWritten(o, id, at);
      n.pending == o.pending && n.processing == o.processing && n.failed == o.failed
  {
  }

  /** No step but a removal takes a stored file from its name, and none changes its bytes. */
  lemma StoredStays(o: Outbox, a: Action, f: QueueFile)
    requires Enabled(o, a) && Stored(o, f) && (a.Remove? ==> a.id != f.id)
    ensures Stored(Apply(o, a), f)
  {
    hide Classify, CopyOf, Shifted, ReceiptWritten;
    if a.Shift? {
      ShiftKeepsStored(o, a.id, a.move, f);
    } else if a.WriteReceipt? {
      ReceiptKeepsFiles(o, a.id, a.at);
    }
  }

  lemma NamesKept(o: Outbox, a: Action)
    requires Sound(o) && Enabled(o, a)
    ensures var n := Apply(o, a);
      (forall id :: id in n.pending ==> n.pending[id].id == id)
        && (forall id :: id in n.processing ==> n.processing[id].id == id)
  {
    hide Classify, CopyOf, Inspect, Shifted, ReceiptWritten, FlightSound, Stored, Settles, Proven;
    if a.Shift? {
      ShiftFrame(o, a.id, a.move);
    } else if a.WriteReceipt? {
      ReceiptFrame(o, a.id, a.at);
    }
  }

  lemma ReceiptFrame(o: Outbox, id: string, at: nat)
    requires Enabled(o, WriteReceipt(id, at))
    ensures ReceiptWritten(o, id, at).pending == o.pending && ReceiptWritten(o, id, at).processing == o.processing
  {
  }

  lemma StepSound(o: Outbox, a: Action)
    requires Sound(o) && Enabled(o, a)
    ensures Sound(Apply(o, a))
  {
    var n := Apply(o, a);
    NamesKept(o, a);
    ReceiptsKept(o, a);
    forall id | id in n.flights
      ensures FlightSound(n, id)
    {
      FlightsKept(o, a, id);
    }
    forall f | f in n.copies
      ensures f.origin.Some? && (Stored(n, f) || Settles(n, f))
    {
      CopiesKept(o, a, f);
    }
    hide Apply, FlightSound, Stored, Settles;
  }

  // ---------- the theorems ----------

  ghost predicate Leads(o: Outbox, actions: seq<Action>, n: Outbox)
    decreases |actions|
  {
    if actions == [] then n == o else Enabled(o, actions[0]) && Leads(Apply(o, actions[0]), actions[1..], n)
  }

  // An outbox no replay has touched yet, whatever failed files it holds.
  function Untouched(failed: map<string, QueueFile>): Outbox {
    Outbox(failed, map[], map[], map[], map[], {}, {})
  }

  lemma {:induction false} RunSound(o: Outbox, actions: seq<Action>, n: Outbox)
    requires Sound(o) && Leads(o, actions, n)
    ensures Sound(n)
    decreases |actions|
  {
    hide Sound;
    if actions != [] {
      StepSound(o, actions[0]);
      RunSound(Apply(o, actions[0]), actions[1..], n);
    }
  }

  lemma FailedStays(o: Outbox, a: Action, name: string)
    requires Enabled(o, a) && name in o.failed
    ensures name in Apply(o, a).failed && Apply(o, a).failed[name] == o.failed[name]
  {
    hide Classify, CopyOf, Inspect;
  }

  /** Main result: no run ever changes or removes a failed original. */
  lemma {:induction false} OriginalsAreUntouched(o: Outbox, actions: seq<Action>, n: Outbox, name: string)
    requires Leads(o, actions, n) && name in o.failed
    ensures name in n.failed && n.failed[name] == o.failed[name]
    decreases |actions|
  {
    if actions != [] {
      FailedStays(o, actions[0], name);
      hide Apply;
      OriginalsAreUntouched(Apply(o, actions[0]), actions[1..], n, name);
    }
  }

  /** Main result: every replay copy ever made is still stored under its name, byte for byte, or a receipt
      carrying its original's file name and hash, and the copy's own hash, is on disk. */
  lemma CopiesLeaveOnlyByReceipt(failed: map<string, QueueFile>, actions: seq<Action>, n: Outbox, f: QueueFile)
    requires Leads(Untouched(failed), actions, n) && f in n.copies
    ensures Stored(n, f) || Settles(n, f)
  {
    RunSound(Untouched(failed), actions, n);
  }

  /** Main result: a copy vanishes in a step only if its receipt was on disk before that step. */
  lemma RemovalFollowsReceipt(o: Outbox, a: Action, f: QueueFile)
    requires Sound(o) && Enabled(o, a) && f.origin.Some? && Stored(o, f) && !Stored(Apply(o, a), f)
    ensures a == Remove(f.id) && Find(o.processing, f.id) == Some(f) && Settles(o, f)
  {
    if a.Remove? && a.id == f.id {
      assert FlightSound(o, f.id);
    } else {
      StoredStays(o, a, f);
    }
  }

  // A failed file that is counted as resolved: some receipt names it.
  ghost predicate Resolved(o: Outbox, fileName: string, sha256: Digest) {
    exists k :: k in o.receipts && k.sha256 == sha256 && o.receipts[k].fileName == fileName
  }

  /** Main result: a historical failure counts as resolved only after the Relay accepted a copy that
      stands for exactly that file name and those bytes. */
  lemma ResolvedMeansAcknowledged(failed: map<string, QueueFile>, actions: seq<Action>, n: Outbox, fileName: string,
                                  sha256: Digest)
    requires Leads(Untouched(failed), actions, n) && Resolved(n, fileName, sha256)
    ensures exists f ::
      f in n.acked && f.origin.Some? && f.origin.value.fileName == fileName && f.origin.value.sha256 == sha256
  {
    RunSound(Untouched(failed), actions, n);
    var k :| k in n.receipts && k.sha256 == sha256 && n.receipts[k].fileName == fileName;
    assert Proven(n, k);
  }

  // ---------- what a receipt says ----------

  // The Relay acknowledged in this step, as a duplicate or not, and named this place.
  predicate Says(a: Action, duplicate: bool, locator: (int, int, int)) {
    && a.Answer? && a.reply.httpOk && a.reply.payload.duplicate == Some(duplicate) && a.reply.payload.capture.Some?
    && a.reply.payload.capture.value.segmentId == Some(locator.0)
    && a.reply.payload.capture.value.offset == Some(locator.1)
    && a.reply.payload.capture.value.length == Some(locator.2)
  }

  predicate Said(past: seq<Action>, duplicate: bool, locator: (int, int, int)) {
    exists k :: 0 <= k < |past| && Says(past[k], duplicate, locator)
  }

  ghost predicate Quoted(past: seq<Action>, o: Outbox) {
    && (forall id :: id in o.flights && o.flights[id].Acked? ==>
          Said(past, o.flights[id].duplicate, o.flights[id].locator))
    && (forall k :: k in o.receipts ==> Said(past, o.receipts[k].duplicate, o.receipts[k].locator))
  }

  lemma SaidLater(past: seq<Action>, a: Action, duplicate: bool, locator: (int, int, int))
    ensures Said(past, duplicate, locator) || Says(a, duplicate, locator) ==> Said(past + [a], duplicate, locator)
  {
    var all := past + [a];
    if Said(past, duplicate, locator) {
      var k :| 0 <= k < |past| && Says(past[k], duplicate, locator);
      assert all[k] == past[k];
    } else if Says(a, duplicate, locator) {
      assert all[|past|] == a;
    }
  }

  lemma AnswerIsQuoted(o: Outbox, id: string, reply: Reply)
    requires Enabled(o, Answer(id, reply)) && id in Answered(o, id, reply).flights
    ensures var flight := Answered(o, id, reply).flights[id];
      flight.Acked? && Says(Answer(id, reply), flight.duplicate, flight.locator)
  {
  }

  // Where acknowledged flights and receipts of the next state come from.
  lemma QuotesComeFrom(o: Outbox, a: Action)
    requires Enabled(o, a)
    ensures var n := Apply(o, a);
      && (forall id :: id in n.flights && n.flights[id].Acked? ==>
            (id in o.flights && n.flights[id] == o.flights[id]) || (a.Answer? && a.id == id))
      && (forall k :: k in n.receipts ==>
            (k in o.receipts && n.receipts[k] == o.receipts[k])
            || (a.WriteReceipt? && a.id in o.flights && o.flights[a.id].Acked?
                && n.receipts[k].duplicate == o.flights[a.id].duplicate
                && n.receipts[k].locator == o.flights[a.id].locator))
  {
    hide Classify, CopyOf, Inspect, Shifted, Locator;
    if a.Shift? {
      ShiftFrame(o, a.id, a.move);
    }
  }

  lemma StepQuotes(past: seq<Action>, o: Outbox, a: Action)
    requires Quoted(past, o) && Enabled(o, a)
    ensures Quoted(past + [a], Apply(o, a))
  {
    var n := Apply(o, a);
    QuotesComeFrom(o, a);
    forall id | id in n.flights && n.flights[id].Acked?
      ensures Said(past + [a], n.flights[id].duplicate, n.flights[id].locator)
    {
      if a.Answer? && a.id == id {
        AnswerIsQuoted(o, id, a.reply);
      }
      SaidLater(past, a, n.flights[id].duplicate, n.flights[id].locator);
    }
    hide Apply, Enabled, Says, Said;
    forall k | k in n.receipts
      ensures Said(past + [a], n.receipts[k].duplicate, n.receipts[k].locator)
    {
      SaidLater(past, a, n.receipts[k].duplicate, n.receipts[k].locator);
    }
  }

  lemma {:induction false} RunQuotes(past: seq<Action>, o: Outbox, actions: seq<Action>, n: Outbox)
    requires Quoted(past, o) && Leads(o, actions, n)
    ensures Quoted(past + actions, n)
    decreases |actions|
  {
    if actions == [] {
      assert past + actions == past;
    } else {
      StepQuotes(past, o, actions[0]);
      hide Quoted, Apply, Enabled;
      RunQuotes(past + [actions[0]], Apply(o, actions[0]), actions[1..], n);
      assert past + actions == past + [actions[0]] + actions[1..];
    }
  }

  /** Main result: every receipt names the original its copy was made from, and repeats whether the Relay
      called the delivery a duplicate and the place it named, as one of its successful replies said. */
  lemma ReceiptQuotesTheReply(failed: map<string, QueueFile>, actions: seq<Action>, n: Outbox, k: ReceiptKey)
    requires Leads(Untouched(failed), actions, n) && k in n.receipts
    ensures Said(actions, n.receipts[k].duplicate, n.receipts[k].locator)
    ensures exists f :: f in n.acked && f.origin.Some? && f.origin.value.originalId == n.receipts[k].originalId
                        && f.origin.value.fileName == n.receipts[k].fileName && Sha256(f.bytes) == n.receipts[k].replay
  {
    RunQuotes([], Untouched(failed), actions, n);
    assert [] + actions == actions;
    RunSound(Untouched(failed), actions, n);
    assert Proven(n, k);
  }

  /** A copy that is sent, acknowledged and receipted leaves processing/; its receipt is then on disk. */
  lemma DeliveredCopyLeaves(o: Outbox, id: string, reply: Reply, at: nat) returns (n: Outbox)
    requires Sound(o) && id in o.processing && id !in o.flights && o.processing[id].origin.Some?
    requires KeyOf(o.processing[id]) !in o.receipts && Acknowledged(reply, id, o.processing[id].bytes)
    ensures Leads(o, [Send(id), Answer(id, reply), WriteReceipt(id, at), Remove(id)], n)
    ensures n.processing == o.processing - {id} && n.pending == o.pending && n.failed == o.failed
    ensures n.receipts.Keys == o.receipts.Keys + {KeyOf(o.processing[id])}
  {
    VerdictMeans(reply, id, o.processing[id].bytes);
    hide Classify, Acknowledged, Sound;
    var o1 := Apply(o, Send(id));
    var o2 := Apply(o1, Answer(id, reply));
    var o3 := Apply(o2, WriteReceipt(id, at));
    n := Apply(o3, Remove(id));
    FourSteps(o, Send(id), Answer(id, reply), WriteReceipt(id, at), Remove(id));
  }

  lemma FourSteps(o: Outbox, a: Action, b: Action, c: Action, d: Action)
    requires Enabled(o, a) && Enabled(Apply(o, a), b) && Enabled(Apply(Apply(o, a), b), c)
    requires Enabled(Apply(Apply(Apply(o, a), b), c), d)
    ensures Leads(o, [a, b, c, d], Apply(Apply(Apply(Apply(o, a), b), c), d))
  {
    hide Apply, Enabled;
    var o1 := Apply(o, a);
    var o2 := Apply(o1, b);
    var o3 := Apply(o2, c);
    var n := Apply(o3, d);
    assert Leads(n, [], n) && [d][1..] == [];
    assert Leads(o3, [d], n) && [c, d][1..] == [d];
    assert Leads(o2, [c, d], n) && [b, c, d][1..] == [c, d];
    assert Leads(o1, [b, c, d], n) && [a, b, c, d][1..] == [b, c, d];
  }

  /** What counts as the copy being there already: the same bytes, or a copy of the same failed file. */
  lemma TargetMeans(existing: QueueFile, copy: QueueFile)
    ensures Inspect(None, copy) == Absent
    ensures Inspect(Some(existing), copy) == AlreadyPresent <==>
      existing.bytes == copy.bytes
      || (existing.id == copy.id && existing.origin.Some? && copy.origin.Some?
          && existing.origin.value.sha256 == copy.origin.value.sha256)
    ensures Inspect(Some(existing), copy) != AlreadyPresent ==> Inspect(Some(existing), copy) == TargetConflict
  {
    assert existing.bytes == copy.bytes <==> Sha256(existing.bytes) == Sha256(copy.bytes);
  }

  /** Main result: replaying again while a file of the copy's name is pending adds nothing, whatever bytes
      the new attempt would write; a pending copy of the same original is reported as present. */
  lemma RepeatAddsNothing(o: Outbox, fileName: string, bytes: Bytes, again: Bytes)
    requires fileName in o.failed
    ensures var once := Replayed(o, fileName, Some(bytes)); Replayed(once, fileName, Some(again)) == once
    ensures var copy := CopyOf(fileName, o.failed[fileName], bytes);
      Find(o.pending, copy.id).None? ==> var once := Replayed(o, fileName, Some(bytes));
        && Find(once.pending, copy.id) == Some(copy)
        && Inspect(Some(copy), CopyOf(fileName, o.failed[fileName], again)).AlreadyPresent?
  {
    hide RecoveryCaptureId;
  }

  /** A crash between receipt and removal is safe but not resumed: when the Relay answers the second
      delivery as a duplicate, the receipts differ and the copy stays where it is. */
  lemma RetriedReceiptIsRefused(o: Outbox, id: string, at: nat)
    requires Enabled(o, WriteReceipt(id, at)) && id in o.processing && o.processing[id].origin.Some?
    requires KeyOf(o.processing[id]) in o.receipts
      && o.receipts[KeyOf(o.processing[id])].duplicate != o.flights[id].duplicate
    ensures var n := Apply(o, WriteReceipt(id, at));
      n.receipts == o.receipts && n.processing == o.processing && id !in n.flights && !Enabled(n, Remove(id))
  {
  }
}
