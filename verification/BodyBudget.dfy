/** The in-flight body budget: every request body being read holds permits for its declared or buffered
    length, whichever is larger, out of one shared capacity. Readers interleave at every frame. */
module BodyBudget {
  import opened MapSum
  import opened Options

  const U32_MAX: nat := 0xFFFF_FFFF

  // ---------- state ----------

  // A body being read, or read and not yet dropped. Each acquisition is one entry of `permits`.
  datatype Reader = Reader(accounted: nat, permits: seq<nat>, declared: nat, buffered: nat, finished: bool)

  datatype Budget = Budget(capacity: nat, maxBodyBytes: nat, free: nat, readers: map<nat, Reader>)

  datatype ContentLength = Missing | Malformed | Length(bytes: nat)

  datatype ReadError = UnsupportedMediaType | InvalidContentLength | TooLarge | BudgetExhausted | ReadFailed

  datatype Frame = Data(size: nat) | Trailers | Broken

  /** A budget needs a body limit that fits 32 bits and room for one whole body; then all of it is free. */
  function New(capacity: nat, maxBodyBytes: nat): (b: Option<Budget>)
    ensures b.Some? <==> 1 <= maxBodyBytes <= 0xFFFF_FFFF && maxBodyBytes <= capacity
    ensures b.Some? ==>
      b.value.free == b.value.capacity == capacity && b.value.maxBodyBytes == maxBodyBytes && b.value.readers == map[]
  {
    if maxBodyBytes == 0 || maxBodyBytes > U32_MAX || capacity < maxBodyBytes then None
    else Some(Budget(capacity, maxBodyBytes, capacity, map[]))
  }

  function Permits(permits: seq<nat>): nat {
    if permits == [] then 0 else Permits(permits[..|permits| - 1]) + permits[|permits| - 1]
  }

  function Max(a: nat, b: nat): nat {
    if a >= b then a else b
  }

  // ---------- steps ----------

  datatype Outcome = Going | Error(error: ReadError)

  /** The checks before the first frame. A declared length is reserved at once. */
  function Opened(b: Budget, r: nat, mediaTypeOk: bool, declared: ContentLength): (Budget, Outcome) {
    if !mediaTypeOk then (b, Error(UnsupportedMediaType))
    else if declared.Malformed? then (b, Error(InvalidContentLength))
    else
      var accounted := if declared.Missing? then 0 else declared.bytes;
      if accounted > b.maxBodyBytes then (b, Error(TooLarge))
      else if accounted == 0 then (b.(readers := b.readers[r := Reader(0, [], 0, 0, false)]), Going)
      else if accounted > b.free then (b, Error(BudgetExhausted))
      else (b.(free := b.free - accounted,
               readers := b.readers[r := Reader(accounted, [accounted], accounted, 0, false)]), Going)
  }

  /** Forgetting a reader returns every permit it holds. */
  function Dropped(b: Budget, r: nat): Budget
    requires r in b.readers
  {
    b.(free := b.free + Permits(b.readers[r].permits), readers := b.readers - {r})
  }

  /** One frame: data beyond what is accounted for needs further permits; a failure drops the reader. */
  function Framed(b: Budget, r: nat, frame: Frame): (Budget, Outcome)
    requires r in b.readers
  {
    var reader := b.readers[r];
    match frame
    case Broken => (Dropped(b, r), Error(ReadFailed))
    case Trailers => (b, Going)
    case Data(size) =>
      var newLength := reader.buffered + size;
      if newLength > b.maxBodyBytes then (Dropped(b, r), Error(TooLarge))
      else if newLength <= reader.accounted then (b.(readers := b.readers[r := reader.(buffered := newLength)]), Going)
      else
        var extra := newLength - reader.accounted;
        if extra > b.free then (Dropped(b, r), Error(BudgetExhausted))
        else (b.(free := b.free - extra,
                 readers := b.readers[r := reader.(accounted := newLength, permits := reader.permits + [extra],
                                                   buffered := newLength)]), Going)
  }

  function Finished(b: Budget, r: nat): Budget
    requires r in b.readers
  {
    b.(readers := b.readers[r := b.readers[r].(finished := true)])
  }

  datatype Action =
    | Open(r: nat, mediaTypeOk: bool, declared: ContentLength)
    | TakeFrame(r: nat, frame: Frame)
    | Finish(r: nat)
    // The request is cancelled, or the finished body is no longer needed.
    | Drop(r: nat)

  predicate Enabled(b: Budget, a: Action) {
    match a
    case Open(r, _, _) => r !in b.readers
    case TakeFrame(r, _) => r in b.readers && !b.readers[r].finished
    case Finish(r) => r in b.readers && !b.readers[r].finished
    case Drop(r) => r in b.readers
  }

  function Apply(b: Budget, a: Action): Budget
    requires Enabled(b, a)
  {
    match a
    case Open(r, ok, declared) => Opened(b, r, ok, declared).0
    case TakeFrame(r, frame) => Framed(b, r, frame).0
    case Finish(r) => Finished(b, r)
    case Drop(r) => Dropped(b, r)
  }

  // ---------- what every step keeps ----------

  function Held(readers: map<nat, Reader>): map<nat, nat> {
    map r | r in readers :: Permits(readers[r].permits)
  }

  function Buffered(readers: map<nat, Reader>): map<nat, nat> {
    map r | r in readers :: readers[r].buffered
  }

  predicate ReaderSound(b: Budget, reader: Reader) {
    && reader.accounted == Permits(reader.permits) == Max(reader.declared, reader.buffered)
    && reader.accounted <= b.maxBodyBytes
  }

  /** Free and held permits make up the capacity, and each reader holds the larger of its declared and
      its buffered length. */
  ghost predicate Sound(b: Budget) {
    && b.free + Sum(Held(b.readers)) == b.capacity
    && forall r :: r in b.readers ==> ReaderSound(b, b.readers[r])
  }

  lemma HeldUpdate(readers: map<nat, Reader>, r: nat, reader: Reader)
    ensures Sum(Held(readers[r := reader])) == Sum(Held(readers - {r})) + Permits(reader.permits)
  {
    assert Held(readers[r := reader]) == Held(readers)[r := Permits(reader.permits)];
    assert Held(readers - {r}) == Held(readers) - {r};
    SumUpdate(Held(readers), r, Permits(reader.permits));
  }

  lemma HeldWithout(readers: map<nat, Reader>, r: nat)
    ensures Sum(Held(readers)) == Sum(Held(readers - {r})) + (if r in readers then Permits(readers[r].permits) else 0)
  {
    assert Held(readers - {r}) == Held(readers) - {r};
    if r in readers {
      SumWithout(Held(readers), r);
    } else {
      assert readers - {r} == readers;
    }
  }

  lemma PermitsAppend(permits: seq<nat>, extra: nat)
    ensures Permits(permits + [extra]) == Permits(permits) + extra
  {
    assert (permits + [extra])[..|permits|] == permits;
  }

  lemma StepSound(b: Budget, a: Action)
    requires Sound(b) && Enabled(b, a)
    ensures Sound(Apply(b, a))
  {
    hide Permits, Held;
    HeldWithout(b.readers, a.r);
    var n := Apply(b, a);
    if a.r in n.readers {
      HeldUpdate(b.readers, a.r, n.readers[a.r]);
      PermitsOf(b, a);
    }
  }

  // What the acting reader holds afterwards, when it is still there.
  ghost predicate Accounted(b: Budget, n: Budget, r: nat)
    requires r in n.readers
  {
    && n.readers == b.readers[r := n.readers[r]] && ReaderSound(n, n.readers[r])
    && n.free + Permits(n.readers[r].permits) == b.free + (if r in b.readers then Permits(b.readers[r].permits) else 0)
  }

  lemma OpenAccounted(b: Budget, r: nat, mediaTypeOk: bool, declared: ContentLength)
    requires r !in b.readers && r in Opened(b, r, mediaTypeOk, declared).0.readers
    ensures Accounted(b, Opened(b, r, mediaTypeOk, declared).0, r)
  {
    if declared.Length? {
      PermitsAppend([], declared.bytes);
      assert [] + [declared.bytes] == [declared.bytes];
    }
  }

  lemma DataAccounted(b: Budget, r: nat, size: nat)
    requires r in b.readers && ReaderSound(b, b.readers[r]) && r in Framed(b, r, Data(size)).0.readers
    ensures Accounted(b, Framed(b, r, Data(size)).0, r)
  {
    var reader := b.readers[r];
    if reader.buffered + size > reader.accounted {
      PermitsAppend(reader.permits, reader.buffered + size - reader.accounted);
    }
  }

  lemma FrameAccounted(b: Budget, r: nat, frame: Frame)
    requires r in b.readers && ReaderSound(b, b.readers[r]) && r in Framed(b, r, frame).0.readers
    ensures Accounted(b, Framed(b, r, frame).0, r)
  {
    if frame.Data? {
      hide Framed, Accounted, ReaderSound;
      DataAccounted(b, r, frame.size);
    } else {
      hide Permits;
    }
  }

  lemma PermitsOf(b: Budget, a: Action)
    requires Sound(b) && Enabled(b, a) && a.r in Apply(b, a).readers
    ensures Accounted(b, Apply(b, a), a.r)
  {
    match a
    case Open(r, ok, declared) => OpenAccounted(b, r, ok, declared);
    case TakeFrame(r, frame) => hide Framed; FrameAccounted(b, r, frame);
    case Finish(r) =>
    case Drop(r) =>
  }

  // ---------- over whole runs ----------

  ghost predicate Leads(b: Budget, actions: seq<Action>, n: Budget)
    decreases |actions|
  {
    if actions == [] then n == b else Enabled(b, actions[0]) && Leads(Apply(b, actions[0]), actions[1..], n)
  }

  lemma {:induction false} RunSound(b: Budget, actions: seq<Action>, n: Budget)
    requires Sound(b) && Leads(b, actions, n)
    ensures Sound(n) && n.capacity == b.capacity && n.maxBodyBytes == b.maxBodyBytes
    decreases |actions|
  {
    hide Sound;
    if actions != [] {
      StepSound(b, actions[0]);
      RunSound(Apply(b, actions[0]), actions[1..], n);
    }
  }

  lemma {:induction false} SumBelow(small: map<nat, nat>, large: map<nat, nat>)
    requires small.Keys == large.Keys && forall r :: r in small ==> small[r] <= large[r]
    ensures Sum(small) <= Sum(large)
    decreases |small|
  {
    if small == map[] {
      assert large == map[];
    } else {
      var r :| r in small;
      SmallerWithout(small, r);
      SumWithout(small, r);
      SumWithout(large, r);
      SumBelow(small - {r}, large - {r});
    }
  }

  /** Main result: over any interleaving of readers, frames, failures and drops, free and held permits make
      up the capacity, every reader holds the larger of declared and buffered, and all buffered bytes
      together stay within the capacity. */
  lemma BudgetHolds(capacity: nat, maxBodyBytes: nat, actions: seq<Action>, n: Budget)
    requires New(capacity, maxBodyBytes).Some? && Leads(New(capacity, maxBodyBytes).value, actions, n)
    ensures n.free + Sum(Held(n.readers)) == capacity
    ensures forall r :: r in n.readers ==>
      Permits(n.readers[r].permits) == Max(n.readers[r].declared, n.readers[r].buffered)
    ensures Sum(Buffered(n.readers)) <= capacity - n.free
    ensures forall r :: r in n.readers ==> n.readers[r].buffered <= maxBodyBytes
  {
    var b := New(capacity, maxBodyBytes).value;
    assert Held(b.readers) == map[];
    RunSound(b, actions, n);
    SumBelow(Buffered(n.readers), Held(n.readers));
  }

  /** In every run a step that reports an error gives back everything the reader held and touches no other
      reader: what the others hold and what is free make up the capacity. */
  lemma FailureGivesEverythingBack(capacity: nat, maxBodyBytes: nat, actions: seq<Action>, b: Budget, r: nat,
                                   frame: Frame)
    requires New(capacity, maxBodyBytes).Some? && Leads(New(capacity, maxBodyBytes).value, actions, b)
    requires Enabled(b, TakeFrame(r, frame)) && Framed(b, r, frame).1.Error?
    ensures var n := Framed(b, r, frame).0;
      && n.readers == b.readers - {r} && n.free == b.free + Max(b.readers[r].declared, b.readers[r].buffered)
      && n.free + Sum(Held(b.readers - {r})) == capacity
  {
    var start := New(capacity, maxBodyBytes).value;
    assert Held(start.readers) == map[];
    RunSound(start, actions, b);
    StepSound(b, TakeFrame(r, frame));
  }

  /** A frame that is taken adds its bytes and exactly the permits they need. */
  lemma FrameEffect(b: Budget, r: nat, frame: Frame)
    requires Sound(b) && Enabled(b, TakeFrame(r, frame))
    ensures var (n, outcome) := Framed(b, r, frame);
      if outcome.Error? then n.readers == b.readers - {r} && n.free == b.free + Claim(b.readers[r])
      else
        && r in n.readers && !n.readers[r].finished && n.readers == b.readers[r := n.readers[r]]
        && n.readers[r].buffered == b.readers[r].buffered + (if frame.Data? then frame.size else 0)
        && n.free + Claim(n.readers[r]) == b.free + Claim(b.readers[r])
  {
    assert ReaderSound(b, b.readers[r]);
    if Framed(b, r, frame).1.Going? {
      PermitsOf(b, TakeFrame(r, frame));
    }
  }

  /** Main result: when the last reader is gone, however its read ended, the whole capacity is free. */
  lemma IdleBudgetIsFull(capacity: nat, maxBodyBytes: nat, actions: seq<Action>, n: Budget)
    requires New(capacity, maxBodyBytes).Some? && Leads(New(capacity, maxBodyBytes).value, actions, n)
      && n.readers == map[]
    ensures n.free == capacity
  {
    BudgetHolds(capacity, maxBodyBytes, actions, n);
    assert Held(n.readers) == map[];
  }

  // ---------- what is accepted ----------

  /** The frames fit: none is broken, and with the bytes buffered before they exceed neither the limit for
      one body nor what is available to this reader. */
  predicate Fits(before: nat, frames: seq<Frame>, maxBytes: nat, available: nat) {
    && (forall i :: 0 <= i < |frames| ==> !frames[i].Broken?)
    && before + Bytes(frames) <= maxBytes && before + Bytes(frames) <= available
  }

  /** Frame i is the first that does not fit, and this is why. */
  predicate FailsAt(before: nat, frames: seq<Frame>, i: nat, maxBytes: nat, available: nat, error: ReadError) {
    && i < |frames| && Fits(before, frames[..i], maxBytes, available)
    && match error
       case ReadFailed => frames[i].Broken?
       case TooLarge => frames[i].Data? && before + Bytes(frames[..i + 1]) > maxBytes
       case BudgetExhausted =>
         && frames[i].Data? && before + Bytes(frames[..i + 1]) <= maxBytes
         && before + Bytes(frames[..i + 1]) > available
       case _ => false
  }

  ghost predicate FailsSomewhere(before: nat, frames: seq<Frame>, maxBytes: nat, available: nat, error: ReadError) {
    exists i: nat :: FailsAt(before, frames, i, maxBytes, available, error)
  }

  lemma {:induction false} BytesGrow(frames: seq<Frame>, i: nat)
    requires i <= |frames|
    ensures Bytes(frames[..i]) <= Bytes(frames)
    decreases |frames|
  {
    if i < |frames| {
      assert frames[..|frames| - 1][..i] == frames[..i];
      BytesGrow(frames[..|frames| - 1], i);
    } else {
      assert frames[..i] == frames;
    }
  }

  lemma FitsOrFails(before: nat, frames: seq<Frame>, i: nat, maxBytes: nat, available: nat, error: ReadError)
    requires FailsAt(before, frames, i, maxBytes, available, error)
    ensures !Fits(before, frames, maxBytes, available)
  {
    BytesGrow(frames, i + 1);
  }

  /** One frame is taken exactly when it fits, and the error says in which respect it does not. */
  lemma FrameJudged(b: Budget, r: nat, frame: Frame)
    requires Sound(b) && Enabled(b, TakeFrame(r, frame))
    ensures var outcome := Framed(b, r, frame).1; var reader := b.readers[r];
      match frame
      case Broken => outcome == Error(ReadFailed)
      case Trailers => outcome == Going
      case Data(size) =>
        outcome == if reader.buffered + size > b.maxBodyBytes then Error(TooLarge)
                   else if reader.buffered + size > b.free + Claim(reader) then Error(BudgetExhausted) else Going
  {
    assert ReaderSound(b, b.readers[r]);
  }

  // Reader r has taken the first i frames, and nobody else has changed.
  predicate Reading(start: Budget, b: Budget, r: nat, frames: seq<Frame>, i: nat)
    requires r in start.readers && i <= |frames|
  {
    && b.maxBodyBytes == start.maxBodyBytes
    && r in b.readers && !b.readers[r].finished && b.readers == start.readers[r := b.readers[r]]
    && b.free + Claim(b.readers[r]) == start.free + Claim(start.readers[r])
    && b.readers[r].buffered == start.readers[r].buffered + Bytes(frames[..i])
    && Fits(start.readers[r].buffered, frames[..i], b.maxBodyBytes, start.free + Claim(start.readers[r]))
  }

  // The next frame of a body that fits so far.
  lemma NextFrame(start: Budget, b: Budget, r: nat, frames: seq<Frame>, i: nat)
    requires r in start.readers && i < |frames| && Sound(b) && Reading(start, b, r, frames, i)
    ensures var (n, outcome) := Framed(b, r, frames[i]);
      && (outcome.Going? ==> Reading(start, n, r, frames, i + 1))
      && (outcome.Error? ==>
        && n.readers == start.readers - {r} && n.free == start.free + Claim(start.readers[r])
        && FailsSomewhere(start.readers[r].buffered, frames, b.maxBodyBytes, start.free + Claim(start.readers[r]),
                          outcome.error))
  {
    FrameEffect(b, r, frames[i]);
    FrameJudged(b, r, frames[i]);
    BufferedIsClaimed(b, r);
    SameLimit(b, r, frames[i]);
    hide Sound, Framed, Claim;
    assert frames[..i + 1][..i] == frames[..i];
    var (n, outcome) := Framed(b, r, frames[i]);
    if outcome.Error? {
      var before, available := start.readers[r].buffered, start.free + Claim(start.readers[r]);
      assert FailsAt(before, frames, i, b.maxBodyBytes, available, outcome.error);
    } else {
      BufferedIsClaimed(n, r) by {
        StepSound(b, TakeFrame(r, frames[i]));
      }
    }
  }

  lemma SameLimit(b: Budget, r: nat, frame: Frame)
    requires r in b.readers
    ensures Framed(b, r, frame).0.maxBodyBytes == b.maxBodyBytes
  {
    hide Permits;
  }

  // ---------- the shared object ----------

  /** How a body starts: the media type first, then the declared length, its limit, and the free budget. */
  function OpeningOf(mediaTypeOk: bool, declared: ContentLength, maxBytes: nat, free: nat): Outcome {
    if !mediaTypeOk then Error(UnsupportedMediaType)
    else match declared
         case Malformed => Error(InvalidContentLength)
         case Missing => Going
         case Length(bytes) =>
           if bytes > maxBytes then Error(TooLarge) else if bytes > free then Error(BudgetExhausted) else Going
  }

  class InflightBodyBudget {
    const capacity: nat
    const maxBodyBytes: nat
    var free: nat
    var readers: map<nat, Reader>

    ghost function State(): Budget
      reads this
    {
      Budget(capacity, maxBodyBytes, free, readers)
    }

    ghost predicate Valid()
      reads this
    {
      Sound(State())
    }

    constructor (capacity: nat, maxBodyBytes: nat)
      requires New(capacity, maxBodyBytes).Some?
      ensures Valid() && State() == New(capacity, maxBodyBytes).value
    {
      this.capacity, this.maxBodyBytes, free, readers := capacity, maxBodyBytes, capacity, map[];
      new;
      assert Held(readers) == map[];
    }

    method TryAcquire(n: nat) returns (ok: bool)
      modifies this`free
      ensures ok == (n <= old(free)) && free == if ok then old(free) - n else old(free)
    {
      ok := n <= free;
      if ok {
        free := free - n;
      }
    }

    method OpenReader(r: nat, mediaTypeOk: bool, declared: ContentLength) returns (outcome: Outcome)
      requires Valid() && r !in readers
      modifies this
      ensures Valid() && (State(), outcome) == Opened(old(State()), r, mediaTypeOk, declared)
    {
      StepSound(State(), Open(r, mediaTypeOk, declared));
      hide Sound;
      if !mediaTypeOk {
        return Error(UnsupportedMediaType);
      }
      if declared.Malformed? {
        return Error(InvalidContentLength);
      }
      var accounted := if declared.Missing? then 0 else declared.bytes;
      if accounted > maxBodyBytes {
        return Error(TooLarge);
      }
      var permits: seq<nat> := [];
      if accounted > 0 {
        var ok := TryAcquire(accounted);
        if !ok {
          return Error(BudgetExhausted);
        }
        permits := [accounted];
      }
      readers := readers[r := Reader(accounted, permits, accounted, 0, false)];
      outcome := Going;
    }

    method ReadFrame(r: nat, frame: Frame) returns (outcome: Outcome)
      requires Valid() && r in readers && !readers[r].finished
      modifies this
      ensures Valid() && (State(), outcome) == Framed(old(State()), r, frame)
    {
      StepSound(State(), TakeFrame(r, frame));
      hide Sound, Permits;
      match frame
      case Broken =>
        Release(r);
        outcome := Error(ReadFailed);
      case Trailers =>
        outcome := Going;
      case Data(size) =>
        outcome := TakeData(r, size);
    }

    method TakeData(r: nat, size: nat) returns (outcome: Outcome)
      requires r in readers
      modifies this
      ensures (State(), outcome) == Framed(old(State()), r, Data(size))
    {
      hide Permits;
      var reader := readers[r];
      var newLength := reader.buffered + size;
      if newLength > maxBodyBytes {
        Release(r);
        return Error(TooLarge);
      }
      if newLength > reader.accounted {
        var ok := TryAcquire(newLength - reader.accounted);
        if !ok {
          Release(r);
          return Error(BudgetExhausted);
        }
        reader := reader.(permits := reader.permits + [newLength - reader.accounted], accounted := newLength);
      }
      readers := readers[r := reader.(buffered := newLength)];
      outcome := Going;
    }

    /** Drops every permit of a reader, one acquisition at a time. */
    method Release(r: nat)
      requires r in readers
      modifies this
      ensures State() == Dropped(old(State()), r)
    {
      var permits := readers[r].permits;
      readers := readers - {r};
      for i := 0 to |permits|
        invariant readers == old(readers) - {r} && free == old(free) + Permits(permits[..i])
      {
        assert permits[..i + 1][..i] == permits[..i];
        free := free + permits[i];
      }
      assert permits[..|permits|] == permits;
    }

    method FinishReader(r: nat)
      requires Valid() && r in readers && !readers[r].finished
      modifies this`readers
      ensures Valid() && State() == Finished(old(State()), r)
      ensures r in readers && readers == old(readers)[r := readers[r]]
        && readers[r] == old(readers)[r].(finished := true)
      ensures Claim(readers[r]) == Claim(old(readers)[r])
    {
      StepSound(State(), Finish(r));
      readers := readers[r := readers[r].(finished := true)];
    }

    method ReadFrames(r: nat, frames: seq<Frame>) returns (outcome: Outcome)
      requires Valid() && r in readers && !readers[r].finished
      modifies this
      ensures Valid()
      ensures outcome.Error? ==> readers == old(readers) - {r} && free == old(free) + Claim(old(readers)[r])
      ensures outcome.Going? ==> r in readers && !readers[r].finished && readers == old(readers)[r := readers[r]]
      ensures outcome.Going? ==> free + Claim(readers[r]) == old(free) + Claim(old(readers)[r])
      ensures outcome.Going? ==> readers[r].buffered == old(readers)[r].buffered + Bytes(frames)
      ensures outcome.Going? ==>
        Fits(old(readers)[r].buffered, frames, maxBodyBytes, old(free) + Claim(old(readers)[r]))
      ensures outcome.Error? ==>
        FailsSomewhere(old(readers)[r].buffered, frames, maxBodyBytes, old(free) + Claim(old(readers)[r]),
                       outcome.error)
    {
      ghost var start := State();
      BufferedIsClaimed(start, r);
      assert Reading(start, start, r, frames, 0);
      hide Sound, Framed, Claim, Fits, FailsSomewhere;
      outcome := Going;
      for i := 0 to |frames|
        invariant Valid() && outcome == Going && Reading(start, State(), r, frames, i)
      {
        NextFrame(start, State(), r, frames, i);
        outcome := ReadFrame(r, frames[i]);
        if outcome.Error? {
          return;
        }
      }
      assert frames[..|frames|] == frames;
    }

    method BeginBody(r: nat, mediaTypeOk: bool, declared: ContentLength) returns (outcome: Outcome)
      requires Valid() && r !in readers
      modifies this
      ensures Valid()
      ensures outcome.Error? ==> free == old(free) && readers == old(readers)
      ensures outcome.Going? ==> r in readers && !readers[r].finished && readers == old(readers)[r := readers[r]]
      ensures outcome.Going? ==> readers[r].buffered == 0 && free + Claim(readers[r]) == old(free)
      ensures outcome == OpeningOf(mediaTypeOk, declared, maxBodyBytes, old(free))
    {
      OpenEffect(State(), r, mediaTypeOk, declared);
      outcome := OpenReader(r, mediaTypeOk, declared);
      hide Sound, Opened, Claim;
    }

    /** Reads one whole body with nobody else in between: on success it holds its claim and all the bytes;
        on failure nothing is left of it. */
    method ReadBody(r: nat, mediaTypeOk: bool, declared: ContentLength, frames: seq<Frame>) returns (outcome: Outcome)
      requires Valid() && r !in readers
      modifies this
      ensures Valid()
      ensures outcome.Error? ==> free == old(free) && readers == old(readers)
      ensures outcome.Going? ==> r in readers && readers[r].finished && readers == old(readers)[r := readers[r]]
      ensures outcome.Going? ==> free + Claim(readers[r]) == old(free) && readers[r].buffered == Bytes(frames)
      ensures outcome.Going? <==>
        OpeningOf(mediaTypeOk, declared, maxBodyBytes, old(free)).Going? && Fits(0, frames, maxBodyBytes, old(free))
      ensures outcome.Error? ==>
        outcome == OpeningOf(mediaTypeOk, declared, maxBodyBytes, old(free))
        || FailsSomewhere(0, frames, maxBodyBytes, old(free), outcome.error)
    {
      hide Sound, Claim, Finished, Fits, FailsAt;
      outcome := BeginBody(r, mediaTypeOk, declared);
      if outcome.Error? {
        return;
      }
      assert old(readers)[r := readers[r]] - {r} == old(readers);
      outcome := ReadFrames(r, frames);
      if outcome.Error? {
        ghost var i: nat :| FailsAt(0, frames, i, maxBodyBytes, old(free), outcome.error);
        FitsOrFails(0, frames, i, maxBodyBytes, old(free), outcome.error);
        return;
      }
      FinishReader(r);
    }
  }

  // What a reader is entitled to: the larger of its declared and buffered length.
  function Claim(reader: Reader): nat {
    Max(reader.declared, reader.buffered)
  }

  predicate Begun(b: Budget, n: Budget, r: nat)
    requires r in n.readers
  {
    && !n.readers[r].finished && n.readers == b.readers[r := n.readers[r]]
    && n.readers[r].buffered == 0 && n.free + Claim(n.readers[r]) == b.free
  }

  lemma BufferedIsClaimed(b: Budget, r: nat)
    requires Sound(b) && r in b.readers
    ensures b.readers[r].buffered <= Claim(b.readers[r]) && b.readers[r].buffered <= b.maxBodyBytes
  {
    assert ReaderSound(b, b.readers[r]);
  }

  lemma OpenEffect(b: Budget, r: nat, mediaTypeOk: bool, declared: ContentLength)
    requires Sound(b) && r !in b.readers
    ensures var (n, outcome) := Opened(b, r, mediaTypeOk, declared);
      && (outcome.Error? ==> n == b)
      && (outcome.Going? ==> r in n.readers && Begun(b, n, r))
      && outcome == OpeningOf(mediaTypeOk, declared, b.maxBodyBytes, b.free)
  {
  }

  function Bytes(frames: seq<Frame>): nat {
    if frames == [] then 0
    else Bytes(frames[..|frames| - 1]) + (if frames[|frames| - 1].Data? then frames[|frames| - 1].size else 0)
  }
}
