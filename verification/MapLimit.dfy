/** Mapping a list with a bounded number of workers that share one counter: each worker takes the next
    index before it awaits its result, and workers interleave at every await. */
module MapLimit {
  import opened Options

  // `taken` is the index a worker is busy with; `mapped` records how often an index was handed out.
  datatype State<R> = State(next: nat, taken: map<nat, nat>, results: map<nat, R>, mapped: seq<nat>)

  /** As many workers as asked for, but at least one and at most one for each item. */
  function Width(concurrency: int, length: nat): (width: nat)
    ensures 1 <= concurrency <= length ==> width == concurrency
    ensures concurrency > length ==> width == length
    ensures concurrency < 1 ==> width == if length == 0 then 0 else 1
  {
    var wanted := if concurrency < 1 then 1 else concurrency;
    if wanted < length then wanted else length
  }

  datatype Action<R> = Take(worker: nat) | Settle(worker: nat, result: R)

  predicate Enabled<R>(s: State<R>, a: Action<R>, length: nat, width: nat) {
    match a
    case Take(w) => w < width && w !in s.taken && s.next < length
    case Settle(w, _) => w in s.taken
  }

  function Apply<R>(s: State<R>, a: Action<R>, length: nat, width: nat): State<R>
    requires Enabled(s, a, length, width)
  {
    match a
    case Take(w) => s.(next := s.next + 1, taken := s.taken[w := s.next], mapped := s.mapped + [s.next])
    case Settle(w, r) => s.(taken := s.taken - {w}, results := s.results[s.taken[w] := r])
  }

  predicate InFlight<R>(s: State<R>, i: nat) {
    exists w :: w in s.taken && s.taken[w] == i
  }

  /** Every index below the counter was handed out once, in order, and is either in flight or done. */
  ghost predicate Sound<R>(s: State<R>, length: nat, width: nat) {
    && s.next <= length && (forall w :: w in s.taken ==> w < width && s.taken[w] < s.next)
    && (forall v, w :: v in s.taken && w in s.taken && v != w ==> s.taken[v] != s.taken[w])
    && |s.mapped| == s.next && (forall i :: 0 <= i < s.next ==> s.mapped[i] == i)
    && (forall i :: 0 <= i < s.next ==> (i in s.results <==> !InFlight(s, i)))
    && (forall i :: i in s.results ==> i < s.next)
  }

  lemma TakeSound<R>(s: State<R>, w: nat, length: nat, width: nat)
    requires Sound(s, length, width) && Enabled(s, Take(w), length, width)
    ensures Sound(Apply(s, Take(w), length, width), length, width)
  {
    var n := Apply(s, Take(w), length, width);
    forall i | 0 <= i < n.next
      ensures i in n.results <==> !InFlight(n, i)
    {
      if i == s.next {
        assert n.taken[w] == i;
      } else if InFlight(s, i) {
        var v :| v in s.taken && s.taken[v] == i;
        assert v in n.taken && n.taken[v] == i;
      }
    }
  }

  lemma SettleSound<R>(s: State<R>, w: nat, r: R, length: nat, width: nat)
    requires Sound(s, length, width) && w in s.taken
    ensures Sound(Apply(s, Settle(w, r), length, width), length, width)
  {
    var n := Apply(s, Settle(w, r), length, width);
    forall i | 0 <= i < n.next
      ensures i in n.results <==> !InFlight(n, i)
    {
      if i != s.taken[w] && InFlight(s, i) {
        var v :| v in s.taken && s.taken[v] == i;
        assert v in n.taken && n.taken[v] == i;
      }
    }
  }

  lemma StepSound<R>(s: State<R>, a: Action<R>, length: nat, width: nat)
    requires Sound(s, length, width) && Enabled(s, a, length, width)
    ensures Sound(Apply(s, a, length, width), length, width)
  {
    match a
    case Take(w) => TakeSound(s, w, length, width);
    case Settle(w, r) => SettleSound(s, w, r, length, width);
  }

  /** The run hands item i to the mapper as `Map` says; `items` and the mapper are the caller's. */
  ghost predicate Leads<T, R>(items: seq<T>, mapper: (T, nat) -> R, width: nat, s: State<R>, run: seq<Action<R>>,
                              n: State<R>)
    decreases |run|
  {
    if run == [] then n == s
    else
      && Enabled(s, run[0], |items|, width)
      && (run[0].Settle? && s.taken[run[0].worker] < |items|
          ==> run[0].result == mapper(items[s.taken[run[0].worker]], s.taken[run[0].worker]))
      && Leads(items, mapper, width, Apply(s, run[0], |items|, width), run[1..], n)
  }

  ghost predicate Mapped<T, R>(items: seq<T>, mapper: (T, nat) -> R, s: State<R>) {
    forall i :: i in s.results && i < |items| ==> s.results[i] == mapper(items[i], i)
  }

  function Start<R>(): State<R> {
    State(0, map[], map[], [])
  }

  lemma {:induction false} RunSound<T, R>(items: seq<T>, mapper: (T, nat) -> R, width: nat, s: State<R>,
                                          run: seq<Action<R>>, n: State<R>)
    requires Sound(s, |items|, width) && Mapped(items, mapper, s) && Leads(items, mapper, width, s, run, n)
    ensures Sound(n, |items|, width) && Mapped(items, mapper, n)
    decreases |run|
  {
    if run != [] {
      StepSound(s, run[0], |items|, width);
      hide Sound;
      RunSound(items, mapper, width, Apply(s, run[0], |items|, width), run[1..], n);
    }
  }

  function Below(n: nat): set<nat> {
    if n == 0 then {} else Below(n - 1) + {n - 1}
  }

  lemma {:induction false} BelowIsExact(n: nat)
    ensures |Below(n)| == n && forall i: nat :: i in Below(n) <==> i < n
  {
    if n > 0 {
      BelowIsExact(n - 1);
    }
  }

  lemma TakersWithin(taken: map<nat, nat>, width: nat)
    requires forall w :: w in taken ==> w < width
    ensures |taken.Keys| <= width
  {
    BelowIsExact(width);
    Within(taken.Keys, Below(width));
  }

  lemma Within(a: set<nat>, b: set<nat>)
    requires a <= b
    ensures |a| <= |b|
  {
    assert |b - a| == |b| - |a|;
  }

  /** Main result: however the workers interleave, never more than the width are in flight, no item is
      mapped twice, and when all workers are done every item has exactly its own result. */
  lemma EveryItemOnce<T, R>(items: seq<T>, mapper: (T, nat) -> R, concurrency: int, run: seq<Action<R>>, n: State<R>)
    requires Leads(items, mapper, Width(concurrency, |items|), Start(), run, n)
    ensures |n.taken.Keys| <= Width(concurrency, |items|)
    ensures forall i, j :: 0 <= i < j < |n.mapped| ==> n.mapped[i] != n.mapped[j]
    ensures n.next == |items| && n.taken == map[] ==>
      forall i :: 0 <= i < |items| ==> i in n.results && n.results[i] == mapper(items[i], i)
  {
    var width := Width(concurrency, |items|);
    RunSound(items, mapper, width, Start(), run, n);
    TakersWithin(n.taken, width);
    assert n.taken == map[] ==> forall i :: !InFlight(n, i);
  }
}
