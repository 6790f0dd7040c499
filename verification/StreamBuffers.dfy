/** The two buffers that hold part of a streamed body: its beginning, and its end. */
module StreamBuffers {
  import opened TextLines

  // ---------- the end of a stream ----------

  function Last(s: string, n: nat): string {
    if |s| <= n then s else s[|s| - n..]
  }

  /** What a rolling tail holds after its latest chunk: that many last bytes, but never less than the
      whole latest chunk, which is not cut. */
  function TailOf(stream: string, chunk: string, maxBytes: nat): string {
    if |chunk| > maxBytes then chunk else Last(stream, maxBytes)
  }

  // The tail keeps to its limit exactly when the latest chunk does.
  lemma TailKeepsLimitExactly(before: string, chunk: string, maxBytes: nat)
    ensures |TailOf(before + chunk, chunk, maxBytes)| <= maxBytes <==> |chunk| <= maxBytes
    ensures |chunk| <= maxBytes ==> TailOf(before + chunk, chunk, maxBytes) == Last(before + chunk, maxBytes)
  {
  }

  // `held` ends the stream and reaches back at least as far as the limit asks.
  predicate Reaches(stream: string, held: string, maxBytes: nat) {
    |held| <= |stream| && held == stream[|stream| - |held|..] && (|held| >= maxBytes || held == stream)
  }

  lemma ReachesAppend(stream: string, held: string, chunk: string, maxBytes: nat)
    requires Reaches(stream, held, maxBytes)
    ensures Reaches(stream + chunk, held + chunk, maxBytes)
  {
    var s, h := stream + chunk, held + chunk;
    assert s[|s| - |h|..] == stream[|stream| - |held|..] + chunk;
  }

  lemma {:induction false} ConcatFirst(pieces: seq<string>)
    requires |pieces| > 0
    ensures Concat(pieces) == pieces[0] + Concat(pieces[1..])
  {
    if |pieces| > 1 {
      var init := pieces[..|pieces| - 1];
      ConcatFirst(init);
      assert init[1..] == pieces[1..][..|pieces| - 2];
      assert pieces[1..][|pieces| - 2] == pieces[|pieces| - 1];
      assert Concat(pieces[1..]) == Concat(init[1..]) + pieces[|pieces| - 1];
    }
  }

  class RollingTail {
    var chunks: seq<string>
    var bytes: nat
    ghost var stream: string

    ghost predicate Valid(maxBytes: nat)
      reads this
    {
      bytes == |Concat(chunks)| && Reaches(stream, Concat(chunks), maxBytes)
    }

    constructor ()
      ensures forall maxBytes: nat :: Valid(maxBytes)
      ensures stream == ""
    {
      chunks, bytes, stream := [], 0, "";
    }

    /** Appends a chunk and drops bytes from the front, chunk by chunk, the first remaining one in part.
        The tail keeps to its limit exactly when the chunk does, and then it is the last bytes of the
        stream; a longer chunk is kept whole. */
    method Append(chunk: string, maxBytes: nat)
      requires Valid(maxBytes)
      modifies this
      ensures Valid(maxBytes) && stream == old(stream) + chunk
      ensures Concat(chunks) == TailOf(stream, chunk, maxBytes)
      ensures |Concat(chunks)| <= maxBytes <==> |chunk| <= maxBytes
    {
      TailKeepsLimitExactly(stream, chunk, maxBytes);
      hide Reaches;
      ConcatAppend(chunks, chunk);
      ReachesAppend(stream, Concat(chunks), chunk, maxBytes);
      chunks := chunks + [chunk];
      bytes := bytes + |chunk|;
      stream := stream + chunk;
      while bytes > maxBytes && |chunks| > 1
        invariant |chunks| > 0 && chunks[|chunks| - 1] == chunk && stream == old(stream) + chunk && Valid(maxBytes)
        invariant bytes >= maxBytes || Concat(chunks) == stream
        decreases |chunks|, bytes
      {
        TrimFront(maxBytes);
      }
      Trimmed(stream, chunks, maxBytes);
    }

    method TrimFront(maxBytes: nat)
      requires Valid(maxBytes) && bytes > maxBytes && |chunks| > 1
      modifies this`chunks, this`bytes
      ensures Valid(maxBytes) && bytes >= maxBytes && |chunks| > 0
      ensures chunks[|chunks| - 1] == old(chunks)[|old(chunks)| - 1]
      ensures |chunks| < |old(chunks)| || (|chunks| == |old(chunks)| && bytes < old(bytes))
    {
      hide Reaches;
      var excess := bytes - maxBytes;
      var first := chunks[0];
      ConcatFirst(chunks);
      if |first| <= excess {
        DropFront(stream, Concat(chunks), |first|, maxBytes);
        assert (first + Concat(chunks[1..]))[|first|..] == Concat(chunks[1..]);
        chunks := chunks[1..];
        bytes := bytes - |first|;
      } else {
        DropFront(stream, Concat(chunks), excess, maxBytes);
        CutFirst(chunks, excess);
        chunks := [first[excess..]] + chunks[1..];
        bytes := bytes - excess;
      }
    }
  }

  lemma CutFirst(chunks: seq<string>, n: nat)
    requires |chunks| > 0 && n <= |chunks[0]|
    ensures n <= |Concat(chunks)| && Concat([chunks[0][n..]] + chunks[1..]) == Concat(chunks)[n..]
  {
    var rest := [chunks[0][n..]] + chunks[1..];
    ConcatFirst(chunks);
    ConcatFirst(rest);
    assert rest[1..] == chunks[1..];
    assert chunks[0][n..] + Concat(chunks[1..]) == (chunks[0] + Concat(chunks[1..]))[n..];
  }

  // What is left when the trimming stops.
  lemma Trimmed(stream: string, chunks: seq<string>, maxBytes: nat)
    requires |chunks| > 0 && Reaches(stream, Concat(chunks), maxBytes)
    requires |Concat(chunks)| <= maxBytes || |chunks| == 1
    requires |Concat(chunks)| >= maxBytes || Concat(chunks) == stream
    ensures Concat(chunks) == TailOf(stream, chunks[|chunks| - 1], maxBytes)
  {
    var chunk := chunks[|chunks| - 1];
    assert Concat(chunks) == Concat(chunks[..|chunks| - 1]) + chunk;
    if |chunks| == 1 {
      assert Concat(chunks) == chunk;
    }
  }

  lemma DropFront(stream: string, held: string, n: nat, maxBytes: nat)
    requires Reaches(stream, held, maxBytes) && n <= |held| - maxBytes
    ensures Reaches(stream, held[n..], maxBytes)
  {
  }

  // ---------- the beginning of a stream ----------

  function First(s: string, n: nat): string {
    if |s| <= n then s else s[..n]
  }

  /** A bounded buffer calls itself truncated once a chunk goes beyond its limit, or merely comes when it
      is already full. */
  predicate Truncated(chunks: seq<string>, maxBytes: nat) {
    exists k :: 0 <= k < |chunks| && Overfull(chunks, k, maxBytes)
  }

  predicate Overfull(chunks: seq<string>, k: nat, maxBytes: nat)
    requires k < |chunks|
  {
    |Concat(chunks[..k])| >= maxBytes || |Concat(chunks[..k])| + |chunks[k]| > maxBytes
  }

  class BoundedBuffer {
    var chunks: seq<string>
    var bytes: nat
    var truncated: bool
    // Everything appended so far.
    ghost var given: seq<string>

    ghost predicate Valid(maxBytes: nat)
      reads this
    {
      && bytes == |Concat(chunks)| && Concat(chunks) == First(Concat(given), maxBytes)
      && truncated == Truncated(given, maxBytes)
    }

    constructor (ghost maxBytes: nat)
      ensures Valid(maxBytes) && given == []
    {
      chunks, bytes, truncated, given := [], 0, false, [];
    }

    method Append(chunk: string, maxBytes: nat)
      requires Valid(maxBytes)
      modifies this
      ensures Valid(maxBytes) && given == old(given) + [chunk]
    {
      ConcatAppend(given, chunk);
      TruncatedNext(given, chunk, maxBytes);
      given := given + [chunk];
      if truncated {
        return;
      }
      NotFull(old(given), maxBytes);
      if bytes >= maxBytes {
        truncated := true;
        return;
      }
      var remaining := maxBytes - bytes;
      var part := if |chunk| > remaining then chunk[..remaining] else chunk;
      ConcatAppend(chunks, part);
      chunks := chunks + [part];
      bytes := bytes + |part|;
      truncated := |chunk| > remaining;
    }
  }

  lemma TruncatedNext(given: seq<string>, chunk: string, maxBytes: nat)
    ensures Truncated(given + [chunk], maxBytes)
      <==> Truncated(given, maxBytes) || |Concat(given)| >= maxBytes || |Concat(given)| + |chunk| > maxBytes
    ensures Truncated(given, maxBytes) ==> |Concat(given)| >= maxBytes
  {
    var all := given + [chunk];
    assert all[..|given|] == given;
    forall k | 0 <= k < |given|
      ensures Overfull(all, k, maxBytes) <==> Overfull(given, k, maxBytes)
    {
      assert all[..k] == given[..k];
    }
    assert Overfull(all, |given|, maxBytes) <==> |Concat(given)| >= maxBytes || |Concat(given)| + |chunk| > maxBytes;
    if Truncated(given, maxBytes) {
      var k :| 0 <= k < |given| && Overfull(given, k, maxBytes);
      assert given[..k + 1] == given[..k] + [given[k]];
      ConcatAppend(given[..k], given[k]);
      ConcatLonger(given, k + 1);
    }
  }

  lemma {:induction false} ConcatLonger(pieces: seq<string>, k: nat)
    requires k <= |pieces|
    ensures |Concat(pieces[..k])| <= |Concat(pieces)|
    decreases |pieces|
  {
    if k < |pieces| {
      assert pieces[..|pieces| - 1][..k] == pieces[..k];
      ConcatLonger(pieces[..|pieces| - 1], k);
    } else {
      assert pieces[..k] == pieces;
    }
  }

  // An untruncated buffer has room, or nothing was ever cut from it.
  lemma NotFull(given: seq<string>, maxBytes: nat)
    requires !Truncated(given, maxBytes)
    ensures |Concat(given)| <= maxBytes
  {
    if given != [] {
      assert !Overfull(given, |given| - 1, maxBytes);
    }
  }

  /** Main result: the buffer is cut exactly when it says so, except that a chunk which finds it exactly
      full, even an empty one, sets the flag although nothing is lost. */
  lemma TruncatedMeans(given: seq<string>, maxBytes: nat)
    ensures |Concat(given)| > maxBytes ==> Truncated(given, maxBytes)
    ensures Truncated(given, maxBytes) && |Concat(given)| <= maxBytes
      ==> |Concat(given)| == maxBytes && exists k :: 0 <= k < |given| && |Concat(given[..k])| == maxBytes
  {
    if !Truncated(given, maxBytes) {
      NotFull(given, maxBytes);
    } else if |Concat(given)| <= maxBytes {
      var k :| 0 <= k < |given| && Overfull(given, k, maxBytes);
      assert given[..k + 1] == given[..k] + [given[k]];
      ConcatAppend(given[..k], given[k]);
      ConcatLonger(given, k + 1);
    }
  }
}
