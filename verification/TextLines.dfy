/** Lines of a byte stream. A byte is a `char` below 256. */
module TextLines {
  /** The offset of the first line feed at or after `from`, or the length. */
  function Newline(s: string, from: nat): (n: nat)
    requires from <= |s|
    ensures from <= n <= |s| && '\n' !in s[from..n] && (n < |s| ==> s[n] == '\n')
    decreases |s| - from
  {
    if from == |s| || s[from] == '\n' then from
    else
      var n := Newline(s, from + 1);
      assert s[from..n] == [s[from]] + s[from + 1..n];
      n
  }

  // The terminated lines of a text and what follows the last of them.
  datatype Split = Split(lines: seq<string>, rest: string)

  function SplitLines(s: string): Split {
    if s == "" then Split([], "")
    else
      var before := SplitLines(s[..|s| - 1]);
      if s[|s| - 1] == '\n' then Split(before.lines + [before.rest], "")
      else Split(before.lines, before.rest + [s[|s| - 1]])
  }

  lemma {:induction false} SplitAppend(s: string, x: string)
    requires '\n' !in x
    ensures SplitLines(s + x) == Split(SplitLines(s).lines, SplitLines(s).rest + x)
  {
    if x == "" {
      assert s + x == s;
    } else {
      var y := x[..|x| - 1];
      SplitAppend(s, y);
      assert (s + x)[..|s + x| - 1] == s + y;
      assert SplitLines(s).rest + x == (SplitLines(s).rest + y) + [x[|x| - 1]];
    }
  }

  lemma SplitNewline(s: string)
    ensures SplitLines(s + "\n") == Split(SplitLines(s).lines + [SplitLines(s).rest], "")
  {
    assert (s + "\n")[..|s|] == s;
  }

  function Concat(pieces: seq<string>): string {
    if pieces == [] then "" else Concat(pieces[..|pieces| - 1]) + pieces[|pieces| - 1]
  }

  lemma ConcatAppend(pieces: seq<string>, piece: string)
    ensures Concat(pieces + [piece]) == Concat(pieces) + piece
  {
    assert (pieces + [piece])[..|pieces|] == pieces;
  }

  // ---------- ASCII white space ----------

  predicate Space(c: char) {
    c == ' ' || ('\t' <= c <= '\r')
  }

  function TrimStart(s: string): string {
    if s != "" && Space(s[0]) then TrimStart(s[1..]) else s
  }

  function TrimEnd(s: string): string {
    if s != "" && Space(s[|s| - 1]) then TrimEnd(s[..|s| - 1]) else s
  }

  function Trim(s: string): string {
    TrimEnd(TrimStart(s))
  }

  lemma SpaceMeans(c: char)
    ensures Space(c) <==> c in {' ', '\t', '\n', '\U{0b}', '\U{0c}', '\r'}
  {
  }

  predicate AllSpace(s: string) {
    forall i :: 0 <= i < |s| ==> Space(s[i])
  }

  lemma {:induction false} TrimStartMeans(s: string) returns (cut: string)
    ensures s == cut + TrimStart(s) && AllSpace(cut)
    ensures TrimStart(s) != "" ==> !Space(TrimStart(s)[0])
  {
    if s != "" && Space(s[0]) {
      var rest := TrimStartMeans(s[1..]);
      cut := [s[0]] + rest;
      assert s == [s[0]] + s[1..];
    } else {
      cut := "";
    }
  }

  lemma {:induction false} TrimEndMeans(s: string) returns (cut: string)
    ensures s == TrimEnd(s) + cut && AllSpace(cut)
    ensures TrimEnd(s) != "" ==> !Space(TrimEnd(s)[|TrimEnd(s)| - 1])
  {
    if s != "" && Space(s[|s| - 1]) {
      var rest := TrimEndMeans(s[..|s| - 1]);
      cut := rest + [s[|s| - 1]];
      assert s == s[..|s| - 1] + [s[|s| - 1]];
    } else {
      cut := "";
    }
  }

  /** What is trimmed is white space, and what is left neither begins nor ends with any. */
  lemma TrimMeans(s: string) returns (before: string, after: string)
    ensures s == before + Trim(s) + after && AllSpace(before) && AllSpace(after)
    ensures Trim(s) != "" ==> !Space(Trim(s)[0]) && !Space(Trim(s)[|Trim(s)| - 1])
  {
    before := TrimStartMeans(s);
    after := TrimEndMeans(TrimStart(s));
    var t := TrimStart(s);
    assert t == Trim(s) + after;
    if Trim(s) != "" {
      assert t[0] == Trim(s)[0];
    }
  }
}
