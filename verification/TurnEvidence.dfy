/** The file of Turns behind a completed inspection: written one JSON text a line, read back as a page
    of objects, and streamed as a page of bytes. A Turn is identified with its JSON text, which holds no
    raw line feed. */
module TurnEvidence {
  import opened Options
  import opened TextLines

  // SHA-256 is taken to be collision free.
  datatype Hash = Hash(of: string)

  datatype Evidence = Evidence(records: nat, bytes: nat, digest: Hash)

  // ---------- writing ----------

  function Encoded(turns: seq<string>): string {
    if turns == [] then "" else Encoded(turns[..|turns| - 1]) + turns[|turns| - 1] + "\n"
  }

  function EvidenceOf(turns: seq<string>): Evidence {
    Evidence(|turns|, |Encoded(turns)|, Hash(Encoded(turns)))
  }

  predicate OneLineEach(turns: seq<string>) {
    forall i :: 0 <= i < |turns| ==> turns[i] != "" && '\n' !in turns[i]
  }

  lemma {:induction false} EncodedGrows(turns: seq<string>, i: nat)
    requires i <= |turns|
    ensures |Encoded(turns[..i])| <= |Encoded(turns)|
    decreases |turns|
  {
    if i < |turns| {
      assert turns[..|turns| - 1][..i] == turns[..i];
      EncodedGrows(turns[..|turns| - 1], i);
    } else {
      assert turns[..i] == turns;
    }
  }

  lemma EncodedNext(turns: seq<string>, i: nat)
    requires i < |turns|
    ensures Encoded(turns[..i + 1]) == Encoded(turns[..i]) + (turns[i] + "\n")
  {
    assert turns[..i + 1][..i] == turns[..i];
    assert Encoded(turns[..i]) + turns[i] + "\n" == Encoded(turns[..i]) + (turns[i] + "\n");
  }

  /** Writes every Turn on its own line; gives up as soon as the file would pass the limit. */
  method PersistTurns(turns: seq<string>, maxTurnBytes: nat) returns (file: string, evidence: Option<Evidence>)
    ensures evidence.Some? <==> |Encoded(turns)| <= maxTurnBytes
    ensures evidence.Some? ==> file == Encoded(turns) && evidence.value == EvidenceOf(turns)
  {
    file := "";
    var bytes := 0;
    assert turns[..0] == [];
    for i := 0 to |turns|
      invariant file == Encoded(turns[..i]) && bytes == |file| && bytes <= maxTurnBytes
    {
      var line := turns[i] + "\n";
      bytes := bytes + |line|;
      EncodedNext(turns, i);
      if bytes > maxTurnBytes {
        EncodedGrows(turns, i + 1);
        return file, None;
      }
      file := file + line;
    }
    assert turns[..|turns|] == turns;
    evidence := Some(Evidence(|turns|, bytes, Hash(file)));
  }

  // ---------- reading a page ----------

  /** The records of a text: its terminated lines and an unterminated last one. */
  function Records(s: string): seq<string> {
    var split := SplitLines(s);
    if split.rest == "" then split.lines else split.lines + [split.rest]
  }

  function Slice(records: seq<string>, offset: nat, limit: nat): seq<string> {
    if offset >= |records| then []
    else if limit <= |records| - offset then records[offset..offset + limit]
    else records[offset..]
  }

  predicate Selected(records: nat, offset: nat, limit: nat) {
    records >= offset && records - offset < limit
  }

  lemma SliceNext(records: seq<string>, record: string, offset: nat, limit: nat)
    ensures Slice(records + [record], offset, limit) == Slice(records, offset, limit)
      + (if Selected(|records|, offset, limit) then [record] else [])
  {
  }

  function Total(records: seq<string>): nat {
    if records == [] then 0 else Total(records[..|records| - 1]) + |records[|records| - 1]|
  }

  lemma TotalNext(records: seq<string>, record: string)
    ensures Total(records + [record]) == Total(records) + |record|
  {
    assert (records + [record])[..|records|] == records;
  }

  datatype Page = Page(turns: seq<string>, records: nat) | OutputLimit | Changed

  /** What a reader must answer, given the file's size, its bytes and the recorded evidence. */
  function Answer(size: nat, content: string, recorded: Evidence, offset: nat, limit: nat, maxTurnBytes: nat): Page {
    if size > maxTurnBytes then OutputLimit
    else if size != recorded.bytes || |content| != size || |Records(content)| != recorded.records
            || Hash(content) != recorded.digest then Changed
    else Page(Slice(Records(content), offset, limit), recorded.records)
  }

  // A reader's variables: records counted, the page so far, the length of the open line and its pieces.
  datatype Cursor = Cursor(records: nat, turns: seq<string>, lineBytes: nat, fragments: seq<string>)

  /** Where a reader must stand after some bytes: the open line is held only if it is selected. */
  ghost predicate Standing(seen: string, offset: nat, limit: nat, c: Cursor) {
    var split := SplitLines(seen);
    && c.records == |split.lines| && c.turns == Slice(split.lines, offset, limit) && c.lineBytes == |split.rest|
    && Concat(c.fragments) == (if Selected(c.records, offset, limit) then split.rest else "")
  }

  function Held(c: Cursor): nat {
    Total(c.turns) + |Concat(c.fragments)|
  }

  method TakePiece(c: Cursor, piece: string, offset: nat, limit: nat, ghost seen: string)
    returns (c': Cursor, ghost kept: nat)
    requires Standing(seen, offset, limit, c) && '\n' !in piece
    ensures Standing(seen + piece, offset, limit, c') && kept == Held(c') - Held(c)
  {
    SplitAppend(seen, piece);
    ConcatAppend(c.fragments, piece);
    c' := c.(lineBytes := c.lineBytes + |piece|);
    kept := 0;
    if Selected(c.records, offset, limit) {
      c' := c'.(fragments := c.fragments + [piece]);
      kept := |piece|;
    }
  }

  method FinishLine(c: Cursor, offset: nat, limit: nat, ghost seen: string) returns (c': Cursor)
    requires Standing(seen, offset, limit, c)
    ensures Standing(seen + "\n", offset, limit, c') && Held(c') == Held(c) && c'.fragments == []
  {
    SplitNewline(seen);
    SliceNext(SplitLines(seen).lines, SplitLines(seen).rest, offset, limit);
    TotalNext(c.turns, Concat(c.fragments));
    var turns := if Selected(c.records, offset, limit) then c.turns + [Concat(c.fragments)] else c.turns;
    c' := Cursor(c.records + 1, turns, 0, []);
  }

  method TakeChunk(c: Cursor, chunk: string, offset: nat, limit: nat, ghost seen: string)
    returns (c': Cursor, ghost kept: nat)
    requires Standing(seen, offset, limit, c)
    ensures Standing(seen + chunk, offset, limit, c') && kept == Held(c') - Held(c)
  {
    hide Standing, Held;
    c', kept := c, 0;
    var start := 0;
    assert seen + chunk[..0] == seen;
    while start < |chunk|
      invariant 0 <= start <= |chunk|
      invariant Standing(seen + chunk[..start], offset, limit, c') && kept == Held(c') - Held(c)
    {
      var end := Newline(chunk, start);
      ghost var more;
      c', more := TakePiece(c', chunk[start..end], offset, limit, seen + chunk[..start]);
      kept := kept + more;
      assert seen + chunk[..start] + chunk[start..end] == seen + chunk[..end];
      if end == |chunk| {
        start := end;
        break;
      }
      c' := FinishLine(c', offset, limit, seen + chunk[..end]);
      assert seen + chunk[..end] + "\n" == seen + chunk[..end + 1];
      start := end + 1;
    }
    assert chunk[..|chunk|] == chunk;
  }

  /** Reads the file in whatever chunks arrive, keeping bytes only for selected lines: `kept` counts
      every byte ever held for a line. */
  method ReadTurnEvidence(size: nat, chunks: seq<string>, recorded: Evidence, offset: nat, limit: nat,
                          maxTurnBytes: nat)
      returns (page: Page, ghost kept: nat)
    ensures page == Answer(size, Concat(chunks), recorded, offset, limit, maxTurnBytes)
    ensures page.Page? ==> kept == Total(page.turns)
  {
    kept := 0;
    if size > maxTurnBytes {
      return OutputLimit, 0;
    }
    if size != recorded.bytes {
      return Changed, 0;
    }
    var c := Cursor(0, [], 0, []);
    var position := 0;
    for k := 0 to |chunks|
      invariant position == |Concat(chunks[..k])| <= size
      invariant Standing(Concat(chunks[..k]), offset, limit, c) && kept == Held(c)
    {
      assert chunks[..k + 1] == chunks[..k] + [chunks[k]];
      ConcatAppend(chunks[..k], chunks[k]);
      position := position + |chunks[k]|;
      if position > size {
        ConcatIsPrefix(chunks, k + 1);
        return Changed, kept;
      }
      ghost var more;
      c, more := TakeChunk(c, chunks[k], offset, limit, Concat(chunks[..k]));
      kept := kept + more;
    }
    assert chunks[..|chunks|] == chunks;
    ghost var content := Concat(chunks);
    if c.lineBytes > 0 {
      SplitNewline(content);
      c := FinishLine(c, offset, limit, content);
    } else {
      assert |Concat(c.fragments)| == 0;
    }
    if position != recorded.bytes || c.records != recorded.records || Hash(Concat(chunks)) != recorded.digest {
      return Changed, kept;
    }
    page := Page(c.turns, c.records);
  }

  lemma {:induction false} ConcatIsPrefix(pieces: seq<string>, k: nat)
    requires k <= |pieces|
    ensures Concat(pieces[..k]) <= Concat(pieces)
    decreases |pieces|
  {
    if k < |pieces| {
      assert pieces[..|pieces| - 1][..k] == pieces[..k];
      ConcatIsPrefix(pieces[..|pieces| - 1], k);
    } else {
      assert pieces[..k] == pieces;
    }
  }

  // ---------- the round trip ----------

  lemma {:induction false} EncodedSplits(turns: seq<string>)
    requires OneLineEach(turns)
    ensures SplitLines(Encoded(turns)) == Split(turns, "")
  {
    if turns != [] {
      var init, last := turns[..|turns| - 1], turns[|turns| - 1];
      EncodedSplits(init);
      SplitAppend(Encoded(init), last);
      SplitNewline(Encoded(init) + last);
      assert "" + last == last;
      assert init + [last] == turns;
    }
  }

  /** Main result: reading the file written for a list of Turns, in any pieces, answers exactly the asked
      slice and the full count. */
  lemma TurnsRoundTrip(turns: seq<string>, chunks: seq<string>, offset: nat, limit: nat, maxTurnBytes: nat)
    requires OneLineEach(turns) && Concat(chunks) == Encoded(turns) && |Encoded(turns)| <= maxTurnBytes
    ensures Answer(|Encoded(turns)|, Concat(chunks), EvidenceOf(turns), offset, limit, maxTurnBytes)
      == Page(Slice(turns, offset, limit), |turns|)
  {
    EncodedSplits(turns);
  }

  /** Main result: against that evidence no other bytes are ever answered as a page. */
  lemma OtherBytesAreRefused(turns: seq<string>, size: nat, content: string, offset: nat, limit: nat, maxTurnBytes: nat)
    requires OneLineEach(turns)
    ensures Answer(size, content, EvidenceOf(turns), offset, limit, maxTurnBytes).Page?
      <==> content == Encoded(turns) && size == |content| && size <= maxTurnBytes
  {
    EncodedSplits(turns);
  }

  // ---------- the streamed page ----------

  datatype Row = Row(start: nat, bytes: nat)

  /** The reported rows must follow one another inside the file. */
  predicate InOrder(rows: seq<Row>, total: nat) {
    && (forall i :: 0 <= i < |rows| ==> rows[i].bytes >= 1 && rows[i].start + rows[i].bytes <= total)
    && (forall i :: 0 < i < |rows| ==> rows[i - 1].start + rows[i - 1].bytes <= rows[i].start)
  }

  method CheckRows(rows: seq<Row>, total: nat) returns (ok: bool)
    ensures ok <==> InOrder(rows, total)
  {
    var previousEnd := 0;
    for i := 0 to |rows|
      invariant InOrder(rows[..i], total)
      invariant previousEnd == if i == 0 then 0 else rows[i - 1].start + rows[i - 1].bytes
    {
      var end := rows[i].start + rows[i].bytes;
      if rows[i].start < previousEnd || rows[i].bytes < 1 || end > total {
        return false;
      }
      previousEnd := end;
    }
    return true;
  }

  // The bytes of a row that the file still holds.
  function RowText(file: string, row: Row): string {
    file[Min(row.start, |file|)..Min(row.start + row.bytes, |file|)]
  }

  function Min(a: nat, b: nat): nat {
    if a <= b then a else b
  }

  function Joined(texts: seq<string>): string {
    if texts == [] then ""
    else if |texts| == 1 then texts[0]
    else Joined(texts[..|texts| - 1]) + "," + texts[|texts| - 1]
  }

  function Texts(file: string, rows: seq<Row>): seq<string> {
    seq(|rows|, i requires 0 <= i < |rows| => RowText(file, rows[i]))
  }

  function RowBytes(rows: seq<Row>): nat {
    if rows == [] then 0 else RowBytes(rows[..|rows| - 1]) + rows[|rows| - 1].bytes
  }

  /** The length announced before a single byte is sent. */
  function Declared(prefix: string, rows: seq<Row>): nat {
    |prefix| + RowBytes(rows) + Commas(|rows|) + 2
  }

  const READ_LIMIT: nat := 64 * 1024

  /** What has been sent after i rows. */
  function Sent(file: string, prefix: string, rows: seq<Row>, i: nat): string
    requires i <= |rows|
  {
    prefix + Joined(Texts(file, rows[..i]))
  }

  function Commas(i: nat): nat {
    if i == 0 then 0 else i - 1
  }

  lemma SentNext(file: string, prefix: string, rows: seq<Row>, i: nat)
    requires i < |rows|
    ensures Sent(file, prefix, rows, i + 1) == Sent(file, prefix, rows, i) + (if i > 0 then "," else "")
      + RowText(file, rows[i])
    ensures RowBytes(rows[..i + 1]) == RowBytes(rows[..i]) + rows[i].bytes
  {
    assert rows[..i + 1][..i] == rows[..i];
    assert Texts(file, rows[..i + 1])[..i] == Texts(file, rows[..i]);
  }

  lemma {:induction false} JoinedIsPrefix(texts: seq<string>, k: nat)
    requires k <= |texts|
    ensures Joined(texts[..k]) <= Joined(texts)
    decreases |texts|
  {
    if k < |texts| {
      assert texts[..|texts| - 1][..k] == texts[..k];
      JoinedIsPrefix(texts[..|texts| - 1], k);
    } else {
      assert texts[..k] == texts;
    }
  }

  lemma SentGrows(file: string, prefix: string, rows: seq<Row>, i: nat)
    requires i <= |rows|
    ensures Sent(file, prefix, rows, i) <= Sent(file, prefix, rows, |rows|)
  {
    assert rows[..|rows|] == rows;
    assert Texts(file, rows)[..i] == Texts(file, rows[..i]);
    JoinedIsPrefix(Texts(file, rows), i);
  }

  /** Streams prefix, rows and closing brackets. Call i to the file returns at most `pace(i)` bytes, and
      none where the file has ended; the stream then fails, having sent the beginning of the page. */
  method StreamPage(file: string, prefix: string, rows: seq<Row>, pace: nat -> nat) returns (sent: string, ok: bool)
    ensures ok ==> sent == Sent(file, prefix, rows, |rows|) + "]}" && |sent| == Declared(prefix, rows)
    ensures !ok ==> sent <= Sent(file, prefix, rows, |rows|)
    ensures InOrder(rows, |file|) && (forall i :: pace(i) > 0) ==> ok
  {
    sent, ok := prefix, true;
    var calls: nat := 0;
    assert Sent(file, prefix, rows, 0) == prefix;
    assert rows[..|rows|] == rows;
    hide Sent, Joined, RowText;
    for index := 0 to |rows|
      invariant sent == Sent(file, prefix, rows, index)
      invariant |sent| == |prefix| + RowBytes(rows[..index]) + Commas(index)
    {
      if index > 0 {
        sent := sent + ",";
      }
      var text;
      text, calls, ok := ReadRow(file, rows[index], pace, calls);
      SentNext(file, prefix, rows, index);
      sent := sent + text;
      if !ok {
        SentGrows(file, prefix, rows, index + 1);
        return;
      }
    }
    sent := sent + "]}";
  }

  method ReadRow(file: string, row: Row, pace: nat -> nat, calls: nat) returns (text: string, calls': nat, ok: bool)
    ensures text <= RowText(file, row)
    ensures ok ==> text == RowText(file, row) && |text| == row.bytes
    ensures row.start + row.bytes <= |file| && (forall i :: pace(i) > 0) ==> ok
  {
    text, calls' := "", calls;
    var position, end := row.start, row.start + row.bytes;
    while position < end
      invariant row.start <= position <= end && (position > row.start ==> position <= |file|)
      invariant text == file[Min(row.start, |file|)..Min(position, |file|)]
      invariant |text| == position - row.start
    {
      var left := if position <= |file| then |file| - position else 0;
      var bytesRead := Min(pace(calls'), Min(Min(READ_LIMIT, end - position), left));
      calls' := calls' + 1;
      if bytesRead == 0 {
        return text, calls', false;
      }
      text := text + file[position..position + bytesRead];
      position := position + bytesRead;
    }
    ok := true;
  }

  // ---------- the stream refines the page of objects ----------

  // Where line i of the written file lies, without its line feed.
  function LineRow(turns: seq<string>, i: nat): Row
    requires i < |turns|
  {
    Row(|Encoded(turns[..i])|, |turns[i]|)
  }

  /** The rows of a page: one per selected line. */
  function LineRows(turns: seq<string>, offset: nat, limit: nat): seq<Row> {
    seq(|Slice(turns, offset, limit)|, i requires 0 <= i < |Slice(turns, offset, limit)| => LineRow(turns, offset + i))
  }

  lemma LineRowText(turns: seq<string>, i: nat)
    requires i < |turns|
    ensures RowText(Encoded(turns), LineRow(turns, i)) == turns[i]
    ensures |Encoded(turns[..i])| + |turns[i]| + 1 <= |Encoded(turns)|
  {
    EncodedNext(turns, i);
    EncodedPrefix(turns, i + 1);
    var before, whole := Encoded(turns[..i]), Encoded(turns);
    assert before + (turns[i] + "\n") <= whole;
    assert whole[|before|..|before| + |turns[i]|] == (before + (turns[i] + "\n"))[|before|..|before| + |turns[i]|];
  }

  lemma {:induction false} EncodedPrefix(turns: seq<string>, k: nat)
    requires k <= |turns|
    ensures Encoded(turns[..k]) <= Encoded(turns)
    decreases |turns|
  {
    if k < |turns| {
      assert turns[..|turns| - 1][..k] == turns[..k];
      EncodedPrefix(turns[..|turns| - 1], k);
    } else {
      assert turns[..k] == turns;
    }
  }

  lemma LineRowsInOrder(turns: seq<string>, offset: nat, limit: nat)
    requires OneLineEach(turns)
    ensures InOrder(LineRows(turns, offset, limit), |Encoded(turns)|)
  {
    hide LineRow;
    var rows := LineRows(turns, offset, limit);
    forall i | 0 <= i < |rows|
      ensures rows[i].bytes >= 1 && rows[i].start + rows[i].bytes <= |Encoded(turns)|
      ensures i > 0 ==> rows[i - 1].start + rows[i - 1].bytes <= rows[i].start
    {
      LineRowPlace(turns, offset + i);
    }
  }

  lemma LineRowPlace(turns: seq<string>, i: nat)
    requires i < |turns| && OneLineEach(turns)
    ensures var row := LineRow(turns, i);
      && row.bytes >= 1 && row.start + row.bytes <= |Encoded(turns)|
      && (i > 0 ==> LineRow(turns, i - 1).start + LineRow(turns, i - 1).bytes <= row.start)
  {
    LineRowText(turns, i);
    if i > 0 {
      EncodedNext(turns, i - 1);
    }
  }

  /** The JSON text of a page answer: `head` is everything up to the opening bracket of the Turns. */
  function PageText(head: string, turns: seq<string>): string {
    head + Joined(turns) + "]}"
  }

  /** The elements of a JSON array, read from the left. */
  function Elements(turns: seq<string>): string {
    if turns == [] then "" else if |turns| == 1 then turns[0] else turns[0] + "," + Elements(turns[1..])
  }

  lemma {:induction false} JoinedIsElements(turns: seq<string>)
    ensures Joined(turns) == Elements(turns)
    decreases |turns|
  {
    if |turns| >= 2 {
      var n := |turns| - 1;
      var init, rest := turns[..n], turns[1..];
      JoinedIsElements(init);
      JoinedIsElements(rest);
      if n > 1 {
        assert init[1..] == rest[..n - 1];
        JoinedIsElements(init[1..]);
        assert Joined(rest) == Joined(rest[..n - 1]) + "," + rest[n - 1];
        assert Joined(turns) == (turns[0] + "," + Joined(init[1..])) + "," + turns[n];
      }
    }
  }

  lemma JoinedLength(file: string, rows: seq<Row>)
    requires InOrder(rows, |file|)
    ensures |Joined(Texts(file, rows))| == RowBytes(rows) + Commas(|rows|)
    decreases |rows|
  {
    if rows != [] {
      var init := rows[..|rows| - 1];
      assert rows[..|rows|] == rows;
      SentNext(file, "", rows, |rows| - 1);
      JoinedLength(file, init);
    }
  }

  /** Main result: for the rows of the stored lines the check accepts them, and the stream is the JSON text
      of the very page the object reader answers, with exactly the announced length. */
  lemma StreamIsPageText(turns: seq<string>, head: string, offset: nat, limit: nat)
    requires OneLineEach(turns)
    ensures var file := Encoded(turns); var rows := LineRows(turns, offset, limit);
      var empty := PageText(head, []); var prefix := empty[..|empty| - 2];
      && InOrder(rows, |file|)
      && Sent(file, prefix, rows, |rows|) + "]}" == PageText(head, Slice(turns, offset, limit))
      && PageText(head, Slice(turns, offset, limit)) == head + Elements(Slice(turns, offset, limit)) + "]}"
      && Declared(prefix, rows) == |PageText(head, Slice(turns, offset, limit))|
  {
    var file, rows := Encoded(turns), LineRows(turns, offset, limit);
    LineRowsInOrder(turns, offset, limit);
    JoinedLength(file, rows);
    RowsAreTurns(turns, offset, limit);
    JoinedIsElements(Slice(turns, offset, limit));
    hide Elements, LineRows, Slice, Encoded, Texts, InOrder;
    assert rows[..|rows|] == rows;
    PrefixIsHead(head);
  }

  lemma RowsAreTurns(turns: seq<string>, offset: nat, limit: nat)
    ensures Texts(Encoded(turns), LineRows(turns, offset, limit)) == Slice(turns, offset, limit)
  {
    hide RowText, LineRow;
    var rows := LineRows(turns, offset, limit);
    forall i | 0 <= i < |rows|
      ensures RowText(Encoded(turns), rows[i]) == Slice(turns, offset, limit)[i]
    {
      LineRowText(turns, offset + i);
    }
  }

  lemma PrefixIsHead(head: string)
    ensures var empty := PageText(head, []); empty[..|empty| - 2] == head
  {
  }
}
