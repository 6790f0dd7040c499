/** The incremental recogniser of the end of a Responses event stream. A byte is a `char` below 256,
    so the ASCII patterns read as in the source. */
module SseBoundary {
  import opened Options
  import opened TextLines

  type Wire = string

  const PREFIX_LIMIT: nat := 1024

  /** The event names after which a Responses stream carries nothing more. */
  predicate TerminalEvent(name: Wire) {
    name == "error" || name == "response.cancelled" || name == "response.canceled"
    || name == "response.completed" || name == "response.failed" || name == "response.incomplete"
  }

  // ---------- reading one line ----------

  function WithoutCr(s: Wire): Wire {
    if s != "" && s[|s| - 1] == '\r' then s[..|s| - 1] else s
  }

  function UntilQuote(s: Wire): Option<Wire> {
    if s == "" then None
    else if s[0] == '"' then Some("")
    else var rest := UntilQuote(s[1..]); if rest.None? then None else Some([s[0]] + rest.value)
  }

  // The text after `mark`, or None.
  function After(s: Wire, mark: Wire): Option<Wire> {
    if mark <= s then Some(s[|mark|..]) else None
  }

  /** The value of a leading "type" member, or "" when the data does not start with one. */
  function DataType(data: Wire): Wire {
    var a := After(data, "{");
    if a.None? then "" else
    var b := After(TrimStart(a.value), "\"type\"");
    if b.None? then "" else
    var c := After(TrimStart(b.value), ":");
    if c.None? then "" else
    var d := After(TrimStart(c.value), "\"");
    if d.None? then "" else
    var e := UntilQuote(d.value);
    if e.None? then "" else e.value
  }

  datatype Verdict = Verdict(eventType: Wire, terminal: Option<Wire>, terminalAt: Option<nat>, done: bool,
                             doneAt: Option<nat>)

  const UNDECIDED := Verdict("", None, None, false, None)

  /** What one complete line, without its line feed and cut to the prefix limit, changes. */
  function Finish(v: Verdict, prefix: Wire, end: nat): Verdict {
    FinishShown(v, WithoutCr(prefix), end)
  }

  function FinishShown(v: Verdict, line: Wire, end: nat): Verdict {
    if line == "" then v.(eventType := "")
    else if "event:" <= line then v.(eventType := Trim(line[6..]))
    else if "data:" <= line then
      var data := TrimStart(line[5..]);
      var w := if Trim(data) == "[DONE]" then v.(done := true, doneAt := Some(end)) else v;
      var name := if w.eventType != "" then w.eventType else DataType(data);
      if TerminalEvent(name) then w.(terminal := Some(name), terminalAt := Some(end)) else w
    else v
  }

  function Cut(line: Wire): Wire {
    if |line| <= PREFIX_LIMIT then line else line[..PREFIX_LIMIT]
  }

  // ---------- byte by byte ----------

  datatype Progress = Progress(verdict: Verdict, line: Wire)

  /** Where the recogniser stands after a stream: the verdict so far and the unfinished line. */
  function Observed(s: Wire): Progress {
    if s == "" then Progress(UNDECIDED, "")
    else
      var p := Observed(s[..|s| - 1]);
      if s[|s| - 1] == '\n' then Progress(Finish(p.verdict, Cut(p.line), |s|), "")
      else Progress(p.verdict, p.line + [s[|s| - 1]])
  }

  lemma {:induction false} ObservedWithoutNewline(s: Wire, x: Wire)
    requires '\n' !in x
    ensures Observed(s + x) == Progress(Observed(s).verdict, Observed(s).line + x)
  {
    if x == "" {
      assert s + x == s;
    } else {
      var y := x[..|x| - 1];
      ObservedWithoutNewline(s, y);
      assert (s + x)[..|s + x| - 1] == s + y;
      assert Observed(s).line + x == (Observed(s).line + y) + [x[|x| - 1]];
    }
  }

  lemma ObservedNewline(s: Wire)
    ensures Observed(s + "\n") == Progress(Finish(Observed(s).verdict, Cut(Observed(s).line), |s| + 1), "")
  {
    assert (s + "\n")[..|s|] == s;
  }

  // ---------- line by line ----------

  // A complete line and the offset just after its line feed.
  datatype Line = Line(text: Wire, end: nat)

  /** The complete lines of a stream from an offset on. */
  function Lines(s: Wire, from: nat): seq<Line>
    requires from <= |s|
    decreases |s| - from
  {
    var n := Newline(s, from);
    if n == |s| then [] else [Line(s[from..n], n + 1)] + Lines(s, n + 1)
  }

  /** The verdict over a list of complete lines, left to right. */
  function Fold(lines: seq<Line>): Verdict
    decreases |lines|
  {
    if lines == [] then UNDECIDED
    else
      var last := lines[|lines| - 1];
      Finish(Fold(lines[..|lines| - 1]), Cut(last.text), last.end)
  }

  lemma LinesFirst(s: Wire, from: nat)
    requires from <= |s|
    ensures var n := Newline(s, from);
      Lines(s, from) == if n == |s| then [] else [Line(s[from..n], n + 1)] + Lines(s, n + 1)
  {
  }

  lemma FoldNext(done: seq<Line>, line: Line)
    ensures Fold(done + [line]) == Finish(Fold(done), Cut(line.text), line.end)
  {
    hide Finish, Cut;
    assert (done + [line])[..|done|] == done;
  }

  lemma Regroup(done: seq<Line>, line: Line, rest: seq<Line>)
    ensures done + ([line] + rest) == (done + [line]) + rest
  {
  }

  lemma {:induction false} FoldFrom(s: Wire, from: nat, done: seq<Line>)
    requires from <= |s| && Observed(s[..from]) == Progress(Fold(done), "")
    ensures Observed(s).verdict == Fold(done + Lines(s, from))
    decreases |s| - from
  {
    hide Finish, Cut, Observed, Lines, Fold;
    var n := Newline(s, from);
    ObservedUpTo(s, from, n);
    LinesFirst(s, from);
    if n == |s| {
      assert s[..n] == s && done + Lines(s, from) == done;
    } else {
      var line := Line(s[from..n], n + 1);
      NewlineSplit(s, n);
      ObservedNewline(s[..n]);
      FoldNext(done, line);
      FoldFrom(s, n + 1, done + [line]);
      Regroup(done, line, Lines(s, n + 1));
    }
  }

  lemma NewlineSplit(s: Wire, n: nat)
    requires n < |s| && s[n] == '\n'
    ensures s[..n + 1] == s[..n] + "\n"
  {
  }

  lemma ObservedUpTo(s: Wire, from: nat, n: nat)
    requires from <= n <= |s| && Observed(s[..from]).line == "" && '\n' !in s[from..n]
    ensures Observed(s[..n]) == Progress(Observed(s[..from]).verdict, s[from..n])
  {
    hide Observed;
    assert s[..n] == s[..from] + s[from..n];
    ObservedWithoutNewline(s[..from], s[from..n]);
    assert "" + s[from..n] == s[from..n];
  }

  /** Main result: the verdict is one left-to-right fold over the complete lines of the stream, each
      cut to its first 1024 bytes. */
  lemma VerdictIsFoldOverLines(s: Wire)
    ensures Observed(s).verdict == Fold(Lines(s, 0))
  {
    assert s[..0] == "" && [] + Lines(s, 0) == Lines(s, 0);
    FoldFrom(s, 0, []);
  }

  function Text(lines: seq<Line>): Wire
    decreases |lines|
  {
    if lines == [] then "" else lines[0].text + "\n" + Text(lines[1..])
  }

  lemma TextOfFirst(s: Wire, from: nat)
    requires from <= |s|
    ensures var n := Newline(s, from);
      Text(Lines(s, from)) == if n == |s| then "" else s[from..n] + "\n" + Text(Lines(s, n + 1))
  {
    var n := Newline(s, from);
    if n < |s| {
      assert Lines(s, from)[1..] == Lines(s, n + 1);
    }
  }

  lemma TailSplit(s: Wire, from: nat, n: nat)
    requires from <= n < |s| && s[n] == '\n'
    ensures s[from..] == s[from..n] + "\n" + s[n + 1..]
  {
  }

  lemma Reassociate(a: Wire, b: Wire, c: Wire)
    ensures a + (b + c) == (a + b) + c
  {
  }

  /** The lines and the unfinished rest are the stream again, and neither holds a line feed. */
  lemma {:induction false} LinesRebuildStream(s: Wire, from: nat)
    requires from <= |s| && Observed(s[..from]).line == ""
    ensures s[from..] == Text(Lines(s, from)) + Observed(s).line && '\n' !in Observed(s).line
    decreases |s| - from
  {
    hide Finish, Cut, Text, Lines, Observed;
    var n := Newline(s, from);
    ObservedUpTo(s, from, n);
    TextOfFirst(s, from);
    if n == |s| {
      assert s[..n] == s && s[from..] == s[from..n];
    } else {
      NewlineSplit(s, n);
      ObservedNewline(s[..n]);
      LinesRebuildStream(s, n + 1);
      TailSplit(s, from, n);
      Reassociate(s[from..n] + "\n", Text(Lines(s, n + 1)), Observed(s).line);
    }
  }

  /** The line stands in the stream where its end says: its text, then its line feed. */
  predicate StandsAt(s: Wire, from: nat, line: Line) {
    && from + |line.text| < line.end <= |s| && s[line.end - 1] == '\n' && '\n' !in line.text
    && line.text == s[line.end - 1 - |line.text|..line.end - 1]
  }

  /** Each line ends just after its own line feed, and its text is what stands before that feed. */
  lemma {:induction false} LineEnds(s: Wire, from: nat, k: nat)
    requires from <= |s| && k < |Lines(s, from)|
    ensures StandsAt(s, from, Lines(s, from)[k])
    decreases k
  {
    var n := Newline(s, from);
    LinesFirst(s, from);
    hide Lines, Newline;
    if k > 0 {
      LineEnds(s, n + 1, k - 1);
      StandsLater(s, from, n + 1, Lines(s, n + 1)[k - 1]);
      hide StandsAt;
    } else {
      FirstStands(s, from, n);
    }
  }

  lemma StandsLater(s: Wire, from: nat, later: nat, line: Line)
    requires from <= later && StandsAt(s, later, line)
    ensures StandsAt(s, from, line)
  {
  }

  lemma FirstStands(s: Wire, from: nat, n: nat)
    requires from <= n < |s| && s[n] == '\n' && '\n' !in s[from..n]
    ensures StandsAt(s, from, Line(s[from..n], n + 1))
  {
  }

  /** The offset of a line's end is the length of the text up to and with that line. */
  lemma {:induction false} LineOffset(s: Wire, from: nat, k: nat)
    requires from <= |s| && k < |Lines(s, from)|
    ensures from + |Text(Lines(s, from)[..k + 1])| == Lines(s, from)[k].end
    decreases k
  {
    var n := Newline(s, from);
    LinesFirst(s, from);
    var first, rest := Line(s[from..n], n + 1), Lines(s, n + 1);
    hide Lines, Text, Newline;
    TextFirst(first, rest, k);
    if k > 0 {
      LineOffset(s, n + 1, k - 1);
    } else {
      NoText(rest);
    }
  }

  lemma NoText(lines: seq<Line>)
    ensures Text(lines[..0]) == ""
  {
  }

  lemma TextFirst(first: Line, rest: seq<Line>, k: nat)
    requires k <= |rest|
    ensures |Text(([first] + rest)[..k + 1])| == |first.text| + 1 + |Text(rest[..k])|
  {
    assert ([first] + rest)[..k + 1][1..] == rest[..k];
  }

  // ---------- what the offsets mean ----------

  function Shown(line: Line): Wire {
    WithoutCr(Cut(line.text))
  }

  /** The event name in force before line k: that of the last event line since the last blank one. */
  function NameBefore(lines: seq<Line>, k: nat): Wire
    requires k <= |lines|
  {
    if k == 0 then ""
    else if Shown(lines[k - 1]) == "" then ""
    else if "event:" <= Shown(lines[k - 1]) then Trim(Shown(lines[k - 1])[6..])
    else NameBefore(lines, k - 1)
  }

  /** The data of line k, when it is a data line. */
  function DataAt(lines: seq<Line>, k: nat): Option<Wire>
    requires k < |lines|
  {
    if "data:" <= Shown(lines[k]) then Some(TrimStart(Shown(lines[k])[5..])) else None
  }

  /** The terminal event line k announces: named by the event line before it, else by its own data. */
  function TerminalAt(lines: seq<Line>, k: nat): Option<Wire>
    requires k < |lines|
  {
    if DataAt(lines, k).None? then None
    else
      var name := if NameBefore(lines, k) != "" then NameBefore(lines, k) else DataType(DataAt(lines, k).value);
      if TerminalEvent(name) then Some(name) else None
  }

  predicate DoneAt(lines: seq<Line>, k: nat)
    requires k < |lines|
  {
    DataAt(lines, k).Some? && Trim(DataAt(lines, k).value) == "[DONE]"
  }

  /** Line k is the last terminal line among the first m, and the one the verdict reports. */
  ghost predicate LastTerminal(lines: seq<Line>, m: nat, k: nat, v: Verdict)
    requires m <= |lines|
  {
    && k < m && TerminalAt(lines, k).Some? && (forall j :: k < j < m ==> TerminalAt(lines, j).None?)
    && v.terminal == TerminalAt(lines, k) && v.terminalAt == Some(lines[k].end)
  }

  ghost predicate LastDone(lines: seq<Line>, m: nat, k: nat, v: Verdict)
    requires m <= |lines|
  {
    k < m && DoneAt(lines, k) && (forall j :: k < j < m ==> !DoneAt(lines, j)) && v.doneAt == Some(lines[k].end)
  }

  lemma FinishIsLine(lines: seq<Line>, k: nat, v: Verdict)
    requires k < |lines| && v.eventType == NameBefore(lines, k)
    ensures var w := Finish(v, Cut(lines[k].text), lines[k].end);
      && w.eventType == NameBefore(lines, k + 1)
      && w.done == (v.done || DoneAt(lines, k))
      && w.doneAt == (if DoneAt(lines, k) then Some(lines[k].end) else v.doneAt)
      && w.terminal == (if TerminalAt(lines, k).Some? then TerminalAt(lines, k) else v.terminal)
      && w.terminalAt == (if TerminalAt(lines, k).Some? then Some(lines[k].end) else v.terminalAt)
  {
    hide Cut, Trim, TrimStart, DataType, TerminalEvent, WithoutCr;
    var line := Shown(lines[k]);
    if "event:" <= line {
      assert line[0] == 'e';
      assert !("data:" <= line);
    }
  }

  /** Main result: a terminal event is reported exactly when some line announces one, and then the
      reported name and offset are those of the last such line; the same for the end marker. */
  lemma {:induction false} ReportsLastMatch(lines: seq<Line>, m: nat)
    requires m <= |lines|
    ensures var v := Fold(lines[..m]);
      && v.eventType == NameBefore(lines, m)
      && (v.terminal.None? <==> v.terminalAt.None?)
      && (v.terminal.None? <==> forall k :: 0 <= k < m ==> TerminalAt(lines, k).None?)
      && (v.terminal.Some? ==> exists k :: LastTerminal(lines, m, k, v))
      && (v.done <==> v.doneAt.Some?)
      && (!v.done <==> forall k :: 0 <= k < m ==> !DoneAt(lines, k))
      && (v.done ==> exists k :: LastDone(lines, m, k, v))
  {
    hide Finish, TerminalAt, DoneAt, NameBefore, Cut;
    if m == 0 {
      assert NameBefore(lines, 0) == "" by { NameAtStart(lines); }
    } else {
      ReportsLastMatch(lines, m - 1);
      var before := Fold(lines[..m - 1]);
      assert lines[..m][..m - 1] == lines[..m - 1];
      FinishIsLine(lines, m - 1, before);
      LastTerminalStep(lines, m - 1, m, before, Fold(lines[..m]));
      LastDoneStep(lines, m - 1, m, before, Fold(lines[..m]));
    }
  }

  lemma NameAtStart(lines: seq<Line>)
    ensures NameBefore(lines, 0) == ""
  {
  }

  lemma LastTerminalStep(lines: seq<Line>, m: nat, n: nat, v: Verdict, w: Verdict)
    requires m < |lines| && n == m + 1
    requires v.terminal.Some? ==> exists k :: LastTerminal(lines, m, k, v)
    requires w.terminal == (if TerminalAt(lines, m).Some? then TerminalAt(lines, m) else v.terminal)
    requires w.terminalAt == (if TerminalAt(lines, m).Some? then Some(lines[m].end) else v.terminalAt)
    ensures w.terminal.Some? ==> exists k :: LastTerminal(lines, n, k, w)
  {
    hide TerminalAt;
    if TerminalAt(lines, m).Some? {
      assert LastTerminal(lines, n, m, w);
    } else if w.terminal.Some? {
      var k :| LastTerminal(lines, m, k, v);
      assert LastTerminal(lines, n, k, w);
    }
  }

  lemma LastDoneStep(lines: seq<Line>, m: nat, n: nat, v: Verdict, w: Verdict)
    requires m < |lines| && n == m + 1
    requires v.done ==> exists k :: LastDone(lines, m, k, v)
    requires w.done == (v.done || DoneAt(lines, m))
    requires w.doneAt == (if DoneAt(lines, m) then Some(lines[m].end) else v.doneAt)
    ensures w.done ==> exists k :: LastDone(lines, n, k, w)
  {
    hide DoneAt;
    if DoneAt(lines, m) {
      assert LastDone(lines, n, m, w);
    } else if w.done {
      var k :| LastDone(lines, m, k, v);
      assert LastDone(lines, n, k, w);
    }
  }

  // ---------- the tracker ----------

  datatype Snapshot = Snapshot(terminalObserved: bool, terminalEvent: Option<Wire>, terminalAt: Option<nat>,
                               doneObserved: bool, doneAt: Option<nat>, bytes: nat, boundaryObserved: bool)

  /** What the tracker must report about a stream, however it arrived. */
  function Report(s: Wire): Snapshot {
    var v := Fold(Lines(s, 0));
    Snapshot(v.terminal.Some?, v.terminal, v.terminalAt, v.done, v.doneAt, |s|, v.terminal.Some? || v.done)
  }

  // ---------- what a server writes and what is reported ----------

  const TERMINAL_EVENTS: set<Wire> := {
    "error", "response.cancelled", "response.canceled", "response.completed", "response.failed", "response.incomplete"}

  // A word that needs no trimming.
  predicate Bare(word: Wire) {
    word != "" && !Space(word[0]) && !Space(word[|word| - 1])
  }

  lemma BareIsTrimmed(word: Wire)
    requires Bare(word)
    ensures Trim(word) == word && Trim(" " + word) == word && TrimStart(" " + word) == word
  {
    assert (" " + word)[1..] == word;
  }

  // One more line, ended by LF or by CR and LF.
  lemma OneMoreLine(s: Wire, line: Wire, eol: Wire)
    requires Observed(s).line == "" && '\n' !in line && (eol == "" || eol == "\r") && |line + eol| <= 1024
    requires line != "" && line[|line| - 1] != '\r'
    ensures var t := s + (line + eol) + "\n";
      Observed(t) == Progress(FinishShown(Observed(s).verdict, line, |t|), "")
  {
    var text := line + eol;
    LineShown(line, eol);
    hide Observed, FinishShown, Cut, WithoutCr;
    assert '\n' !in text;
    LineTaken(s, text);
  }

  lemma LineTaken(s: Wire, text: Wire)
    requires Observed(s).line == "" && '\n' !in text
    ensures Observed(s + text + "\n")
      == Progress(FinishShown(Observed(s).verdict, WithoutCr(Cut(text)), |s + text + "\n"|), "")
  {
    ObservedWithoutNewline(s, text);
    assert "" + text == text;
    ObservedNewline(s + text);
    hide Observed, FinishShown, Cut, WithoutCr;
  }

  lemma LineShown(line: Wire, eol: Wire)
    requires line != "" && line[|line| - 1] != '\r' && (eol == "" || eol == "\r") && |line + eol| <= 1024
    ensures WithoutCr(Cut(line + eol)) == line
  {
    if eol == "" {
      assert line + eol == line;
    } else {
      assert (line + eol)[..|line|] == line;
    }
  }

  lemma ReportIsVerdict(s: Wire)
    ensures var v := Observed(s).verdict;
      Report(s) == Snapshot(v.terminal.Some?, v.terminal, v.terminalAt, v.done, v.doneAt, |s|,
                            v.terminal.Some? || v.done)
  {
    VerdictIsFoldOverLines(s);
    hide Observed, Fold;
  }

  lemma EventLine(v: Verdict, name: Wire, end: nat)
    requires Bare(name)
    ensures FinishShown(v, "event: " + name, end) == v.(eventType := name)
  {
    var line := "event: " + name;
    assert line[6..] == " " + name;
    BareIsTrimmed(name);
  }

  lemma DataLine(v: Verdict, data: Wire, end: nat)
    requires Bare(data)
    ensures var name := if v.eventType != "" then v.eventType else DataType(data);
      && FinishShown(v, "data: " + data, end).eventType == v.eventType
      && FinishShown(v, "data: " + data, end).terminal == (if name in TERMINAL_EVENTS then Some(name) else v.terminal)
      && FinishShown(v, "data: " + data, end).terminalAt
         == (if name in TERMINAL_EVENTS then Some(end) else v.terminalAt)
      && FinishShown(v, "data: " + data, end).done == (v.done || data == "[DONE]")
      && FinishShown(v, "data: " + data, end).doneAt == (if data == "[DONE]" then Some(end) else v.doneAt)
  {
    var line := "data: " + data;
    assert line[5..] == " " + data;
    assert line[0] == 'd' && !("event:" <= line) && "data:" <= line;
    BareIsTrimmed(data);
    assert TerminalEvent(if v.eventType != "" then v.eventType else DataType(data)) <==>
      (if v.eventType != "" then v.eventType else DataType(data)) in TERMINAL_EVENTS;
    hide Trim, TrimStart, DataType, TerminalEvent;
  }

  /** Main result: an event written as a name line and a data line, with either line ending, is reported as
      terminal exactly when its name is one of the six, with the offset of the end of its data; what was
      reported before stands otherwise. The end marker is reported exactly for the data `[DONE]`. */
  lemma EventIsReported(s: Wire, name: Wire, data: Wire, eol: Wire)
    requires Observed(s).line == "" && (eol == "" || eol == "\r")
    requires Bare(name) && Bare(data) && '\n' !in name && '\n' !in data && |name| <= 1016 && |data| <= 1017
    ensures var t := s + ("event: " + name + eol) + "\n" + ("data: " + data + eol) + "\n";
      var was, now := Report(s), Report(t);
      && now.bytes == |t|
      && now.terminalEvent == (if name in TERMINAL_EVENTS then Some(name) else was.terminalEvent)
      && now.terminalAt == (if name in TERMINAL_EVENTS then Some(|t|) else was.terminalAt)
      && now.doneObserved == (was.doneObserved || data == "[DONE]")
      && now.doneAt == (if data == "[DONE]" then Some(|t|) else was.doneAt)
      && (now.boundaryObserved <==> now.terminalEvent.Some? || now.doneObserved)
  {
    var first, second := "event: " + name, "data: " + data;
    var m := s + (first + eol) + "\n";
    var t := m + (second + eol) + "\n";
    OneMoreLine(s, first, eol);
    OneMoreLine(m, second, eol);
    EventLine(Observed(s).verdict, name, |m|);
    DataLine(Observed(m).verdict, data, |t|);
    ReportIsVerdict(s);
    ReportIsVerdict(t);
    hide Observed, FinishShown, Report, DataType;
  }

  /** A data line with no name in force is judged by its leading "type" member. */
  lemma TypedDataIsReported(s: Wire, data: Wire, eol: Wire)
    requires Observed(s).line == "" && Observed(s).verdict.eventType == "" && (eol == "" || eol == "\r")
    requires Bare(data) && '\n' !in data && |data| <= 1017
    ensures var t := s + ("data: " + data + eol) + "\n";
      var was, now := Report(s), Report(t); var name := DataType(data);
      && now.terminalEvent == (if name in TERMINAL_EVENTS then Some(name) else was.terminalEvent)
      && now.terminalAt == (if name in TERMINAL_EVENTS then Some(|t|) else was.terminalAt)
  {
    var t := s + ("data: " + data + eol) + "\n";
    OneMoreLine(s, "data: " + data, eol);
    DataLine(Observed(s).verdict, data, |t|);
    ReportIsVerdict(s);
    ReportIsVerdict(t);
    hide Observed, FinishShown, Report, DataType;
  }

  /** After a blank line no name is in force. */
  lemma BlankLineEndsName(s: Wire, eol: Wire)
    requires Observed(s).line == "" && (eol == "" || eol == "\r")
    ensures var t := s + eol + "\n"; Observed(t) == Progress(Observed(s).verdict.(eventType := ""), "")
  {
    ObservedWithoutNewline(s, eol);
    assert "" + eol == eol;
    ObservedNewline(s + eol);
    hide Observed;
  }

  /** Only the first 1024 bytes of a line are looked at: a name pushed beyond them is no name. */
  lemma PaddedNameIsCut(s: Wire, padding: Wire, name: Wire)
    requires Observed(s).line == "" && AllSpace(padding) && '\n' !in padding && '\r' !in padding && '\n' !in name
    requires |padding| >= 1018
    ensures Observed(s + ("event:" + padding + name) + "\n").verdict == Observed(s).verdict.(eventType := "")
  {
    var line := "event:" + padding + name;
    var shown := "event:" + padding[..1018];
    assert '\n' !in line;
    LineTaken(s, line);
    CutPadding(padding, name);
    SpaceIsNothing(padding[..1018]);
    hide Observed, Cut, WithoutCr, Trim;
    assert shown[6..] == padding[..1018];
    assert shown[0] == 'e' && "event:" <= shown;
  }

  lemma CutPadding(padding: Wire, name: Wire)
    requires |padding| >= 1018 && '\r' !in padding
    ensures WithoutCr(Cut("event:" + padding + name)) == "event:" + padding[..1018]
  {
    var line := "event:" + padding + name;
    var shown := "event:" + padding[..1018];
    assert line[..1024] == shown;
    assert shown[1023] == padding[1017];
  }

  lemma {:induction false} SpaceIsNothing(s: Wire)
    requires AllSpace(s)
    ensures TrimStart(s) == "" && Trim(s) == ""
  {
    if s != "" {
      SpaceIsNothing(s[1..]);
    }
  }

  // ---------- the leading "type" member ----------

  lemma {:induction false} SpaceIsSkipped(space: Wire, rest: Wire)
    requires AllSpace(space) && rest != "" && !Space(rest[0])
    ensures TrimStart(space + rest) == rest
  {
    if space != "" {
      SpaceIsSkipped(space[1..], rest);
      assert (space + rest)[1..] == space[1..] + rest;
    } else {
      assert space + rest == rest;
    }
  }

  lemma {:induction false} QuoteEnds(name: Wire, rest: Wire)
    requires '"' !in name
    ensures UntilQuote(name + "\"" + rest) == Some(name)
  {
    var s := name + "\"" + rest;
    if name != "" {
      QuoteEnds(name[1..], rest);
      assert s[1..] == name[1..] + "\"" + rest;
      assert s[0] == name[0] && name == [name[0]] + name[1..];
    } else {
      assert s[0] == '"';
    }
  }

  lemma {:induction false} QuoteFound(s: Wire) returns (rest: Wire)
    requires UntilQuote(s).Some?
    ensures s == UntilQuote(s).value + "\"" + rest && '"' !in UntilQuote(s).value
  {
    if s[0] == '"' {
      rest := s[1..];
    } else {
      rest := QuoteFound(s[1..]);
    }
  }

  lemma AfterMark(mark: Wire, rest: Wire)
    ensures After(mark + rest, mark) == Some(rest)
  {
    assert (mark + rest)[|mark|..] == rest;
  }

  // The text of an object whose first member is its type.
  function Typed(a: Wire, b: Wire, c: Wire, name: Wire, rest: Wire): Wire {
    "{" + (a + ("\"type\"" + (b + (":" + (c + ("\"" + (name + "\"" + rest)))))))
  }

  /** An object whose first member is "type", with white space between the tokens, has that type. */
  lemma TypeIsRead(a: Wire, b: Wire, c: Wire, name: Wire, rest: Wire)
    requires AllSpace(a) && AllSpace(b) && AllSpace(c) && '"' !in name
    ensures DataType(Typed(a, b, c, name, rest)) == name
  {
    var d := "\"" + (name + "\"" + rest);
    var e := ":" + (c + d);
    var f := "\"type\"" + (b + e);
    AfterMark("{", a + f);
    SpaceIsSkipped(a, f);
    AfterMark("\"type\"", b + e);
    SpaceIsSkipped(b, e);
    AfterMark(":", c + d);
    SpaceIsSkipped(c, d);
    AfterMark("\"", name + "\"" + rest);
    QuoteEnds(name, rest);
    hide After, TrimStart, UntilQuote;
  }

  /** And nothing else has a type. */
  lemma OnlyTypedHasType(data: Wire) returns (a: Wire, b: Wire, c: Wire, rest: Wire)
    requires DataType(data) != ""
    ensures AllSpace(a) && AllSpace(b) && AllSpace(c) && '"' !in DataType(data)
    ensures data == Typed(a, b, c, DataType(data), rest)
  {
    var one := data[1..];
    a := TrimStartMeans(one);
    var two := TrimStart(one)[6..];
    b := TrimStartMeans(two);
    var three := TrimStart(two)[1..];
    c := TrimStartMeans(three);
    var four := TrimStart(three)[1..];
    rest := QuoteFound(four);
    var name := UntilQuote(four).value;
    hide TrimStart, UntilQuote;
    assert data == "{" + one;
    assert TrimStart(one) == "\"type\"" + two;
    assert TrimStart(two) == ":" + three;
    assert TrimStart(three) == "\"" + four;
  }

  lemma CutAppend(line: Wire, bytes: Wire)
    ensures var room := PREFIX_LIMIT - |Cut(line)|;
      && 0 <= room
      && Cut(line + bytes) == Cut(line) + (if |bytes| <= room then bytes else bytes[..room])
      && (|line + bytes| > PREFIX_LIMIT <==> |line| > PREFIX_LIMIT || |bytes| > room)
  {
    if |line| <= PREFIX_LIMIT && |line + bytes| > PREFIX_LIMIT {
      assert (line + bytes)[..PREFIX_LIMIT] == line + bytes[..PREFIX_LIMIT - |line|];
    }
  }

  class ResponsesSseBoundaryTracker {
    var eventType: Wire
    var linePrefix: Wire
    var lineTruncated: bool
    var totalBytes: nat
    var protocolTerminalEvent: Option<Wire>
    var protocolTerminalByteOffset: Option<nat>
    var framingDoneObserved: bool
    var framingDoneByteOffset: Option<nat>
    // Everything observed so far.
    ghost var stream: Wire

    function Found(): Verdict
      reads this
    {
      Verdict(eventType, protocolTerminalEvent, protocolTerminalByteOffset, framingDoneObserved, framingDoneByteOffset)
    }

    // The fields stand where the recogniser stands after `s`.
    ghost predicate At(s: Wire)
      reads this
    {
      && Found() == Observed(s).verdict
      && linePrefix == Cut(Observed(s).line)
      && (lineTruncated <==> |Observed(s).line| > PREFIX_LIMIT)
    }

    ghost predicate Valid()
      reads this
    {
      At(stream) && totalBytes == |stream|
    }

    constructor ()
      ensures Valid() && stream == ""
    {
      eventType, linePrefix, lineTruncated, totalBytes := "", "", false, 0;
      protocolTerminalEvent, protocolTerminalByteOffset := None, None;
      framingDoneObserved, framingDoneByteOffset := false, None;
      stream := "";
    }

    method Observe(chunk: Wire) returns (snapshot: Snapshot)
      requires Valid()
      modifies this
      ensures Valid() && stream == old(stream) + chunk && snapshot == Report(stream)
    {
      hide Finish, Cut, Observed, Fold, Lines;
      var chunkStart := totalBytes;
      totalBytes := totalBytes + |chunk|;
      var offset := 0;
      assert old(stream) + chunk[..0] == old(stream);
      while offset < |chunk|
        invariant 0 <= offset <= |chunk| && At(old(stream) + chunk[..offset])
        invariant stream == old(stream) && totalBytes == |stream| + |chunk|
      {
        var end := Newline(chunk, offset);
        ghost var seen := old(stream) + chunk[..end];
        assert seen == old(stream) + chunk[..offset] + chunk[offset..end];
        AppendLinePrefix(chunk[offset..end], old(stream) + chunk[..offset]);
        if end == |chunk| {
          offset := end;
          break;
        }
        FinishLine(chunkStart + end + 1, seen);
        assert seen + "\n" == old(stream) + chunk[..end + 1];
        offset := end + 1;
      }
      assert chunk[..|chunk|] == chunk;
      stream := stream + chunk;
      snapshot := GetSnapshot();
    }

    method AppendLinePrefix(bytes: Wire, ghost s: Wire)
      requires At(s) && '\n' !in bytes
      modifies this`linePrefix, this`lineTruncated
      ensures At(s + bytes)
    {
      hide Finish, Cut;
      CutAppend(Observed(s).line, bytes);
      ObservedWithoutNewline(s, bytes);
      var remaining := PREFIX_LIMIT - |linePrefix|;
      if remaining > 0 {
        linePrefix := linePrefix + (if |bytes| <= remaining then bytes else bytes[..remaining]);
      }
      if |bytes| > remaining {
        lineTruncated := true;
      }
    }

    method FinishLine(lineEndOffset: nat, ghost s: Wire)
      requires At(s) && lineEndOffset == |s| + 1
      modifies this
      ensures At(s + "\n") && stream == old(stream) && totalBytes == old(totalBytes)
    {
      ObservedNewline(s);
      assert Cut("") == "";
      ghost var expected := Finish(Found(), linePrefix, lineEndOffset);
      hide Observed, Cut;
      ApplyLine(WithoutCr(linePrefix), lineEndOffset);
      assert Found() == expected;
      linePrefix, lineTruncated := "", false;
    }

    method ApplyLine(line: Wire, lineEndOffset: nat)
      modifies this
      ensures Found() == FinishShown(old(Found()), line, lineEndOffset)
      ensures stream == old(stream) && totalBytes == old(totalBytes)
    {
      hide Trim, TrimStart, DataType, TerminalEvent;
      if line == "" {
        eventType := "";
      } else if "event:" <= line {
        eventType := Trim(line[6..]);
      } else if "data:" <= line {
        var data := TrimStart(line[5..]);
        if Trim(data) == "[DONE]" {
          framingDoneObserved, framingDoneByteOffset := true, Some(lineEndOffset);
        }
        var dataType := DataType(data);
        var name := if eventType != "" then eventType else dataType;
        if TerminalEvent(name) {
          protocolTerminalEvent, protocolTerminalByteOffset := Some(name), Some(lineEndOffset);
        }
      }
    }

    method GetSnapshot() returns (snapshot: Snapshot)
      requires Valid()
      ensures snapshot == Report(stream)
    {
      hide Finish, Cut;
      VerdictIsFoldOverLines(stream);
      snapshot := Snapshot(protocolTerminalEvent.Some?, protocolTerminalEvent, protocolTerminalByteOffset,
        framingDoneObserved, framingDoneByteOffset, totalBytes, protocolTerminalEvent.Some? || framingDoneObserved);
    }
  }

  /** Main result: however a stream is split into chunks, empty ones included, the tracker reports the
      same about it. */
  method Track(chunks: seq<Wire>) returns (snapshot: Snapshot)
    ensures snapshot == Report(Concat(chunks))
  {
    var tracker := new ResponsesSseBoundaryTracker();
    for i := 0 to |chunks|
      invariant tracker.Valid() && tracker.stream == Concat(chunks[..i])
      invariant fresh(tracker)
    {
      assert chunks[..i + 1][..i] == chunks[..i];
      var _ := tracker.Observe(chunks[i]);
    }
    assert chunks[..|chunks|] == chunks;
    snapshot := tracker.GetSnapshot();
  }
}
