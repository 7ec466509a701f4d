/** The stdout progress protocol: every line of a chunk is searched with
    `/PROGRESS:(\d+)/`; each match is written to the stream as a data frame and
    overwrites the kind's log with `{ progress: <digits> }`.  Chunks are handled
    one by one with no carry-over, so a marker split across two chunks is lost
    and a partial last line is matched as it stands. */
module Progress {
  import opened Base
  import opened Store
  import Lines
  import opened Sse

  const Marker := "PROGRESS:"

  /** A match of `PROGRESS:\d+` can begin at p: the marker followed by at least one digit. */
  predicate MarkerAt(line: string, p: nat) {
    p + |Marker| < |line| && line[p..p + |Marker|] == Marker && IsDigit(line[p + |Marker|])
  }

  /** What `line.match(/PROGRESS:(\d+)/)[1]` is when the match begins at p:
      the leftmost matching position, and the greedy digit run after the marker. */
  ghost predicate IsFirstMatch(line: string, p: nat, digits: string) {
    && MarkerAt(line, p)
    && (forall q :: 0 <= q < p ==> !MarkerAt(line, q))
    && var start := p + |Marker|;
       && start + |digits| <= |line|
       && line[start..start + |digits|] == digits
       && |digits| > 0 && AllDigits(digits)
       && (start + |digits| == |line| || !IsDigit(line[start + |digits|]))
  }

  /** The longest prefix of s made of digits (the greedy `\d+`). */
  function DigitRun(s: string): (run: string)
    ensures |run| <= |s| && s[..|run|] == run && AllDigits(run)
    ensures |run| == |s| || !IsDigit(s[|run|])
    decreases |s|
  {
    if |s| > 0 && IsDigit(s[0]) then [s[0]] + DigitRun(s[1..]) else ""
  }

  /** The leftmost position at or after `from` where a match begins. */
  function FindMarker(line: string, from: nat): (r: Option<nat>)
    requires from <= |line|
    ensures r.Some? ==> from <= r.value < |line| && MarkerAt(line, r.value)
    ensures r.Some? ==> forall q :: from <= q < r.value ==> !MarkerAt(line, q)
    ensures r.None? ==> forall q :: from <= q < |line| ==> !MarkerAt(line, q)
    decreases |line| - from
  {
    if from == |line| then None
    else if MarkerAt(line, from) then Some(from)
    else FindMarker(line, from + 1)
  }

  /** `line.match(/PROGRESS:(\d+)/)`, reduced to its capture group. */
  function MatchProgress(line: string): (m: Option<string>)
    ensures m.Some? <==> exists p :: 0 <= p < |line| && MarkerAt(line, p)
    ensures m.Some? ==> exists p :: IsFirstMatch(line, p, m.value)
  {
    match FindMarker(line, 0)
    case None => None
    case Some(p) =>
      var digits := DigitRun(line[p + |Marker|..]);
      assert DigitRun(line[p + |Marker|..])[0] == line[p + |Marker|];
      assert IsFirstMatch(line, p, digits);
      Some(digits)
  }

  /** A run of digits that starts s and cannot be extended is the greedy run. */
  lemma {:induction false} MaximalRunIsDigitRun(s: string, d: string)
    requires |d| <= |s| && s[..|d|] == d && AllDigits(d)
    requires |d| == |s| || !IsDigit(s[|d|])
    ensures DigitRun(s) == d
    decreases |d|
  {
    if |d| > 0 {
      assert s[0] == d[0];
      assert s[1..][..|d| - 1] == d[1..];
      MaximalRunIsDigitRun(s[1..], d[1..]);
      assert [d[0]] + d[1..] == d;
    }
  }

  /** The capture is determined by the line: two first matches are the same match. */
  lemma FirstMatchUnique(line: string, p: nat, d: string, p': nat, d': string)
    requires IsFirstMatch(line, p, d) && IsFirstMatch(line, p', d')
    ensures p == p' && d == d'
  {
    assert p < p' ==> !MarkerAt(line, p);
    assert p' < p ==> !MarkerAt(line, p');
    var rest := line[p + |Marker|..];
    assert rest[..|d|] == d;
    assert rest[..|d'|] == d';
    MaximalRunIsDigitRun(rest, d);
    MaximalRunIsDigitRun(rest, d');
  }

  /** Lines without a marker-and-digit yield nothing; otherwise the capture is
      exactly the digit run of the leftmost such marker. */
  lemma MatchProgressIsFirstMatch(line: string, p: nat, digits: string)
    requires IsFirstMatch(line, p, digits)
    ensures MatchProgress(line) == Some(digits)
  {
    var m := MatchProgress(line);
    assert MarkerAt(line, p);
    var p' :| IsFirstMatch(line, p', m.value);
    FirstMatchUnique(line, p, digits, p', m.value);
  }

  /** A line where no `P` is followed, nine characters on, by a digit has no match. */
  lemma NoMarkerIn(line: string)
    requires forall p :: 0 <= p && p + |Marker| < |line| ==> line[p] != 'P' || !IsDigit(line[p + |Marker|])
    ensures MatchProgress(line) == None
  {
    forall p | 0 <= p < |line| ensures !MarkerAt(line, p) {
      if p + |Marker| < |line| {
        assert line[p..p + |Marker|][0] == line[p];
      }
    }
  }

  /** A line made of the marker and a digit string captures exactly that string. */
  lemma MarkerThenDigits(digits: string)
    requires |digits| > 0 && AllDigits(digits)
    ensures MatchProgress(Marker + digits) == Some(digits)
  {
    var line := Marker + digits;
    assert line[..|Marker|] == Marker;
    assert line[|Marker|..|Marker| + |digits|] == digits;
    assert IsFirstMatch(line, 0, digits);
    MatchProgressIsFirstMatch(line, 0, digits);
  }

  /** The digits are captured as text: no range check and no normalization,
      so leading zeros and values above 100 go out as they came in. */
  lemma CapturesDigitsAfterMarker()
    ensures MatchProgress("PROGRESS:17") == Some("17")
    ensures MatchProgress("PROGRESS:0420") == Some("0420")
  {
    MarkerThenDigits("17");
    assert Marker + "17" == "PROGRESS:17";
    MarkerThenDigits("0420");
    assert Marker + "0420" == "PROGRESS:0420";
  }

  /** The marker is case-sensitive and needs a digit right after the colon. */
  lemma RejectsLowerCaseAndNonDigits()
    ensures MatchProgress("progress:17") == None
    ensures MatchProgress("PROGRESS:abc") == None
  {
    NoMarkerIn("progress:17");
    NoMarkerIn("PROGRESS:abc");
  }

  /** A marker without digits is skipped in favour of a later one that has them. */
  lemma SkipsMarkerWithoutDigits()
    ensures MatchProgress("PROGRESS:PROGRESS:5%") == Some("5")
  {
    var line := "PROGRESS:PROGRESS:5%";
    assert line[9..18] == Marker;
    assert forall q :: 0 <= q < 9 ==> !MarkerAt(line, q) by {
      forall q | 0 <= q < 9 ensures !MarkerAt(line, q) {
        assert line[q..q + |Marker|][0] == line[q];
      }
    }
    MatchProgressIsFirstMatch(line, 9, "5");
  }

  // ---------------------------------------------------------------------
  // Events of a sequence of lines
  // ---------------------------------------------------------------------

  /** The captures of the matching lines, in line order. */
  function Events(lines: seq<string>): (events: seq<string>)
    ensures |events| <= |lines|
    ensures forall k :: 0 <= k < |events| ==> |events[k]| > 0 && AllDigits(events[k])
    decreases |lines|
  {
    if |lines| == 0 then []
    else
      var rest := Events(lines[1..]);
      match MatchProgress(lines[0])
      case None => rest
      case Some(d) => [d] + rest
  }

  /** A single line contributes its capture, if any. */
  lemma EventsOfOneLine(line: string)
    ensures Events([line]) == (match MatchProgress(line) case None => [] case Some(d) => [d])
  {
    assert [line][1..] == [];
  }

  /** Events of consecutive lines come out in line order. */
  lemma {:induction false} EventsAppend(a: seq<string>, b: seq<string>)
    ensures Events(a + b) == Events(a) + Events(b)
    decreases |a|
  {
    if |a| == 0 {
      assert a + b == b;
    } else {
      assert (a + b)[0] == a[0];
      assert (a + b)[1..] == a[1..] + b;
      EventsAppend(a[1..], b);
    }
  }

  function DataFrames(events: seq<string>): (frames: seq<string>)
    ensures |frames| == |events|
    ensures forall k :: 0 <= k < |frames| ==> frames[k] == DataFrame(events[k])
    decreases |events|
  {
    if |events| == 0 then [] else [DataFrame(events[0])] + DataFrames(events[1..])
  }

  lemma {:induction false} DataFramesAppend(a: seq<string>, b: seq<string>)
    ensures DataFrames(a + b) == DataFrames(a) + DataFrames(b)
  {
    var l, r := DataFrames(a + b), DataFrames(a) + DataFrames(b);
    assert |l| == |r|;
    forall k | 0 <= k < |l| ensures l[k] == r[k] {
      if k < |a| { assert (a + b)[k] == a[k]; } else { assert (a + b)[k] == b[k - |a|]; }
    }
  }

  /** The log after the given events have been written over `log`: the last one wins. */
  function LastWrite(log: LogFile, events: seq<string>): LogFile {
    if |events| == 0 then log else Logged(events[|events| - 1])
  }

  // ---------------------------------------------------------------------
  // The stdout handler
  // ---------------------------------------------------------------------

  datatype Effect = Effect(frames: seq<string>, log: LogFile)

  /** The `forEach` over the lines: per matching line, write a data frame, then overwrite the log. */
  function HandleLines(lines: seq<string>, log: LogFile): Effect
    decreases |lines|
  {
    if |lines| == 0 then Effect([], log)
    else match MatchProgress(lines[0])
      case None => HandleLines(lines[1..], log)
      case Some(d) =>
        var rest := HandleLines(lines[1..], Logged(d));
        Effect([DataFrame(d)] + rest.frames, rest.log)
  }

  /** The handler emits one data frame per event in order, and leaves the log
      holding the last event, or untouched when there was none. */
  lemma {:induction false} HandleLinesSpec(lines: seq<string>, log: LogFile)
    ensures HandleLines(lines, log) == Effect(DataFrames(Events(lines)), LastWrite(log, Events(lines)))
    decreases |lines|
  {
    if |lines| > 0 {
      match MatchProgress(lines[0])
      case None =>
        HandleLinesSpec(lines[1..], log);
      case Some(d) =>
        HandleLinesSpec(lines[1..], Logged(d));
        var rest := Events(lines[1..]);
        assert Events(lines) == [d] + rest;
        assert DataFrames([d] + rest) == [DataFrame(d)] + DataFrames(rest) by {
          DataFramesAppend([d], rest);
        }
    }
  }

  /** `child.stdout.on("data", chunk => …)` for one chunk. */
  function OnStdout(chunk: string, log: LogFile): (effect: Effect)
    ensures var events := Events(Lines.SplitLines(chunk));
      effect == Effect(DataFrames(events), LastWrite(log, events))
  {
    HandleLinesSpec(Lines.SplitLines(chunk), log);
    HandleLines(Lines.SplitLines(chunk), log)
  }

  /** At most one frame per line, every frame `data: <digits>\n\n` with a
      non-empty decimal payload, and the log changes only when a frame went out,
      to that frame's value. */
  lemma OnStdoutFrames(chunk: string, log: LogFile)
    ensures var e := OnStdout(chunk, log);
      && |e.frames| <= Lines.CountLineFeeds(chunk) + 1
      && (forall k :: 0 <= k < |e.frames| ==> IsProgressFrame(e.frames[k]))
      && (|e.frames| == 0 ==> e.log == log)
      && (|e.frames| > 0 ==> e.log.Logged? && e.frames[|e.frames| - 1] == DataFrame(e.log.progress))
  {
    Lines.LineCount(chunk);
    var events := Events(Lines.SplitLines(chunk));
    var e := OnStdout(chunk, log);
    forall k | 0 <= k < |e.frames| ensures IsProgressFrame(e.frames[k]) {
      assert e.frames[k] == DataFrame(events[k]);
    }
  }

  /** A line that holds a match, ended by `\n`, yields exactly its capture
      (and the empty line after the break yields nothing). */
  lemma OneMarkerLine(line: string, digits: string, log: LogFile)
    requires Lines.NoLineFeed(line) && (|line| == 0 || line[|line| - 1] != '\r')
    requires exists p :: IsFirstMatch(line, p, digits)
    ensures OnStdout(line + "\n", log) == Effect([DataFrame(digits)], Logged(digits))
  {
    var p :| IsFirstMatch(line, p, digits);
    MatchProgressIsFirstMatch(line, p, digits);
    Lines.SplitOneLine(line);
    NoMarkerIn("");
    EventsAppend([line], [""]);
    EventsOfOneLine(line);
    EventsOfOneLine("");
  }

  /** Lines that each hold a match yield their captures, one per line, in order. */
  lemma {:induction false} EventsOfMatchingLines(lines: seq<string>, values: seq<string>)
    requires |lines| == |values|
    requires forall k :: 0 <= k < |lines| ==> MatchProgress(lines[k]) == Some(values[k])
    ensures Events(lines) == values
    decreases |lines|
  {
    if |lines| > 0 {
      EventsOfMatchingLines(lines[1..], values[1..]);
      assert [values[0]] + values[1..] == values;
    }
  }

  /** Two marker lines in one chunk give two frames in receipt order, and the
      later value is the one persisted. */
  lemma TwoMarkerLines(a: string, da: string, b: string, db: string, log: LogFile)
    requires Lines.NoLineFeed(a) && (|a| == 0 || a[|a| - 1] != '\r') && exists p :: IsFirstMatch(a, p, da)
    requires Lines.NoLineFeed(b) && (|b| == 0 || b[|b| - 1] != '\r') && exists p :: IsFirstMatch(b, p, db)
    ensures OnStdout(a + "\n" + b + "\n", log) == Effect([DataFrame(da), DataFrame(db)], Logged(db))
  {
    Lines.SplitTwoLines(a, b);
    EventsOfTwoLines(a, da, b, db);
    assert DataFrames([da, db]) == [DataFrame(da), DataFrame(db)];
  }

  lemma EventsOfTwoLines(a: string, da: string, b: string, db: string)
    requires exists p :: IsFirstMatch(a, p, da)
    requires exists p :: IsFirstMatch(b, p, db)
    ensures Events([a, b, ""]) == [da, db]
  {
    var pa :| IsFirstMatch(a, pa, da);
    var pb :| IsFirstMatch(b, pb, db);
    MatchProgressIsFirstMatch(a, pa, da);
    MatchProgressIsFirstMatch(b, pb, db);
    EventsOfMatchingLines([a, b], [da, db]);
    NoMarkerIn("");
    EventsOfSilentLines([""]);
    EventsAppend([a, b], [""]);
    assert [a, b] + [""] == [a, b, ""];
  }

  /** Lines none of which holds a match yield no event. */
  lemma {:induction false} EventsOfSilentLines(lines: seq<string>)
    requires forall k :: 0 <= k < |lines| ==> MatchProgress(lines[k]).None?
    ensures Events(lines) == []
    decreases |lines|
  {
    if |lines| > 0 {
      EventsOfSilentLines(lines[1..]);
    }
  }

  /** No carry-over between chunks: a chunk ending in a bare marker yields nothing ... */
  lemma BareMarkerAtChunkEndIsIgnored(log: LogFile)
    ensures OnStdout("PROGRESS:", log) == Effect([], log)
  {
    Lines.SplitLinesOfPlainText("PROGRESS:");
    NoMarkerIn("PROGRESS:");
    EventsOfSilentLines(["PROGRESS:"]);
  }

  /** ... and neither does the next chunk that starts with the digits. */
  lemma DigitsWithoutMarkerAreIgnored(log: LogFile)
    ensures OnStdout("5\n", log) == Effect([], log)
  {
    Lines.SplitOneLine("5");
    NoMarkerIn("5");
    NoMarkerIn("");
    EventsOfSilentLines(["5", ""]);
  }

  /** A partial last line is matched as it stands: digits cut short by the
      chunk boundary are reported as they are. */
  lemma PartialLineIsMatched(log: LogFile)
    ensures OnStdout("PROGRESS:1", log) == Effect([DataFrame("1")], Logged("1"))
  {
    var line := "PROGRESS:1";
    assert Lines.NoLineFeed(line);
    assert IsFirstMatch(line, 0, "1");
    UnterminatedMarkerLine(line, 0, "1", log);
  }

  /** An unterminated line is matched as it stands. */
  lemma UnterminatedMarkerLine(line: string, p: nat, digits: string, log: LogFile)
    requires Lines.NoLineFeed(line) && IsFirstMatch(line, p, digits)
    ensures OnStdout(line, log) == Effect([DataFrame(digits)], Logged(digits))
  {
    Lines.SplitLinesOfPlainText(line);
    MatchProgressIsFirstMatch(line, p, digits);
    EventsOfMatchingLines([line], [digits]);
    assert DataFrames([digits]) == [DataFrame(digits)];
  }
}
