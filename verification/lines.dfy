/** `chunk.toString().split(/\r?\n/)`: cutting one stdout chunk into lines.

    The regular expression matches a line feed, optionally preceded by a
    carriage return.  `split` cuts at the leftmost match, resumes after it and
    keeps the piece after the last match (possibly empty), so a chunk that does
    not end in a line break still yields its partial last line. */
module Lines {
  import opened Base

  /** Length of the `\r?\n` match that starts at index i, or 0 when none does. */
  function SeparatorAt(s: string, i: nat): (n: nat)
    requires i < |s|
    ensures n <= 2 && i + n <= |s|
  {
    if s[i] == '\n' then 1
    else if s[i] == '\r' && i + 1 < |s| && s[i + 1] == '\n' then 2
    else 0
  }

  /** The leftmost index at or after `from` where a separator match begins. */
  function FindSeparator(s: string, from: nat): (r: Option<nat>)
    requires from <= |s|
    ensures r.Some? ==> from <= r.value < |s| && SeparatorAt(s, r.value) > 0
    ensures r.Some? ==> forall j :: from <= j < r.value ==> SeparatorAt(s, j) == 0
    ensures r.None? ==> forall j :: from <= j < |s| ==> SeparatorAt(s, j) == 0
    decreases |s| - from
  {
    if from == |s| then None
    else if SeparatorAt(s, from) > 0 then Some(from)
    else FindSeparator(s, from + 1)
  }

  /** The pieces `split(/\r?\n/)` returns. */
  function SplitLines(s: string): (lines: seq<string>)
    ensures |lines| >= 1
    ensures forall k :: 0 <= k < |lines| ==> '\n' !in lines[k]
    decreases |s|
  {
    match FindSeparator(s, 0)
    case None =>
      assert forall j :: 0 <= j < |s| ==> s[j] != '\n' by {
        forall j | 0 <= j < |s| ensures s[j] != '\n' {
          assert SeparatorAt(s, j) == 0;
        }
      }
      [s]
    case Some(i) =>
      assert forall j :: 0 <= j < i ==> s[j] != '\n' by {
        forall j | 0 <= j < i ensures s[j] != '\n' {
          assert SeparatorAt(s, j) == 0;
        }
      }
      [s[..i]] + SplitLines(s[i + SeparatorAt(s, i)..])
  }

  // ---------------------------------------------------------------------
  // Reference definition: split on every line feed, then drop one carriage
  // return that ends a piece followed by a line feed.
  // ---------------------------------------------------------------------

  /** The pieces between line feeds, carriage returns untouched. */
  function SplitOnLineFeed(s: string): (pieces: seq<string>)
    ensures |pieces| >= 1
    decreases |s|
  {
    if |s| == 0 then [""]
    else
      var rest := SplitOnLineFeed(s[1..]);
      if s[0] == '\n' then [""] + rest
      else [[s[0]] + rest[0]] + rest[1..]
  }

  /** The inverse of `SplitOnLineFeed`: the pieces glued back with line feeds. */
  function JoinWithLineFeed(pieces: seq<string>): string
    requires |pieces| >= 1
    decreases |pieces|
  {
    if |pieces| == 1 then pieces[0]
    else pieces[0] + "\n" + JoinWithLineFeed(pieces[1..])
  }

  function DropTrailingCarriageReturn(piece: string): string {
    if |piece| > 0 && piece[|piece| - 1] == '\r' then piece[..|piece| - 1] else piece
  }

  /** Drops one trailing `\r` from every piece except the last (which no line feed follows). */
  function DropCarriageReturns(pieces: seq<string>): (r: seq<string>)
    requires |pieces| >= 1
    ensures |r| == |pieces|
    decreases |pieces|
  {
    if |pieces| == 1 then pieces
    else [DropTrailingCarriageReturn(pieces[0])] + DropCarriageReturns(pieces[1..])
  }

  function CountLineFeeds(s: string): nat
    decreases |s|
  {
    if |s| == 0 then 0 else (if s[0] == '\n' then 1 else 0) + CountLineFeeds(s[1..])
  }

  predicate NoLineFeed(s: string) {
    forall j :: 0 <= j < |s| ==> s[j] != '\n'
  }

  lemma {:induction false} SplitOnLineFeedOfPlainText(a: string)
    requires NoLineFeed(a)
    ensures SplitOnLineFeed(a) == [a]
    decreases |a|
  {
    if |a| > 0 {
      SplitOnLineFeedOfPlainText(a[1..]);
      assert [a[0]] + a[1..] == a;
    }
  }

  lemma {:induction false} SplitOnLineFeedAfterPiece(a: string, b: string)
    requires NoLineFeed(a)
    ensures SplitOnLineFeed(a + "\n" + b) == [a] + SplitOnLineFeed(b)
    decreases |a|
  {
    var s := a + "\n" + b;
    if |a| == 0 {
      assert s[1..] == b;
    } else {
      assert s[1..] == a[1..] + "\n" + b;
      SplitOnLineFeedAfterPiece(a[1..], b);
      assert [a[0]] + a[1..] == a;
    }
  }

  /** Splitting on line feeds and joining again gives back the text. */
  lemma {:induction false} JoinSplitOnLineFeed(s: string)
    ensures JoinWithLineFeed(SplitOnLineFeed(s)) == s
    decreases |s|
  {
    if |s| > 0 {
      var rest := SplitOnLineFeed(s[1..]);
      JoinSplitOnLineFeed(s[1..]);
      if s[0] == '\n' {
        assert [""] + rest == SplitOnLineFeed(s);
        assert ([""] + rest)[1..] == rest;
        assert s == "" + "\n" + s[1..];
      } else {
        var pieces := [[s[0]] + rest[0]] + rest[1..];
        if |rest| == 1 {
          assert s == [s[0]] + s[1..];
        } else {
          assert pieces[1..] == rest[1..];
          assert s == [s[0]] + s[1..];
        }
      }
    }
  }

  /** Joining pieces that hold no line feed and splitting again gives back the pieces. */
  lemma {:induction false} SplitJoinWithLineFeed(pieces: seq<string>)
    requires |pieces| >= 1
    requires forall k :: 0 <= k < |pieces| ==> NoLineFeed(pieces[k])
    ensures SplitOnLineFeed(JoinWithLineFeed(pieces)) == pieces
    decreases |pieces|
  {
    if |pieces| == 1 {
      SplitOnLineFeedOfPlainText(pieces[0]);
    } else {
      SplitJoinWithLineFeed(pieces[1..]);
      SplitOnLineFeedAfterPiece(pieces[0], JoinWithLineFeed(pieces[1..]));
      assert [pieces[0]] + pieces[1..] == pieces;
    }
  }

  /** At the leftmost separator the reference cuts the same first line, with
      the carriage return of a `\r\n` still attached. */
  lemma CutAtFirstSeparator(s: string, i: nat)
    requires FindSeparator(s, 0) == Some(i)
    ensures var rest := s[i + SeparatorAt(s, i)..];
      exists head :: SplitOnLineFeed(s) == [head] + SplitOnLineFeed(rest)
                  && DropTrailingCarriageReturn(head) == s[..i]
  {
    var n := SeparatorAt(s, i);
    var rest := s[i + n..];
    var head := if n == 1 then s[..i] else s[..i + 1];
    assert NoLineFeed(head) by {
      forall j | 0 <= j < |head| ensures head[j] != '\n' {
        if j < i { assert SeparatorAt(s, j) == 0; }
      }
    }
    assert s == head + "\n" + rest;
    SplitOnLineFeedAfterPiece(head, rest);
    if n == 2 {
      assert head[..|head| - 1] == s[..i];
    } else if i > 0 {
      assert SeparatorAt(s, i - 1) == 0;
    }
    assert DropTrailingCarriageReturn(head) == s[..i];
  }

  /** The scanner agrees with the reference definition on every chunk. */
  lemma {:induction false} SplitLinesIsReference(s: string)
    ensures SplitLines(s) == DropCarriageReturns(SplitOnLineFeed(s))
    decreases |s|
  {
    match FindSeparator(s, 0)
    case None =>
      assert NoLineFeed(s) by {
        forall j | 0 <= j < |s| ensures s[j] != '\n' {
          assert SeparatorAt(s, j) == 0;
        }
      }
      SplitOnLineFeedOfPlainText(s);
    case Some(i) =>
      var rest := s[i + SeparatorAt(s, i)..];
      SplitLinesIsReference(rest);
      CutAtFirstSeparator(s, i);
      var head :| SplitOnLineFeed(s) == [head] + SplitOnLineFeed(rest)
                 && DropTrailingCarriageReturn(head) == s[..i];
      var tail := SplitOnLineFeed(rest);
      assert ([head] + tail)[1..] == tail;
  }

  /** The scan stops at the first position where a separator begins. */
  lemma {:induction false} FindSeparatorStopsAt(s: string, from: nat, i: nat)
    requires from <= i < |s| && SeparatorAt(s, i) > 0
    requires forall j :: from <= j < i ==> SeparatorAt(s, j) == 0
    ensures FindSeparator(s, from) == Some(i)
    decreases i - from
  {
    if from < i {
      FindSeparatorStopsAt(s, from + 1, i);
    }
  }

  /** Text without a line feed is a single (possibly partial) line. */
  lemma SplitLinesOfPlainText(a: string)
    requires NoLineFeed(a)
    ensures SplitLines(a) == [a]
  {
  }

  /** A line ended by `\n` and not itself ending in `\r` is cut off as it stands. */
  lemma SplitLinesAfterLine(a: string, b: string)
    requires NoLineFeed(a)
    requires |a| == 0 || a[|a| - 1] != '\r'
    ensures SplitLines(a + "\n" + b) == [a] + SplitLines(b)
  {
    var s := a + "\n" + b;
    forall j | 0 <= j < |a| ensures SeparatorAt(s, j) == 0 {
      assert s[j] == a[j];
      if j + 1 < |a| { assert s[j + 1] == a[j + 1]; }
    }
    FindSeparatorStopsAt(s, 0, |a|);
    assert s[..|a|] == a;
    assert s[|a| + 1..] == b;
  }

  /** A terminated line splits into itself and the empty remainder. */
  lemma SplitOneLine(b: string)
    requires NoLineFeed(b) && (|b| == 0 || b[|b| - 1] != '\r')
    ensures SplitLines(b + "\n") == [b, ""]
  {
    SplitLinesAfterLine(b, "");
    assert b + "\n" == b + "\n" + "";
    SplitLinesOfPlainText("");
  }

  /** Two terminated lines split into themselves and the empty remainder. */
  lemma SplitTwoLines(a: string, b: string)
    requires NoLineFeed(a) && (|a| == 0 || a[|a| - 1] != '\r')
    requires NoLineFeed(b) && (|b| == 0 || b[|b| - 1] != '\r')
    ensures SplitLines(a + "\n" + b + "\n") == [a, b, ""]
  {
    var c := b + "\n";
    SplitOneLine(b);
    SplitLinesAfterLine(a, c);
    assert a + "\n" + b + "\n" == a + "\n" + c;
    assert [a] + [b, ""] == [a, b, ""];
  }

  /** A chunk with k line feeds splits into k + 1 lines. */
  lemma {:induction false} SplitOnLineFeedCount(s: string)
    ensures |SplitOnLineFeed(s)| == CountLineFeeds(s) + 1
    decreases |s|
  {
    if |s| > 0 {
      SplitOnLineFeedCount(s[1..]);
    }
  }

  lemma LineCount(s: string)
    ensures |SplitLines(s)| == CountLineFeeds(s) + 1
  {
    SplitLinesIsReference(s);
    SplitOnLineFeedCount(s);
  }
}
