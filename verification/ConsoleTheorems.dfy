/**
 * What `appendChunk` promises: the network may cut the output anywhere without
 * the screen showing it, except in exactly two places.
 */
module ConsoleTheorems {
  import opened Text
  import opened ConsoleOutput

  // ---------------------------------------------------------------------------
  // Text level: line endings and redraws across a cut.

  lemma {:induction false} NormalizeConcat(a: string, b: string)
    requires !(EndsWith(a, '\r') && b != "" && b[0] == '\n')
    ensures NormalizeCrlf(a + b) == NormalizeCrlf(a) + NormalizeCrlf(b)
  {
    if a == "" {
      assert a + b == b;
    } else {
      NormalizeConcat(a[1..], b);
      assert (a + b)[1..] == a[1..] + b;
    }
  }

  /** A CRLF cut in two: as one text it is a newline, cut it is a lone `\r` and a newline. */
  lemma {:induction false} NormalizeCutCrlf(a: string, b: string)
    ensures NormalizeCrlf(a + "\r" + ("\n" + b)) == NormalizeCrlf(a) + ("\n" + NormalizeCrlf(b))
    ensures NormalizeCrlf(a + "\r") == NormalizeCrlf(a) + "\r"
    ensures NormalizeCrlf("\n" + b) == "\n" + NormalizeCrlf(b)
  {
    var crlf := "\r" + ("\n" + b);
    assert a + "\r" + ("\n" + b) == a + crlf;
    NormalizeConcat(a, crlf);
    NormalizeConcat(a, "\r");
    assert crlf[1..] == "\n" + b;
    assert ("\n" + b)[1..] == b;
    assert "\r"[1..] == "";
  }

  lemma VisibleConcat(p: string, q: string)
    ensures Visible(p + q) == if '\r' in q then Visible(q) else Visible(p) + q
    ensures '\r' !in q ==> Visible(q) == q
    ensures '\r' in p + q <==> '\r' in p || '\r' in q
  {
    SplitConcat(p, q, '\r');
    SplitPieces(q, '\r');
  }

  // ---------------------------------------------------------------------------
  // One segment written in two goes.

  /**
   * The one way two writes differ from one: text nobody had a line for yet is
   * written, then redrawn to nothing. Written at once it leaves no line;
   * written in two goes it leaves an open, empty one.
   */
  predicate Ghost(lines: seq<Line>, p: string, q: string, closed: bool) {
    !HasOpen(lines) && Visible(p) != "" && '\r' in q && Visible(q) == "" && !closed
  }

  lemma SegmentTwice(lines: seq<Line>, p: string, q: string, stream: Stream, closed: bool)
    ensures var once := Segment(lines, p + q, stream, closed);
            var twice := Segment(Segment(lines, p, stream, false), q, stream, closed);
            if Ghost(lines, p, q, closed) then
              once == lines && twice == lines + [Line("", stream, false)]
            else once == twice
  {
    VisibleConcat(p, q);
    if HasOpen(lines) {
      SegmentTwiceOpen(lines, p, q, stream, closed);
    } else if Visible(p) == "" {
      assert Visible(p) + q == q;
    } else {
      var first := Segment(lines, p, stream, false);
      var line := Last(Segment(first, q, stream, closed));
      assert first[|lines| := line] == lines + [line];
    }
  }

  lemma SegmentTwiceOpen(lines: seq<Line>, p: string, q: string, stream: Stream, closed: bool)
    requires HasOpen(lines)
    ensures Segment(lines, p + q, stream, closed) == Segment(Segment(lines, p, stream, false), q, stream, closed)
  {
    VisibleConcat(p, q);
    var n := |lines| - 1;
    var t := lines[n].text;
    assert t + (Visible(p) + q) == (t + Visible(p)) + q;
    var written := lines[n].(text := if '\r' in p then Visible(p) else t + Visible(p), closed := false);
    assert Segment(lines, p, stream, false) == lines[n := written];
    var end := written.(text := if '\r' in q then Visible(q) else written.text + Visible(q), closed := closed);
    assert lines[n := written][n := end] == lines[n := end];
  }

  predicate GhostFold(lines: seq<Line>, p: seq<string>, q: seq<string>)
    requires |p| > 0 && |q| > 0
  {
    |q| == 1 && '\r' in q[0] && Visible(q[0]) == ""
    && Visible(Last(p)) != "" && (|p| > 1 || !HasOpen(lines))
  }

  lemma {:induction false} FoldTwice(lines: seq<Line>, p: seq<string>, q: seq<string>, stream: Stream)
    requires |p| > 0 && |q| > 0
    ensures var once := Fold(lines, Glue(p, q), stream);
            var twice := Fold(Fold(lines, p, stream), q, stream);
            if GhostFold(lines, p, q) then
              !HasOpen(once) && twice == once + [Line("", stream, false)]
              && Fold(lines, p, stream) == once + [Line(Visible(Last(p)), stream, false)]
            else once == twice
    decreases |p|
  {
    var g := Glue(p, q);
    if |p| == 1 {
      assert g[0] == p[0] + q[0] && g[1..] == q[1..];
      SegmentTwice(lines, p[0], q[0], stream, |q| > 1);
      var first := Segment(lines, p[0], stream, false);
      assert p[1..] == [];
      assert Fold(lines, p, stream) == first;
    } else {
      assert g[0] == p[0] && g[1..] == Glue(p[1..], q);
      FoldTwice(Segment(lines, p[0], stream, true), p[1..], q, stream);
    }
  }

  // ---------------------------------------------------------------------------
  // The head of the screen never matters.

  /** Dropping lines above the last commutes with folding. */
  lemma {:induction false} FoldBelow(head: seq<Line>, lines: seq<Line>, segments: seq<string>, stream: Stream)
    requires lines != [] || !HasOpen(head)
    ensures Fold(head + lines, segments, stream) == head + Fold(lines, segments, stream)
    decreases |segments|
  {
    if segments != [] {
      var closed := |segments| > 1;
      SegmentBelow(head, lines, segments[0], stream, closed);
      var next := Segment(lines, segments[0], stream, closed);
      FoldBelow(head, next, segments[1..], stream);
    }
  }

  lemma SegmentBelow(head: seq<Line>, lines: seq<Line>, segment: string, stream: Stream, closed: bool)
    requires lines != [] || !HasOpen(head)
    ensures Segment(head + lines, segment, stream, closed) == head + Segment(lines, segment, stream, closed)
  {
    if lines == [] {
      assert head + lines == head;
    } else {
      assert Last(head + lines) == Last(lines);
      assert HasOpen(head + lines) == HasOpen(lines);
    }
  }

  lemma CapBelow(head: seq<Line>, lines: seq<Line>)
    requires |lines| >= MAX_LINES
    ensures Cap(head + lines) == Cap(lines)
  {
  }

  lemma CapFold(lines: seq<Line>, segments: seq<string>, stream: Stream)
    ensures Cap(Fold(Cap(lines), segments, stream)) == Cap(Fold(lines, segments, stream))
  {
    if |lines| > MAX_LINES {
      var head := lines[..|lines| - MAX_LINES];
      assert lines == head + Cap(lines);
      FoldBelow(head, Cap(lines), segments, stream);
      CapBelow(head, Fold(Cap(lines), segments, stream));
    }
  }

  // ---------------------------------------------------------------------------
  // The theorem.

  /** The pieces of a chunk, seen from its last `\r`. */
  lemma SegmentsConcat(a: string, b: string)
    requires !(EndsWith(a, '\r') && b != "" && b[0] == '\n')
    ensures Segments(a + b) == Glue(Segments(a), Segments(b))
  {
    NormalizeConcat(a, b);
    SplitConcat(NormalizeCrlf(a), NormalizeCrlf(b), '\n');
  }

  /** The line `t` leaves off in: what follows its last newline. */
  function Tail(t: string): string {
    Last(Split(t, '\n'))
  }

  function Newlines(t: string): nat {
    if t == "" then 0 else (if t[0] == '\n' then 1 else 0) + Newlines(t[1..])
  }

  /** Anything of the line is visible: it is not empty, and its end was not just redrawn. */
  predicate Shows(t: string) {
    t != "" && !EndsWith(t, '\r')
  }

  /** What stands in the line a newline arriving after `t` would end. */
  function OpenAfter(lines: seq<Line>, t: string): string {
    if '\n' in t || '\r' in Tail(t) || !HasOpen(lines) then Visible(Tail(t)) else Last(lines).text + Tail(t)
  }

  /** How many lines `t` takes up below a finished one. */
  function LinesIn(t: string): nat {
    Newlines(t) + if Shows(Tail(t)) then 1 else 0
  }

  /**
   * A CRLF cut in two erases the line it ends, and the erased line is still on
   * screen when the second chunk is done.
   */
  predicate ErasesLine(lines: seq<Line>, a: string, b: string) {
    EndsWith(a, '\r') && b != "" && b[0] == '\n'
    && OpenAfter(lines, a[..|a| - 1]) != ""
    && LinesIn(b[1..]) < MAX_LINES
  }

  /** The first chunk starts a line and the second redraws it to nothing. */
  predicate LeavesGhost(lines: seq<Line>, a: string, b: string) {
    EndsWith(b, '\r') && '\n' !in b
    && Shows(Tail(a)) && ('\n' in a || !HasOpen(lines))
  }

  lemma {:induction false} NormalizedSplit(t: string)
    ensures |Segments(t)| == Newlines(t) + 1 == |Split(t, '\n')|
    ensures Last(Segments(t)) == Tail(t)
  {
    if t == "" {
    } else if t[0] == '\r' && |t| > 1 && t[1] == '\n' {
      NormalizedSplit(t[1..]);
      SplitHead(t, '\n');
      SplitHead(t[1..], '\n');
    } else {
      NormalizedSplit(t[1..]);
      SplitHead(t, '\n');
      assert NormalizeCrlf(t)[1..] == NormalizeCrlf(t[1..]);
      SplitHead(NormalizeCrlf(t), '\n');
    }
  }

  lemma {:induction false} NewlinesCounted(t: string)
    ensures Newlines(t) == 0 <==> '\n' !in t
  {
    if t != "" {
      NewlinesCounted(t[1..]);
      assert t == [t[0]] + t[1..];
    }
  }

  /** The open line after a fold, from the segments. */
  lemma {:induction false} OpenTextOfFold(lines: seq<Line>, segments: seq<string>, stream: Stream)
    requires |segments| > 0
    ensures OpenText(Fold(lines, segments, stream)) ==
            if |segments| > 1 || '\r' in Last(segments) || !HasOpen(lines) then Visible(Last(segments))
            else Last(lines).text + Visible(Last(segments))
    decreases |segments|
  {
    var next := Segment(lines, segments[0], stream, |segments| > 1);
    if |segments| > 1 {
      assert !HasOpen(next);
      assert Last(segments[1..]) == Last(segments);
      OpenTextOfFold(next, segments[1..], stream);
    } else {
      assert segments[1..] == [];
      assert Fold(lines, segments, stream) == next;
    }
  }

  lemma OpenTextAfter(lines: seq<Line>, t: string, stream: Stream)
    ensures OpenText(Fold(lines, Segments(t), stream)) == OpenAfter(lines, t)
  {
    NormalizedSplit(t);
    NewlinesCounted(t);
    OpenTextOfFold(lines, Segments(t), stream);
    VisibleConcat("", Tail(t));
  }

  lemma LinesBelow(t: string)
    ensures |Fold([], Segments(t), Stdout)| == LinesIn(t)
  {
    NormalizedSplit(t);
    FoldReads(Segments(t));
    VisibleEmpty(Tail(t));
  }

  lemma SplitOfCut(b: string)
    ensures Segments("\n" + b) == [""] + Segments(b)
  {
    NormalizeCutCrlf("", b);
    SplitSeparator(NormalizeCrlf(b), '\n');
  }

  /** Above the newline the same lines, then one line whose text is `text`, then the same lines below. */
  lemma AfterCut(above: seq<Line>, text: string, origin: Stream, rest: string, stream: Stream)
    ensures Fold(above + [Line(text, origin, true)], Segments(rest), stream)
         == above + [Line(text, origin, true)] + Fold([], Segments(rest), stream)
  {
    var head := above + [Line(text, origin, true)];
    assert head + [] == head;
    FoldBelow(head, [], Segments(rest), stream);
  }

  lemma SegmentLength(lines: seq<Line>, other: seq<Line>, segment: string, s: Stream, t: Stream, closed: bool)
    requires |lines| == |other| && HasOpen(lines) == HasOpen(other)
    ensures var next, next' := Segment(lines, segment, s, closed), Segment(other, segment, t, closed);
            |next| == |next'| && HasOpen(next) == HasOpen(next')
  {
  }

  /** How many lines a fold leaves depends on neither texts nor labels of those above. */
  lemma {:induction false} FoldLength(lines: seq<Line>, other: seq<Line>, segments: seq<string>, s: Stream, t: Stream)
    requires |lines| == |other| && HasOpen(lines) == HasOpen(other)
    ensures |Fold(lines, segments, s)| == |Fold(other, segments, t)|
    decreases |segments|
  {
    if segments != [] {
      var closed := |segments| > 1;
      SegmentLength(lines, other, segments[0], s, t, closed);
      FoldLength(Segment(lines, segments[0], s, closed), Segment(other, segments[0], t, closed), segments[1..], s, t);
    }
  }

  lemma CutSegments(a: string, b: string)
    ensures Segments(a + "\r" + ("\n" + b)) == Glue(Segments(a), [""] + Segments(b))
    ensures Segments(a + "\r") == Glue(Segments(a), ["\r"])
  {
    NormalizeCutCrlf(a, b);
    SplitSeparator(NormalizeCrlf(b), '\n');
    SplitConcat(NormalizeCrlf(a), "\n" + NormalizeCrlf(b), '\n');
    SplitConcat(NormalizeCrlf(a), "\r", '\n');
    SplitPieces("\r", '\n');
  }

  lemma VisibleBare()
    ensures Visible("\r") == "" && Visible("") == ""
  {
    SplitSeparator("", '\r');
  }

  /** The screen above the line a newline would end now, and that line's label. */
  function Above(m: seq<Line>): seq<Line> {
    if HasOpen(m) then m[..|m| - 1] else m
  }

  function Origin(m: seq<Line>, stream: Stream): Stream {
    if HasOpen(m) then Last(m).stream else stream
  }

  /** A newline closes the open line with the text it had; what follows starts below it. */
  lemma FoldNewline(m: seq<Line>, b: string, stream: Stream)
    ensures Fold(m, [""] + Segments(b), stream)
         == Above(m) + [Line(OpenText(m), Origin(m, stream), true)] + Fold([], Segments(b), stream)
  {
    var newline := [""] + Segments(b);
    assert newline[1..] == Segments(b);
    VisibleBare();
    assert OpenText(m) + "" == OpenText(m);
    assert Segment(m, "", stream, true) == Above(m) + [Line(OpenText(m), Origin(m, stream), true)];
    AfterCut(Above(m), OpenText(m), Origin(m, stream), b, stream);
  }

  /** A lone `\r` redraws an open line to nothing, and starts none. */
  lemma RedrawnAlone(m: seq<Line>, stream: Stream)
    ensures var r := Fold(m, ["\r"], stream);
            OpenText(r) == "" && Above(r) == Above(m) && Origin(r, stream) == Origin(m, stream)
  {
    VisibleBare();
    assert ["\r"][1..] == [];
    assert Fold(m, ["\r"], stream) == Segment(m, "\r", stream, false);
  }

  /** The lone `\r`: the line that was open is redrawn to nothing, or was never there. */
  lemma LoneCr(lines: seq<Line>, a: string, stream: Stream)
    ensures var m := Fold(lines, Segments(a), stream);
            var r := Fold(lines, Segments(a + "\r"), stream);
            OpenText(r) == "" && Above(r) == Above(m)
            && (OpenText(m) == "" ==> Origin(r, stream) == Origin(m, stream))
  {
    var p := Segments(a);
    var m, r := Fold(lines, p, stream), Fold(lines, Segments(a + "\r"), stream);
    CutSegments(a, "");
    FoldTwice(lines, p, ["\r"], stream);
    if GhostFold(lines, p, ["\r"]) {
      var ghostly := Line(Visible(Last(p)), stream, false);
      assert m == r + [ghostly] && !HasOpen(r);
      assert Last(m) == ghostly && m[..|m| - 1] == r;
    } else {
      RedrawnAlone(m, stream);
    }
  }

  /**
   * Both readings of a cut CRLF, line by line: the screens agree above and
   * below the line the newline ends, and differ only in what that line says.
   */
  lemma CutCrlf(lines: seq<Line>, a: string, b: string, stream: Stream)
    returns (above: seq<Line>, x: Stream, y: Stream)
    ensures var below := Fold([], Segments(b), stream);
            var m := Fold(lines, Segments(a), stream);
            var text := OpenText(m);
            && above == Above(m) && x == Origin(m, stream)
            && y == Origin(Fold(lines, Segments(a + "\r"), stream), stream)
            && Fold(lines, Segments(a + "\r" + ("\n" + b)), stream) == above + [Line(text, x, true)] + below
            && Fold(Fold(lines, Segments(a + "\r"), stream), Segments("\n" + b), stream)
               == above + [Line("", y, true)] + below
            && (text == "" ==> x == y)
  {
    var m := Fold(lines, Segments(a), stream);
    var r := Fold(lines, Segments(a + "\r"), stream);
    CutSegments(a, b);
    var newline := [""] + Segments(b);
    FoldTwice(lines, Segments(a), newline, stream);
    assert !GhostFold(lines, Segments(a), newline);
    SplitOfCut(b);
    LoneCr(lines, a, stream);
    FoldNewline(m, b, stream);
    FoldNewline(r, b, stream);
    above, x, y := Above(m), Origin(m, stream), Origin(r, stream);
  }

  lemma CapDiffers(above: seq<Line>, x: Line, y: Line, below: seq<Line>)
    requires x != y
    ensures Cap(above + [x] + below) == Cap(above + [y] + below) <==> |below| >= MAX_LINES
  {
    var s, t := above + [x] + below, above + [y] + below;
    var n := |s|;
    if |below| >= MAX_LINES {
      assert s[n - MAX_LINES..] == below[|below| - MAX_LINES..] == t[n - MAX_LINES..];
    } else {
      var k := if n > MAX_LINES then |above| - (n - MAX_LINES) else |above|;
      assert Cap(s)[k] == x && Cap(t)[k] == y;
    }
  }

  lemma CapGhost(screen: seq<Line>, stream: Stream)
    requires !HasOpen(screen)
    ensures Cap(screen + [Line("", stream, false)]) != Cap(screen)
  {
    var longer := Cap(screen + [Line("", stream, false)]);
    assert HasOpen(longer);
    assert !HasOpen(Cap(screen));
  }

  lemma {:induction false} NormalizedNewlines(t: string)
    ensures '\n' in NormalizeCrlf(t) <==> '\n' in t
    ensures '\n' !in t ==> NormalizeCrlf(t) == t
  {
    if t != [] {
      NormalizedNewlines(t[1..]);
      assert t == [t[0]] + t[1..];
    }
  }

  lemma VisibleEmpty(s: string)
    ensures Visible(s) == "" <==> s == "" || EndsWith(s, '\r')
  {
    if s != "" {
      var c := [Last(s)];
      assert s == s[..|s| - 1] + c;
      VisibleConcat(s[..|s| - 1], c);
      VisibleBare();
    }
  }

  /** The text-level guard and the segment-level one are the same. */
  lemma GhostGuard(lines: seq<Line>, a: string, b: string)
    ensures GhostFold(lines, Segments(a), Segments(b)) <==> LeavesGhost(lines, a, b)
  {
    NormalizedNewlines(b);
    SplitPieces(NormalizeCrlf(b), '\n');
    NormalizedSplit(a);
    NewlinesCounted(a);
    VisibleEmpty(Tail(a));
    if '\n' !in b {
      VisibleEmpty(b);
    }
  }

  lemma AppendedTwice(lines: seq<Line>, a: string, b: string, stream: Stream)
    requires a != "" && b != ""
    ensures Appended(Appended(lines, a, stream), b, stream)
         == Cap(Fold(Fold(lines, Segments(a), stream), Segments(b), stream))
  {
    CapFold(Fold(lines, Segments(a), stream), Segments(b), stream);
  }

  lemma CutInsideCrlf(lines: seq<Line>, a: string, b: string, stream: Stream)
    requires EndsWith(a, '\r') && b != "" && b[0] == '\n'
    ensures Appended(Appended(lines, a, stream), b, stream) == Appended(lines, a + b, stream)
       <==> !ErasesLine(lines, a, b)
  {
    var a', b' := a[..|a| - 1], b[1..];
    assert a == a' + "\r" && b == "\n" + b';
    assert a + b == a' + "\r" + ("\n" + b');
    AppendedTwice(lines, a, b, stream);
    var above, x, y := CutCrlf(lines, a', b', stream);
    var below := Fold([], Segments(b'), stream);
    FoldLength([], [], Segments(b'), stream, Stdout);
    LinesBelow(b');
    OpenTextAfter(lines, a', stream);
    var text := OpenText(Fold(lines, Segments(a'), stream));
    if text != "" {
      CapDiffers(above, Line(text, x, true), Line("", y, true), below);
    }
  }

  lemma CutElsewhere(lines: seq<Line>, a: string, b: string, stream: Stream)
    requires a != "" && b != "" && !(EndsWith(a, '\r') && b[0] == '\n')
    ensures Appended(Appended(lines, a, stream), b, stream) == Appended(lines, a + b, stream)
       <==> !LeavesGhost(lines, a, b)
  {
    AppendedTwice(lines, a, b, stream);
    SegmentsConcat(a, b);
    FoldTwice(lines, Segments(a), Segments(b), stream);
    GhostGuard(lines, a, b);
    if LeavesGhost(lines, a, b) {
      CapGhost(Fold(lines, Segments(a + b), stream), stream);
    }
  }

  /**
   * Feeding a text in two chunks shows what feeding it at once shows, for every
   * screen and every cut, exactly when the cut neither erases a line nor leaves
   * an empty one behind.
   */
  lemma ChunkBoundary(lines: seq<Line>, a: string, b: string, stream: Stream)
    ensures Appended(Appended(lines, a, stream), b, stream) == Appended(lines, a + b, stream)
       <==> !ErasesLine(lines, a, b) && !LeavesGhost(lines, a, b)
  {
    if a == "" {
      VisibleBare();
      assert a + b == b;
    } else if b == "" {
      assert a + b == a;
    } else if EndsWith(a, '\r') && b[0] == '\n' {
      CutInsideCrlf(lines, a, b, stream);
    } else {
      CutElsewhere(lines, a, b, stream);
    }
  }

  /** The case the panel relies on: no chunk stops at a `\r`, so no cut is ever seen. */
  lemma ChunkBoundaryInvisible(lines: seq<Line>, a: string, b: string, stream: Stream)
    requires !EndsWith(a, '\r') && !EndsWith(b, '\r')
    ensures Appended(Appended(lines, a, stream), b, stream) == Appended(lines, a + b, stream)
  {
    ChunkBoundary(lines, a, b, stream);
  }

  lemma WordOnFreshScreen(word: string)
    requires word != "" && '\r' !in word && '\n' !in word
    ensures Fold([], Segments(word), Stdout) == [Line(word, Stdout, false)]
    ensures Fold([], Segments(""), Stdout) == []
  {
    NormalizedNewlines(word);
    SplitPieces(word, '\n');
    SplitPieces(word, '\r');
    assert [word][1..] == [];
    VisibleBare();
    assert Segments("") == [""] && [""][1..] == [];
  }

  lemma FreshOrigin(word: string)
    requires word != "" && '\r' !in word && '\n' !in word
    ensures Origin(Fold([], Segments(word + "\r"), Stdout), Stdout) == Stdout
  {
    CutSegments(word, "");
    NormalizedNewlines(word);
    SplitPieces(word, '\n');
    assert Segments(word + "\r") == [word + "\r"];
    assert [word + "\r"][1..] == [];
  }

  /** Why the claim needs its condition: a CRLF cut in two loses the line it ends. */
  lemma CutCrlfLosesLine(word: string)
    requires word != "" && '\r' !in word && '\n' !in word
    ensures Appended([], (word + "\r") + "\n", Stdout) == [Line(word, Stdout, true)]
    ensures Appended(Appended([], word + "\r", Stdout), "\n", Stdout) == [Line("", Stdout, true)]
  {
    WordOnFreshScreen(word);
    var above, x, y := CutCrlf([], word, "", Stdout);
    assert "\n" + "" == "\n";
    assert above == [] && x == Stdout;
    AppendedTwice([], word + "\r", "\n", Stdout);
    FreshOrigin(word);
    assert y == Stdout;
  }

  // ---------------------------------------------------------------------------
  // Whole sessions.

  /** And the other case: redrawn to nothing at once it leaves no line, redrawn in a second chunk an empty one. */
  lemma LateRedrawLeavesLine(word: string)
    requires word != "" && '\r' !in word && '\n' !in word
    ensures Appended([], word + "\r", Stdout) == []
    ensures Appended(Appended([], word, Stdout), "\r", Stdout) == [Line("", Stdout, false)]
  {
    WordOnFreshScreen(word);
    CutSegments(word, "");
    NormalizedNewlines(word);
    SplitPieces(word, '\n');
    VisibleEmpty(word + "\r");
    NormalizedNewlines("\r");
    SplitPieces("\r", '\n');
    VisibleBare();
    assert Segments(word + "\r") == [word + "\r"];
    assert [word + "\r"][1..] == [] && ["\r"][1..] == [];
  }

  datatype Chunk = Chunk(text: string, stream: Stream)

  function FoldChunks(lines: seq<Line>, chunks: seq<Chunk>): seq<Line>
    decreases |chunks|
  {
    if chunks == [] then lines
    else
      var n := |chunks| - 1;
      Appended(FoldChunks(lines, chunks[..n]), chunks[n].text, chunks[n].stream)
  }

  function Transcript(chunks: seq<Chunk>): string
    decreases |chunks|
  {
    if chunks == [] then ""
    else
      var n := |chunks| - 1;
      Transcript(chunks[..n]) + chunks[n].text
  }

  /** The screen with its labels rubbed out. */
  function Plain(lines: seq<Line>): (p: seq<Line>)
    ensures |p| == |lines|
  {
    seq(|lines|, i requires 0 <= i < |lines| => lines[i].(stream := Stdout))
  }

  lemma {:induction false} FoldPlain(lines: seq<Line>, segments: seq<string>, stream: Stream)
    ensures Plain(Fold(lines, segments, stream)) == Fold(Plain(lines), segments, Stdout)
    decreases |segments|
  {
    if segments != [] {
      var closed := |segments| > 1;
      assert Plain(Segment(lines, segments[0], stream, closed)) == Segment(Plain(lines), segments[0], Stdout, closed);
      FoldPlain(Segment(lines, segments[0], stream, closed), segments[1..], stream);
    }
  }

  lemma AppendedPlain(lines: seq<Line>, chunk: string, stream: Stream)
    ensures Plain(Appended(lines, chunk, stream)) == Appended(Plain(lines), chunk, Stdout)
  {
    if chunk != "" {
      FoldPlain(lines, Segments(chunk), stream);
    }
  }

  /** What the text says, line by line: every ended line, and the last one if anything of it is visible. */
  function Reading(segments: seq<string>): (lines: seq<Line>)
    requires |segments| > 0
  {
    var n := |segments| - 1;
    seq(n, i requires 0 <= i < n => Line(Visible(segments[i]), Stdout, true))
    + if Visible(segments[n]) == "" then [] else [Line(Visible(segments[n]), Stdout, false)]
  }

  lemma {:induction false} FoldReads(segments: seq<string>)
    requires |segments| > 0
    ensures Fold([], segments, Stdout) == Reading(segments)
    decreases |segments|
  {
    var first := Segment([], segments[0], Stdout, |segments| > 1);
    if |segments| == 1 {
      assert segments[1..] == [];
    } else {
      FoldReads(segments[1..]);
      assert first + [] == first;
      FoldBelow(first, [], segments[1..], Stdout);
      ReadingHead(segments);
    }
  }

  lemma ReadingHead(segments: seq<string>)
    requires |segments| > 1
    ensures Reading(segments) == [Line(Visible(segments[0]), Stdout, true)] + Reading(segments[1..])
  {
  }

  /**
   * Any run of chunks, on either stream and cut anywhere but at a `\r`, shows
   * the last lines of the text they make together.
   */
  lemma {:induction false} ScreenShowsTranscript(chunks: seq<Chunk>)
    requires forall k :: 0 <= k < |chunks| ==> !EndsWith(chunks[k].text, '\r')
    ensures !EndsWith(Transcript(chunks), '\r')
    ensures Plain(FoldChunks([], chunks)) == Cap(Reading(Segments(Transcript(chunks))))
    decreases |chunks|
  {
    PlainTranscript(chunks);
    var t := Transcript(chunks);
    FoldReads(Segments(t));
    if t == "" {
      assert Segments("") == [""];
      VisibleBare();
    }
  }

  lemma {:induction false} PlainTranscript(chunks: seq<Chunk>)
    requires forall k :: 0 <= k < |chunks| ==> !EndsWith(chunks[k].text, '\r')
    ensures !EndsWith(Transcript(chunks), '\r')
    ensures Plain(FoldChunks([], chunks)) == Appended([], Transcript(chunks), Stdout)
    decreases |chunks|
  {
    if chunks != [] {
      var n := |chunks| - 1;
      PlainTranscript(chunks[..n]);
      AppendedPlain(FoldChunks([], chunks[..n]), chunks[n].text, chunks[n].stream);
      ChunkBoundaryInvisible([], Transcript(chunks[..n]), chunks[n].text, Stdout);
    }
  }

  // ---------------------------------------------------------------------------
  // What a screen always is, and what stays on it.

  /** Only the last line may be open, and no line holds a line ending. */
  predicate Tidy(lines: seq<Line>) {
    forall i :: 0 <= i < |lines| ==>
      (i < |lines| - 1 ==> lines[i].closed) && '\n' !in lines[i].text && '\r' !in lines[i].text
  }

  /** How many lines nothing can change any more. */
  function Settled(lines: seq<Line>): nat {
    if HasOpen(lines) then |lines| - 1 else |lines|
  }

  lemma SegmentTidy(lines: seq<Line>, segment: string, stream: Stream, closed: bool)
    requires Tidy(lines) && '\n' !in segment
    ensures var next := Segment(lines, segment, stream, closed);
            Tidy(next) && Settled(lines) <= Settled(next) && next[..Settled(lines)] == lines[..Settled(lines)]
            && (closed || Settled(next) == Settled(lines))
  {
    VisibleClean(segment);
    var visible := Visible(segment);
    if HasOpen(lines) {
      var text := Last(lines).text + visible;
      assert '\n' !in text && '\r' !in text;
    }
  }

  lemma {:induction false} VisibleClean(segment: string)
    ensures '\r' !in Visible(segment)
    ensures '\n' !in segment ==> '\n' !in Visible(segment)
  {
    SplitPieces(segment, '\r');
    if segment != "" {
      VisibleClean(segment[1..]);
      var rest := Split(segment[1..], '\r');
    }
  }

  lemma {:induction false} FoldTidy(lines: seq<Line>, segments: seq<string>, stream: Stream)
    requires Tidy(lines)
    requires forall k :: 0 <= k < |segments| ==> '\n' !in segments[k]
    ensures var next := Fold(lines, segments, stream);
            Tidy(next) && Settled(lines) <= Settled(next) && next[..Settled(lines)] == lines[..Settled(lines)]
    decreases |segments|
  {
    if segments != [] {
      var closed := |segments| > 1;
      var next := Segment(lines, segments[0], stream, closed);
      SegmentTidy(lines, segments[0], stream, closed);
      FoldTidy(next, segments[1..], stream);
      var last := Fold(lines, segments, stream);
      assert last[..Settled(lines)] == last[..Settled(next)][..Settled(lines)];
      assert next[..Settled(next)][..Settled(lines)] == next[..Settled(lines)];
    }
  }

  /** How many lines a chunk pushes off the top. */
  function Scrolled(lines: seq<Line>, chunk: string, stream: Stream): nat {
    var n := |Fold(lines, Segments(chunk), stream)|;
    if chunk == "" || n <= MAX_LINES then 0 else n - MAX_LINES
  }

  lemma CapKeepsClosed(all: seq<Line>, i: nat)
    requires i < Settled(all)
    ensures var gone := |all| - |Cap(all)|;
            if i < gone then |Cap(all)| == MAX_LINES else i - gone < Settled(Cap(all)) && Cap(all)[i - gone] == all[i]
  {
  }

  /** One chunk: a closed line is still there and still closed, or has scrolled off a full screen. */
  lemma OneChunkKeepsClosed(lines: seq<Line>, chunk: string, stream: Stream, i: nat)
    requires Tidy(lines) && |lines| <= MAX_LINES && i < Settled(lines)
    ensures Tidy(Appended(lines, chunk, stream)) && |lines| <= |Appended(lines, chunk, stream)| <= MAX_LINES
    ensures var next, gone := Appended(lines, chunk, stream), Scrolled(lines, chunk, stream);
            if i < gone then |next| == MAX_LINES else i - gone < Settled(next) && next[i - gone] == lines[i]
  {
    ChunkStaysTidy(lines, chunk, stream);
    if chunk != "" {
      var all := Fold(lines, Segments(chunk), stream);
      SettledPrefix(lines, chunk, stream);
      assert all[..Settled(lines)][i] == lines[..Settled(lines)][i];
      CapKeepsClosed(all, i);
    }
  }

  lemma ChunkStaysTidy(lines: seq<Line>, chunk: string, stream: Stream)
    requires Tidy(lines) && |lines| <= MAX_LINES
    ensures Tidy(Appended(lines, chunk, stream)) && |lines| <= |Appended(lines, chunk, stream)| <= MAX_LINES
  {
    if chunk != "" {
      var all := Fold(lines, Segments(chunk), stream);
      SettledPrefix(lines, chunk, stream);
      CapKeeps(all);
    }
  }

  /** How many lines a run of chunks pushes off the top, all told. */
  function ScrolledOff(lines: seq<Line>, chunks: seq<Chunk>): nat
    decreases |chunks|
  {
    if chunks == [] then 0
    else
      var n := |chunks| - 1;
      ScrolledOff(lines, chunks[..n]) + Scrolled(FoldChunks(lines, chunks[..n]), chunks[n].text, chunks[n].stream)
  }

  /**
   * A closed line is never altered: however much arrives later, on either
   * stream, it is still there word for word, moved up by exactly what scrolled
   * off the top, or it is among what did, and the screen is full.
   */
  lemma {:induction false} ClosedLinesStay(lines: seq<Line>, chunks: seq<Chunk>, i: nat)
    requires Tidy(lines) && |lines| <= MAX_LINES && i < Settled(lines)
    ensures Tidy(FoldChunks(lines, chunks)) && |lines| <= |FoldChunks(lines, chunks)| <= MAX_LINES
    ensures var next, gone := FoldChunks(lines, chunks), ScrolledOff(lines, chunks);
            if i < gone then |next| == MAX_LINES else i - gone < Settled(next) && next[i - gone] == lines[i]
    decreases |chunks|
  {
    if chunks != [] {
      var n := |chunks| - 1;
      var before, gone := FoldChunks(lines, chunks[..n]), ScrolledOff(lines, chunks[..n]);
      ClosedLinesStay(lines, chunks[..n], i);
      ChunkStaysTidy(before, chunks[n].text, chunks[n].stream);
      if i >= gone {
        OneChunkKeepsClosed(before, chunks[n].text, chunks[n].stream, i - gone);
      }
    }
  }

  lemma SettledPrefix(lines: seq<Line>, chunk: string, stream: Stream)
    requires Tidy(lines)
    ensures var all := Fold(lines, Segments(chunk), stream);
            Tidy(all) && Settled(lines) <= Settled(all)
            && forall i {:trigger lines[i]} :: 0 <= i < Settled(lines) ==> i < |all| && all[i] == lines[i]
  {
    SplitPieces(NormalizeCrlf(chunk), '\n');
    FoldTidy(lines, Segments(chunk), stream);
    var all := Fold(lines, Segments(chunk), stream);
    forall i {:trigger lines[i]} | 0 <= i < Settled(lines)
      ensures all[i] == lines[i]
    {
      assert all[..Settled(lines)][i] == all[i];
    }
  }

  lemma CapKeeps(all: seq<Line>)
    ensures var gone := if |all| <= MAX_LINES then 0 else |all| - MAX_LINES;
            |Cap(all)| == |all| - gone
            && (forall i {:trigger all[i]} :: gone <= i < |all| ==> Cap(all)[i - gone] == all[i])
            && (Tidy(all) ==> Tidy(Cap(all)))
  {
  }
}
