/**
 * The console's scrollback: how a chunk of output is folded into the lines
 * already on screen (`frontend/src/app/shared/console-output.ts`).
 *
 * The text here is already free of escape sequences. `AppendChunk` is the loop
 * the panel runs; `Appended` is the function it computes; the theorems say when
 * the way the network cut the output into chunks can be seen on screen.
 */
module ConsoleOutput {
  import opened Text

  datatype Stream = Stdout | Stderr

  datatype Line = Line(text: string, stream: Stream, closed: bool)

  const MAX_LINES := 2000

  /** `\r\n` becomes `\n`; any other `\r` stays. */
  function NormalizeCrlf(t: string): string {
    if t == [] then ""
    else if t[0] == '\r' && |t| > 1 && t[1] == '\n' then NormalizeCrlf(t[1..])
    else [t[0]] + NormalizeCrlf(t[1..])
  }

  /** What is left of a segment on a real terminal: the part after the last `\r`. */
  function Visible(segment: string): string {
    Last(Split(segment, '\r'))
  }

  predicate HasOpen(lines: seq<Line>) {
    |lines| > 0 && !Last(lines).closed
  }

  /** The text a newline arriving now would close. */
  function OpenText(lines: seq<Line>): string {
    if HasOpen(lines) then Last(lines).text else ""
  }

  /** One segment written at the end of the screen. */
  function Segment(lines: seq<Line>, segment: string, stream: Stream, closed: bool): (next: seq<Line>)
    ensures |lines| <= |next| <= |lines| + 1
  {
    var visible := Visible(segment);
    if HasOpen(lines) then
      var open := Last(lines);
      var text := if '\r' in segment then visible else open.text + visible;
      lines[|lines| - 1 := open.(text := text, closed := closed)]
    else if visible != "" || closed then lines + [Line(visible, stream, closed)]
    else lines
  }

  /** Every segment but the last was ended by a newline. */
  function Fold(lines: seq<Line>, segments: seq<string>, stream: Stream): (next: seq<Line>)
    ensures |lines| <= |next|
    decreases |segments|
  {
    if segments == [] then lines
    else Fold(Segment(lines, segments[0], stream, |segments| > 1), segments[1..], stream)
  }

  function Cap(lines: seq<Line>): (kept: seq<Line>) {
    if |lines| > MAX_LINES then lines[|lines| - MAX_LINES..] else lines
  }

  function Segments(chunk: string): (s: seq<string>)
    ensures |s| > 0
  {
    Split(NormalizeCrlf(chunk), '\n')
  }

  function Appended(lines: seq<Line>, chunk: string, stream: Stream): seq<Line> {
    if chunk == "" then lines else Cap(Fold(lines, Segments(chunk), stream))
  }

  lemma {:induction false} NormalizedEmpty(t: string)
    ensures NormalizeCrlf(t) == "" <==> t == ""
  {
    if t != "" {
      NormalizedEmpty(t[1..]);
    }
  }

  /** The panel's loop. `next` is the copy it pushes to and overwrites. */
  method AppendChunk(lines: seq<Line>, chunk: string, stream: Stream) returns (result: seq<Line>)
    ensures result == Appended(lines, chunk, stream)
  {
    var text := NormalizeCrlf(chunk);
    NormalizedEmpty(chunk);
    if text == "" {
      return lines;
    }
    var next := lines;
    var segments := Split(text, '\n');
    var index := 0;
    while index < |segments|
      invariant 0 <= index <= |segments|
      invariant Fold(next, segments[index..], stream) == Fold(lines, segments, stream)
    {
      var closed := index < |segments| - 1;
      ghost var remaining := segments[index..];
      assert remaining[0] == segments[index] && remaining[1..] == segments[index + 1..];
      next := WriteSegment(next, segments[index], stream, closed);
      index := index + 1;
    }
    assert segments[index..] == [];
    result := if |next| > MAX_LINES then next[|next| - MAX_LINES..] else next;
  }

  method WriteSegment(lines: seq<Line>, segment: string, stream: Stream, closed: bool) returns (next: seq<Line>)
    ensures next == Segment(lines, segment, stream, closed)
  {
    SplitPieces(segment, '\r');
    var overwritten := Split(segment, '\r');
    var visible := overwritten[|overwritten| - 1];
    var redrawn := |overwritten| > 1;
    next := lines;
    if |next| > 0 && !next[|next| - 1].closed {
      var open := next[|next| - 1];
      next := next[|next| - 1 := open.(text := if redrawn then visible else open.text + visible, closed := closed)];
    } else if visible != "" || closed {
      next := next + [Line(visible, stream, closed)];
    }
  }
}
