/** Which of the two streams each line of the console is labelled with (`frontend/src/app/shared/console-output.ts`). */
module ConsoleLabels {
  import opened ConsoleOutput

  lemma {:induction false} FoldLabels(lines: seq<Line>, segments: seq<string>, stream: Stream, k: nat)
    requires k < |Fold(lines, segments, stream)|
    ensures Fold(lines, segments, stream)[k].stream == if k < |lines| then lines[k].stream else stream
    decreases |segments|
  {
    if segments != [] {
      FoldLabels(Segment(lines, segments[0], stream, |segments| > 1), segments[1..], stream, k);
    }
  }

  /** Line `k` of `next`, which has lost the first `scrolled` lines, is labelled as before if it was there. */
  predicate LabelKept(lines: seq<Line>, next: seq<Line>, stream: Stream, scrolled: nat, k: nat)
    requires k < |next|
  {
    next[k].stream == if k + scrolled < |lines| then lines[k + scrolled].stream else stream
  }

  lemma CapLabels(lines: seq<Line>, all: seq<Line>, stream: Stream, k: nat)
    requires k < |Cap(all)| && LabelKept(lines, all, stream, 0, k + |all| - |Cap(all)|)
    ensures LabelKept(lines, Cap(all), stream, |all| - |Cap(all)|, k)
  {
  }

  /** A line keeps the label of the chunk that opened it; only the lines a chunk adds take the chunk's. */
  lemma LabelsAreOfTheOpener(lines: seq<Line>, chunk: string, stream: Stream) returns (scrolled: nat)
    ensures var next := Appended(lines, chunk, stream);
            && (scrolled > 0 ==> |next| == MAX_LINES)
            && |lines| <= |next| + scrolled
            && forall k :: 0 <= k < |next| ==> LabelKept(lines, next, stream, scrolled, k)
  {
    var next := Appended(lines, chunk, stream);
    if chunk == "" {
      scrolled := 0;
    } else {
      var all := Fold(lines, Segments(chunk), stream);
      scrolled := |all| - |next|;
      forall k | 0 <= k < |next| ensures LabelKept(lines, next, stream, scrolled, k) {
        FoldLabels(lines, Segments(chunk), stream, k + scrolled);
        CapLabels(lines, all, stream, k);
      }
    }
  }
}
