/**
 * JavaScript's `split` and `join` with a one-character separator, and the two
 * facts everything else needs: they undo each other, and splitting a
 * concatenation glues the two pieces that meet in the middle.
 */
module Text {

  function Split(s: string, c: char): (parts: seq<string>)
    ensures |parts| > 0
  {
    if s == [] then [""]
    else
      var rest := Split(s[1..], c);
      if s[0] == c then [""] + rest else [[s[0]] + rest[0]] + rest[1..]
  }

  function Join(parts: seq<string>, c: char): string {
    if parts == [] then ""
    else if |parts| == 1 then parts[0]
    else parts[0] + [c] + Join(parts[1..], c)
  }

  function Last<T>(s: seq<T>): T
    requires |s| > 0
  {
    s[|s| - 1]
  }

  /** The last piece changes with the first character only if there is no separator after it. */
  lemma SplitHead(t: string, c: char)
    requires t != ""
    ensures var rest := Split(t[1..], c);
            if t[0] == c then |Split(t, c)| == |rest| + 1 && Last(Split(t, c)) == Last(rest)
            else |Split(t, c)| == |rest| && Last(Split(t, c)) == if |rest| == 1 then [t[0]] + rest[0] else Last(rest)
  {
  }

  predicate EndsWith(s: string, c: char) {
    |s| > 0 && s[|s| - 1] == c
  }

  lemma Regroup<T>(a: seq<T>, b: seq<T>, c: seq<T>)
    ensures (a + b) + c == a + (b + c)
  {
  }

  /** The pieces of `p + q`, from the pieces of `p` and of `q`. */
  function Glue(p: seq<string>, q: seq<string>): (parts: seq<string>)
    requires |p| > 0 && |q| > 0
  {
    p[..|p| - 1] + [Last(p) + q[0]] + q[1..]
  }

  lemma {:induction false} SplitConcat(p: string, q: string, c: char)
    ensures Split(p + q, c) == Glue(Split(p, c), Split(q, c))
  {
    if p == [] {
      assert p + q == q;
      assert "" + Split(q, c)[0] == Split(q, c)[0];
    } else {
      SplitConcat(p[1..], q, c);
      assert (p + q)[1..] == p[1..] + q;
      GlueHead(Split(p[1..], c), Split(q, c), p[0], c);
    }
  }

  lemma GlueHead(p: seq<string>, q: seq<string>, x: char, c: char)
    requires |p| > 0 && |q| > 0
    ensures Glue([""] + p, q) == [""] + Glue(p, q)
    ensures Glue([[x] + p[0]] + p[1..], q) == [[x] + Glue(p, q)[0]] + Glue(p, q)[1..]
  {
    if |p| == 1 {
      assert [x] + (p[0] + q[0]) == ([x] + p[0]) + q[0];
    }
  }

  /** No piece holds the separator, and there is one more piece than separators. */
  lemma {:induction false} SplitPieces(s: string, c: char)
    ensures forall k :: 0 <= k < |Split(s, c)| ==> c !in Split(s, c)[k]
    ensures |Split(s, c)| == 1 <==> c !in s
    ensures c !in s ==> Split(s, c) == [s]
  {
    if s != [] {
      SplitPieces(s[1..], c);
      assert s == [s[0]] + s[1..];
    }
  }

  lemma {:induction false} SplitSeparator(q: string, c: char)
    ensures Split([c] + q, c) == [""] + Split(q, c)
  {
    assert ([c] + q)[1..] == q;
  }

  /** Splitting a joined list gives the list back, as long as no piece holds the separator. */
  lemma {:induction false} SplitJoin(parts: seq<string>, c: char)
    requires |parts| > 0
    requires forall k :: 0 <= k < |parts| ==> c !in parts[k]
    ensures Split(Join(parts, c), c) == parts
  {
    SplitPieces(parts[0], c);
    if |parts| > 1 {
      var rest := Join(parts[1..], c);
      SplitJoin(parts[1..], c);
      SplitSeparator(rest, c);
      SplitConcat(parts[0], [c] + rest, c);
      assert parts[0] + [c] + rest == parts[0] + ([c] + rest);
      assert parts[0] + "" == parts[0];
      assert parts == [parts[0]] + parts[1..];
    } else {
      assert parts == [parts[0]];
    }
  }

  lemma {:induction false} JoinSplit(s: string, c: char)
    ensures Join(Split(s, c), c) == s
  {
    if s != [] {
      JoinSplit(s[1..], c);
      var rest := Split(s[1..], c);
      assert ([""] + rest)[1..] == rest;
      assert ([[s[0]] + rest[0]] + rest[1..])[1..] == rest[1..];
      assert s == [s[0]] + s[1..];
    }
  }
}
