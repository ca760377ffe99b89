/**
 * The regular expressions the panel and the dispatcher check texts with, as
 * they are written there, and what it is to match one. The recognisers the
 * other modules use accept exactly what the expressions match.
 */
module Patterns {
  import opened Wrappers
  import opened SshCommands
  import opened InstanceRequest
  import Variables

  /** The characters from `lo` to `hi`. */
  datatype Range = Range(lo: char, hi: char)

  /** Characters of a class, at least and at most so many; one thing then another; or a thing that may be left out. */
  datatype Pattern = Of(ranges: set<Range>, least: nat, most: Option<nat>) | Then(first: Pattern, rest: Pattern) | Maybe(p: Pattern)

  predicate InClass(c: char, ranges: set<Range>) {
    exists r :: r in ranges && r.lo <= c <= r.hi
  }

  /** The whole text matches: every expression here stands between `^` and `$`. */
  predicate Matches(p: Pattern, s: string) {
    match p
    case Of(ranges, least, most) =>
      least <= |s| && (most.Some? ==> |s| <= most.value) && forall i :: 0 <= i < |s| ==> InClass(s[i], ranges)
    case Then(first, rest) => exists k :: 0 <= k <= |s| && Matches(first, s[..k]) && Matches(rest, s[k..])
    case Maybe(p) => s == "" || Matches(p, s)
  }

  function Char(c: char): Range {
    Range(c, c)
  }

  const LOWER_DIGIT := {Range('a', 'z'), Range('0', '9')}

  function One(ranges: set<Range>): Pattern {
    Of(ranges, 1, Some(1))
  }

  /** `^\/[A-Za-z0-9._\-/]*$` */
  const PATH := Then(One({Char('/')}), Of(LOWER_DIGIT + {Range('A', 'Z'), Char('.'), Char('_'), Char('-'), Char('/')}, 0, None))

  /** `^[a-z0-9][a-z0-9._-]*$` */
  const NAME := Then(One(LOWER_DIGIT), Of(LOWER_DIGIT + {Char('.'), Char('_'), Char('-')}, 0, None))

  /** `^[a-z0-9](?:[a-z0-9.-]{0,251}[a-z0-9])?$` */
  const DOMAIN := Then(One(LOWER_DIGIT), Maybe(Then(Of(LOWER_DIGIT + {Char('.'), Char('-')}, 0, Some(251)), One(LOWER_DIGIT))))

  /** `^[a-z0-9_]{1,64}$` */
  const DATABASE := Of(LOWER_DIGIT + {Char('_')}, 1, Some(64))

  /** `^[a-z0-9](?:[a-z0-9-]{0,30}[a-z0-9])?$` */
  const INSTANCE := Then(One(LOWER_DIGIT), Maybe(Then(Of(LOWER_DIGIT + {Char('-')}, 0, Some(30)), One(LOWER_DIGIT))))

  /** `^[A-Z][A-Z0-9_]*$` */
  const VARIABLE := Then(One({Range('A', 'Z')}), Of({Range('A', 'Z'), Range('0', '9'), Char('_')}, 0, None))

  // ---------------------------------------------------------------------------
  // How the shapes above match.

  lemma OneMatches(ranges: set<Range>, s: string)
    ensures Matches(One(ranges), s) <==> |s| == 1 && InClass(s[0], ranges)
  {
  }

  /** A first character of one class, the rest of another, however long. */
  lemma HeadThenRest(head: set<Range>, rest: Pattern, s: string)
    ensures Matches(Then(One(head), rest), s) <==> s != "" && InClass(s[0], head) && Matches(rest, s[1..])
  {
    if s != "" {
      OneMatches(head, s[..1]);
    }
    forall k | 0 <= k <= |s| && Matches(One(head), s[..k]) ensures k == 1 && s != "" && InClass(s[0], head) {
      OneMatches(head, s[..k]);
    }
    if s != "" && InClass(s[0], head) && Matches(rest, s[1..]) {
      assert Matches(One(head), s[..1]);
    }
  }

  /** Any number of one class up to a bound, then one last character of another. */
  lemma BodyThenLast(body: Pattern, last: set<Range>, s: string)
    ensures Matches(Then(body, One(last)), s) <==> s != "" && InClass(s[|s| - 1], last) && Matches(body, s[..|s| - 1])
  {
    var n := |s| - 1;
    if s != "" {
      OneMatches(last, s[n..]);
    }
    forall k | 0 <= k <= |s| && Matches(One(last), s[k..]) ensures k == n && s != "" && InClass(s[n], last) {
      OneMatches(last, s[k..]);
    }
    if s != "" && InClass(s[n], last) && Matches(body, s[..n]) {
      assert Matches(One(last), s[n..]);
    }
  }

  /** The shape of a domain and of an instance's name: one class inside, letters and digits at both ends. */
  lemma BetweenEnds(inside: set<Range>, most: nat, s: string)
    ensures Matches(Then(One(LOWER_DIGIT), Maybe(Then(Of(inside, 0, Some(most)), One(LOWER_DIGIT)))), s) <==>
            && s != "" && InClass(s[0], LOWER_DIGIT)
            && (|s| > 1 ==> |s| <= most + 2 && InClass(s[|s| - 1], LOWER_DIGIT) && forall i :: 1 <= i < |s| - 1 ==> InClass(s[i], inside))
  {
    var body := Then(Of(inside, 0, Some(most)), One(LOWER_DIGIT));
    HeadThenRest(LOWER_DIGIT, Maybe(body), s);
    if |s| > 1 {
      var rest := s[1..];
      BodyThenLast(Of(inside, 0, Some(most)), LOWER_DIGIT, rest);
      var middle := rest[..|rest| - 1];
      assert |middle| == |s| - 2 && forall i :: 0 <= i < |middle| ==> middle[i] == s[i + 1];
      assert forall i :: 1 <= i < |s| - 1 ==> s[i] == middle[i - 1];
    }
  }

  // ---------------------------------------------------------------------------
  // The recognisers.

  lemma LowerDigitClass(c: char)
    ensures InClass(c, LOWER_DIGIT) <==> LowerDigit(c)
  {
    assert Range('a', 'z') in LOWER_DIGIT && Range('0', '9') in LOWER_DIGIT;
  }

  lemma NameMatches(s: string)
    ensures SafeName(s) <==> Matches(NAME, s)
  {
    var inside := LOWER_DIGIT + {Char('.'), Char('_'), Char('-')};
    HeadThenRest(LOWER_DIGIT, Of(inside, 0, None), s);
    if s != "" { LowerDigitClass(s[0]); }
    forall c ensures InClass(c, inside) <==> SshCommands.NameChar(c) {
      assert Range('a', 'z') in inside && Range('0', '9') in inside && Char('.') in inside && Char('_') in inside && Char('-') in inside;
    }
  }

  lemma PathMatches(s: string)
    ensures SafePath(s) <==> Matches(PATH, s)
  {
    var inside := LOWER_DIGIT + {Range('A', 'Z'), Char('.'), Char('_'), Char('-'), Char('/')};
    HeadThenRest({Char('/')}, Of(inside, 0, None), s);
    assert Char('/') in {Char('/')};
    forall c ensures InClass(c, inside) <==> PathChar(c) {
      assert Range('a', 'z') in inside && Range('0', '9') in inside && Range('A', 'Z') in inside;
      assert Char('.') in inside && Char('_') in inside && Char('-') in inside && Char('/') in inside;
    }
  }

  lemma DomainMatches(s: string)
    ensures SafeDomain(s) <==> Matches(DOMAIN, s)
  {
    var inside := LOWER_DIGIT + {Char('.'), Char('-')};
    BetweenEnds(inside, 251, s);
    if s != "" {
      LowerDigitClass(s[0]);
      LowerDigitClass(s[|s| - 1]);
    }
    forall c ensures InClass(c, inside) <==> LowerDigit(c) || c == '.' || c == '-' {
      assert Range('a', 'z') in inside && Range('0', '9') in inside && Char('.') in inside && Char('-') in inside;
    }
  }

  lemma InstanceMatches(s: string)
    ensures InstanceName(s) <==> Matches(INSTANCE, s)
  {
    var inside := LOWER_DIGIT + {Char('-')};
    BetweenEnds(inside, 30, s);
    if s != "" {
      LowerDigitClass(s[0]);
      LowerDigitClass(s[|s| - 1]);
    }
    forall c ensures InClass(c, inside) <==> LowerDigit(c) || c == '-' {
      assert Range('a', 'z') in inside && Range('0', '9') in inside && Char('-') in inside;
    }
  }

  lemma DatabaseMatches(s: string)
    ensures SafeDatabase(s) <==> Matches(DATABASE, s)
  {
    var inside := LOWER_DIGIT + {Char('_')};
    forall c ensures InClass(c, inside) <==> LowerDigit(c) || c == '_' {
      assert Range('a', 'z') in inside && Range('0', '9') in inside && Char('_') in inside;
    }
  }

  lemma VariableMatches(s: string)
    ensures Variables.VariableName(s) <==> Matches(VARIABLE, s)
  {
    var inside := {Range('A', 'Z'), Range('0', '9'), Char('_')};
    HeadThenRest({Range('A', 'Z')}, Of(inside, 0, None), s);
    assert Range('A', 'Z') in {Range('A', 'Z')};
    forall c ensures InClass(c, inside) <==> Variables.NameChar(c) {
      assert Range('A', 'Z') in inside && Range('0', '9') in inside && Char('_') in inside;
    }
  }
}
