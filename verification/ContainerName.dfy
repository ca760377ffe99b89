/**
 * Which instance, or which engine service, a container belongs to
 * (`backend/src/monitoring/container-name.ts`).
 */
module ContainerName {
  import opened Wrappers
  import opened Text

  /** What `.` in a regular expression does not match. */
  predicate LineBreak(c: char) {
    c == '\n' || c == '\r' || c == '\U{2028}' || c == '\U{2029}'
  }

  predicate Digits(s: string) {
    s != "" && forall i :: 0 <= i < |s| ==> '0' <= s[i] <= '9'
  }

  predicate InstanceText(s: string) {
    s != "" && forall i :: 0 <= i < |s| ==> !LineBreak(s[i])
  }

  predicate ServiceText(s: string) {
    s != "" && '-' !in s
  }

  /** The name compose gives: `app-<instance>-<service>-<n>`. */
  function AppName(instance: string, service: string, n: string): string {
    "app" + "-" + (instance + "-" + (service + "-" + n))
  }

  function EngineName(service: string, n: string): string {
    "stack" + "-" + (service + "-" + n)
  }

  function InstanceOf(container: string): Option<string> {
    var parts := Split(container, '-');
    var n := |parts|;
    if n >= 4 && parts[0] == "app" && Digits(parts[n - 1]) && parts[n - 2] != "" then
      var instance := Join(parts[1..n - 2], '-');
      if InstanceText(instance) then Some(instance) else None
    else None
  }

  function EngineServiceOf(container: string): Option<string> {
    var parts := Split(container, '-');
    if |parts| == 3 && parts[0] == "stack" && parts[1] != "" && Digits(parts[2]) then Some(parts[1]) else None
  }

  lemma SplitBetween(a: string, b: string, c: char)
    ensures Split(a + [c] + b, c) == Split(a, c) + Split(b, c)
  {
    SplitConcat(a, [c] + b, c);
    SplitSeparator(b, c);
    Regroup(a, [c], b);
    assert Last(Split(a, c)) + "" == Last(Split(a, c));
  }

  lemma {:induction false} JoinAround(first: string, middle: seq<string>, last: string, c: char)
    requires middle != []
    ensures Join([first] + middle + [last], c) == first + [c] + (Join(middle, c) + [c] + last)
  {
    assert ([first] + middle + [last])[1..] == middle + [last];
    JoinEnd(middle, last, c);
  }

  lemma {:induction false} JoinEnd(parts: seq<string>, last: string, c: char)
    requires parts != []
    ensures Join(parts + [last], c) == Join(parts, c) + [c] + last
  {
    if |parts| > 1 {
      assert (parts + [last])[1..] == parts[1..] + [last];
      JoinEnd(parts[1..], last, c);
    }
  }

  lemma AppNameParts(instance: string, service: string, n: string)
    requires ServiceText(service) && '-' !in n
    ensures Split(AppName(instance, service, n), '-') == ["app"] + Split(instance, '-') + [service, n]
  {
    SplitPieces("app", '-');
    SplitPieces(service, '-');
    SplitPieces(n, '-');
    SplitBetween(service, n, '-');
    SplitBetween(instance, service + "-" + n, '-');
    SplitBetween("app", instance + "-" + (service + "-" + n), '-');
    assert [service] + [n] == [service, n];
  }

  lemma DigitsHaveNoDash(n: string)
    requires Digits(n)
    ensures '-' !in n
  {
  }

  /** The name is undone, for every instance name, dashes included. */
  lemma InstanceOfUndoesNaming(instance: string, service: string, n: string)
    requires InstanceText(instance) && ServiceText(service) && Digits(n)
    ensures InstanceOf(AppName(instance, service, n)) == Some(instance)
  {
    DigitsHaveNoDash(n);
    AppNameParts(instance, service, n);
    JoinSplit(instance, '-');
    var parts := Split(AppName(instance, service, n), '-');
    assert parts[1..|parts| - 2] == Split(instance, '-');
  }

  /** And only names of that form belong to an instance: the reading is exact. */
  lemma InstanceOfReadsNaming(container: string) returns (service: string, n: string)
    requires InstanceOf(container).Some?
    ensures InstanceText(InstanceOf(container).value) && ServiceText(service) && Digits(n)
    ensures container == AppName(InstanceOf(container).value, service, n)
  {
    var parts := Split(container, '-');
    var k := |parts|;
    service, n := parts[k - 2], parts[k - 1];
    SplitPieces(container, '-');
    JoinSplit(container, '-');
    var middle := parts[1..k - 2];
    assert parts == [parts[0]] + (middle + [service]) + [n];
    JoinAround(parts[0], middle + [service], n, '-');
    JoinEnd(middle, service, '-');
    var instance := Join(middle, '-');
    Regroup(instance + "-", service, "-");
    assert (instance + "-" + service) + "-" + n == instance + "-" + (service + "-" + n);
  }

  /** So a container has one instance only: a prefix of its name does not claim it. */
  lemma NamingIsUnambiguous(i: string, s: string, n: string, j: string, t: string, m: string)
    requires InstanceText(i) && ServiceText(s) && Digits(n)
    requires InstanceText(j) && ServiceText(t) && Digits(m)
    requires AppName(i, s, n) == AppName(j, t, m)
    ensures i == j && s == t && n == m
  {
    InstanceOfUndoesNaming(i, s, n);
    InstanceOfUndoesNaming(j, t, m);
    DigitsHaveNoDash(n);
    DigitsHaveNoDash(m);
    AppNameParts(i, s, n);
    AppNameParts(j, t, m);
  }

  lemma EngineServiceOfUndoesNaming(service: string, n: string)
    requires ServiceText(service) && Digits(n)
    ensures EngineServiceOf(EngineName(service, n)) == Some(service)
  {
    DigitsHaveNoDash(n);
    SplitPieces("stack", '-');
    SplitPieces(service, '-');
    SplitPieces(n, '-');
    SplitBetween(service, n, '-');
    SplitBetween("stack", service + "-" + n, '-');
    assert Split(EngineName(service, n), '-') == ["stack", service, n];
  }

  /** No container is both an instance's and the engine's. */
  lemma NeverBoth(container: string)
    ensures InstanceOf(container) == None || EngineServiceOf(container) == None
  {
    assert "app" != "stack";
  }
}
