/** The panel's two-part keys, `server/instance`: locks and live states are both looked up by them. */
module LockKey {

  function Key(server: string, name: string): string {
    server + "/" + name
  }

  /** Two keys are one key only for the same server and name, as long as names hold no slash. */
  lemma {:induction false} KeyIsInjective(serverA: string, nameA: string, serverB: string, nameB: string)
    requires '/' !in nameA && '/' !in nameB
    requires Key(serverA, nameA) == Key(serverB, nameB)
    ensures serverA == serverB && nameA == nameB
  {
    var key := Key(serverA, nameA);
    var i, j := |serverA|, |serverB|;
    assert key[i] == '/' && key[j] == '/';
    assert forall k :: i < k < |key| ==> key[k] == nameA[k - i - 1];
    assert forall k :: j < k < |key| ==> key[k] == nameB[k - j - 1];
    assert i == j;
    assert serverA == key[..i] && serverB == key[..i];
    assert nameA == key[i + 1..] && nameB == key[i + 1..];
  }

  /** Without that, two different instances share a key. */
  lemma SlashedNamesCollide()
    ensures Key("a", "b/c") == Key("a/b", "c")
  {
    assert Key("a", "b/c") == "a/b/c" == Key("a/b", "c");
  }
}
