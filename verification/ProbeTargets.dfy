/**
 * The list of domains whose certificates are probed, derived from the cache
 * (`backend/src/registration/targets.service.ts`).
 */
module ProbeTargets {
  import opened Wrappers
  import opened Text
  import opened Inventory

  datatype Target = Target(domain: string, server: string, app: string)

  /** Which rows the query selects: enabled and deployed, on an enabled server. */
  predicate Probed(db: Database, key: InstanceKey) {
    && key in db.instances && db.instances[key].data.enabled && db.instances[key].data.version.Some?
    && key.0 in db.servers && db.servers[key.0].enabled
  }

  /** The rows in the order the database returns them, which the query does not fix. */
  predicate QueryOrder(db: Database, order: seq<InstanceKey>) {
    && (forall i :: 0 <= i < |order| ==> Probed(db, order[i]))
    && (forall key :: key in db.instances && Probed(db, key) ==> key in order)
  }

  /** `parseDomains`: text members only, and nothing from a column that is not a list. */
  function TextOnly(values: seq<Option<string>>): seq<string> {
    if values == [] then []
    else (if values[0].Some? then [values[0].value] else []) + TextOnly(values[1..])
  }

  function ParseDomains(text: DomainsText): seq<string> {
    if text.Listed? then TextOnly(text.values) else []
  }

  function ClaimsFor(key: InstanceKey, domains: seq<string>): seq<Target> {
    if domains == [] then [] else [Target(domains[0], key.0, key.1)] + ClaimsFor(key, domains[1..])
  }

  function ClaimsOf(db: Database, key: InstanceKey): seq<Target>
    requires key in db.instances
  {
    ClaimsFor(key, ParseDomains(db.instances[key].data.domains))
  }

  /** Every domain of every selected row, in query order, repeats and all. */
  function Claims(db: Database, order: seq<InstanceKey>): seq<Target>
    requires forall i :: 0 <= i < |order| ==> order[i] in db.instances
    decreases |order|
  {
    if order == [] then []
    else
      var n := |order| - 1;
      Claims(db, order[..n]) + ClaimsOf(db, order[n])
  }

  function DomainsOf(claims: seq<Target>): set<string>
    decreases |claims|
  {
    if claims == [] then {}
    else
      var n := |claims| - 1;
      DomainsOf(claims[..n]) + {claims[n].domain}
  }

  /** The first claim on each domain, in order. */
  function FirstClaims(claims: seq<Target>): seq<Target>
    decreases |claims|
  {
    if claims == [] then []
    else
      var n := |claims| - 1;
      FirstClaims(claims[..n]) + if claims[n].domain in DomainsOf(claims[..n]) then [] else [claims[n]]
  }

  lemma OneMoreClaim(claims: seq<Target>, claim: Target)
    ensures var all := claims + [claim];
            && DomainsOf(all) == DomainsOf(claims) + {claim.domain}
            && FirstClaims(all) == if claim.domain in DomainsOf(claims) then FirstClaims(claims) else FirstClaims(claims) + [claim]
  {
    assert (claims + [claim])[..|claims|] == claims;
    assert FirstClaims(claims) + [] == FirstClaims(claims);
  }

  method RegenerateDomains(db: Database, order: seq<InstanceKey>) returns (fileTargets: seq<Target>)
    requires forall i :: 0 <= i < |order| ==> order[i] in db.instances
    ensures fileTargets == FirstClaims(Claims(db, order))
  {
    var seen: set<string> := {};
    fileTargets := [];
    var i := 0;
    while i < |order|
      invariant 0 <= i <= |order|
      invariant seen == DomainsOf(Claims(db, order[..i]))
      invariant fileTargets == FirstClaims(Claims(db, order[..i]))
    {
      assert order[..i + 1][..i] == order[..i];
      fileTargets, seen := AddDomains(db, order[i], Claims(db, order[..i]), fileTargets, seen);
      i := i + 1;
    }
    assert order[..i] == order;
  }

  /** The inner loop: one row's domains, skipping those already listed. */
  method AddDomains(db: Database, key: InstanceKey, ghost before: seq<Target>, targets: seq<Target>, listed: set<string>)
    returns (fileTargets: seq<Target>, seen: set<string>)
    requires key in db.instances
    requires targets == FirstClaims(before) && listed == DomainsOf(before)
    ensures fileTargets == FirstClaims(before + ClaimsOf(db, key))
    ensures seen == DomainsOf(before + ClaimsOf(db, key))
  {
    fileTargets, seen := targets, listed;
    var domains := ParseDomains(db.instances[key].data.domains);
    ghost var done := before;
    var j := 0;
    while j < |domains|
      invariant 0 <= j <= |domains|
      invariant done + ClaimsFor(key, domains[j..]) == before + ClaimsOf(db, key)
      invariant seen == DomainsOf(done) && fileTargets == FirstClaims(done)
    {
      var target := Target(domains[j], key.0, key.1);
      assert domains[j..][1..] == domains[j + 1..];
      Regroup(done, [target], ClaimsFor(key, domains[j + 1..]));
      OneMoreClaim(done, target);
      done := done + [target];
      if domains[j] !in seen {
        seen := seen + {domains[j]};
        fileTargets := fileTargets + [target];
      }
      j := j + 1;
    }
    assert domains[j..] == [];
    assert done + [] == done;
  }

  // ---------------------------------------------------------------------------
  // What the list holds.

  lemma {:induction false} DomainsAreClaimed(claims: seq<Target>, domain: string)
    ensures domain in DomainsOf(claims) <==> exists i :: 0 <= i < |claims| && claims[i].domain == domain
    decreases |claims|
  {
    if claims != [] {
      var n := |claims| - 1;
      DomainsAreClaimed(claims[..n], domain);
      if domain in DomainsOf(claims[..n]) {
        var i :| 0 <= i < n && claims[..n][i].domain == domain;
        assert claims[i].domain == domain;
      }
      if i :| 0 <= i < |claims| && claims[i].domain == domain {
        if i < n { assert claims[..n][i].domain == domain; }
      }
    }
  }

  lemma {:induction false} FirstClaimsCover(claims: seq<Target>)
    ensures DomainsOf(FirstClaims(claims)) == DomainsOf(claims)
    decreases |claims|
  {
    if claims != [] {
      var n := |claims| - 1;
      FirstClaimsCover(claims[..n]);
      OneMoreClaim(FirstClaims(claims[..n]), claims[n]);
      assert FirstClaims(claims[..n]) + [] == FirstClaims(claims[..n]);
    }
  }

  lemma {:induction false} FirstClaimsDiffer(claims: seq<Target>, a: nat, b: nat)
    requires a < b < |FirstClaims(claims)|
    ensures FirstClaims(claims)[a].domain != FirstClaims(claims)[b].domain
    decreases |claims|
  {
    var n := |claims| - 1;
    var kept := FirstClaims(claims[..n]);
    if b < |kept| {
      FirstClaimsDiffer(claims[..n], a, b);
    } else {
      FirstClaimsCover(claims[..n]);
      DomainsAreClaimed(kept, kept[a].domain);
    }
  }

  /** The claim at `i` is the first on its domain. */
  predicate FirstAt(claims: seq<Target>, i: nat) {
    i < |claims| && forall j :: 0 <= j < i ==> claims[j].domain != claims[i].domain
  }

  lemma {:induction false} FirstClaimsAreFirst(claims: seq<Target>, k: nat) returns (i: nat)
    requires k < |FirstClaims(claims)|
    ensures FirstAt(claims, i) && claims[i] == FirstClaims(claims)[k]
    decreases |claims|
  {
    var n := |claims| - 1;
    var before := claims[..n];
    if k < |FirstClaims(before)| {
      i := FirstClaimsAreFirst(before, k);
      assert forall j :: 0 <= j <= i ==> claims[j] == before[j];
    } else {
      i := n;
      DomainsAreClaimed(before, claims[n].domain);
      assert forall j :: 0 <= j < n ==> claims[j] == before[j];
    }
  }

  /** This row declares this domain. */
  predicate Declares(db: Database, key: InstanceKey, domain: string) {
    key in db.instances && domain in ParseDomains(db.instances[key].data.domains)
  }

  lemma {:induction false} ClaimsForKey(key: InstanceKey, domains: seq<string>, t: Target)
    ensures t in ClaimsFor(key, domains) <==> (t.server, t.app) == key && t.domain in domains
    decreases |domains|
  {
    if domains != [] {
      ClaimsForKey(key, domains[1..], t);
      assert domains == [domains[0]] + domains[1..];
    }
  }

  lemma ClaimsOfRow(db: Database, key: InstanceKey, t: Target)
    requires key in db.instances
    ensures t in ClaimsOf(db, key) <==> (t.server, t.app) == key && Declares(db, key, t.domain)
  {
    ClaimsForKey(key, ParseDomains(db.instances[key].data.domains), t);
  }

  lemma {:induction false} ClaimsComeFromRows(db: Database, order: seq<InstanceKey>, t: Target)
    requires forall i :: 0 <= i < |order| ==> order[i] in db.instances
    ensures t in Claims(db, order) <==> (t.server, t.app) in order && Declares(db, (t.server, t.app), t.domain)
    decreases |order|
  {
    if order != [] {
      var n := |order| - 1;
      ClaimsComeFromRows(db, order[..n], t);
      ClaimsOfRow(db, order[n], t);
      assert order == order[..n] + [order[n]];
    }
  }

  predicate Distinct(probes: seq<Target>) {
    forall a, b :: 0 <= a < b < |probes| ==> probes[a].domain != probes[b].domain
  }

  /**
   * The list holds each domain of an enabled, deployed instance on an enabled
   * server, exactly once, and nothing else.
   */
  lemma ProbesAreTheDeployedDomains(db: Database, order: seq<InstanceKey>, domain: string)
    requires QueryOrder(db, order)
    ensures var probes := FirstClaims(Claims(db, order));
            Distinct(probes)
            && ((exists k :: 0 <= k < |probes| && probes[k].domain == domain)
                <==> exists key :: Probed(db, key) && Declares(db, key, domain))
  {
    var claims := Claims(db, order);
    var probes := FirstClaims(claims);
    FirstClaimsCover(claims);
    DomainsAreClaimed(probes, domain);
    DomainsAreClaimed(claims, domain);
    forall a, b | 0 <= a < b < |probes| ensures probes[a].domain != probes[b].domain {
      FirstClaimsDiffer(claims, a, b);
    }
    if domain in DomainsOf(claims) {
      var i :| 0 <= i < |claims| && claims[i].domain == domain;
      ClaimsComeFromRows(db, order, claims[i]);
      assert Probed(db, (claims[i].server, claims[i].app));
    }
    if key :| Probed(db, key) && Declares(db, key, domain) {
      var t := Target(domain, key.0, key.1);
      ClaimsComeFromRows(db, order, t);
      assert t in claims;
    }
  }

  /** The first row, in query order, that declares the domain a probe is for. */
  predicate FirstRow(db: Database, order: seq<InstanceKey>, r: nat, t: Target) {
    && r < |order| && order[r] == (t.server, t.app) && Declares(db, order[r], t.domain)
    && forall q :: 0 <= q < r ==> !Declares(db, order[q], t.domain)
  }

  /** A probe is attributed to the first row, in query order, that declares its domain. */
  lemma {:induction false} ProbeNamesFirstRow(db: Database, order: seq<InstanceKey>, k: nat) returns (r: nat)
    requires forall i :: 0 <= i < |order| ==> order[i] in db.instances
    requires k < |FirstClaims(Claims(db, order))|
    ensures FirstRow(db, order, r, FirstClaims(Claims(db, order))[k])
    decreases |order|
  {
    var i := FirstClaimsAreFirst(Claims(db, order), k);
    r := RowOfFirstClaim(db, order, i);
  }

  lemma FirstRowExtends(db: Database, order: seq<InstanceKey>, n: nat, r: nat, t: Target)
    requires n <= |order| && FirstRow(db, order[..n], r, t)
    ensures FirstRow(db, order, r, t)
  {
    assert forall q :: 0 <= q <= r ==> order[q] == order[..n][q];
  }

  lemma FirstAtPrefix(before: seq<Target>, claims: seq<Target>, i: nat)
    requires before <= claims && i < |before| && FirstAt(claims, i)
    ensures FirstAt(before, i) && before[i] == claims[i]
  {
    assert forall j :: 0 <= j <= i ==> before[j] == claims[j];
  }

  lemma {:induction false} RowOfFirstClaim(db: Database, order: seq<InstanceKey>, i: nat) returns (r: nat)
    requires forall q :: 0 <= q < |order| ==> order[q] in db.instances
    requires FirstAt(Claims(db, order), i)
    ensures FirstRow(db, order, r, Claims(db, order)[i])
    decreases |order|
  {
    var n := |order| - 1;
    var claims, before := Claims(db, order), Claims(db, order[..n]);
    var t := claims[i];
    if i < |before| {
      FirstAtPrefix(before, claims, i);
      r := RowOfFirstClaim(db, order[..n], i);
      FirstRowExtends(db, order, n, r, t);
    } else {
      r := n;
      LastRowClaims(db, order[n], before, t, i);
      forall q | 0 <= q < n ensures !Declares(db, order[q], t.domain) {
        NotClaimedBefore(db, order[..n], t, claims, i, q);
      }
    }
  }

  lemma LastRowClaims(db: Database, key: InstanceKey, before: seq<Target>, t: Target, i: nat)
    requires key in db.instances && |before| <= i < |before + ClaimsOf(db, key)|
    requires (before + ClaimsOf(db, key))[i] == t
    ensures key == (t.server, t.app) && Declares(db, key, t.domain)
  {
    assert ClaimsOf(db, key)[i - |before|] == t;
    ClaimsOfRow(db, key, t);
  }

  lemma NotClaimedBefore(db: Database, order: seq<InstanceKey>, t: Target, claims: seq<Target>, i: nat, q: nat)
    requires forall p :: 0 <= p < |order| ==> order[p] in db.instances
    requires Claims(db, order) <= claims && |Claims(db, order)| <= i && FirstAt(claims, i) && claims[i] == t
    requires q < |order|
    ensures !Declares(db, order[q], t.domain)
  {
    if Declares(db, order[q], t.domain) {
      var u := Target(t.domain, order[q].0, order[q].1);
      ClaimsComeFromRows(db, order, u);
    }
  }

  // ---------------------------------------------------------------------------
  // What the save wrote is what the list reads.

  lemma {:induction false} TextOnlyKeepsText(values: seq<Option<string>>, domains: seq<string>)
    requires |values| == |domains| && forall k :: 0 <= k < |domains| ==> values[k] == Some(domains[k])
    ensures TextOnly(values) == domains
    decreases |domains|
  {
    if domains != [] {
      TextOnlyKeepsText(values[1..], domains[1..]);
    }
  }

  /** What the save wrote in the column, the probe list reads back. */
  lemma ParseUndoesStringify(text: DomainsText, domains: seq<string>)
    requires DomainsReported(text, domains)
    ensures ParseDomains(text) == domains
  {
    TextOnlyKeepsText(text.values, domains);
  }

  /** Of any other column it reads the members that are text, and nothing of one that is no list. */
  lemma {:induction false} ParseReadsTextOnly(text: DomainsText, domain: string)
    ensures domain in ParseDomains(text) <==> text.Listed? && Some(domain) in text.values
    decreases if text.Listed? then |text.values| else 0
  {
    if text.Listed? && text.values != [] {
      ParseReadsTextOnly(Listed(text.values[1..]), domain);
      assert text.values == [text.values[0]] + text.values[1..];
    }
  }
}
