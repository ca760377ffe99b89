/**
 * The overview's attention list (`backend/src/overview/overview.service.ts`).
 * The incidents come from the database already cut to eight, in the database's
 * order; the server items are added, the whole is sorted in the screen's order
 * and cut to eight again.
 */
module Overview {
  import opened Wrappers

  const MAX_ATTENTION: nat := 8

  datatype Kind = IncidentKind | UnreachableKind | BackupKind

  /** `at` is a moment; `None` is the null that the sort reads as the empty string, older than any date. */
  datatype Item = Item(kind: Kind, critical: bool, summary: string, server: Option<string>, at: Option<int>)

  datatype Incident = Incident(severity: string, startsAt: int, summary: Option<string>, alertName: string, server: Option<string>)

  datatype Server = Server(name: string, stack: bool, lastError: Option<string>, lastSeenAt: Option<int>,
                           lastBackupStatus: Option<string>)

  function ItemOf(incident: Incident): Item {
    Item(IncidentKind, incident.severity == "critical", incident.summary.GetOr(incident.alertName), incident.server,
         Some(incident.startsAt))
  }

  function Items(incidents: seq<Incident>): seq<Item> {
    if incidents == [] then [] else [ItemOf(incidents[0])] + Items(incidents[1..])
  }

  function Unreachable(servers: seq<Server>): seq<Item> {
    if servers == [] then []
    else
      var s := servers[0];
      (if s.stack && s.lastError.GetOr("") != ""
       then [Item(UnreachableKind, true, "atalaya cannot read " + s.name + ": " + s.lastError.value, Some(s.name), s.lastSeenAt)]
       else [])
      + Unreachable(servers[1..])
  }

  function NeverBackedUp(servers: seq<Server>): seq<Item> {
    if servers == [] then []
    else
      var s := servers[0];
      (if s.stack && s.lastBackupStatus.GetOr("") == ""
       then [Item(BackupKind, false, s.name + " has never reported a backup", Some(s.name), None)]
       else [])
      + NeverBackedUp(servers[1..])
  }

  function ServerItems(servers: seq<Server>): seq<Item> {
    Unreachable(servers) + NeverBackedUp(servers)
  }

  // ---------------------------------------------------------------------------
  // Which items there are, told from the incidents and the servers.

  predicate ShowsIncident(item: Item, incident: Incident) {
    && item.kind == IncidentKind && (item.critical <==> incident.severity == "critical")
    && (incident.summary.Some? ==> item.summary == incident.summary.value)
    && (incident.summary == None ==> item.summary == incident.alertName)
    && item.server == incident.server && item.at == Some(incident.startsAt)
  }

  /** A stack server whose last read failed with a message, since it was last seen. */
  predicate ShowsUnreachable(item: Item, s: Server) {
    && s.stack && s.lastError.Some? && s.lastError.value != ""
    && item == Item(UnreachableKind, true, "atalaya cannot read " + s.name + ": " + s.lastError.value, Some(s.name), s.lastSeenAt)
  }

  /** A stack server that has no backup status, or an empty one. */
  predicate ShowsNoBackup(item: Item, s: Server) {
    && s.stack && (s.lastBackupStatus == None || s.lastBackupStatus == Some(""))
    && item == Item(BackupKind, false, s.name + " has never reported a backup", Some(s.name), None)
  }

  lemma {:induction false} UnreachableTells(servers: seq<Server>, item: Item)
    ensures item in Unreachable(servers) <==> exists i :: 0 <= i < |servers| && ShowsUnreachable(item, servers[i])
  {
    if servers != [] {
      UnreachableTells(servers[1..], item);
      assert forall i :: 0 < i < |servers| ==> servers[i] == servers[1..][i - 1];
    }
  }

  lemma {:induction false} NeverBackedUpTells(servers: seq<Server>, item: Item)
    ensures item in NeverBackedUp(servers) <==> exists i :: 0 <= i < |servers| && ShowsNoBackup(item, servers[i])
  {
    if servers != [] {
      NeverBackedUpTells(servers[1..], item);
      assert forall i :: 0 < i < |servers| ==> servers[i] == servers[1..][i - 1];
    }
  }

  lemma {:induction false} ItemsTell(incidents: seq<Incident>, item: Item)
    ensures item in Items(incidents) <==> exists i :: 0 <= i < |incidents| && ShowsIncident(item, incidents[i])
  {
    if incidents != [] {
      ItemsTell(incidents[1..], item);
      assert forall i :: 0 < i < |incidents| ==> incidents[i] == incidents[1..][i - 1];
      assert item == ItemOf(incidents[0]) <==> ShowsIncident(item, incidents[0]);
    }
  }

  // ---------------------------------------------------------------------------
  // The screen's order: critical first, then newest. `sort` is stable.

  predicate Newer(a: Option<int>, b: Option<int>) {
    a.Some? && (b.None? || a.value > b.value)
  }

  /** The comparator is negative. */
  predicate Ahead(a: Item, b: Item) {
    if a.critical != b.critical then a.critical else Newer(a.at, b.at)
  }

  predicate Tied(a: Item, b: Item) {
    a.critical == b.critical && a.at == b.at
  }

  predicate Sorted(s: seq<Item>) {
    |s| <= 1 || (!Ahead(s[1], s[0]) && Sorted(s[1..]))
  }

  /** In front of the first one that is not ahead of it. */
  function Insert(x: Item, s: seq<Item>): seq<Item> {
    if s != [] && Ahead(s[0], x) then [s[0]] + Insert(x, s[1..]) else [x] + s
  }

  function Sort(s: seq<Item>): seq<Item> {
    if s == [] then [] else Insert(s[0], Sort(s[1..]))
  }

  /** The ones the comparator cannot tell from `x`, in their order. */
  function TiedWith(s: seq<Item>, x: Item): seq<Item> {
    if s == [] then [] else (if Tied(s[0], x) then [s[0]] else []) + TiedWith(s[1..], x)
  }

  lemma {:induction false} InsertSorts(x: Item, s: seq<Item>)
    requires Sorted(s)
    ensures Sorted(Insert(x, s))
  {
    if s != [] && Ahead(s[0], x) {
      InsertSorts(x, s[1..]);
      assert ([s[0]] + Insert(x, s[1..]))[1..] == Insert(x, s[1..]);
    } else {
      assert ([x] + s)[1..] == s;
    }
  }

  lemma {:induction false} InsertKeepsTies(x: Item, s: seq<Item>, y: Item)
    ensures TiedWith(Insert(x, s), y) == (if Tied(x, y) then [x] else []) + TiedWith(s, y)
  {
    if s != [] && Ahead(s[0], x) {
      InsertKeepsTies(x, s[1..], y);
      assert ([s[0]] + Insert(x, s[1..]))[1..] == Insert(x, s[1..]);
    } else {
      assert ([x] + s)[1..] == s;
    }
  }

  /** `Sort` sorts, and keeps what the comparator cannot tell apart in order. */
  lemma {:induction false} SortIsStable(s: seq<Item>, x: Item)
    ensures Sorted(Sort(s)) && TiedWith(Sort(s), x) == TiedWith(s, x)
  {
    if s != [] {
      SortIsStable(s[1..], x);
      InsertSorts(s[0], Sort(s[1..]));
      InsertKeepsTies(s[0], Sort(s[1..]), x);
    }
  }

  lemma {:induction false} NoneAheadOfFirst(s: seq<Item>, i: nat)
    requires Sorted(s) && i < |s|
    ensures !Ahead(s[i], s[0])
  {
    if i > 0 {
      NoneAheadOfFirst(s[1..], i - 1);
    }
  }

  lemma {:induction false} TiedIsThere(s: seq<Item>, x: Item) returns (i: nat)
    requires TiedWith(s, x) != []
    ensures i < |s| && Tied(s[i], x)
  {
    if Tied(s[0], x) {
      i := 0;
    } else {
      i := TiedIsThere(s[1..], x);
      i := i + 1;
    }
  }

  /** Two sorted lists with the same ties begin with the same item. */
  lemma SameFirst(s: seq<Item>, t: seq<Item>)
    requires Sorted(s) && Sorted(t) && s != [] && t != []
    requires TiedWith(s, s[0]) == TiedWith(t, s[0]) && TiedWith(s, t[0]) == TiedWith(t, t[0])
    ensures s[0] == t[0]
  {
    var i := TiedIsThere(t, s[0]);
    NoneAheadOfFirst(t, i);
    var j := TiedIsThere(s, t[0]);
    NoneAheadOfFirst(s, j);
    assert Tied(s[0], t[0]);
    assert TiedWith(s, s[0])[0] == s[0] && TiedWith(t, s[0])[0] == t[0];
  }

  lemma TiedRest(s: seq<Item>, x: Item)
    requires s != []
    ensures (if Tied(s[0], x) then 1 else 0) <= |TiedWith(s, x)|
    ensures TiedWith(s[1..], x) == TiedWith(s, x)[if Tied(s[0], x) then 1 else 0..]
  {
  }

  ghost predicate SameTies(s: seq<Item>, t: seq<Item>) {
    forall x :: TiedWith(s, x) == TiedWith(t, x)
  }

  /** So there is only one stable sort: any sorted list that keeps the ties is `Sort`'s. */
  lemma {:induction false} StableSortIsUnique(s: seq<Item>, t: seq<Item>)
    requires Sorted(s) && Sorted(t) && SameTies(s, t)
    ensures s == t
  {
    if s == [] {
      if t != [] {
        assert TiedWith(s, t[0]) == [];
        assert false;
      }
    } else {
      assert TiedWith(s, s[0]) == TiedWith(t, s[0]) != [];
      SameFirst(s, t);
      forall x ensures TiedWith(s[1..], x) == TiedWith(t[1..], x) {
        assert TiedWith(s, x) == TiedWith(t, x);
        TiedRest(s, x);
        TiedRest(t, x);
      }
      StableSortIsUnique(s[1..], t[1..]);
    }
  }

  // ---------------------------------------------------------------------------
  // Cutting before the merge.

  function Take(s: seq<Item>, k: nat): seq<Item> {
    if |s| <= k then s else s[..k]
  }

  /** Two lists into one, the first's items in front on ties. */
  function Merge(a: seq<Item>, b: seq<Item>): seq<Item> {
    if a == [] then b
    else if b == [] then a
    else if Ahead(b[0], a[0]) then [b[0]] + Merge(a, b[1..])
    else [a[0]] + Merge(a[1..], b)
  }

  lemma {:induction false} InsertMerges(x: Item, a: seq<Item>, b: seq<Item>)
    requires Sorted([x] + a)
    ensures Insert(x, Merge(a, b)) == Merge([x] + a, b)
    decreases |b|
  {
    assert ([x] + a)[1..] == a;
    if b != [] && Ahead(b[0], x) {
      InsertMerges(x, a, b[1..]);
      MergeTakesSecond(a, b, x);
    } else {
      MergeTakesFirst(x, a, b);
    }
  }

  lemma MergeTakesSecond(a: seq<Item>, b: seq<Item>, x: Item)
    requires b != [] && Ahead(b[0], x) && (a == [] || !Ahead(a[0], x))
    ensures Merge(a, b) == [b[0]] + Merge(a, b[1..])
  {
    if a == [] {
      assert b == [b[0]] + b[1..];
    }
  }

  lemma MergeTakesFirst(x: Item, a: seq<Item>, b: seq<Item>)
    requires (b == [] || !Ahead(b[0], x)) && (a == [] || !Ahead(a[0], x))
    ensures Insert(x, Merge(a, b)) == [x] + Merge(a, b) == Merge([x] + a, b)
  {
    assert ([x] + a)[1..] == a;
  }

  /** A sorted list in front of any other is merged, not shuffled. */
  lemma {:induction false} SortedPrefixMerges(a: seq<Item>, s: seq<Item>)
    requires Sorted(a)
    ensures Sort(a + s) == Merge(a, Sort(s))
  {
    if a == [] {
      assert a + s == s;
    } else {
      assert (a + s)[1..] == a[1..] + s;
      SortedPrefixMerges(a[1..], s);
      assert [a[0]] + a[1..] == a;
      InsertMerges(a[0], a[1..], Sort(s));
    }
  }

  lemma TakeFrom(x: Item, s: seq<Item>, k: nat)
    requires k > 0
    ensures Take([x] + s, k) == [x] + Take(s, k - 1)
  {
  }

  lemma TakeRest(s: seq<Item>, k: nat)
    requires s != [] && k > 0
    ensures Take(s, k) != [] && Take(s, k)[0] == s[0] && Take(s, k)[1..] == Take(s[1..], k - 1)
  {
  }

  /** The first `k` of a merge need only the first `m` of its first list, if `m` is no less. */
  lemma {:induction false} MergeCut(a: seq<Item>, b: seq<Item>, m: nat, k: nat)
    requires k <= m
    ensures Take(Merge(Take(a, m), b), k) == Take(Merge(a, b), k)
    decreases |a| + |b|
  {
    if a == [] || k == 0 {
    } else if b == [] {
      assert Take(Take(a, m), k) == Take(a, k);
    } else {
      TakeRest(a, m);
      if Ahead(b[0], a[0]) {
        MergeCut(a, b[1..], m, k - 1);
        TakeFrom(b[0], Merge(a, b[1..]), k);
        TakeFrom(b[0], Merge(Take(a, m), b[1..]), k);
      } else {
        MergeCut(a[1..], b, m - 1, k - 1);
        TakeFrom(a[0], Merge(a[1..], b), k);
        TakeFrom(a[0], Merge(Take(a[1..], m - 1), b), k);
      }
    }
  }

  // ---------------------------------------------------------------------------
  // The database's order: the raw severity ascending, then newest first.

  /** `rank` is the collation: where each severity sorts. Nothing is said of incidents tied on both columns. */
  predicate Queried(rank: string -> int, incidents: seq<Incident>) {
    forall i, j :: 0 <= i < j < |incidents| ==> InQueryOrder(rank, incidents[i], incidents[j])
  }

  predicate InQueryOrder(rank: string -> int, a: Incident, b: Incident) {
    rank(a.severity) < rank(b.severity) || (rank(a.severity) == rank(b.severity) && a.startsAt >= b.startsAt)
  }

  function Attention(incidents: seq<Incident>, servers: seq<Server>): seq<Item> {
    Take(Sort(Items(incidents) + ServerItems(servers)), MAX_ATTENTION)
  }

  lemma {:induction false} InsertKeepsItems(x: Item, s: seq<Item>)
    ensures multiset(Insert(x, s)) == multiset(s) + multiset{x}
  {
    if s != [] && Ahead(s[0], x) {
      InsertKeepsItems(x, s[1..]);
      assert s == [s[0]] + s[1..];
    }
  }

  lemma {:induction false} SortKeepsItems(s: seq<Item>)
    ensures multiset(Sort(s)) == multiset(s)
  {
    if s != [] {
      SortKeepsItems(s[1..]);
      InsertKeepsItems(s[0], Sort(s[1..]));
      assert s == [s[0]] + s[1..];
    }
  }

  lemma {:induction false} LaterIsNotAhead(s: seq<Item>, i: nat, j: nat)
    requires Sorted(s) && i <= j < |s|
    ensures !Ahead(s[j], s[i])
  {
    if i == 0 {
      NoneAheadOfFirst(s, j);
    } else {
      LaterIsNotAhead(s[1..], i - 1, j - 1);
    }
  }

  /** Some incident, or some server, makes this item. */
  predicate Asks(item: Item, incidents: seq<Incident>, servers: seq<Server>) {
    || (exists i :: 0 <= i < |incidents| && ShowsIncident(item, incidents[i]))
    || (exists i :: 0 <= i < |servers| && ShowsUnreachable(item, servers[i]))
    || (exists i :: 0 <= i < |servers| && ShowsNoBackup(item, servers[i]))
  }

  lemma AsksIffListed(item: Item, incidents: seq<Incident>, servers: seq<Server>)
    ensures Asks(item, incidents, servers) <==> item in Sort(Items(incidents) + ServerItems(servers))
  {
    var all := Items(incidents) + ServerItems(servers);
    ItemsTell(incidents, item);
    UnreachableTells(servers, item);
    NeverBackedUpTells(servers, item);
    SortKeepsItems(all);
    assert item in all <==> item in multiset(all);
    assert item in Sort(all) <==> item in multiset(Sort(all));
  }

  /**
   * The list shows items of the incidents it was given, of servers that cannot be
   * read and of servers never backed up, and no others; and one it leaves out is
   * ahead of none it shows.
   */
  lemma AttentionShowsTheFirst(incidents: seq<Incident>, servers: seq<Server>, item: Item, k: nat)
    requires k < |Attention(incidents, servers)|
    ensures |Attention(incidents, servers)| <= 8
    ensures Asks(Attention(incidents, servers)[k], incidents, servers)
    ensures Asks(item, incidents, servers) && item !in Attention(incidents, servers) ==>
              |Attention(incidents, servers)| == 8 && !Ahead(item, Attention(incidents, servers)[k])
  {
    var sorted := Sort(Items(incidents) + ServerItems(servers));
    AsksIffListed(sorted[k], incidents, servers);
    AsksIffListed(item, incidents, servers);
    if Asks(item, incidents, servers) && item !in Attention(incidents, servers) {
      var j :| 0 <= j < |sorted| && sorted[j] == item;
      SortIsStable(Items(incidents) + ServerItems(servers), item);
      LaterIsNotAhead(sorted, k, j);
    }
  }

  function Cut(incidents: seq<Incident>): seq<Incident> {
    if |incidents| <= MAX_ATTENTION then incidents else incidents[..MAX_ATTENTION]
  }

  /** The mapping of severities keeps the database's order. */
  predicate Fits(rank: string -> int, severities: set<string>) {
    forall a, b :: a in severities && b in severities && a != b ==> FitsPair(rank, a, b)
  }

  predicate FitsPair(rank: string -> int, a: string, b: string) {
    rank(a) < rank(b) <==> a == "critical"
  }

  predicate Only(severities: set<string>, incidents: seq<Incident>) {
    forall i :: 0 <= i < |incidents| ==> incidents[i].severity in severities
  }

  lemma {:induction false} ItemsAt(incidents: seq<Incident>, i: nat)
    requires i < |incidents|
    ensures |Items(incidents)| == |incidents| && Items(incidents)[i] == ItemOf(incidents[i])
  {
    if i > 0 {
      ItemsAt(incidents[1..], i - 1);
    } else if |incidents| > 1 {
      ItemsAt(incidents[1..], 0);
    }
  }

  /** Then the query's order is already the screen's. */
  lemma {:induction false} QueriedIsSorted(rank: string -> int, severities: set<string>, incidents: seq<Incident>)
    requires Fits(rank, severities) && Only(severities, incidents) && Queried(rank, incidents)
    ensures Sorted(Items(incidents))
  {
    if |incidents| > 1 {
      var a, b := incidents[0], incidents[1];
      assert InQueryOrder(rank, a, b);
      if a.severity != b.severity {
        assert FitsPair(rank, a.severity, b.severity) && FitsPair(rank, b.severity, a.severity);
      }
      assert !Ahead(ItemOf(b), ItemOf(a));
      QueriedIsSorted(rank, severities, incidents[1..]);
      ItemsAt(incidents, 1);
    }
  }

  lemma {:induction false} ItemsCut(incidents: seq<Incident>, k: nat)
    requires k <= |incidents|
    ensures Items(incidents[..k]) == Take(Items(incidents), k)
  {
    if k == 0 {
      assert incidents[..k] == [];
    } else {
      ItemsCut(incidents[1..], k - 1);
      assert incidents[..k][1..] == incidents[1..][..k - 1];
      TakeFrom(ItemOf(incidents[0]), Items(incidents[1..]), k);
    }
  }

  lemma {:induction false} TakeSorted(s: seq<Item>, k: nat)
    requires Sorted(s)
    ensures Sorted(Take(s, k))
  {
    if k > 0 && |s| > 1 {
      TakeSorted(s[1..], k - 1);
      TakeRest(s, k);
      if k > 1 {
        TakeRest(s[1..], k - 1);
      }
    }
  }

  /** The early cut is harmless then: the eight shown are the eight of all the firing incidents. */
  lemma EarlyCutIsHarmless(rank: string -> int, severities: set<string>, incidents: seq<Incident>, servers: seq<Server>)
    requires Fits(rank, severities) && Only(severities, incidents) && Queried(rank, incidents)
    ensures Attention(Cut(incidents), servers) == Attention(incidents, servers)
  {
    var all, rest := Items(incidents), ServerItems(servers);
    QueriedIsSorted(rank, severities, incidents);
    if |incidents| > MAX_ATTENTION {
      ItemsCut(incidents, MAX_ATTENTION);
      TakeSorted(all, MAX_ATTENTION);
      SortedPrefixMerges(all, rest);
      SortedPrefixMerges(Take(all, MAX_ATTENTION), rest);
      MergeCut(all, Sort(rest), MAX_ATTENTION, MAX_ATTENTION);
    }
  }

  // ---------------------------------------------------------------------------
  // And only then.

  function Copies(x: Incident, k: nat): (s: seq<Incident>)
    ensures |s| == k && forall i :: 0 <= i < k ==> s[i] == x
  {
    if k == 0 then [] else [x] + Copies(x, k - 1)
  }

  /** The last item of all goes first when it is ahead of the others. */
  lemma {:induction false} LatecomerFirst(x: Incident, k: nat, y: Incident)
    requires Ahead(ItemOf(y), ItemOf(x))
    ensures Sort(Items(Copies(x, k) + [y])) == [ItemOf(y)] + Sort(Items(Copies(x, k)))
  {
    if k == 0 {
      assert Copies(x, 0) + [y] == [y] && [y][1..] == [];
      assert Items([y]) == [ItemOf(y)] && [ItemOf(y)][1..] == [];
    } else {
      var rest := Copies(x, k - 1);
      LatecomerFirst(x, k - 1, y);
      assert (Copies(x, k) + [y])[1..] == rest + [y];
      assert ([ItemOf(x)] + Items(rest + [y]))[1..] == Items(rest + [y]);
      assert ([ItemOf(y)] + Sort(Items(rest)))[1..] == Sort(Items(rest));
    }
  }

  lemma {:induction false} CopiesSortFirst(x: Incident, k: nat)
    requires k > 0
    ensures Sort(Items(Copies(x, k))) != [] && Sort(Items(Copies(x, k)))[0] == ItemOf(x)
  {
    var rest := Copies(x, k - 1);
    assert Copies(x, k)[1..] == rest;
    assert ([ItemOf(x)] + Items(rest))[1..] == Items(rest);
    if k > 1 {
      CopiesSortFirst(x, k - 1);
    }
  }

  /** Eight of `x` queried before a `y` that the screen puts first: the cut drops `y`, the top of the list. */
  lemma CutDropsTheFirst(rank: string -> int, x: Incident, y: Incident)
    requires InQueryOrder(rank, x, y) && Ahead(ItemOf(y), ItemOf(x))
    ensures var incidents := Copies(x, MAX_ATTENTION) + [y];
            Queried(rank, incidents) && Attention(Cut(incidents), []) != Attention(incidents, [])
  {
    var eight := Copies(x, MAX_ATTENTION);
    var incidents := eight + [y];
    assert Cut(incidents) == eight;
    assert Items(eight) + ServerItems([]) == Items(eight);
    assert Items(incidents) + ServerItems([]) == Items(incidents);
    LatecomerFirst(x, MAX_ATTENTION, y);
    CopiesSortFirst(x, MAX_ATTENTION);
    assert Attention(incidents, [])[0] == ItemOf(y);
    assert Attention(eight, [])[0] == ItemOf(x);
  }

  ghost predicate EarlyCutHarmless(rank: string -> int, severities: set<string>) {
    forall incidents, servers :: Only(severities, incidents) && Queried(rank, incidents) ==>
      Attention(Cut(incidents), servers) == Attention(incidents, servers)
  }

  lemma MisfitDropsTheFirst(rank: string -> int, severities: set<string>, a: string, b: string)
    requires a in severities && b in severities && a != b && !FitsPair(rank, a, b)
    ensures !EarlyCutHarmless(rank, severities)
  {
    var x, y: Incident;
    if a == "critical" {
      x := Incident(b, 1, None, "", None);
      y := Incident(a, 0, None, "", None);
    } else {
      x := Incident(a, 0, None, "", None);
      y := Incident(b, 1, None, "", None);
    }
    CutDropsTheFirst(rank, x, y);
    assert Only(severities, Copies(x, MAX_ATTENTION) + [y]);
  }

  /**
   * With incidents of these severities, the early cut never changes the screen
   * if and only if "critical" sorts before every other severity and no two
   * others sort apart.
   */
  lemma EarlyCutHarmlessIffFits(rank: string -> int, severities: set<string>)
    ensures EarlyCutHarmless(rank, severities) <==> Fits(rank, severities)
  {
    if Fits(rank, severities) {
      forall incidents, servers | Only(severities, incidents) && Queried(rank, incidents)
        ensures Attention(Cut(incidents), servers) == Attention(incidents, servers)
      {
        EarlyCutIsHarmless(rank, severities, incidents, servers);
      }
    } else {
      var a, b :| a in severities && b in severities && a != b && !FitsPair(rank, a, b);
      MisfitDropsTheFirst(rank, severities, a, b);
    }
  }

  /** The two severities the fleet's rules use fit under any collation that puts "critical" first. */
  lemma CriticalAndWarningFit(rank: string -> int)
    requires rank("critical") < rank("warning")
    ensures EarlyCutHarmless(rank, {"critical", "warning"})
  {
    EarlyCutHarmlessIffFits(rank, {"critical", "warning"});
  }

  /** A third one does not, wherever it sorts. */
  lemma ThirdSeverityMisfits(rank: string -> int, other: string)
    requires other != "critical" && other != "warning" && rank(other) != rank("warning")
    ensures !EarlyCutHarmless(rank, {"critical", "warning", other})
  {
    EarlyCutHarmlessIffFits(rank, {"critical", "warning", other});
    assert !FitsPair(rank, other, "warning") || !FitsPair(rank, "warning", other);
  }
}
