/**
 * Two screens resolve an `unknown` state against the live containers, each in
 * its own way: the server page asks about all of a server's instances
 * (`backend/src/servers/servers.service.ts`), the catalogue about the unknown
 * ones of every server at once, looked up again by `server/name`
 * (`backend/src/catalogue/catalogue.service.ts`). Both rest on
 * `MonitoringService.liveness` (`backend/src/monitoring/monitoring.service.ts`).
 */
module Liveness {
  import opened Wrappers
  import opened ContainerName
  import opened LockKey

  /** `None` is a column that is null; `answer` below is `None` when Prometheus does not answer. */
  datatype Row = Row(server: string, name: string, state: Option<string>)

  type Answers = map<string, seq<string>>

  datatype InstanceLiveness = InstanceLiveness(name: string, state: string, liveContainers: seq<string>)

  const UNKNOWN := Some("unknown")

  /** The containers of one instance, in the order they were reported. */
  function ContainersOf(live: seq<string>, name: string): seq<string>
    decreases |live|
  {
    if live == [] then []
    else
      var n := |live| - 1;
      ContainersOf(live[..n], name) + if InstanceOf(live[n]) == Some(name) then [live[n]] else []
  }

  function StateOf(live: seq<string>, name: string): string {
    if ContainersOf(live, name) != [] then "running" else "stopped"
  }

  /** They are the live containers whose name says they are the instance's, as compose names them. */
  lemma {:induction false} ContainersAreItsOwn(live: seq<string>, name: string, container: string)
    ensures container in ContainersOf(live, name) <==> container in live && BelongsTo(container, name)
    decreases |live|
  {
    if live != [] {
      var n := |live| - 1;
      ContainersAreItsOwn(live[..n], name, container);
      BelongsAsNamed(live[n], name);
      assert live == live[..n] + [live[n]];
    }
  }

  ghost predicate BelongsTo(container: string, name: string) {
    InstanceText(name) && exists service, n :: ServiceText(service) && Digits(n) && container == AppName(name, service, n)
  }

  lemma BelongsAsNamed(container: string, name: string)
    ensures InstanceOf(container) == Some(name) <==> BelongsTo(container, name)
  {
    if InstanceOf(container) == Some(name) {
      var service, n := InstanceOfReadsNaming(container);
    }
    if BelongsTo(container, name) {
      var service, n :| ServiceText(service) && Digits(n) && container == AppName(name, service, n);
      InstanceOfUndoesNaming(name, service, n);
    }
  }

  /** An instance is running exactly when some live container is named as one of its own, and stopped otherwise. */
  lemma RunningIffLive(live: seq<string>, name: string)
    ensures StateOf(live, name) == "running" <==> exists i :: 0 <= i < |live| && BelongsTo(live[i], name)
    ensures StateOf(live, name) != "running" ==> StateOf(live, name) == "stopped"
  {
    var mine := ContainersOf(live, name);
    assert "stopped" != "running";
    if mine != [] {
      ContainersAreItsOwn(live, name, mine[0]);
    }
    if i :| 0 <= i < |live| && BelongsTo(live[i], name) {
      ContainersAreItsOwn(live, name, live[i]);
    }
  }

  /** What a `Map` of lists holds for a key; nothing when the key is missing. */
  function Held(groups: map<string, seq<string>>, key: string): seq<string> {
    if key in groups then groups[key] else []
  }

  ghost predicate Grouped(live: seq<string>, groups: map<string, seq<string>>) {
    forall name :: Held(groups, name) == ContainersOf(live, name)
  }

  function GroupAlso(groups: map<string, seq<string>>, container: string): map<string, seq<string>> {
    match InstanceOf(container)
    case None => groups
    case Some(name) => groups[name := Held(groups, name) + [container]]
  }

  lemma GroupOneMore(live: seq<string>, i: nat, groups: map<string, seq<string>>)
    requires i < |live| && Grouped(live[..i], groups)
    ensures Grouped(live[..i + 1], GroupAlso(groups, live[i]))
  {
    assert live[..i + 1][..i] == live[..i];
    forall name ensures Held(GroupAlso(groups, live[i]), name) == ContainersOf(live[..i + 1], name) {
      assert Held(groups, name) == ContainersOf(live[..i], name);
    }
  }

  method GroupByInstance(live: seq<string>) returns (byInstance: map<string, seq<string>>)
    ensures Grouped(live, byInstance)
  {
    byInstance := map[];
    var i := 0;
    while i < |live|
      invariant 0 <= i <= |live|
      invariant Grouped(live[..i], byInstance)
    {
      GroupOneMore(live, i, byInstance);
      var name := InstanceOf(live[i]);
      if name.Some? {
        byInstance := byInstance[name.value := Held(byInstance, name.value) + [live[i]]];
      }
      i := i + 1;
    }
    assert live[..i] == live;
  }

  function AnswerFor(live: seq<string>, name: string): InstanceLiveness {
    InstanceLiveness(name, StateOf(live, name), ContainersOf(live, name))
  }

  /** Group the containers by instance, then answer each name in turn. */
  method LivenessOf(live: seq<string>, names: seq<string>) returns (answers: seq<InstanceLiveness>)
    ensures |answers| == |names|
    ensures forall i :: 0 <= i < |names| ==> answers[i] == AnswerFor(live, names[i])
  {
    var byInstance := GroupByInstance(live);
    answers := [];
    var i := 0;
    while i < |names|
      invariant 0 <= i <= |names| && |answers| == i
      invariant forall k :: 0 <= k < i ==> answers[k] == AnswerFor(live, names[k])
    {
      var mine := Held(byInstance, names[i]);
      answers := answers + [InstanceLiveness(names[i], if |mine| > 0 then "running" else "stopped", mine)];
      i := i + 1;
    }
  }

  // ---------------------------------------------------------------------------
  // The server page.

  /** `withLiveness`, for one of its rows: only an unknown state is resolved, and only if Prometheus answered. */
  function OnServerPage(row: Row, answers: Answers): Option<string> {
    if row.state == UNKNOWN && row.server in answers then Some(StateOf(answers[row.server], row.name)) else row.state
  }

  /**
   * What the page shows of a row, told from the containers: an unknown state is
   * running or stopped as the live containers of its server say, and any other
   * state, or one of a server that gave no answer, stays.
   */
  lemma ServerPageTells(row: Row, answers: Answers)
    ensures row.state != Some("unknown") || row.server !in answers ==> OnServerPage(row, answers) == row.state
    ensures row.state == Some("unknown") && row.server in answers ==>
              var live := answers[row.server];
              if exists i :: 0 <= i < |live| && BelongsTo(live[i], row.name) then OnServerPage(row, answers) == Some("running")
              else OnServerPage(row, answers) == Some("stopped")
  {
    if row.server in answers {
      RunningIffLive(answers[row.server], row.name);
    }
  }

  function Names(rows: seq<Row>): (names: seq<string>)
    ensures |names| == |rows| && forall i :: 0 <= i < |rows| ==> names[i] == rows[i].name
    decreases |rows|
  {
    if rows == [] then [] else Names(rows[..|rows| - 1]) + [rows[|rows| - 1].name]
  }

  /** `new Map(liveness.map(...))`: the states by name. */
  method StatesByName(live: seq<string>, names: seq<string>) returns (states: map<string, string>)
    ensures forall name :: name in states ==> states[name] == StateOf(live, name)
    ensures forall i :: 0 <= i < |names| ==> names[i] in states
  {
    states := map[];
    var liveness := LivenessOf(live, names);
    var i := 0;
    while i < |liveness|
      invariant 0 <= i <= |liveness|
      invariant forall name :: name in states ==> states[name] == StateOf(live, name)
      invariant forall k :: 0 <= k < i ==> names[k] in states
    {
      states := states[liveness[i].name := liveness[i].state];
      i := i + 1;
    }
  }

  function Shown(row: Row, live: map<string, string>): Option<string> {
    if row.state == UNKNOWN && row.name in live then Some(live[row.name]) else row.state
  }

  /** The page of one server: all its names are asked about at once, and only the unknown states are replaced. */
  method WithLiveness(server: string, rows: seq<Row>, answers: Answers) returns (shown: seq<Option<string>>)
    requires forall i :: 0 <= i < |rows| ==> rows[i].server == server
    ensures |shown| == |rows| && forall i :: 0 <= i < |rows| ==> shown[i] == OnServerPage(rows[i], answers)
  {
    var live: map<string, string> := map[];
    if server in answers {
      live := StatesByName(answers[server], Names(rows));
    }
    shown := [];
    var i := 0;
    while i < |rows|
      invariant 0 <= i <= |rows| && |shown| == i
      invariant forall k :: 0 <= k < i ==> shown[k] == OnServerPage(rows[k], answers)
    {
      assert Names(rows)[i] == rows[i].name;
      shown := shown + [Shown(rows[i], live)];
      i := i + 1;
    }
  }

  // ---------------------------------------------------------------------------
  // The catalogue.

  predicate Asked(row: Row, answers: Answers) {
    row.state == UNKNOWN && row.server in answers
  }

  /** The row asks for this entry. */
  predicate Gives(row: Row, answers: Answers, key: string, state: string) {
    Asked(row, answers) && Key(row.server, row.name) == key && StateOf(answers[row.server], row.name) == state
  }

  /** Some row asks for this entry. */
  predicate Comes(rows: seq<Row>, answers: Answers, key: string, state: string)
    decreases |rows|
  {
    rows != []
    && (Gives(rows[|rows| - 1], answers, key, state) || Comes(rows[..|rows| - 1], answers, key, state))
  }

  lemma {:induction false} RowComes(rows: seq<Row>, i: nat, answers: Answers, key: string, state: string)
    requires i < |rows| && Gives(rows[i], answers, key, state)
    ensures Comes(rows, answers, key, state)
    decreases |rows|
  {
    var n := |rows| - 1;
    if i < n {
      assert rows[..n][i] == rows[i];
      RowComes(rows[..n], i, answers, key, state);
    }
  }

  ghost predicate Sound(rows: seq<Row>, answers: Answers, resolved: map<string, string>) {
    forall key :: key in resolved ==> Comes(rows, answers, key, resolved[key])
  }

  predicate Covers(row: Row, answers: Answers, resolved: map<string, string>) {
    Asked(row, answers) ==> Key(row.server, row.name) in resolved
  }

  /**
   * Every entry comes from an unknown row of a server that answered, and every
   * such row has one. The servers answer in any order, so with two rows of one
   * key nothing says which is kept.
   */
  ghost predicate Resolves(rows: seq<Row>, answers: Answers, resolved: map<string, string>) {
    Sound(rows, answers, resolved) && forall i :: 0 <= i < |rows| ==> Covers(rows[i], answers, resolved)
  }

  /** The names to ask each server about, in row order. */
  function NamesFor(rows: seq<Row>, server: string): seq<string>
    decreases |rows|
  {
    if rows == [] then []
    else
      var n := |rows| - 1;
      NamesFor(rows[..n], server)
      + if rows[n].state == UNKNOWN && rows[n].server == server then [rows[n].name] else []
  }

  /** The row behind a name. */
  lemma {:induction false} NameHasRow(rows: seq<Row>, server: string, k: nat) returns (i: nat)
    requires k < |NamesFor(rows, server)|
    ensures i < |rows| && rows[i] == Row(server, NamesFor(rows, server)[k], UNKNOWN)
    decreases |rows|
  {
    var n := |rows| - 1;
    if k < |NamesFor(rows[..n], server)| {
      i := NameHasRow(rows[..n], server, k);
    } else {
      i := n;
    }
  }

  /** The name a row asks about. */
  lemma {:induction false} RowHasName(rows: seq<Row>, i: nat) returns (k: nat)
    requires i < |rows| && rows[i].state == UNKNOWN
    ensures k < |NamesFor(rows, rows[i].server)| && NamesFor(rows, rows[i].server)[k] == rows[i].name
    decreases |rows|
  {
    var n := |rows| - 1;
    if i < n {
      assert rows[..n][i] == rows[i];
      k := RowHasName(rows[..n], i);
    } else {
      k := |NamesFor(rows[..n], rows[i].server)|;
    }
  }

  ghost predicate AsksByServer(rows: seq<Row>, byServer: map<string, seq<string>>) {
    forall server :: Held(byServer, server) == NamesFor(rows, server)
  }

  function AskAlso(byServer: map<string, seq<string>>, row: Row): map<string, seq<string>> {
    if row.state == UNKNOWN then byServer[row.server := Held(byServer, row.server) + [row.name]] else byServer
  }

  lemma AskOneMore(rows: seq<Row>, i: nat, byServer: map<string, seq<string>>)
    requires i < |rows| && AsksByServer(rows[..i], byServer)
    ensures AsksByServer(rows[..i + 1], AskAlso(byServer, rows[i]))
  {
    assert rows[..i + 1][..i] == rows[..i];
    forall server ensures Held(AskAlso(byServer, rows[i]), server) == NamesFor(rows[..i + 1], server) {
      assert Held(byServer, server) == NamesFor(rows[..i], server);
    }
  }

  method GroupByServer(rows: seq<Row>) returns (byServer: map<string, seq<string>>)
    ensures AsksByServer(rows, byServer)
  {
    byServer := map[];
    var i := 0;
    while i < |rows|
      invariant 0 <= i <= |rows|
      invariant AsksByServer(rows[..i], byServer)
    {
      AskOneMore(rows, i, byServer);
      if rows[i].state == UNKNOWN {
        byServer := byServer[rows[i].server := Held(byServer, rows[i].server) + [rows[i].name]];
      }
      i := i + 1;
    }
    assert rows[..i] == rows;
  }

  /** Keys already there stay, and every name asked of the server has one. */
  ghost predicate Recorded(server: string, names: seq<string>, resolved: map<string, string>) {
    forall k :: 0 <= k < |names| ==> Key(server, names[k]) in resolved
  }

  lemma EntrySound(rows: seq<Row>, answers: Answers, server: string, k: nat, before: map<string, string>)
    requires server in answers && k < |NamesFor(rows, server)| && Sound(rows, answers, before)
    ensures var name := NamesFor(rows, server)[k];
            Sound(rows, answers, before[Key(server, name) := StateOf(answers[server], name)])
  {
    var name := NamesFor(rows, server)[k];
    var i := NameHasRow(rows, server, k);
    RowComes(rows, i, answers, Key(server, name), StateOf(answers[server], name));
  }

  method RecordAll(rows: seq<Row>, answers: Answers, server: string, names: seq<string>, before: map<string, string>)
    returns (resolved: map<string, string>)
    requires server in answers && names == NamesFor(rows, server) && Sound(rows, answers, before)
    ensures Sound(rows, answers, resolved) && before.Keys <= resolved.Keys
    ensures Recorded(server, names, resolved)
  {
    resolved := before;
    var live := LivenessOf(answers[server], names);
    var i := 0;
    while i < |live|
      invariant 0 <= i <= |live|
      invariant Sound(rows, answers, resolved) && before.Keys <= resolved.Keys
      invariant Recorded(server, names[..i], resolved)
    {
      EntrySound(rows, answers, server, i, resolved);
      resolved := resolved[Key(server, live[i].name) := live[i].state];
      i := i + 1;
    }
    assert names[..i] == names;
  }

  /** One pass groups the unknown names by server; a second asks each server that answers. */
  method LiveStates(rows: seq<Row>, answers: Answers) returns (resolved: map<string, string>)
    ensures Resolves(rows, answers, resolved)
  {
    var byServer := GroupByServer(rows);
    resolved := map[];
    var left := byServer.Keys;
    while left != {}
      invariant left <= byServer.Keys
      invariant Sound(rows, answers, resolved)
      invariant forall s :: s in answers && s !in left ==> Recorded(s, NamesFor(rows, s), resolved)
      decreases left
    {
      var server :| server in left;
      left := left - {server};
      assert Held(byServer, server) == NamesFor(rows, server);
      if server in answers {
        resolved := RecordAll(rows, answers, server, byServer[server], resolved);
      }
    }
    forall i | 0 <= i < |rows| ensures Covers(rows[i], answers, resolved) {
      AllRecorded(rows, answers, resolved, i);
    }
  }

  lemma AllRecorded(rows: seq<Row>, answers: Answers, resolved: map<string, string>, i: nat)
    requires i < |rows| && forall s :: s in answers ==> Recorded(s, NamesFor(rows, s), resolved)
    ensures Covers(rows[i], answers, resolved)
  {
    if Asked(rows[i], answers) {
      var k := RowHasName(rows, i);
      assert Recorded(rows[i].server, NamesFor(rows, rows[i].server), resolved);
    }
  }

  /** The catalogue's state for a row: looked up by key when unknown. */
  function InCatalogue(row: Row, resolved: map<string, string>): Option<string> {
    var key := Key(row.server, row.name);
    if row.state == UNKNOWN && key in resolved then Some(resolved[key]) else row.state
  }

  // ---------------------------------------------------------------------------
  // They agree.

  /** Two unknown rows of different instances with one key. */
  predicate Collide(a: Row, b: Row) {
    a.state == UNKNOWN && b.state == UNKNOWN && Key(a.server, a.name) == Key(b.server, b.name)
    && (a.server != b.server || a.name != b.name)
  }

  predicate Clear(rows: seq<Row>, row: Row) {
    forall i :: 0 <= i < |rows| ==> !Collide(rows[i], row)
  }

  predicate NoCollision(rows: seq<Row>) {
    forall j :: 0 <= j < |rows| ==> Clear(rows, rows[j])
  }

  /** When no other instance shares the row's key, an entry under it is about the row. */
  lemma {:induction false} OnlyOwnEntry(rows: seq<Row>, row: Row, answers: Answers, state: string)
    requires row.state == UNKNOWN && Clear(rows, row) && Comes(rows, answers, Key(row.server, row.name), state)
    ensures row.server in answers && state == StateOf(answers[row.server], row.name)
    decreases |rows|
  {
    var n := |rows| - 1;
    if Gives(rows[n], answers, Key(row.server, row.name), state) {
      assert !Collide(rows[n], row);
    } else {
      OnlyOwnEntry(rows[..n], row, answers, state);
    }
  }

  lemma ScreensAgree(rows: seq<Row>, answers: Answers, resolved: map<string, string>, k: nat)
    requires NoCollision(rows) && Resolves(rows, answers, resolved) && k < |rows|
    ensures InCatalogue(rows[k], resolved) == OnServerPage(rows[k], answers)
  {
    var row := rows[k];
    var key := Key(row.server, row.name);
    assert Covers(row, answers, resolved);
    if row.state == UNKNOWN && key in resolved {
      assert Clear(rows, row);
      OnlyOwnEntry(rows, row, answers, resolved[key]);
    }
  }

  /** On one server the key tells the name. */
  lemma KeyTellsName(server: string, a: string, b: string)
    requires Key(server, a) == Key(server, b)
    ensures a == b
  {
    var n := |server| + 1;
    assert Key(server, a)[n..] == a && Key(server, b)[n..] == b;
  }

  /** One container is enough: its instance runs, and without it the other does not. */
  lemma OneContainerRuns(name: string) returns (container: string)
    requires InstanceText(name)
    ensures StateOf([container], name) == "running"
  {
    container := AppName(name, "web", "1");
    InstanceOfUndoesNaming(name, "web", "1");
    assert [container][..0] == [];
  }

  /** With a collision there is an answer from Prometheus on which the screens differ. */
  lemma CollisionDisagrees(a: Row, b: Row, container: string)
    returns (answers: Answers)
    requires Collide(a, b) && StateOf([container], a.name) == "running"
    ensures Asked(a, answers) && Asked(b, answers) && OnServerPage(a, answers) != OnServerPage(b, answers)
  {
    if a.server == b.server {
      KeyTellsName(a.server, a.name, b.name);
    }
    answers := map[a.server := [container], b.server := []];
  }

  /** The catalogue shows what the server page shows, whatever is running and whichever servers answer. */
  ghost predicate AlwaysAgree(rows: seq<Row>) {
    forall answers, resolved, k: nat :: Resolves(rows, answers, resolved) && k < |rows| ==>
      InCatalogue(rows[k], resolved) == OnServerPage(rows[k], answers)
  }

  lemma CollisionBreaksAgreement(rows: seq<Row>, i: nat, j: nat)
    requires i < |rows| && j < |rows| && Collide(rows[i], rows[j]) && InstanceText(rows[i].name)
    ensures !AlwaysAgree(rows)
  {
    var container := OneContainerRuns(rows[i].name);
    var answers := CollisionDisagrees(rows[i], rows[j], container);
    var resolved := SomeResolution(rows, answers);
    assert Covers(rows[i], answers, resolved) && Covers(rows[j], answers, resolved);
    assert InCatalogue(rows[i], resolved) == InCatalogue(rows[j], resolved);
  }

  /**
   * The two screens agree on every row, whatever Prometheus says or fails to
   * say, if and only if no two unknown instances share a key.
   */
  lemma ScreensAgreeIffNoCollision(rows: seq<Row>)
    requires forall k :: 0 <= k < |rows| ==> InstanceText(rows[k].name)
    ensures NoCollision(rows) <==> AlwaysAgree(rows)
  {
    if NoCollision(rows) {
      forall answers, resolved, k: nat | Resolves(rows, answers, resolved) && k < |rows|
        ensures InCatalogue(rows[k], resolved) == OnServerPage(rows[k], answers)
      {
        ScreensAgree(rows, answers, resolved, k);
      }
    } else {
      var j :| 0 <= j < |rows| && !Clear(rows, rows[j]);
      var i :| 0 <= i < |rows| && Collide(rows[i], rows[j]);
      CollisionBreaksAgreement(rows, i, j);
    }
  }

  /** What is sound for the earlier rows stays sound, and the next row's own entry is sound too. */
  lemma SoundOneMore(rows: seq<Row>, answers: Answers, before: map<string, string>, row: Row, after: map<string, string>)
    requires Sound(rows, answers, before)
    requires after == if Asked(row, answers)
                      then before[Key(row.server, row.name) := StateOf(answers[row.server], row.name)] else before
    ensures Sound(rows + [row], answers, after)
  {
    forall key | key in after ensures Comes(rows + [row], answers, key, after[key]) {
      assert (rows + [row])[..|rows|] == rows;
    }
  }

  /** A resolution always exists: the last row of each key. */
  lemma {:induction false} SomeResolution(rows: seq<Row>, answers: Answers) returns (resolved: map<string, string>)
    ensures Resolves(rows, answers, resolved)
    decreases |rows|
  {
    if rows == [] {
      resolved := map[];
    } else {
      var n := |rows| - 1;
      var before := SomeResolution(rows[..n], answers);
      var row := rows[n];
      resolved := if Asked(row, answers)
                  then before[Key(row.server, row.name) := StateOf(answers[row.server], row.name)] else before;
      SoundOneMore(rows[..n], answers, before, row, resolved);
      assert rows == rows[..n] + [row];
      forall i | 0 <= i < |rows| ensures Covers(rows[i], answers, resolved) {
        if i < n { assert Covers(rows[..n][i], answers, before); }
      }
    }
  }

  /** The rows that do it: `b/c` on server `a`, and `c` on server `a/b`. */
  lemma SlashedNamesDisagree()
    ensures !AlwaysAgree([Row("a", "b/c", UNKNOWN), Row("a/b", "c", UNKNOWN)])
  {
    var rows := [Row("a", "b/c", UNKNOWN), Row("a/b", "c", UNKNOWN)];
    SlashedNamesCollide();
    assert |"a"| != |"a/b"|;
    assert Collide(rows[0], rows[1]);
    CollisionBreaksAgreement(rows, 0, 1);
  }

  /** Instance names have no slash in them, so in practice none collide. */
  lemma SlashFreeNamesNeverCollide(rows: seq<Row>)
    requires forall k :: 0 <= k < |rows| ==> '/' !in rows[k].name
    ensures NoCollision(rows)
  {
    forall j | 0 <= j < |rows| ensures Clear(rows, rows[j]) {
      forall i | 0 <= i < |rows| ensures !Collide(rows[i], rows[j]) {
        if Key(rows[i].server, rows[i].name) == Key(rows[j].server, rows[j].name) {
          KeyIsInjective(rows[i].server, rows[i].name, rows[j].server, rows[j].name);
        }
      }
    }
  }
}
