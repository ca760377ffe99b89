/**
 * Any number of refreshes and of `refreshAll` sweeps, their turns interleaved
 * in any order over one cache and one targets directory
 * (`backend/src/inventory/inventory.service.ts`): the schedule, the two routes,
 * a missing instance and a creation all start them, and nothing keeps them
 * apart. What the panel can be seen to know after any run of them: the rows, and
 * the health of a server (`backend/src/servers/server-health.ts`).
 */
module RefreshRuns {
  import opened Wrappers
  import opened Inventory
  import opened Refresh

  /** A sweep, and the refreshes it called, in order. */
  datatype Sweep = Sweep(state: SweepState, calls: seq<nat>)

  datatype World = World(shared: Shared, refreshes: map<nat, RefreshState>, sweeps: map<nat, Sweep>)

  /** One turn of the event loop. Arriving ids are new ones. */
  datatype Turn =
    | Begin(id: nat, server: string)
    | On(id: nat, turn: RefreshTurn)
    | BeginSweep(sweep: nat, servers: seq<string>)
    | Continue(sweep: nat, id: nat)

  /** The process starts with nothing in flight; an earlier one may have left either file. */
  predicate Fresh(w: World) {
    && w.refreshes == map[] && w.sweeps == map[]
    && (w.shared.temporary.Some? ==> w.shared.temporary.value < |w.shared.contents|)
    && (w.shared.file.Some? ==> w.shared.file.value < |w.shared.contents|)
  }

  /** The turn is one that can come now; `Step` leaves the world alone otherwise. */
  predicate Happens(w: World, t: Turn) {
    t.On? && t.id in w.refreshes && Can(w.shared, w.refreshes[t.id], t.turn)
  }

  function Awaited(w: World, s: Sweep): Progress {
    if s.calls == [] || s.calls[|s.calls| - 1] !in w.refreshes then Reading
    else w.refreshes[s.calls[|s.calls| - 1]].progress
  }

  function Step(w: World, t: Turn): World {
    match t
    case Begin(id, server) =>
      if id in w.refreshes then w else w.(refreshes := w.refreshes[id := RefreshState(server, Asking)])
    case On(id, turn) =>
      if !Happens(w, t) then w
      else
        var step := RefreshStep(w.shared, w.refreshes[id], turn);
        w.(shared := step.0, refreshes := w.refreshes[id := step.1])
    case BeginSweep(sweep, servers) =>
      if sweep in w.sweeps || !DueList(w.shared.db, servers) then w
      else w.(sweeps := w.sweeps[sweep := Sweep(SweepState(servers, 0, [], false), [])])
    case Continue(sweep, id) =>
      if sweep !in w.sweeps || id in w.refreshes then w
      else
        var s := w.sweeps[sweep];
        var next := SweepStep(s.state, Awaited(w, s));
        if next.begun > s.state.begun && s.state.begun < |s.state.servers|
        then w.(refreshes := w.refreshes[id := RefreshState(s.state.servers[s.state.begun], Asking)],
                sweeps := w.sweeps[sweep := Sweep(next, s.calls + [id])])
        else w.(sweeps := w.sweeps[sweep := Sweep(next, s.calls)])
  }

  function Run(w: World, turns: seq<Turn>): World
    decreases |turns|
  {
    if turns == [] then w
    else
      var n := |turns| - 1;
      Step(Run(w, turns[..n]), turns[n])
  }

  predicate SameServers(a: Database, b: Database) {
    a.servers.Keys == b.servers.Keys
    && forall s :: s in a.servers ==> a.servers[s].kind == b.servers[s].kind && a.servers[s].enabled == b.servers[s].enabled
  }

  lemma RefreshKeepsServers(s: Shared, r: RefreshState, t: RefreshTurn)
    requires Can(s, r, t)
    ensures SameServers(s.db, RefreshStep(s, r, t).0.db) && RefreshStep(s, r, t).0.listed == s.listed
    ensures RefreshStep(s, r, t).1.server == r.server
  {
  }

  lemma {:induction false} RunKeepsServers(w: World, turns: seq<Turn>)
    ensures SameServers(w.shared.db, Run(w, turns).shared.db) && Run(w, turns).shared.listed == w.shared.listed
    decreases |turns|
  {
    if turns != [] {
      var n := |turns| - 1;
      var before := Run(w, turns[..n]);
      RunKeepsServers(w, turns[..n]);
      if Happens(before, turns[n]) {
        RefreshKeepsServers(before.shared, before.refreshes[turns[n].id], turns[n].turn);
      }
    }
  }

  // ---------------------------------------------------------------------------
  // The rows.

  /** The inventory this turn commits, and whose. */
  function CommitAt(w: World, t: Turn): Option<(string, seq<Item>)> {
    if Happens(w, t) && t.turn.Commits? then Some((w.refreshes[t.id].server, t.turn.items)) else None
  }

  /** The last inventory of a server that reached the database, in the order of the commits. */
  function LastCommit(w: World, turns: seq<Turn>, server: string): Option<seq<Item>>
    decreases |turns|
  {
    if turns == [] then None
    else
      var n := |turns| - 1;
      var commit := CommitAt(Run(w, turns[..n]), turns[n]);
      if commit.Some? && commit.value.0 == server then Some(commit.value.1) else LastCommit(w, turns[..n], server)
  }

  /** What a row says: what it said at the start, or what the last committed inventory of its server says. */
  predicate RowFollows(start: Database, commit: Option<seq<Item>>, key: InstanceKey, db: Database) {
    match commit
    case None =>
      (key in db.instances <==> key in start.instances)
      && (key in db.instances ==> db.instances[key] == start.instances[key])
    case Some(items) =>
      (key in db.instances <==> LastReport(items, key.1).Some?)
      && (key in db.instances ==> Reported(db.instances[key].data, LastReport(items, key.1).value))
  }

  lemma StepRowFollows(start: Database, commit: Option<seq<Item>>, key: InstanceKey, w: World, t: Turn)
    requires RowFollows(start, commit, key, w.shared.db)
    ensures var now := CommitAt(w, t);
            RowFollows(start, if now.Some? && now.value.0 == key.0 then Some(now.value.1) else commit, key, Step(w, t).shared.db)
  {
    if Happens(w, t) && t.turn.Commits? {
      SaveMeaning(w.shared.db, w.refreshes[t.id].server, t.turn.items, t.turn.now, key);
    }
  }

  /**
   * However refreshes overlap and whichever fail, the rows of every server are
   * those of the inventory committed last, or its first ones if none was.
   */
  lemma {:induction false} RowsFollowLastCommit(w: World, turns: seq<Turn>, key: InstanceKey)
    ensures RowFollows(w.shared.db, LastCommit(w, turns, key.0), key, Run(w, turns).shared.db)
    decreases |turns|
  {
    if turns != [] {
      var n := |turns| - 1;
      RowsFollowLastCommit(w, turns[..n], key);
      StepRowFollows(w.shared.db, LastCommit(w, turns[..n], key.0), key, Run(w, turns[..n]), turns[n]);
    }
  }

  /** And no two rows ever share an identity. */
  lemma {:induction false} RunKeepsIds(w: World, turns: seq<Turn>)
    requires FreshIds(w.shared.db)
    ensures FreshIds(Run(w, turns).shared.db)
    decreases |turns|
  {
    if turns != [] {
      var n := |turns| - 1;
      var before, t := Run(w, turns[..n]), turns[n];
      RunKeepsIds(w, turns[..n]);
      if Happens(before, t) && t.turn.Commits? {
        SavedKeepsIds(before.shared.db, before.refreshes[t.id].server, t.turn.items, t.turn.now);
      } else {
        SameRowsSameIds(before.shared.db, Run(w, turns).shared.db);
      }
    }
  }

  // ---------------------------------------------------------------------------
  // The health.

  datatype Health = NeverRead | Unreachable | Stale | Current

  const STALE_AFTER_MS := 15 * 60 * 1000

  function ServerHealth(lastSeenAt: Option<int>, lastError: Option<string>, now: int): Health {
    if lastError.Some? && lastError.value != "" then Unreachable
    else if lastSeenAt.None? then NeverRead
    else if now - lastSeenAt.value > STALE_AFTER_MS then Stale else Current
  }

  /** The error this turn writes, and where: a commit clears it, a record sets it. */
  function ErrorAt(w: World, t: Turn): Option<(string, Option<string>)> {
    if !Happens(w, t) then None
    else match t.turn
      case Commits(_, _) => Some((w.refreshes[t.id].server, None))
      case Records => Some((w.refreshes[t.id].server, Some(w.refreshes[t.id].progress.message)))
      case _ => None
  }

  function LastError(w: World, turns: seq<Turn>, server: string): Option<Option<string>>
    decreases |turns|
  {
    if turns == [] then None
    else
      var n := |turns| - 1;
      var write := ErrorAt(Run(w, turns[..n]), turns[n]);
      if write.Some? && write.value.0 == server then Some(write.value.1) else LastError(w, turns[..n], server)
  }

  lemma StepErrors(w: World, t: Turn, server: string)
    requires server in w.shared.db.servers
    ensures server in Step(w, t).shared.db.servers
    ensures var write := ErrorAt(w, t);
            Step(w, t).shared.db.servers[server].lastError ==
            if write.Some? && write.value.0 == server then write.value.1 else w.shared.db.servers[server].lastError
  {
  }

  /** A server's error is the last one written, by a commit or by the record of a failure. */
  lemma {:induction false} ErrorFollowsLastWrite(w: World, turns: seq<Turn>, server: string)
    requires server in w.shared.db.servers
    ensures server in Run(w, turns).shared.db.servers
    ensures Run(w, turns).shared.db.servers[server].lastError
         == match LastError(w, turns, server) { case None => w.shared.db.servers[server].lastError case Some(e) => e }
    decreases |turns|
  {
    if turns != [] {
      var n := |turns| - 1;
      ErrorFollowsLastWrite(w, turns[..n], server);
      StepErrors(Run(w, turns[..n]), turns[n], server);
    }
  }

  /**
   * A server some refresh has got anywhere with shows as unreachable exactly
   * when the last of all its commits and recorded failures is a failure with a
   * message.
   */
  lemma UnreachableIffLastWriteFailed(w: World, turns: seq<Turn>, server: string, now: int)
    requires server in w.shared.db.servers && LastError(w, turns, server).Some?
    ensures server in Run(w, turns).shared.db.servers
    ensures var row, last := Run(w, turns).shared.db.servers[server], LastError(w, turns, server).value;
            ServerHealth(row.lastSeenAt, row.lastError, now) == Unreachable <==> last.Some? && last.value != ""
  {
    ErrorFollowsLastWrite(w, turns, server);
  }

  /** When a server was last seen: the time of the last inventory committed for it. */
  function LastSeen(w: World, turns: seq<Turn>, server: string): Option<int>
    decreases |turns|
  {
    if turns == [] then None
    else
      var n := |turns| - 1;
      if CommitAt(Run(w, turns[..n]), turns[n]).Some? && CommitAt(Run(w, turns[..n]), turns[n]).value.0 == server
      then Some(turns[n].turn.now) else LastSeen(w, turns[..n], server)
  }

  lemma {:induction false} SeenFollowsLastCommit(w: World, turns: seq<Turn>, server: string)
    requires server in w.shared.db.servers
    ensures server in Run(w, turns).shared.db.servers
    ensures Run(w, turns).shared.db.servers[server].lastSeenAt
         == if LastSeen(w, turns, server).Some? then LastSeen(w, turns, server) else w.shared.db.servers[server].lastSeenAt
    decreases |turns|
  {
    if turns != [] {
      var n := |turns| - 1;
      SeenFollowsLastCommit(w, turns[..n], server);
      StepErrors(Run(w, turns[..n]), turns[n], server);
    }
  }

  /**
   * What a server nothing was known of shows, told from the turns: unreachable
   * if the last of its commits and recorded failures is a failure with a
   * message; otherwise never read until something is committed; then stale once
   * that is more than fifteen minutes ago.
   */
  lemma HealthIsTold(w: World, turns: seq<Turn>, server: string, now: int)
    requires server in w.shared.db.servers
    requires w.shared.db.servers[server].lastError == None && w.shared.db.servers[server].lastSeenAt == None
    ensures server in Run(w, turns).shared.db.servers
    ensures var row := Run(w, turns).shared.db.servers[server];
            var error, seen := LastError(w, turns, server), LastSeen(w, turns, server);
            ServerHealth(row.lastSeenAt, row.lastError, now) ==
            if error.Some? && error.value.Some? && error.value != Some("") then Unreachable
            else if seen == None then NeverRead
            else if seen.value < now - 900_000 then Stale else Current
  {
    ErrorFollowsLastWrite(w, turns, server);
    SeenFollowsLastCommit(w, turns, server);
  }

  lemma OneMore(w: World, turns: seq<Turn>, t: Turn)
    ensures Run(w, turns + [t]) == Step(Run(w, turns), t)
    ensures (turns + [t])[..|turns|] == turns && (turns + [t])[|turns|] == t
  {
    assert (turns + [t])[..|turns|] == turns;
  }

  /** What a refresh that fails after its commit leaves: the new rows, and a server shown as unreachable. */
  lemma CommittedYetUnreachable(w: World, id: nat, items: seq<Item>, seen: int, message: string, now: int, item: Item)
    requires w.shared.listed && id in w.refreshes && message != ""
    requires w.refreshes[id].progress.Reading? && w.refreshes[id].server in w.shared.db.servers
    requires LastReport(items, item.name) == Some(item)
    ensures var server := w.refreshes[id].server;
            var db := Run(w, [On(id, Commits(items, seen))] + [On(id, Fails(message))] + [On(id, Records)]).shared.db;
            && (server, item.name) in db.instances && Reported(db.instances[(server, item.name)].data, item)
            && server in db.servers
            && ServerHealth(db.servers[server].lastSeenAt, db.servers[server].lastError, now) == Unreachable
  {
    var server := w.refreshes[id].server;
    SaveMeaning(w.shared.db, server, items, seen, (server, item.name));
    OneMore(w, [], On(id, Commits(items, seen)));
    assert [] + [On(id, Commits(items, seen))] == [On(id, Commits(items, seen))];
    OneMore(w, [On(id, Commits(items, seen))], On(id, Fails(message)));
    OneMore(w, [On(id, Commits(items, seen))] + [On(id, Fails(message))], On(id, Records));
  }

  // ---------------------------------------------------------------------------
  // What a refresh reports.

  predicate IsTurn(w: World, t: Turn, id: nat) {
    Happens(w, t) && t.id == id
  }

  /** How many instances its inventory had, if it committed one. */
  function CountCommitted(w: World, turns: seq<Turn>, id: nat): nat
    decreases |turns|
  {
    if turns == [] then 0
    else
      var n := |turns| - 1;
      if IsTurn(Run(w, turns[..n]), turns[n], id) && turns[n].turn.Commits? then |turns[n].turn.items|
      else CountCommitted(w, turns[..n], id)
  }

  /** Why it failed, if it did: what a step said, or that the temporary file was gone when it came to rename it. */
  function FailedWith(w: World, turns: seq<Turn>, id: nat): Option<string>
    decreases |turns|
  {
    if turns == [] then None
    else
      var n := |turns| - 1;
      var before := Run(w, turns[..n]);
      if IsTurn(before, turns[n], id) && turns[n].turn.Fails? then Some(turns[n].turn.message)
      else if IsTurn(before, turns[n], id) && turns[n].turn.Renames? && before.shared.temporary == None then Some(NO_SUCH_FILE)
      else FailedWith(w, turns[..n], id)
  }

  /** What it has in hand, and what it reported, are what it committed and why it failed. */
  predicate ReportTells(p: Progress, count: nat, failed: Option<string>) {
    match p
    case Asking => count == 0 && failed == None
    case Reading => count == 0 && failed == None
    case Committed(instances) => instances == count && failed == None
    case Queried(instances, _) => instances == count && failed == None
    case Opened(instances, _, _) => instances == count && failed == None
    case Written(instances) => instances == count && failed == None
    case Failing(message) => failed == Some(message)
    case Finished(Refreshed(instances)) => instances == count && failed == None
    case Finished(NotRefreshed(message)) => failed == Some(message)
    case Thrown => true
  }

  lemma StepReports(w: World, t: Turn, id: nat, count: nat, failed: Option<string>)
    requires id in w.refreshes && ReportTells(w.refreshes[id].progress, count, failed)
    ensures id in Step(w, t).refreshes
    ensures ReportTells(Step(w, t).refreshes[id].progress,
                        if IsTurn(w, t, id) && t.turn.Commits? then |t.turn.items| else count,
                        if IsTurn(w, t, id) && t.turn.Fails? then Some(t.turn.message)
                        else if IsTurn(w, t, id) && t.turn.Renames? && w.shared.temporary == None then Some(NO_SUCH_FILE)
                        else failed)
  {
  }

  lemma {:induction false} NotBegunNothingReported(w: World, turns: seq<Turn>, id: nat)
    requires id !in Run(w, turns).refreshes
    ensures CountCommitted(w, turns, id) == 0 && FailedWith(w, turns, id) == None
    decreases |turns|
  {
    if turns != [] {
      NotBegunNothingReported(w, turns[..|turns| - 1], id);
    }
  }

  /**
   * In every run, a refresh that reports success reports as many instances as
   * the inventory it committed had, none if it had nothing to read, and one that
   * reports a failure reports why it failed.
   */
  lemma {:induction false} RefreshReportsWhatHappened(w: World, turns: seq<Turn>, id: nat)
    requires Fresh(w) && id in Run(w, turns).refreshes
    ensures ReportTells(Run(w, turns).refreshes[id].progress, CountCommitted(w, turns, id), FailedWith(w, turns, id))
    decreases |turns|
  {
    var n := |turns| - 1;
    var before, t := Run(w, turns[..n]), turns[n];
    if id in before.refreshes {
      RefreshReportsWhatHappened(w, turns[..n], id);
      StepReports(before, t, id, CountCommitted(w, turns[..n], id), FailedWith(w, turns[..n], id));
    } else {
      StepBegins(before, t, id);
      NotBegunNothingReported(w, turns[..n], id);
    }
  }

  /** A refresh that got past its lookup is of a stack server that is known. */
  predicate ReadsStack(w: World, id: nat)
    requires id in w.refreshes
  {
    var r := w.refreshes[id];
    Trying(r.progress) || r.progress.Failing? ==> r.server in w.shared.db.servers && w.shared.db.servers[r.server].kind == StackServer
  }

  ghost predicate AllReadStacks(w: World) {
    forall id :: id in w.refreshes ==> ReadsStack(w, id)
  }

  lemma StepReadsStacks(w: World, t: Turn, id: nat)
    requires AllReadStacks(w) && id in Step(w, t).refreshes
    ensures ReadsStack(Step(w, t), id)
  {
    assert id in w.refreshes ==> ReadsStack(w, id);
    if Happens(w, t) {
      RefreshKeepsServers(w.shared, w.refreshes[t.id], t.turn);
    }
  }

  lemma {:induction false} RunReadsStacks(w: World, turns: seq<Turn>)
    requires Fresh(w)
    ensures AllReadStacks(Run(w, turns))
    decreases |turns|
  {
    if turns != [] {
      var n := |turns| - 1;
      RunReadsStacks(w, turns[..n]);
      forall id | id in Run(w, turns).refreshes ensures ReadsStack(Run(w, turns), id) {
        StepReadsStacks(Run(w, turns[..n]), turns[n], id);
      }
    }
  }

  /** A host has nothing to read: no run commits an inventory for one, or for a server that is not known. */
  lemma {:induction false} OnlyStacksAreRead(w: World, turns: seq<Turn>, server: string)
    requires Fresh(w) && LastCommit(w, turns, server).Some?
    ensures server in w.shared.db.servers && w.shared.db.servers[server].kind == StackServer
    decreases |turns|
  {
    var n := |turns| - 1;
    var before := Run(w, turns[..n]);
    var commit := CommitAt(before, turns[n]);
    if commit.Some? && commit.value.0 == server {
      RunReadsStacks(w, turns[..n]);
      assert ReadsStack(before, turns[n].id);
      RunKeepsServers(w, turns[..n]);
    } else {
      OnlyStacksAreRead(w, turns[..n], server);
    }
  }

  /** With no targets directory configured, no file is ever touched. */
  lemma {:induction false} UnlistedTouchesNoFile(w: World, turns: seq<Turn>)
    requires Fresh(w) && !w.shared.listed
    ensures var s := Run(w, turns).shared;
            s.contents == w.shared.contents && s.temporary == w.shared.temporary && s.file == w.shared.file
    ensures forall id :: id in Run(w, turns).refreshes ==> NotListing(Run(w, turns).refreshes[id].progress)
    decreases |turns|
  {
    if turns != [] {
      RunKeepsServers(w, turns[..|turns| - 1]);
      UnlistedTouchesNoFile(w, turns[..|turns| - 1]);
    }
  }

  /** Not on its way to the probe list. */
  predicate NotListing(p: Progress) {
    !p.Committed? && !p.Queried? && !p.Opened? && !p.Written?
  }

  // ---------------------------------------------------------------------------
  // When a refresh throws.

  /** The refresh's lookup failed, or one of its failures could not be recorded. */
  predicate FailedUncaught(w: World, turns: seq<Turn>, id: nat)
    decreases |turns|
  {
    turns != []
    && var n := |turns| - 1;
       (IsTurn(Run(w, turns[..n]), turns[n], id) && (turns[n].turn.LookupFails? || turns[n].turn.RecordFails?))
       || FailedUncaught(w, turns[..n], id)
  }

  /** Its lookup answered. */
  predicate LookedUp(w: World, turns: seq<Turn>, id: nat)
    decreases |turns|
  {
    turns != []
    && var n := |turns| - 1;
       (IsTurn(Run(w, turns[..n]), turns[n], id) && turns[n].turn.Finds?) || LookedUp(w, turns[..n], id)
  }

  lemma StepThrows(w: World, t: Turn, id: nat)
    requires id in w.refreshes
    ensures id in Step(w, t).refreshes && Step(w, t).refreshes[id].server == w.refreshes[id].server
    ensures Step(w, t).refreshes[id].progress.Thrown? <==>
            || w.refreshes[id].progress.Thrown?
            || (IsTurn(w, t, id) && (t.turn.LookupFails? || t.turn.RecordFails?
                                     || (t.turn.Finds? && w.refreshes[id].server !in w.shared.db.servers)))
  {
    if Happens(w, t) {
      RefreshKeepsServers(w.shared, w.refreshes[t.id], t.turn);
    }
  }

  lemma StepBegins(w: World, t: Turn, id: nat)
    requires id !in w.refreshes && id in Step(w, t).refreshes
    ensures Step(w, t).refreshes[id].progress.Asking? && !IsTurn(w, t, id)
  {
  }

  lemma {:induction false} NotBegunNothingDone(w: World, turns: seq<Turn>, id: nat)
    requires id !in Run(w, turns).refreshes
    ensures !FailedUncaught(w, turns, id) && !LookedUp(w, turns, id)
    decreases |turns|
  {
    if turns != [] {
      var n := |turns| - 1;
      NotBegunNothingDone(w, turns[..n], id);
    }
  }

  /**
   * In every run a refresh throws if and only if its lookup failed, its lookup
   * found no such server, or one of its failures could not be recorded.
   */
  lemma {:induction false} ThrowsIffUncaught(w: World, turns: seq<Turn>, id: nat)
    requires Fresh(w) && id in Run(w, turns).refreshes
    ensures var r := Run(w, turns).refreshes[id];
            r.progress.Thrown? <==>
              FailedUncaught(w, turns, id) || (LookedUp(w, turns, id) && r.server !in w.shared.db.servers)
    decreases |turns|
  {
    var n := |turns| - 1;
    var before, t := Run(w, turns[..n]), turns[n];
    RunKeepsServers(w, turns[..n]);
    if id in before.refreshes {
      ThrowsIffUncaught(w, turns[..n], id);
      StepThrows(before, t, id);
    } else {
      StepBegins(before, t, id);
      NotBegunNothingDone(w, turns[..n], id);
    }
  }

  // ---------------------------------------------------------------------------
  // The sweeps.

  predicate Over(p: Progress) {
    p.Finished? || p.Thrown?
  }

  /** A refresh that is over changes no more. */
  lemma OverStaysOver(w: World, t: Turn, id: nat)
    requires id in w.refreshes
    ensures id in Step(w, t).refreshes && Step(w, t).refreshes[id].server == w.refreshes[id].server
    ensures Over(w.refreshes[id].progress) ==> Step(w, t).refreshes[id] == w.refreshes[id]
  {
    if Happens(w, t) {
      RefreshKeepsServers(w.shared, w.refreshes[t.id], t.turn);
    }
  }

  predicate CallReported(w: World, s: Sweep, k: nat)
    requires k < |s.calls|
  {
    && s.calls[k] in w.refreshes && k < |s.state.servers| && w.refreshes[s.calls[k]].server == s.state.servers[k]
    && (k < |s.state.results| ==> w.refreshes[s.calls[k]].progress == Finished(s.state.results[k]))
  }

  /**
   * A sweep has one result for each of its first servers, in order, each that
   * of a refresh of that server that is over; at most one more is in progress;
   * and it stops short only on a refresh that threw.
   */
  predicate SweepReports(w: World, s: Sweep) {
    && |s.calls| == s.state.begun && |s.state.results| <= s.state.begun <= |s.state.results| + 1
    && (forall k :: 0 <= k < |s.calls| ==> CallReported(w, s, k))
    && (s.state.thrown ==> s.state.begun == |s.state.results| + 1 && Awaited(w, s).Thrown?)
  }

  lemma StepKeepsReports(w: World, t: Turn, s: Sweep)
    requires SweepReports(w, s)
    ensures SweepReports(Step(w, t), s)
  {
    forall k | 0 <= k < |s.calls| ensures CallReported(Step(w, t), s, k) {
      assert CallReported(w, s, k);
      OverStaysOver(w, t, s.calls[k]);
    }
    if s.calls != [] {
      assert CallReported(w, s, |s.calls| - 1);
      OverStaysOver(w, t, s.calls[|s.calls| - 1]);
    }
  }

  lemma ContinueReports(w: World, sweep: nat, id: nat)
    requires sweep in w.sweeps && id !in w.refreshes && SweepReports(w, w.sweeps[sweep])
    ensures var after := Step(w, Continue(sweep, id)); sweep in after.sweeps && SweepReports(after, after.sweeps[sweep])
  {
    var s, w' := w.sweeps[sweep], Step(w, Continue(sweep, id));
    var s' := w'.sweeps[sweep];
    forall k | 0 <= k < |s'.calls| ensures CallReported(w', s', k) {
      if k < |s.calls| {
        assert CallReported(w, s, k);
      }
    }
    if s.calls != [] {
      assert CallReported(w, s, |s.calls| - 1);
    }
  }

  /**
   * And it goes on: with every result in, its next turn calls the refresh of the
   * next server; with the one it awaits finished, its next turn reports that
   * one's result; and until then it waits.
   */
  lemma SweepGoesOn(w: World, turns: seq<Turn>, sweep: nat, id: nat)
    requires Fresh(w) && sweep in Run(w, turns).sweeps && id !in Run(w, turns).refreshes
    requires !Run(w, turns).sweeps[sweep].state.thrown
    ensures var now, after := Run(w, turns), Run(w, turns + [Continue(sweep, id)]);
            var s, n := now.sweeps[sweep], |now.sweeps[sweep].calls|;
            && sweep in after.sweeps
            && if |s.state.results| == n then
                 if n < |s.state.servers| then
                   && after.sweeps[sweep].calls == s.calls + [id] && after.sweeps[sweep].state.results == s.state.results
                   && id in after.refreshes && after.refreshes[id] == RefreshState(s.state.servers[n], Asking)
                 else after.sweeps[sweep] == s && after.refreshes == now.refreshes
               else
                 && n > 0 && s.calls[n - 1] in now.refreshes && after.refreshes == now.refreshes && after.sweeps[sweep].calls == s.calls
                 && var awaited := now.refreshes[s.calls[n - 1]].progress;
                    after.sweeps[sweep].state.results == if awaited.Finished? then s.state.results + [awaited.result] else s.state.results
  {
    SweepsReport(w, turns, sweep);
    OneMore(w, turns, Continue(sweep, id));
    var s := Run(w, turns).sweeps[sweep];
    if s.calls != [] {
      assert CallReported(Run(w, turns), s, |s.calls| - 1);
    }
  }

  /** Over every run, whatever else is going on. */
  lemma {:induction false} SweepsReport(w: World, turns: seq<Turn>, sweep: nat)
    requires Fresh(w) && sweep in Run(w, turns).sweeps
    ensures SweepReports(Run(w, turns), Run(w, turns).sweeps[sweep])
    decreases |turns|
  {
    var n := |turns| - 1;
    var before, t := Run(w, turns[..n]), turns[n];
    if sweep in before.sweeps {
      SweepsReport(w, turns[..n], sweep);
      if t.Continue? && t.sweep == sweep && t.id !in before.refreshes {
        ContinueReports(before, sweep, t.id);
      } else {
        StepKeepsReports(before, t, before.sweeps[sweep]);
      }
    }
  }

  /** A sweep calls only servers that are known. */
  lemma {:induction false} SweepsKnowTheirServers(w: World, turns: seq<Turn>, sweep: nat)
    requires Fresh(w) && sweep in Run(w, turns).sweeps
    ensures var servers := Run(w, turns).sweeps[sweep].state.servers;
            forall i :: 0 <= i < |servers| ==> servers[i] in w.shared.db.servers
    decreases |turns|
  {
    var n := |turns| - 1;
    var before, t := Run(w, turns[..n]), turns[n];
    RunKeepsServers(w, turns[..n]);
    if sweep in before.sweeps {
      SweepsKnowTheirServers(w, turns[..n], sweep);
    } else {
      var servers := Run(w, turns).sweeps[sweep].state.servers;
      assert forall i :: 0 <= i < |servers| ==> Due(before.shared.db, servers[i]);
    }
  }

  /** Of one of the refreshes a sweep called, the lookup failed or a failure could not be recorded. */
  predicate SweepUncaught(w: World, turns: seq<Turn>, calls: seq<nat>) {
    exists k :: 0 <= k < |calls| && FailedUncaught(w, turns, calls[k])
  }

  predicate AwaitsThrown(w: World, s: Sweep) {
    s.state.begun == |s.state.results| + 1 && Awaited(w, s).Thrown?
  }

  lemma CallThrownIffUncaught(w: World, turns: seq<Turn>, sweep: nat, k: nat)
    requires Fresh(w) && sweep in Run(w, turns).sweeps && k < |Run(w, turns).sweeps[sweep].calls|
    ensures var s := Run(w, turns).sweeps[sweep];
            && s.calls[k] in Run(w, turns).refreshes
            && (FailedUncaught(w, turns, s.calls[k]) <==> Run(w, turns).refreshes[s.calls[k]].progress.Thrown?)
            && (k < |s.state.results| ==> !FailedUncaught(w, turns, s.calls[k]))
  {
    var s := Run(w, turns).sweeps[sweep];
    SweepsReport(w, turns, sweep);
    assert CallReported(Run(w, turns), s, k);
    SweepsKnowTheirServers(w, turns, sweep);
    ThrowsIffUncaught(w, turns, s.calls[k]);
  }

  lemma LastCallThrown(w: World, turns: seq<Turn>, sweep: nat)
    requires Fresh(w) && sweep in Run(w, turns).sweeps && AwaitsThrown(Run(w, turns), Run(w, turns).sweeps[sweep])
    ensures SweepUncaught(w, turns, Run(w, turns).sweeps[sweep].calls)
  {
    var s := Run(w, turns).sweeps[sweep];
    SweepsReport(w, turns, sweep);
    CallThrownIffUncaught(w, turns, sweep, |s.calls| - 1);
    assert FailedUncaught(w, turns, s.calls[|s.calls| - 1]);
  }

  lemma ThrownCallIsAwaited(w: World, s: Sweep, k: nat)
    requires SweepReports(w, s) && |s.state.results| <= k < |s.calls|
    requires s.calls[k] in w.refreshes && w.refreshes[s.calls[k]].progress.Thrown?
    ensures AwaitsThrown(w, s)
  {
  }

  lemma UncaughtCallIsLast(w: World, turns: seq<Turn>, sweep: nat, k: nat)
    requires Fresh(w) && sweep in Run(w, turns).sweeps && k < |Run(w, turns).sweeps[sweep].calls|
    requires FailedUncaught(w, turns, Run(w, turns).sweeps[sweep].calls[k])
    ensures AwaitsThrown(Run(w, turns), Run(w, turns).sweeps[sweep])
  {
    SweepsReport(w, turns, sweep);
    CallThrownIffUncaught(w, turns, sweep, k);
    ThrownCallIsAwaited(Run(w, turns), Run(w, turns).sweeps[sweep], k);
  }

  /** It awaits a refresh that threw exactly then. */
  lemma AwaitsThrownIffUncaught(w: World, turns: seq<Turn>, sweep: nat)
    requires Fresh(w) && sweep in Run(w, turns).sweeps
    ensures AwaitsThrown(Run(w, turns), Run(w, turns).sweeps[sweep])
       <==> SweepUncaught(w, turns, Run(w, turns).sweeps[sweep].calls)
  {
    var s := Run(w, turns).sweeps[sweep];
    if AwaitsThrown(Run(w, turns), s) {
      LastCallThrown(w, turns, sweep);
    }
    if k: nat :| k < |s.calls| && FailedUncaught(w, turns, s.calls[k]) {
      UncaughtCallIsLast(w, turns, sweep, k);
    }
  }

  lemma ContinueThrows(w: World, sweep: nat, id: nat)
    requires sweep in w.sweeps && id !in w.refreshes && SweepReports(w, w.sweeps[sweep])
    ensures var next := Step(w, Continue(sweep, id)).sweeps;
            sweep in next && (next[sweep].state.thrown <==> AwaitsThrown(w, w.sweeps[sweep]))
  {
  }

  /**
   * In every run a sweep has stopped short only if the lookup of one of its
   * servers or the record of one of its failures failed, and if one did it stops
   * at its next turn.
   */
  lemma SweepStopsIffUncaught(w: World, turns: seq<Turn>, sweep: nat, id: nat)
    requires Fresh(w) && sweep in Run(w, turns).sweeps && id !in Run(w, turns).refreshes
    ensures var s, next := Run(w, turns).sweeps[sweep], Step(Run(w, turns), Continue(sweep, id)).sweeps;
            && (s.state.thrown ==> SweepUncaught(w, turns, s.calls))
            && sweep in next && (next[sweep].state.thrown <==> SweepUncaught(w, turns, s.calls))
  {
    SweepsReport(w, turns, sweep);
    AwaitsThrownIffUncaught(w, turns, sweep);
    ContinueThrows(Run(w, turns), sweep, id);
  }

  /** A sweep whose refresh threw throws too, and its other servers are left as they were. */
  lemma {:induction false} ThrownStopsASweep(w: World, sweep: nat, id: nat, turns: seq<Turn>)
    requires sweep in w.sweeps && SweepReports(w, w.sweeps[sweep]) && id !in w.refreshes
    requires var s := w.sweeps[sweep]; s.state.begun == |s.state.results| + 1 && Awaited(w, s).Thrown?
    ensures var after := Run(Step(w, Continue(sweep, id)), turns);
            && sweep in after.sweeps && after.sweeps[sweep].state.thrown
            && after.sweeps[sweep].calls == w.sweeps[sweep].calls
            && after.sweeps[sweep].state.results == w.sweeps[sweep].state.results
  {
    ThrownStaysThrown(Step(w, Continue(sweep, id)), turns, sweep);
  }

  lemma {:induction false} ThrownStaysThrown(w: World, turns: seq<Turn>, sweep: nat)
    requires sweep in w.sweeps && w.sweeps[sweep].state.thrown
    ensures sweep in Run(w, turns).sweeps && Run(w, turns).sweeps[sweep] == w.sweeps[sweep]
    decreases |turns|
  {
    if turns != [] {
      ThrownStaysThrown(w, turns[..|turns| - 1], sweep);
    }
  }

  // ---------------------------------------------------------------------------
  // A run of it.

  const ROW := ServerRow(StackServer, true, None, None)

  /** Two enabled servers nothing is known of yet, and an empty targets directory. */
  const TWO_SERVERS := World(Shared(Database(map["a" := ROW, "b" := ROW], map[], 0), [], None, None, true), map[], map[])

  const SWEEPING := [BeginSweep(0, ["a", "b"])] + [Continue(0, 0)]

  lemma Sweeping()
    ensures Run(TWO_SERVERS, SWEEPING) ==
            TWO_SERVERS.(refreshes := map[0 := RefreshState("a", Asking)],
                         sweeps := map[0 := Sweep(SweepState(["a", "b"], 1, [], false), [0])])
  {
    OneMore(TWO_SERVERS, [], BeginSweep(0, ["a", "b"]));
    assert [] + [BeginSweep(0, ["a", "b"])] == [BeginSweep(0, ["a", "b"])];
    assert DueList(TWO_SERVERS.shared.db, ["a", "b"]);
    var begun := TWO_SERVERS.(sweeps := map[0 := Sweep(SweepState(["a", "b"], 0, [], false), [])]);
    assert Run(TWO_SERVERS, [BeginSweep(0, ["a", "b"])]).sweeps == begun.sweeps;
    OneMore(TWO_SERVERS, [BeginSweep(0, ["a", "b"])], Continue(0, 0));
    assert Step(begun, Continue(0, 0)).sweeps[0] == Sweep(SweepState(["a", "b"], 1, [], false), [0]);
    assert Step(begun, Continue(0, 0)).sweeps == map[0 := Sweep(SweepState(["a", "b"], 1, [], false), [0])];
    assert Step(begun, Continue(0, 0)).refreshes == map[0 := RefreshState("a", Asking)];
  }

  /** The first of two servers fails, and the failure cannot be recorded: the second is never called. */
  lemma UnrecordedFailureStopsTheSweep(message: string)
    ensures var end := Run(TWO_SERVERS, SWEEPING + [On(0, Finds)] + [On(0, Fails(message))] + [On(0, RecordFails)] + [Continue(0, 1)]);
            && end.sweeps == map[0 := Sweep(SweepState(["a", "b"], 1, [], true), [0])]
            && end.refreshes == map[0 := RefreshState("a", Thrown)]
  {
    Sweeping();
    var found := SWEEPING + [On(0, Finds)];
    OneMore(TWO_SERVERS, SWEEPING, On(0, Finds));
    OneMore(TWO_SERVERS, found, On(0, Fails(message)));
    OneMore(TWO_SERVERS, found + [On(0, Fails(message))], On(0, RecordFails));
    OneMore(TWO_SERVERS, found + [On(0, Fails(message))] + [On(0, RecordFails)], Continue(0, 1));
  }

  /** So does a lookup that fails, of a server that is there. */
  lemma FailedLookupStopsTheSweep()
    ensures var end := Run(TWO_SERVERS, SWEEPING + [On(0, LookupFails)] + [Continue(0, 1)]);
            && end.sweeps == map[0 := Sweep(SweepState(["a", "b"], 1, [], true), [0])]
            && end.refreshes == map[0 := RefreshState("a", Thrown)] && "a" in end.shared.db.servers
  {
    Sweeping();
    OneMore(TWO_SERVERS, SWEEPING, On(0, LookupFails));
    OneMore(TWO_SERVERS, SWEEPING + [On(0, LookupFails)], Continue(0, 1));
  }
}
