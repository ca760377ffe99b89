/**
 * One refresh of a server's inventory, turn by turn
 * (`backend/src/inventory/inventory.service.ts`): the lookup of the server, the
 * read and the transaction, the query for the probe list, the opening and the filling of the temporary
 * file, the rename, and the record of a failure. Each method is one turn of the event loop; between any two,
 * another refresh may have its own. What the SSH read, the database and the
 * file system answer comes with the turn.
 */
module Refresh {
  import opened Wrappers
  import opened Inventory
  import opened ProbeTargets

  datatype RefreshResult = Refreshed(instances: nat) | NotRefreshed(message: string)

  /** Where a refresh is: what it is waiting for, with what it has in hand. */
  datatype Progress =
    | Asking
    | Reading
    | Committed(instances: nat)
    | Queried(instances: nat, targets: seq<Target>)
    | Opened(instances: nat, targets: seq<Target>, handle: nat)
    | Written(instances: nat)
    | Failing(message: string)
    | Finished(result: RefreshResult)
    | Thrown

  datatype RefreshState = RefreshState(server: string, progress: Progress)

  /** What has gone into a file since it was opened: the lists, in order, each written from its first byte on. */
  type Content = seq<seq<Target>>

  /** Bytes written from the start of a file: what was longer keeps its end. */
  function Overwritten(there: string, text: string): string {
    text + if |there| > |text| then there[|text|..] else ""
  }

  /** The bytes in it, given how a list is rendered. */
  function TextOf(render: seq<Target> -> string, content: Content): string
    decreases |content|
  {
    if content == [] then ""
    else
      var n := |content| - 1;
      Overwritten(TextOf(render, content[..n]), render(content[n]))
  }

  /**
   * What all refreshes share: the cache, and the targets directory. A file is
   * its number among `contents`, whatever it is called: `temporary` is the one
   * called `domains.json.tmp` and `file` the one called `domains.json`, if they
   * are there, and a handle goes on writing to the same file when a rename gives
   * it another name. `listed` is whether a directory is configured.
   */
  datatype Shared = Shared(db: Database, contents: seq<Content>, temporary: Option<nat>, file: Option<nat>, listed: bool)

  datatype RefreshTurn =
    | Finds
    | LookupFails
    | Fails(message: string)
    | Commits(items: seq<Item>, now: int)
    | Queries(order: seq<InstanceKey>)
    | Opens
    | Fills
    | Renames
    | Records
    | RecordFails

  const NO_SUCH_FILE := "ENOENT: no such file or directory"

  /** What the lookup finds: an unknown server throws, a host has nothing to read. */
  function Found(db: Database, server: string): Progress {
    if server !in db.servers then Thrown
    else if db.servers[server].kind == HostServer then Finished(Refreshed(0))
    else Reading
  }

  /** Inside the `try`: whatever fails here is caught. */
  predicate Trying(p: Progress) {
    p.Reading? || p.Committed? || p.Queried? || p.Opened? || p.Written?
  }

  /** The turns that can come now. A query answers with the selected rows, in whatever order. */
  predicate Can(s: Shared, r: RefreshState, t: RefreshTurn) {
    match t
    case Finds => r.progress.Asking?
    case LookupFails => r.progress.Asking?
    case Fails(_) => Trying(r.progress)
    case Commits(_, _) => r.progress.Reading? && r.server in s.db.servers
    case Queries(order) => r.progress.Committed? && QueryOrder(s.db, order)
    case Opens => r.progress.Queried?
    case Fills => r.progress.Opened? && r.progress.handle < |s.contents|
    case Renames => r.progress.Written?
    case Records => r.progress.Failing? && r.server in s.db.servers
    case RecordFails => r.progress.Failing?
  }

  /** Opened to be written, a file is emptied, or made if it is not there. */
  function OpenedAs(s: Shared): nat {
    if s.temporary.Some? && s.temporary.value < |s.contents| then s.temporary.value else |s.contents|
  }

  function RefreshStep(s: Shared, r: RefreshState, t: RefreshTurn): (Shared, RefreshState)
    requires Can(s, r, t)
  {
    match t
    case Finds => (s, r.(progress := Found(s.db, r.server)))
    case LookupFails => (s, r.(progress := Thrown))
    case Fails(message) => (s, r.(progress := Failing(message)))
    case Commits(items, now) =>
      (s.(db := Saved(s.db, r.server, items, now)),
       r.(progress := if s.listed then Committed(|items|) else Finished(Refreshed(|items|))))
    case Queries(order) =>
      (s, r.(progress := Queried(r.progress.instances, FirstClaims(Claims(s.db, order)))))
    case Opens =>
      var k := OpenedAs(s);
      (s.(contents := if k < |s.contents| then s.contents[k := []] else s.contents + [[]], temporary := Some(k)),
       r.(progress := Opened(r.progress.instances, r.progress.targets, k)))
    case Fills =>
      var k := r.progress.handle;
      (s.(contents := s.contents[k := s.contents[k] + [r.progress.targets]]), r.(progress := Written(r.progress.instances)))
    case Renames =>
      if s.temporary.Some?
      then (s.(temporary := None, file := s.temporary), r.(progress := Finished(Refreshed(r.progress.instances))))
      else (s, r.(progress := Failing(NO_SUCH_FILE)))
    case Records =>
      (s.(db := FailureSaved(s.db, r.server, r.progress.message)), r.(progress := Finished(NotRefreshed(r.progress.message))))
    case RecordFails => (s, r.(progress := Thrown))
  }

  // ---------------------------------------------------------------------------
  // The objects.

  class TargetsDirectory {
    var contents: seq<Content>
    var temporary: Option<nat>
    var file: Option<nat>
    const listed: bool

    constructor (listed: bool)
      ensures this.listed == listed && contents == [] && temporary == None && file == None
    {
      this.listed, contents, temporary, file := listed, [], None, None;
    }

    /** `open` with the flags `writeFile` gives it. */
    method Open() returns (handle: nat)
      modifies this
      ensures handle == if old(temporary).Some? && old(temporary).value < |old(contents)| then old(temporary).value else |old(contents)|
      ensures contents == if handle < |old(contents)| then old(contents)[handle := []] else old(contents) + [[]]
      ensures temporary == Some(handle) && file == old(file)
    {
      if temporary.Some? && temporary.value < |contents| {
        handle := temporary.value;
        contents := contents[handle := []];
      } else {
        handle := |contents|;
        contents := contents + [[]];
        temporary := Some(handle);
      }
    }
  }

  /** One call of `refreshServer`. */
  class RefreshCall {
    const repository: InventoryRepository
    const directory: TargetsDirectory
    const server: string
    var progress: Progress

    constructor (repository: InventoryRepository, directory: TargetsDirectory, server: string)
      ensures this.repository == repository && this.directory == directory
      ensures State() == RefreshState(server, Asking)
    {
      this.repository, this.directory, this.server := repository, directory, server;
      progress := Asking;
    }

    function State(): RefreshState
      reads this
    {
      RefreshState(server, progress)
    }

    function World(): Shared
      reads repository, directory
    {
      Shared(repository.Contents(), directory.contents, directory.temporary, directory.file, directory.listed)
    }

    /** The lookup answered. */
    method OnFound()
      requires Can(World(), State(), Finds)
      modifies this
      ensures (World(), State()) == RefreshStep(old(World()), old(State()), Finds)
    {
      if server !in repository.servers {
        progress := Thrown;
      } else if repository.servers[server].kind == HostServer {
        progress := Finished(Refreshed(0));
      } else {
        progress := Reading;
      }
    }

    /** It did not, outside the `try`. */
    method OnLookupFailure()
      requires Can(World(), State(), LookupFails)
      modifies this
      ensures (World(), State()) == RefreshStep(old(World()), old(State()), LookupFails)
    {
      progress := Thrown;
    }

    /** Any step inside the `try` fails: nothing is written yet. */
    method OnFailure(message: string)
      requires Can(World(), State(), Fails(message))
      modifies this
      ensures (World(), State()) == RefreshStep(old(World()), old(State()), Fails(message))
    {
      progress := Failing(message);
    }

    /** The read answered and its transaction went through. */
    method OnRead(items: seq<Item>, now: int)
      requires Can(World(), State(), Commits(items, now))
      modifies this, repository
      ensures (World(), State()) == RefreshStep(old(World()), old(State()), Commits(items, now))
    {
      repository.Save(server, items, now);
      progress := if directory.listed then Committed(|items|) else Finished(Refreshed(|items|));
    }

    /** `regenerateDomains` has its rows, and works out the list. */
    method OnRows(order: seq<InstanceKey>)
      requires Can(World(), State(), Queries(order))
      modifies this
      ensures (World(), State()) == RefreshStep(old(World()), old(State()), Queries(order))
    {
      var fileTargets := RegenerateDomains(repository.Contents(), order);
      progress := Queried(progress.instances, fileTargets);
    }

    /** The temporary file is open: empty, whatever another refresh had put there. */
    method OnOpened()
      requires Can(World(), State(), Opens)
      modifies this, directory
      ensures (World(), State()) == RefreshStep(old(World()), old(State()), Opens)
    {
      var handle := directory.Open();
      progress := Opened(progress.instances, progress.targets, handle);
    }

    /** The list is in the file the handle stands for, whatever that is called by now. */
    method OnFilled()
      requires Can(World(), State(), Fills)
      modifies this, directory
      ensures (World(), State()) == RefreshStep(old(World()), old(State()), Fills)
    {
      var k := progress.handle;
      directory.contents := directory.contents[k := directory.contents[k] + [progress.targets]];
      progress := Written(progress.instances);
    }

    /** The temporary file has one name for everyone: another refresh may have taken it away. */
    method OnRename()
      requires Can(World(), State(), Renames)
      modifies this, directory
      ensures (World(), State()) == RefreshStep(old(World()), old(State()), Renames)
    {
      if directory.temporary.None? {
        progress := Failing(NO_SUCH_FILE);
        return;
      }
      directory.file := directory.temporary;
      directory.temporary := None;
      progress := Finished(Refreshed(progress.instances));
    }

    method OnRecorded()
      requires Can(World(), State(), Records)
      modifies this, repository
      ensures (World(), State()) == RefreshStep(old(World()), old(State()), Records)
    {
      repository.SaveFailure(server, progress.message);
      progress := Finished(NotRefreshed(progress.message));
    }

    method OnUnrecorded()
      requires Can(World(), State(), RecordFails)
      modifies this
      ensures (World(), State()) == RefreshStep(old(World()), old(State()), RecordFails)
    {
      progress := Thrown;
    }
  }

  // ---------------------------------------------------------------------------
  // `refreshAll`, which awaits one refresh after another.

  /** `begun` is how many refreshes it has called. */
  datatype SweepState = SweepState(servers: seq<string>, begun: nat, results: seq<RefreshResult>, thrown: bool)

  predicate Due(db: Database, server: string) {
    server in db.servers && db.servers[server].kind == StackServer && db.servers[server].enabled
  }

  /** The answer to its query: every enabled stack server, once. */
  predicate DueList(db: Database, servers: seq<string>) {
    && (forall i :: 0 <= i < |servers| ==> Due(db, servers[i]))
    && (forall i, j :: 0 <= i < j < |servers| ==> servers[i] != servers[j])
    && (forall server :: server in db.servers && Due(db, server) ==> server in servers)
  }

  /** One turn, given where the refresh it awaits is. */
  function SweepStep(s: SweepState, awaited: Progress): SweepState {
    if s.thrown then s
    else if s.begun <= |s.results| then (if s.begun < |s.servers| then s.(begun := s.begun + 1) else s)
    else match awaited
      case Finished(result) => s.(results := s.results + [result])
      case Thrown => s.(thrown := true)
      case _ => s
  }

  /** One call of `refreshAll`. */
  class RefreshAllCall {
    const repository: InventoryRepository
    const directory: TargetsDirectory
    const servers: seq<string>
    var calls: seq<RefreshCall>
    var results: seq<RefreshResult>
    var thrown: bool

    constructor (repository: InventoryRepository, directory: TargetsDirectory, servers: seq<string>)
      requires DueList(repository.Contents(), servers)
      ensures State() == SweepState(servers, 0, [], false)
    {
      this.repository, this.directory, this.servers := repository, directory, servers;
      calls, results, thrown := [], [], false;
    }

    function State(): SweepState
      reads this
    {
      SweepState(servers, |calls|, results, thrown)
    }

    /** The one it awaits, if any, and otherwise nothing to wait for. */
    function Awaited(): Progress
      reads this, calls
    {
      if calls == [] then Reading else calls[|calls| - 1].progress
    }

    method Continue()
      modifies this
      ensures State() == SweepStep(old(State()), old(Awaited()))
      ensures old(calls) <= calls
      ensures |calls| != |old(calls)| ==>
                && old(|calls|) < |servers| && |calls| == old(|calls|) + 1 && fresh(calls[old(|calls|)])
                && calls[old(|calls|)].State() == RefreshState(servers[old(|calls|)], Asking)
    {
      if thrown {
        return;
      }
      if |calls| <= |results| {
        if |calls| < |servers| {
          var call := new RefreshCall(repository, directory, servers[|calls|]);
          calls := calls + [call];
        }
        return;
      }
      match calls[|calls| - 1].progress {
        case Finished(result) =>
          results := results + [result];
        case Thrown =>
          thrown := true;
        case _ =>
      }
    }
  }
}
