/**
 * The instance cache: what a refresh writes, what it drops, and what a failed
 * one leaves alone (`backend/src/inventory/inventory.repository.ts`,
 * `inventory.service.ts`). A server is known by its name, which is unique.
 */
module Inventory {
  import opened Wrappers

  datatype Kind = StackServer | HostServer

  datatype ServerRow = ServerRow(kind: Kind, enabled: bool, lastSeenAt: Option<int>, lastError: Option<string>)

  /** One instance as `stack inventory` reports it. */
  datatype Item = Item(
    name: string, app: Option<string>, client: Option<string>, enabled: bool,
    version: Option<string>, state: string, domains: seq<string>)

  /** The text of the `domains` column: nothing, not a JSON list, or a list whose members may not be text. */
  datatype DomainsText = NoText | Garbled | Listed(values: seq<Option<string>>)

  datatype Data = Data(
    app: Option<string>, client: Option<string>, enabled: bool,
    version: Option<string>, state: string, domains: DomainsText)

  datatype InstanceRow = InstanceRow(id: nat, data: Data)

  type InstanceKey = (string, string)

  datatype Database = Database(servers: map<string, ServerRow>, instances: map<InstanceKey, InstanceRow>, nextId: nat)

  function Mapped(item: Item): Data {
    Data(item.app, item.client, item.enabled, item.version, item.state,
         Listed(seq(|item.domains|, i requires 0 <= i < |item.domains| => Some(item.domains[i]))))
  }

  // ---------------------------------------------------------------------------
  // What a save does.

  function Upsert(db: Database, server: string, item: Item): Database {
    var key := (server, item.name);
    if key in db.instances
    then db.(instances := db.instances[key := InstanceRow(db.instances[key].id, Mapped(item))])
    else db.(instances := db.instances[key := InstanceRow(db.nextId, Mapped(item))], nextId := db.nextId + 1)
  }

  function UpsertAll(db: Database, server: string, items: seq<Item>): (after: Database)
    ensures after.servers == db.servers && db.nextId <= after.nextId
    decreases |items|
  {
    if items == [] then db
    else
      var n := |items| - 1;
      Upsert(UpsertAll(db, server, items[..n]), server, items[n])
  }

  function Names(items: seq<Item>): set<string> {
    set i | 0 <= i < |items| :: items[i].name
  }

  function Pruned(db: Database, server: string, names: set<string>): Database {
    db.(instances := map key | key in db.instances && (key.0 != server || key.1 in names) :: db.instances[key])
  }

  function Saved(db: Database, server: string, items: seq<Item>, now: int): (after: Database)
    requires server in db.servers
    ensures after.servers == db.servers[server := db.servers[server].(lastSeenAt := Some(now), lastError := None)]
  {
    var seen := db.(servers := db.servers[server := db.servers[server].(lastSeenAt := Some(now), lastError := None)]);
    Pruned(UpsertAll(seen, server, items), server, Names(items))
  }

  function FailureSaved(db: Database, server: string, message: string): Database
    requires server in db.servers
  {
    db.(servers := db.servers[server := db.servers[server].(lastError := Some(message))])
  }

  class InventoryRepository {
    var servers: map<string, ServerRow>
    var instances: map<InstanceKey, InstanceRow>
    var nextId: nat

    function Contents(): Database
      reads this
    {
      Database(servers, instances, nextId)
    }

    /** One transaction: the server row, an upsert for each instance, then the prune. */
    method Save(server: string, items: seq<Item>, now: int)
      requires server in servers
      modifies this
      ensures Contents() == Saved(old(Contents()), server, items, now)
    {
      servers := servers[server := servers[server].(lastSeenAt := Some(now), lastError := None)];
      ghost var start := Contents();
      var reported: set<string> := {};
      var i := 0;
      while i < |items|
        invariant 0 <= i <= |items|
        invariant Contents() == UpsertAll(start, server, items[..i])
        invariant reported == Names(items[..i])
      {
        var item := items[i];
        assert items[..i + 1][..i] == items[..i];
        assert Names(items[..i + 1]) == Names(items[..i]) + {item.name};
        var key := (server, item.name);
        if key in instances {
          instances := instances[key := InstanceRow(instances[key].id, Mapped(item))];
        } else {
          instances := instances[key := InstanceRow(nextId, Mapped(item))];
          nextId := nextId + 1;
        }
        reported := reported + {item.name};
        i := i + 1;
      }
      assert items[..i] == items;
      instances := map key | key in instances && (key.0 != server || key.1 in reported) :: instances[key];
    }

    method SaveFailure(server: string, message: string)
      requires server in servers
      modifies this`servers
      ensures Contents() == FailureSaved(old(Contents()), server, message)
    {
      servers := servers[server := servers[server].(lastError := Some(message))];
    }
  }

  // ---------------------------------------------------------------------------
  // What a save means.

  /** The report of a name: the last one, when it is listed twice. */
  function LastReport(items: seq<Item>, name: string): Option<Item>
    decreases |items|
  {
    if items == [] then None
    else
      var n := |items| - 1;
      if items[n].name == name then Some(items[n]) else LastReport(items[..n], name)
  }

  /** Each domain of the column is the text reported, in order. */
  predicate DomainsReported(text: DomainsText, domains: seq<string>) {
    text.Listed? && |text.values| == |domains| && forall k :: 0 <= k < |domains| ==> text.values[k] == Some(domains[k])
  }

  /** A cached row says what the server reported of the instance. */
  predicate Reported(data: Data, item: Item) {
    && data.app == item.app && data.client == item.client && data.enabled == item.enabled
    && data.version == item.version && data.state == item.state && DomainsReported(data.domains, item.domains)
  }

  lemma MappedIsReported(item: Item)
    ensures Reported(Mapped(item), item)
  {
  }

  lemma {:induction false} ReportedNames(items: seq<Item>, name: string)
    ensures name in Names(items) <==> LastReport(items, name).Some?
    decreases |items|
  {
    if items != [] {
      var n := |items| - 1;
      ReportedNames(items[..n], name);
      assert Names(items) == Names(items[..n]) + {items[n].name} by {
        assert forall i :: 0 <= i < n ==> items[..n][i] == items[i];
      }
    }
  }

  lemma {:induction false} UpsertAllMeaning(db: Database, server: string, items: seq<Item>, key: InstanceKey)
    ensures var after := UpsertAll(db, server, items);
            var report := if key.0 == server then LastReport(items, key.1) else None;
               if report == None then
                 (key in after.instances <==> key in db.instances)
                 && (key in db.instances ==> after.instances[key] == db.instances[key])
               else
                 key in after.instances && Reported(after.instances[key].data, report.value)
                 && (if key in db.instances then after.instances[key].id == db.instances[key].id
                     else db.nextId <= after.instances[key].id < after.nextId)
    decreases |items|
  {
    if items != [] {
      UpsertAllMeaning(db, server, items[..|items| - 1], key);
      MappedIsReported(items[|items| - 1]);
    }
  }

  /**
   * After a save, the server's rows are exactly the reported names, each with
   * its last report; a row that was there keeps its identity, a new one gets one
   * from the counter on, and every other server's rows are untouched.
   */
  lemma SaveMeaning(db: Database, server: string, items: seq<Item>, now: int, key: InstanceKey)
    requires server in db.servers
    ensures var after := Saved(db, server, items, now).instances;
            if key.0 != server then
              (key in after <==> key in db.instances) && (key in after ==> after[key] == db.instances[key])
            else
              && (key in after <==> LastReport(items, key.1).Some?)
              && (key in after ==>
                    && Reported(after[key].data, LastReport(items, key.1).value)
                    && if key in db.instances then after[key].id == db.instances[key].id else after[key].id >= db.nextId)
  {
    var seen := db.(servers := db.servers[server := db.servers[server].(lastSeenAt := Some(now), lastError := None)]);
    UpsertAllMeaning(seen, server, items, key);
    ReportedNames(items, key.1);
  }

  // ---------------------------------------------------------------------------
  // Identities.

  predicate Below(db: Database, key: InstanceKey)
    requires key in db.instances
  {
    db.instances[key].id < db.nextId
  }

  predicate Apart(db: Database, a: InstanceKey, b: InstanceKey)
    requires a in db.instances && b in db.instances
  {
    a != b ==> db.instances[a].id != db.instances[b].id
  }

  /** No two rows share an identity, and the next one is taken by none. */
  predicate FreshIds(db: Database) {
    && (forall key :: key in db.instances ==> Below(db, key))
    && (forall a, b :: a in db.instances && b in db.instances ==> Apart(db, a, b))
  }

  lemma UpsertKeepsIds(db: Database, server: string, item: Item)
    requires FreshIds(db)
    ensures FreshIds(Upsert(db, server, item))
  {
    var after := Upsert(db, server, item);
    forall key | key in after.instances ensures Below(after, key) {
      if key in db.instances { assert Below(db, key); }
    }
    forall a, b | a in after.instances && b in after.instances ensures Apart(after, a, b) {
      if a in db.instances && b in db.instances { assert Apart(db, a, b); }
      if a in db.instances { assert Below(db, a); }
      if b in db.instances { assert Below(db, b); }
    }
  }

  lemma {:induction false} UpsertAllKeepsIds(db: Database, server: string, items: seq<Item>)
    requires FreshIds(db)
    ensures FreshIds(UpsertAll(db, server, items))
    decreases |items|
  {
    if items != [] {
      var n := |items| - 1;
      UpsertAllKeepsIds(db, server, items[..n]);
      UpsertKeepsIds(UpsertAll(db, server, items[..n]), server, items[n]);
    }
  }

  lemma PrunedKeepsIds(db: Database, server: string, names: set<string>)
    requires FreshIds(db)
    ensures FreshIds(Pruned(db, server, names))
  {
    var after := Pruned(db, server, names);
    forall key | key in after.instances ensures Below(after, key) {
      assert Below(db, key);
    }
    forall a, b | a in after.instances && b in after.instances ensures Apart(after, a, b) {
      assert Apart(db, a, b);
    }
  }

  lemma SameRowsSameIds(db: Database, other: Database)
    requires FreshIds(db) && other.instances == db.instances && other.nextId == db.nextId
    ensures FreshIds(other)
  {
    forall key | key in other.instances ensures Below(other, key) {
      assert Below(db, key);
    }
    forall a, b | a in other.instances && b in other.instances ensures Apart(other, a, b) {
      assert Apart(db, a, b);
    }
  }

  /** A save keeps identities distinct. */
  lemma SavedKeepsIds(db: Database, server: string, items: seq<Item>, now: int)
    requires server in db.servers && FreshIds(db)
    ensures FreshIds(Saved(db, server, items, now))
  {
    var seen := db.(servers := db.servers[server := db.servers[server].(lastSeenAt := Some(now), lastError := None)]);
    SameRowsSameIds(db, seen);
    UpsertAllKeepsIds(seen, server, items);
    PrunedKeepsIds(UpsertAll(seen, server, items), server, Names(items));
  }

  /** And the identity of a new row is one that no row had before. */
  lemma NewRowsAreNew(db: Database, server: string, items: seq<Item>, now: int, key: InstanceKey, other: InstanceKey)
    requires server in db.servers && FreshIds(db)
    requires key in Saved(db, server, items, now).instances && key !in db.instances && other in db.instances
    ensures Saved(db, server, items, now).instances[key].id != db.instances[other].id
  {
    SaveMeaning(db, server, items, now, key);
    assert Below(db, other);
  }
}
