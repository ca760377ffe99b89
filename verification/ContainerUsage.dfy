/**
 * What each instance and each engine service of a server uses, folded from the
 * containers cAdvisor reports (`backend/src/monitoring/metrics.reader.ts`).
 * Quantities are reals; `Load.containers` is the count an instance's row
 * carries, and stays 0 where the source has no such field.
 */
module ContainerUsage {
  import opened Wrappers
  import opened ContainerName

  datatype Load = Load(memory: real, cpu: real, containers: nat)

  const NOTHING := Load(0.0, 0.0, 0)

  function Plus(a: Load, b: Load): Load {
    Load(a.memory + b.memory, a.cpu + b.cpu, a.containers + b.containers)
  }

  /** A `Map` in insertion order is a list of rows with distinct names. */
  datatype Row = Row(name: string, load: Load)

  function At(rows: seq<Row>, name: string): Option<Load> {
    if rows == [] then None
    else if rows[0].name == name then Some(rows[0].load)
    else At(rows[1..], name)
  }

  /** `Map.set`: in place when the name is known, at the end otherwise. */
  function Put(rows: seq<Row>, name: string, load: Load): seq<Row> {
    if rows == [] then [Row(name, load)]
    else if rows[0].name == name then [Row(name, load)] + rows[1..]
    else [rows[0]] + Put(rows[1..], name, load)
  }

  predicate Distinct(rows: seq<Row>) {
    rows == [] || (At(rows[1..], rows[0].name) == None && Distinct(rows[1..]))
  }

  function Sum(rows: seq<Row>): Load {
    if rows == [] then NOTHING else Plus(rows[0].load, Sum(rows[1..]))
  }

  lemma {:induction false} PutAt(rows: seq<Row>, name: string, load: Load, other: string)
    ensures At(Put(rows, name, load), other) == if other == name then Some(load) else At(rows, other)
  {
    if rows != [] && rows[0].name != name {
      PutAt(rows[1..], name, load, other);
      assert ([rows[0]] + Put(rows[1..], name, load))[1..] == Put(rows[1..], name, load);
    } else if rows != [] {
      assert ([Row(name, load)] + rows[1..])[1..] == rows[1..];
    }
  }

  lemma {:induction false} PutDistinct(rows: seq<Row>, name: string, load: Load)
    requires Distinct(rows)
    ensures Distinct(Put(rows, name, load))
  {
    if rows != [] && rows[0].name != name {
      PutDistinct(rows[1..], name, load);
      PutAt(rows[1..], name, load, rows[0].name);
      assert ([rows[0]] + Put(rows[1..], name, load))[1..] == Put(rows[1..], name, load);
    } else if rows != [] {
      assert ([Row(name, load)] + rows[1..])[1..] == rows[1..];
    }
  }

  /** Adding to a row adds to the sum. */
  lemma {:induction false} PutAdds(rows: seq<Row>, name: string, load: Load)
    ensures Sum(Put(rows, name, Plus(At(rows, name).GetOr(NOTHING), load))) == Plus(Sum(rows), load)
  {
    var now := Plus(At(rows, name).GetOr(NOTHING), load);
    if rows == [] {
      assert Put(rows, name, now)[1..] == [];
    } else if rows[0].name != name {
      PutAdds(rows[1..], name, load);
      assert ([rows[0]] + Put(rows[1..], name, now))[1..] == Put(rows[1..], name, now);
    } else {
      assert ([Row(name, now)] + rows[1..])[1..] == rows[1..];
    }
  }

  // ---------------------------------------------------------------------------
  // The two raw series, zipped per container.

  datatype Sample = Sample(name: Option<string>, value: real)

  /** The sample's container without its leading slash; empty when it has none. */
  function NameOf(sample: Sample): string {
    match sample.name
    case None => ""
    case Some(name) => if name != "" && name[0] == '/' then name[1..] else name
  }

  /** The value the series ends up giving a container: its last sample. */
  function LastValue(samples: seq<Sample>, name: string): Option<real>
    decreases |samples|
  {
    if samples == [] then None
    else
      var n := |samples| - 1;
      if NameOf(samples[n]) == name then Some(samples[n].value) else LastValue(samples[..n], name)
  }

  /** A container is reported if either series names it; what the other does not say is 0. */
  function Zipped(memory: Option<real>, cpu: Option<real>): Option<Load> {
    if memory == None && cpu == None then None
    else Some(Load(memory.GetOr(0.0), cpu.GetOr(0.0), 0))
  }

  /** Each named container is there once, with its last two values. */
  ghost predicate Zips(memory: seq<Sample>, cpu: seq<Sample>, rows: seq<Row>) {
    Distinct(rows) && forall name :: At(rows, name) == Expected(memory, cpu, name)
  }

  function Expected(memory: seq<Sample>, cpu: seq<Sample>, name: string): Option<Load> {
    if name == "" then None else Zipped(LastValue(memory, name), LastValue(cpu, name))
  }

  lemma ZipMemory(samples: seq<Sample>, i: nat, rows: seq<Row>)
    requires i < |samples| && Zips(samples[..i], [], rows)
    ensures var name := NameOf(samples[i]);
            Zips(samples[..i + 1], [],
                 if name == "" then rows
                 else Put(rows, name, At(rows, name).GetOr(NOTHING).(memory := samples[i].value)))
  {
    var name := NameOf(samples[i]);
    var load := At(rows, name).GetOr(NOTHING).(memory := samples[i].value);
    assert samples[..i + 1][..i] == samples[..i];
    PutDistinct(rows, name, load);
    var after := if name == "" then rows else Put(rows, name, load);
    forall other ensures At(after, other) == Expected(samples[..i + 1], [], other) {
      PutAt(rows, name, load, other);
      assert At(rows, other) == Expected(samples[..i], [], other);
    }
  }

  lemma ZipCpu(memory: seq<Sample>, samples: seq<Sample>, i: nat, rows: seq<Row>)
    requires i < |samples| && Zips(memory, samples[..i], rows)
    ensures var name := NameOf(samples[i]);
            Zips(memory, samples[..i + 1],
                 if name == "" then rows
                 else Put(rows, name, At(rows, name).GetOr(NOTHING).(cpu := samples[i].value)))
  {
    var name := NameOf(samples[i]);
    var load := At(rows, name).GetOr(NOTHING).(cpu := samples[i].value);
    assert samples[..i + 1][..i] == samples[..i];
    PutDistinct(rows, name, load);
    var after := if name == "" then rows else Put(rows, name, load);
    forall other ensures At(after, other) == Expected(memory, samples[..i + 1], other) {
      PutAt(rows, name, load, other);
      assert At(rows, other) == Expected(memory, samples[..i], other);
    }
  }

  method PerContainer(memory: seq<Sample>, cpu: seq<Sample>) returns (rows: seq<Row>)
    ensures Zips(memory, cpu, rows)
  {
    rows := [];
    var i := 0;
    while i < |memory|
      invariant 0 <= i <= |memory| && Zips(memory[..i], [], rows)
    {
      ZipMemory(memory, i, rows);
      var name := NameOf(memory[i]);
      if name != "" {
        rows := Put(rows, name, At(rows, name).GetOr(NOTHING).(memory := memory[i].value));
      }
      i := i + 1;
    }
    assert memory[..i] == memory && cpu[..0] == [];
    i := 0;
    while i < |cpu|
      invariant 0 <= i <= |cpu| && Zips(memory, cpu[..i], rows)
    {
      ZipCpu(memory, cpu, i, rows);
      var name := NameOf(cpu[i]);
      if name != "" {
        rows := Put(rows, name, At(rows, name).GetOr(NOTHING).(cpu := cpu[i].value));
      }
      i := i + 1;
    }
    assert cpu[..i] == cpu;
  }

  // ---------------------------------------------------------------------------
  // Folded into instances and the engine.

  datatype Owner = Instance(name: string) | Engine(service: string) | Nobody

  function OwnerOf(container: string): Owner {
    match InstanceOf(container)
    case Some(name) => Instance(name)
    case None =>
      match EngineServiceOf(container)
      case Some(service) => Engine(service)
      case None => Nobody
  }

  datatype Usage = Usage(instances: seq<Row>, engine: seq<Row>)

  function Add(rows: seq<Row>, name: string, load: Load): seq<Row> {
    Put(rows, name, Plus(At(rows, name).GetOr(NOTHING), load))
  }

  /** One container into the usage so far. */
  function Folding(usage: Usage, container: Row): Usage {
    match OwnerOf(container.name)
    case Instance(name) => usage.(instances := Add(usage.instances, name, container.load.(containers := 1)))
    case Engine(service) => usage.(engine := Add(usage.engine, service, container.load.(containers := 0)))
    case Nobody => usage
  }

  function Folded(containers: seq<Row>): Usage
    decreases |containers|
  {
    if containers == [] then Usage([], [])
    else
      var n := |containers| - 1;
      Folding(Folded(containers[..n]), containers[n])
  }

  lemma FoldedNext(containers: seq<Row>, i: nat)
    requires i < |containers|
    ensures Folded(containers[..i + 1]) == Folding(Folded(containers[..i]), containers[i])
  {
    assert containers[..i + 1][..i] == containers[..i];
  }

  /** `containerUsage`, past the two queries. */
  method ContainerUsage(containers: seq<Row>) returns (usage: Usage)
    ensures usage == Folded(containers)
  {
    var instances: seq<Row>, engine: seq<Row> := [], [];
    var i := 0;
    while i < |containers|
      invariant 0 <= i <= |containers| && Usage(instances, engine) == Folded(containers[..i])
    {
      FoldedNext(containers, i);
      var container := containers[i];
      var instance := InstanceOf(container.name);
      if instance.Some? {
        var current := At(instances, instance.value).GetOr(NOTHING);
        instances := Put(instances, instance.value, Plus(current, container.load.(containers := 1)));
      } else {
        var service := EngineServiceOf(container.name);
        if service.Some? {
          var current := At(engine, service.value).GetOr(NOTHING);
          engine := Put(engine, service.value, Plus(current, container.load.(containers := 0)));
        }
      }
      i := i + 1;
    }
    assert containers[..i] == containers;
    usage := Usage(instances, engine);
  }

  // ---------------------------------------------------------------------------
  // What the fold means: each owner's share of the containers.

  /** What one container adds to an owner, counting it. */
  function Part(container: Row, owner: Owner): Load {
    if OwnerOf(container.name) == owner then container.load.(containers := 1) else NOTHING
  }

  function Share(containers: seq<Row>, owner: Owner): Load
    decreases |containers|
  {
    if containers == [] then NOTHING
    else
      var n := |containers| - 1;
      Plus(Share(containers[..n], owner), Part(containers[n], owner))
  }

  /** An owner is listed if it has a container. */
  function Listed(share: Load): Option<Load> {
    if share.containers == 0 then None else Some(share)
  }

  function Uncounted(share: Load): Option<Load> {
    if share.containers == 0 then None else Some(share.(containers := 0))
  }

  lemma {:induction false} NoContainersNoLoad(containers: seq<Row>, owner: Owner)
    ensures Share(containers, owner).containers == 0 ==> Share(containers, owner) == NOTHING
    decreases |containers|
  {
    if containers != [] {
      NoContainersNoLoad(containers[..|containers| - 1], owner);
    }
  }

  lemma UncountedGrows(share: Load, part: Load)
    requires share.containers == 0 ==> share == NOTHING
    ensures Uncounted(Plus(share, part.(containers := 1))) ==
            Some(Plus(Uncounted(share).GetOr(NOTHING), part.(containers := 0)))
  {
  }

  lemma PlusNothing(share: Load)
    ensures Plus(share, NOTHING) == share
  {
  }

  lemma InstanceGrows(usage: Usage, container: Row, name: string)
    ensures At(Folding(usage, container).instances, name) ==
            if OwnerOf(container.name) == Instance(name)
            then Some(Plus(At(usage.instances, name).GetOr(NOTHING), Part(container, Instance(name))))
            else At(usage.instances, name)
  {
    match OwnerOf(container.name)
    case Instance(own) =>
      PutAt(usage.instances, own,
            Plus(At(usage.instances, own).GetOr(NOTHING), container.load.(containers := 1)), name);
    case Engine(_) =>
    case Nobody =>
  }

  lemma EngineGrows(usage: Usage, container: Row, service: string)
    ensures At(Folding(usage, container).engine, service) ==
            if OwnerOf(container.name) == Engine(service)
            then Some(Plus(At(usage.engine, service).GetOr(NOTHING), container.load.(containers := 0)))
            else At(usage.engine, service)
  {
    match OwnerOf(container.name)
    case Engine(own) =>
      PutAt(usage.engine, own,
            Plus(At(usage.engine, own).GetOr(NOTHING), container.load.(containers := 0)), service);
    case Instance(_) =>
    case Nobody =>
  }

  /** An instance is listed exactly when it has a container, with the sum of all of them and their number. */
  lemma {:induction false} InstanceGetsItsShare(containers: seq<Row>, name: string)
    ensures At(Folded(containers).instances, name) == Listed(Share(containers, Instance(name)))
    decreases |containers|
  {
    if containers != [] {
      var n := |containers| - 1;
      InstanceGetsItsShare(containers[..n], name);
      NoContainersNoLoad(containers[..n], Instance(name));
      InstanceGrows(Folded(containers[..n]), containers[n], name);
    }
  }

  lemma EngineKeepsItsShare(usage: Usage, container: Row, service: string, share: Load)
    requires At(usage.engine, service) == Uncounted(share)
    requires share.containers == 0 ==> share == NOTHING
    ensures At(Folding(usage, container).engine, service) == Uncounted(Plus(share, Part(container, Engine(service))))
  {
    EngineGrows(usage, container, service);
    if OwnerOf(container.name) == Engine(service) {
      UncountedGrows(share, container.load);
    } else {
      PlusNothing(share);
    }
  }

  /** So is an engine service. */
  lemma {:induction false} EngineGetsItsShare(containers: seq<Row>, service: string)
    ensures At(Folded(containers).engine, service) == Uncounted(Share(containers, Engine(service)))
    decreases |containers|
  {
    if containers != [] {
      var n := |containers| - 1;
      EngineGetsItsShare(containers[..n], service);
      NoContainersNoLoad(containers[..n], Engine(service));
      EngineKeepsItsShare(Folded(containers[..n]), containers[n], service, Share(containers[..n], Engine(service)));
    }
  }

  /** Nobody is listed twice. */
  lemma {:induction false} ListedOnce(containers: seq<Row>)
    ensures Distinct(Folded(containers).instances) && Distinct(Folded(containers).engine)
    decreases |containers|
  {
    if containers != [] {
      var n := |containers| - 1;
      var before := Folded(containers[..n]);
      ListedOnce(containers[..n]);
      match OwnerOf(containers[n].name) {
        case Instance(own) =>
          PutDistinct(before.instances, own,
                      Plus(At(before.instances, own).GetOr(NOTHING), containers[n].load.(containers := 1)));
        case Engine(own) =>
          PutDistinct(before.engine, own,
                      Plus(At(before.engine, own).GetOr(NOTHING), containers[n].load.(containers := 0)));
        case Nobody =>
      }
    }
  }

  function AppContainers(containers: seq<Row>): nat
    decreases |containers|
  {
    if containers == [] then 0
    else
      var n := |containers| - 1;
      AppContainers(containers[..n]) + if InstanceOf(containers[n].name).Some? then 1 else 0
  }

  lemma {:induction false} SumLast(rows: seq<Row>)
    requires rows != []
    ensures Sum(rows) == Plus(Sum(rows[..|rows| - 1]), rows[|rows| - 1].load)
  {
    var n := |rows| - 1;
    if n > 0 {
      SumLast(rows[1..]);
      assert rows[1..][..n - 1] == rows[..n][1..];
    }
  }

  /** What the instances and the engine add up to. */
  function Total(usage: Usage): Load {
    Plus(Sum(usage.instances), Sum(usage.engine))
  }

  /** One container adds its own load once: to an instance, to the engine or to neither. */
  lemma FoldingAdds(usage: Usage, container: Row)
    ensures Total(Folding(usage, container)).memory + Part(container, Nobody).memory == Total(usage).memory + container.load.memory
    ensures Total(Folding(usage, container)).cpu + Part(container, Nobody).cpu == Total(usage).cpu + container.load.cpu
  {
    match OwnerOf(container.name)
    case Instance(own) => PutAdds(usage.instances, own, container.load.(containers := 1));
    case Engine(own) => PutAdds(usage.engine, own, container.load.(containers := 0));
    case Nobody =>
  }

  lemma FoldingCounts(usage: Usage, container: Row)
    ensures Sum(Folding(usage, container).instances).containers ==
            Sum(usage.instances).containers + if InstanceOf(container.name).Some? then 1 else 0
  {
    match OwnerOf(container.name)
    case Instance(own) => PutAdds(usage.instances, own, container.load.(containers := 1));
    case Engine(own) =>
    case Nobody =>
  }

  /**
   * Nothing is lost and nothing counted twice: the instances, the engine and
   * the containers of neither add up to all the containers.
   */
  lemma {:induction false} UsageIsConserved(containers: seq<Row>)
    ensures Total(Folded(containers)).memory + Share(containers, Nobody).memory == Sum(containers).memory
    ensures Total(Folded(containers)).cpu + Share(containers, Nobody).cpu == Sum(containers).cpu
    decreases |containers|
  {
    if containers != [] {
      var n := |containers| - 1;
      UsageIsConserved(containers[..n]);
      SumLast(containers);
      FoldingAdds(Folded(containers[..n]), containers[n]);
    }
  }

  /** The instances' counts add up to the number of application containers. */
  lemma {:induction false} CountsAreConserved(containers: seq<Row>)
    ensures Sum(Folded(containers).instances).containers == AppContainers(containers)
    decreases |containers|
  {
    if containers != [] {
      var n := |containers| - 1;
      CountsAreConserved(containers[..n]);
      FoldingCounts(Folded(containers[..n]), containers[n]);
    }
  }

  // ---------------------------------------------------------------------------
  // The order of the containers does not matter.

  lemma PlusSwaps(a: Load, b: Load, c: Load)
    ensures Plus(Plus(a, b), c) == Plus(Plus(a, c), b)
  {
  }

  lemma ShareLast(containers: seq<Row>, last: Row, owner: Owner)
    ensures Share(containers + [last], owner) == Plus(Share(containers, owner), Part(last, owner))
  {
    assert (containers + [last])[..|containers|] == containers;
  }

  lemma InsertRegroups(before: seq<Row>, middle: seq<Row>, after: seq<Row>, last: Row)
    ensures before + middle + (after + [last]) == before + middle + after + [last]
  {
  }

  lemma {:induction false} ShareInserts(before: seq<Row>, container: Row, after: seq<Row>, owner: Owner)
    ensures Share(before + [container] + after, owner) == Plus(Share(before + after, owner), Part(container, owner))
    decreases |after|
  {
    if after == [] {
      assert before + [container] + after == before + [container] && before + after == before;
      ShareLast(before, container, owner);
    } else {
      var n := |after| - 1;
      var rest, last := after[..n], after[n];
      ShareInserts(before, container, rest, owner);
      assert after == rest + [last];
      InsertRegroups(before, [container], rest, last);
      ShareLast(before + [container] + rest, last, owner);
      assert before + (rest + [last]) == before + rest + [last];
      ShareLast(before + rest, last, owner);
      PlusSwaps(Share(before + rest, owner), Part(container, owner), Part(last, owner));
    }
  }

  lemma {:induction false} ShareIgnoresOrder(these: seq<Row>, those: seq<Row>, owner: Owner)
    requires multiset(these) == multiset(those)
    ensures Share(these, owner) == Share(those, owner)
    decreases |these|
  {
    assert |these| == |multiset(these)| == |multiset(those)| == |those|;
    if these != [] {
      var n := |these| - 1;
      assert these[n] in multiset(those);
      var i :| 0 <= i < |those| && those[i] == these[n];
      SameRest(these, those, i);
      ShareIgnoresOrder(these[..n], those[..i] + those[i + 1..], owner);
      assert those == those[..i] + [those[i]] + those[i + 1..];
      ShareInserts(those[..i], those[i], those[i + 1..], owner);
    }
  }

  lemma Removed(s: seq<Row>, i: nat)
    requires i < |s|
    ensures multiset(s) == multiset(s[..i] + s[i + 1..]) + multiset{s[i]}
  {
    assert s == s[..i] + [s[i]] + s[i + 1..];
  }

  lemma SameRest(these: seq<Row>, those: seq<Row>, i: nat)
    requires these != [] && multiset(these) == multiset(those) && i < |those| && those[i] == these[|these| - 1]
    ensures multiset(these[..|these| - 1]) == multiset(those[..i] + those[i + 1..])
  {
    var n := |these| - 1;
    Removed(these, n);
    assert these[..n] + these[n + 1..] == these[..n];
    Removed(those, i);
    assert multiset(these[..n]) + multiset{these[n]} - multiset{these[n]} == multiset(these[..n]);
    assert multiset(those[..i] + those[i + 1..]) + multiset{these[n]} - multiset{these[n]} == multiset(those[..i] + those[i + 1..]);
  }

  /** Each instance and each engine service is given the same whatever order the containers come in. */
  lemma UsageIgnoresOrder(these: seq<Row>, those: seq<Row>, name: string)
    requires multiset(these) == multiset(those)
    ensures At(Folded(these).instances, name) == At(Folded(those).instances, name)
    ensures At(Folded(these).engine, name) == At(Folded(those).engine, name)
  {
    InstanceGetsItsShare(these, name);
    InstanceGetsItsShare(those, name);
    ShareIgnoresOrder(these, those, Instance(name));
    EngineGetsItsShare(these, name);
    EngineGetsItsShare(those, name);
    ShareIgnoresOrder(these, those, Engine(name));
  }
}
