/**
 * The three hand-written copies of one grammar agree: what the builder prints,
 * the dispatcher accepts and reads back; what the dispatcher accepts, the
 * builder can print; and the one line that travels in between loses nothing.
 */
module CommandGrammar {
  import opened Wrappers
  import opened Text
  import opened SshCommands
  import opened Dispatcher
  import DispatcherLanguage

  // ---------------------------------------------------------------------------
  // Reading back what was printed.

  lemma WalkTake(seen: Seen, taken: seq<string>, more: seq<string>)
    requires taken != []
    requires WalkOne(seen, taken + more).Ok? && WalkOne(seen, taken + more).value.1 == |taken|
    ensures WalkFlags(seen, taken + more) == WalkFlags(WalkOne(seen, taken + more).value.0, more)
  {
    assert (taken + more)[|taken|..] == more;
  }

  lemma WalkDomain(seen: Seen, domain: string, more: seq<string>)
    requires SafeDomain(domain) && |seen.domains| < MAX_DOMAINS
    ensures WalkFlags(seen, ["--domain", domain] + more)
         == WalkFlags(seen.(domains := seen.domains + [domain]), more)
  {
    WalkTake(seen, ["--domain", domain], more);
  }

  lemma {:induction false} WalkDomains(seen: Seen, domains: seq<string>, more: seq<string>)
    requires FirstBadDomain(domains) == None && |seen.domains| + |domains| <= MAX_DOMAINS
    ensures WalkFlags(seen, DomainFlags(domains) + more)
         == WalkFlags(seen.(domains := seen.domains + domains), more)
    decreases |domains|
  {
    if domains == [] {
      assert DomainFlags(domains) + more == more;
      assert seen.domains + domains == seen.domains;
    } else {
      var next := seen.(domains := seen.domains + [domains[0]]);
      Regroup(["--domain", domains[0]], DomainFlags(domains[1..]), more);
      Regroup(seen.domains, [domains[0]], domains[1..]);
      assert [domains[0]] + domains[1..] == domains;
      WalkDomain(seen, domains[0], DomainFlags(domains[1..]) + more);
      WalkDomains(next, domains[1..], more);
    }
  }

  lemma WalkClient(seen: Seen, client: string, more: seq<string>)
    requires seen.client == "" && (client != "" ==> SafeName(client))
    ensures WalkFlags(seen, OptionalFlag("--client", client) + more) == WalkFlags(seen.(client := client), more)
  {
    if client == "" {
      assert OptionalFlag("--client", client) + more == more;
    } else {
      WalkTake(seen, ["--client", client], more);
    }
  }

  lemma WalkDatabase(seen: Seen, database: string, more: seq<string>)
    requires seen.database == "" && (database != "" ==> SafeDatabase(database))
    ensures WalkFlags(seen, OptionalFlag("--database", database) + more) == WalkFlags(seen.(database := database), more)
  {
    if database == "" {
      assert OptionalFlag("--database", database) + more == more;
    } else {
      WalkTake(seen, ["--database", database], more);
    }
  }

  function Switch(flag: string, on: bool): seq<string> {
    if on then [flag] else []
  }

  lemma WalkSwitches(seen: Seen, reuse: bool, dry: bool)
    requires !seen.reuse && !seen.dry && !seen.json
    ensures WalkFlags(seen, Switch("--reuse-secrets", reuse) + (Switch("--dry-run", dry) + ["--json"]))
         == Ok(seen.(reuse := reuse, dry := dry, json := true))
  {
    var tail := Switch("--dry-run", dry) + ["--json"];
    if reuse {
      WalkTake(seen, ["--reuse-secrets"], tail);
    } else {
      assert Switch("--reuse-secrets", reuse) + tail == tail;
    }
    var next := seen.(reuse := reuse);
    if dry {
      WalkTake(next, ["--dry-run"], ["--json"]);
    } else {
      assert Switch("--dry-run", dry) + ["--json"] == ["--json"];
    }
    var last := next.(dry := dry);
    assert ["--json"] == ["--json"] + [];
    WalkTake(last, ["--json"], []);
  }

  /** The words of `add` after the app, in the order they are printed. */
  lemma FlagWords(create: CreateFields, command: CommandName)
    requires command == Add || command == AddPreview
    ensures var switches := Switch("--reuse-secrets", create.reuseSecrets)
                            + (Switch("--dry-run", command == AddPreview) + ["--json"]);
            Flags(create) + AddTail(command)
            == ["--app", create.app] + (DomainFlags(create.domains)
               + (OptionalFlag("--client", create.client) + (OptionalFlag("--database", create.database) + switches)))
  {
  }

  lemma WalkCreate(create: CreateFields, switches: seq<string>)
    requires CreateProblem(create) == None
    ensures WalkFlags(NOTHING_SEEN, ["--app", create.app] + (DomainFlags(create.domains)
              + (OptionalFlag("--client", create.client) + (OptionalFlag("--database", create.database) + switches))))
         == WalkFlags(Seen(create.app, create.client, create.database, create.domains, false, false, false), switches)
  {
    var afterClient := OptionalFlag("--database", create.database) + switches;
    var afterDomains := OptionalFlag("--client", create.client) + afterClient;
    WalkTake(NOTHING_SEEN, ["--app", create.app], DomainFlags(create.domains) + afterDomains);
    var seen := NOTHING_SEEN.(app := create.app);
    WalkDomains(seen, create.domains, afterDomains);
    assert [] + create.domains == create.domains;
    WalkClient(seen.(domains := create.domains), create.client, afterClient);
    WalkDatabase(seen.(domains := create.domains, client := create.client), create.database, switches);
  }

  /** The dispatcher's loop undoes `createFlags`: every field comes back, the domains in order. */
  lemma FlagsReadBack(instance: string, create: CreateFields, command: CommandName)
    requires SafeName(instance) && CreateProblem(create) == None
    requires command == Add || command == AddPreview
    ensures ParseAdd([instance] + (Flags(create) + AddTail(command)))
         == Ok(Seen(create.app, create.client, create.database, create.domains,
                    create.reuseSecrets, command == AddPreview, true))
  {
    var words := Flags(create) + AddTail(command);
    var switches := Switch("--reuse-secrets", create.reuseSecrets) + (Switch("--dry-run", command == AddPreview) + ["--json"]);
    var seen := Seen(create.app, create.client, create.database, create.domains, false, false, false);
    assert WalkFlags(NOTHING_SEEN, words) == Ok(seen.(reuse := create.reuseSecrets, dry := command == AddPreview, json := true)) by {
      FlagWords(create, command);
      WalkCreate(create, switches);
      WalkSwitches(seen, create.reuseSecrets, command == AddPreview);
    }
    assert ([instance] + words)[1..] == words;
  }

  // ---------------------------------------------------------------------------
  // Everything printed is accepted.

  /** `add` without an instance: the builder lets it through, its first flag stands where the name should. */
  predicate NamelessAdd(request: CommandRequest) {
    (request.command == Add || request.command == AddPreview) && request.argument == None
  }

  /**
   * Every argv the builder returns for the dispatcher is accepted by it, with
   * one exception, which it always refuses.
   */
  lemma BuiltIsAccepted(request: CommandRequest)
    requires request.command != Inventory && request.command != Catalogue
    requires Dispatched(request).Ok?
    ensures Decide(Dispatched(request).value) == Exec <==> !NamelessAdd(request)
  {
    if request.command == Add || request.command == AddPreview {
      AddIsAccepted(request);
    } else if request.command != Backup {
      NamedIsAccepted(request);
    }
  }

  /** The request that does it: everything an instance needs but its name. */
  lemma NamelessAddIsRefused(stackPath: string)
    requires SafePath(stackPath)
    ensures var request := CommandRequest(Add, None, None, false, Some(CreateFields("shop", ["shop.example"], "", "", false)));
            && Built(request, stackPath).Ok? && Dispatched(request).Ok?
            && Decide(Dispatched(request).value) != Exec
  {
    var create := CreateFields("shop", ["shop.example"], "", "", false);
    var request := CommandRequest(Add, None, None, false, Some(create));
    assert SafeName(create.app) && SafeDomain("shop.example");
    assert create.domains[1..] == [];
    assert FirstBadDomain(create.domains) == None;
    assert CreateProblem(create) == None;
    BuiltIsAccepted(request);
  }

  lemma NamedIsAccepted(request: CommandRequest)
    requires request.command !in {Inventory, Catalogue, Backup, Add, AddPreview}
    requires Dispatched(request).Ok?
    ensures Decide(Dispatched(request).value) == Exec
  {
    var words := Dispatched(request).value;
    var instance, tail := InstanceArgs(request).value, Tail(request).value;
    var sub := Spec(request.command).subcommand;
    assert words == [sub] + instance + tail;
    assert words[0] == sub && words[1..] == instance + tail;
    if request.command == Status {
      assert tail == [];
    } else {
      assert |instance| == 1;
    }
  }

  lemma DecideAdd(args: seq<string>)
    ensures Decide(["add"] + args) == match ParseAdd(args) { case Ok(_) => Exec case Err(reason) => Die(reason) }
  {
    assert (["add"] + args)[1..] == args;
  }

  lemma FlagIsNoName(words: seq<string>)
    requires words != [] && words[0] == "--app"
    ensures ParseAdd(words).Err?
  {
    assert !SafeName("--app");
  }

  lemma AddIsAccepted(request: CommandRequest)
    requires request.command == Add || request.command == AddPreview
    requires Dispatched(request).Ok?
    ensures Decide(Dispatched(request).value) == Exec <==> !NamelessAdd(request)
  {
    var create := request.create.value;
    var tail := Flags(create) + AddTail(request.command);
    var args := InstanceArgs(request).value + tail;
    assert Dispatched(request).value == ["add"] + args;
    DecideAdd(args);
    if request.argument == None {
      assert args == tail && tail[0] == "--app";
      FlagIsNoName(args);
    } else {
      FlagsReadBack(request.argument.value, create, request.command);
    }
  }

  // ---------------------------------------------------------------------------
  // Everything accepted can be asked for.

  predicate NoBadDomain(domains: seq<string>) {
    forall k :: 0 <= k < |domains| ==> SafeDomain(domains[k])
  }

  predicate ValidSeen(seen: Seen) {
    (seen.app != "" ==> SafeName(seen.app))
    && (seen.client != "" ==> SafeName(seen.client))
    && (seen.database != "" ==> SafeDatabase(seen.database))
    && NoBadDomain(seen.domains) && |seen.domains| <= 10
  }

  /** Whatever the loop lets through was validated. */
  lemma {:induction false} WalkValidates(seen: Seen, rest: seq<string>)
    requires ValidSeen(seen) && WalkFlags(seen, rest).Ok?
    ensures ValidSeen(WalkFlags(seen, rest).value)
    decreases |rest|
  {
    if rest != [] {
      DispatcherLanguage.AcceptedHead(seen, rest);
      var o := DispatcherLanguage.FirstOption(rest);
      OneValidates(seen, o);
      WalkValidates(DispatcherLanguage.After(seen, o), rest[|DispatcherLanguage.Words(o)|..]);
    }
  }

  lemma OneValidates(seen: Seen, o: DispatcherLanguage.AddOption)
    requires ValidSeen(seen) && DispatcherLanguage.ValidOption(o)
    requires DispatcherLanguage.HasRoom(seen, DispatcherLanguage.KindOf(o))
    ensures ValidSeen(DispatcherLanguage.After(seen, o))
  {
    assert |seen.domains| == |DispatcherLanguage.Remembered(seen, DispatcherLanguage.DomainKind)|;
  }

  lemma {:induction false} NoneBad(domains: seq<string>)
    requires NoBadDomain(domains)
    ensures FirstBadDomain(domains) == None
    decreases |domains|
  {
    if domains != [] {
      NoneBad(domains[1..]);
    }
  }

  /**
   * An `add` the dispatcher accepts, with `--json`, is one the panel can ask
   * for: some request is built into words the dispatcher reads the same way.
   */
  lemma AcceptedAddCanBeAsked(args: seq<string>) returns (request: CommandRequest)
    requires ParseAdd(args).Ok? && ParseAdd(args).value.json
    ensures Dispatched(request).Ok?
    ensures ParseAdd(Dispatched(request).value[1..]) == ParseAdd(args)
    ensures request.command == if ParseAdd(args).value.dry then AddPreview else Add
  {
    var seen := ParseAdd(args).value;
    WalkValidates(NOTHING_SEEN, args[1..]);
    NoneBad(seen.domains);
    var create := CreateFields(seen.app, seen.domains, seen.client, seen.database, seen.reuse);
    var command := if seen.dry then AddPreview else Add;
    request := CommandRequest(command, Some(args[0]), None, false, Some(create));
    var tail := Flags(create) + AddTail(command);
    Assembled(request, [args[0]], tail);
    FlagsReadBack(args[0], create, command);
    assert Dispatched(request).value[1..] == [args[0]] + tail;
  }

  function Plain(command: CommandName, argument: Option<string>): CommandRequest {
    CommandRequest(command, argument, None, false, None)
  }

  lemma Assembled(request: CommandRequest, instance: seq<string>, tail: seq<string>)
    requires request.command != Backup
    requires InstanceArgs(request) == Ok(instance) && Tail(request) == Ok(tail)
    ensures Dispatched(request) == Ok([Spec(request.command).subcommand] + (instance + tail))
  {
    Regroup([Spec(request.command).subcommand], instance, tail);
  }

  /** Every other argv the dispatcher accepts is, word for word, one the builder returns. */
  lemma AcceptedCanBeAsked(words: seq<string>) returns (request: CommandRequest)
    requires Decide(words) == Exec && words[0] != "add"
    ensures Dispatched(request) == Ok(words)
  {
    var sub, args := words[0], words[1..];
    assert words == [sub] + args;
    if sub in {"status", "logs", "rollback", "start", "stop"} {
      request := AskPlain(sub, args);
    } else if sub == "backup" {
      request := Plain(Backup, Some(args[0]));
      assert words == [sub, args[0]];
    } else if sub == "versions" || sub == "deploy" {
      request := AskVersion(sub, args);
    } else {
      request := AskRemoval(sub, args);
    }
  }

  lemma AskPlain(sub: string, args: seq<string>) returns (request: CommandRequest)
    requires sub in {"status", "logs", "rollback", "start", "stop"}
    requires |args| <= 1 && (args != [] ==> SafeName(args[0])) && (args == [] ==> sub == "status")
    ensures Dispatched(request) == Ok([sub] + args)
  {
    var command := if sub == "status" then Status else if sub == "logs" then Logs
                   else if sub == "rollback" then Rollback else if sub == "start" then Start else Stop;
    request := Plain(command, if args == [] then None else Some(args[0]));
    assert args == if args == [] then [] else [args[0]];
    assert Tail(request).value == [];
    Assembled(request, args, []);
    assert args + [] == args;
  }

  lemma AskVersion(sub: string, args: seq<string>) returns (request: CommandRequest)
    requires sub in {"versions", "deploy"} && Decide([sub] + args) == Exec
    ensures Dispatched(request) == Ok([sub] + args)
  {
    assert ([sub] + args)[1..] == args;
    request := if sub == "versions" then Plain(Versions, Some(args[0])).(json := |args| == 2)
               else Plain(Deploy, Some(args[0])).(version := if |args| == 3 then Some(args[2]) else None);
    assert args == [args[0]] + args[1..];
    assert Tail(request).Ok? && Tail(request).value == args[1..];
    Assembled(request, [args[0]], args[1..]);
  }

  lemma AskRemoval(sub: string, args: seq<string>) returns (request: CommandRequest)
    requires sub in {"retire", "secrets"} && Decide([sub] + args) == Exec
    ensures Dispatched(request) == Ok([sub] + args)
  {
    assert ([sub] + args)[1..] == args;
    var command := if sub == "retire" then (if |args| == 2 then RetireWithData else Retire)
                   else if args[1] == "--json" then Secrets else SecretsSet;
    request := Plain(command, Some(args[0]));
    assert args == [args[0]] + args[1..];
    assert Tail(request).Ok? && Tail(request).value == args[1..];
    Assembled(request, [args[0]], args[1..]);
  }
}
