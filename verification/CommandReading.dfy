/**
 * Which command an argv runs. A reader of the dispatcher's words, written from
 * its `case` (`infra/fleet/server-setup/setup-server.sh`) and not from the
 * builder, gets back what was asked for; and which requests are built at all
 * is said outright.
 */
module CommandReading {
  import opened Wrappers
  import opened SshCommands
  import opened CommandGrammar

  datatype Ask = Ask(command: CommandName, argument: Option<string>, version: Option<string>, json: bool)

  function Word(words: seq<string>, k: nat): Option<string> {
    if k < |words| then Some(words[k]) else None
  }

  /** What the words after the subcommand and before any option name. */
  function Named(words: seq<string>): Option<string> {
    if Word(words, 1) == Some("--app") then None else Word(words, 1)
  }

  /** What `stack` does on the words the dispatcher is sent. */
  function ReadBack(words: seq<string>): Option<Ask> {
    if words == [] then None
    else if words[0] == "status" then Some(Ask(Status, Named(words), None, false))
    else if words[0] == "versions" then Some(Ask(Versions, Named(words), None, Word(words, 2) == Some("--json")))
    else if words[0] == "logs" then Some(Ask(Logs, Named(words), None, false))
    else if words[0] == "deploy" then
      Some(Ask(Deploy, Named(words), if Word(words, 2) == Some("--version") then Word(words, 3) else None, false))
    else if words[0] == "rollback" then Some(Ask(Rollback, Named(words), None, false))
    else if words[0] == "start" then Some(Ask(Start, Named(words), None, false))
    else if words[0] == "stop" then Some(Ask(Stop, Named(words), None, false))
    else if words[0] == "backup" then Some(Ask(Backup, Named(words), None, false))
    else if words[0] == "add" then Some(Ask(if "--dry-run" in words then AddPreview else Add, Named(words), None, false))
    else if words[0] == "retire" then
      Some(Ask(if Word(words, 2) == Some("--with-data") then RetireWithData else Retire, Named(words), None, false))
    else if words[0] == "secrets" && Word(words, 2) == Some("--json") then Some(Ask(Secrets, Named(words), None, false))
    else if words[0] == "secrets" && Word(words, 2) == Some("--set") then Some(Ask(SecretsSet, Named(words), None, false))
    else None
  }

  /** Whether those words change anything on the server. */
  predicate Changes(words: seq<string>) {
    words != [] &&
    if words[0] == "add" then "--dry-run" !in words
    else if words[0] == "secrets" then Word(words, 2) == Some("--set")
    else words[0] in {"deploy", "rollback", "start", "stop", "backup", "retire"}
  }

  predicate ForDispatcher(request: CommandRequest) {
    request.command != Inventory && request.command != Catalogue
  }

  // ---------------------------------------------------------------------------
  // The words of `add`.

  predicate NoDryRun(words: seq<string>) {
    "--dry-run" !in words
  }

  lemma {:induction false} DomainsAreNoDryRun(domains: seq<string>)
    requires FirstBadDomain(domains) == None
    ensures NoDryRun(DomainFlags(domains))
    decreases |domains|
  {
    if domains != [] {
      assert SafeDomain(domains[0]);
      assert domains[0] != "--dry-run";
      DomainsAreNoDryRun(domains[1..]);
    }
  }

  lemma NamesAreNoFlags(name: string)
    requires SafeName(name) || SafeDatabase(name)
    ensures name != "--dry-run" && name != "--app"
  {
    assert name[0] != '-';
  }

  lemma FlagsAreNoDryRun(create: CreateFields)
    requires CreateProblem(create) == None
    ensures NoDryRun(Flags(create))
  {
    DomainsAreNoDryRun(create.domains);
    NamesAreNoFlags(create.app);
    if create.client != "" { NamesAreNoFlags(create.client); }
    if create.database != "" { NamesAreNoFlags(create.database); }
    assert NoDryRun(OptionalFlag("--client", create.client));
    assert NoDryRun(OptionalFlag("--database", create.database));
  }

  lemma AddReadsBack(request: CommandRequest)
    requires request.command == Add || request.command == AddPreview
    requires Dispatched(request).Ok?
    ensures ReadBack(Dispatched(request).value) == Some(Ask(request.command, request.argument, None, false))
  {
    var create := request.create.value;
    var instance, tail := InstanceArgs(request).value, Flags(create) + AddTail(request.command);
    var words := Dispatched(request).value;
    Assembled(request, instance, tail);
    FlagsAreNoDryRun(create);
    if request.argument.Some? {
      NamesAreNoFlags(request.argument.value);
      assert NoDryRun(instance);
    } else {
      assert words[1] == tail[0] == "--app";
    }
    assert "--dry-run" in AddTail(request.command) <==> request.command == AddPreview;
    assert "--dry-run" in words <==> request.command == AddPreview;
  }

  // ---------------------------------------------------------------------------
  // All the others.

  lemma NamedReadsBack(request: CommandRequest)
    requires ForDispatcher(request) && request.command !in {Backup, Add, AddPreview}
    requires Dispatched(request).Ok?
    ensures ReadBack(Dispatched(request).value)
         == Some(Ask(request.command, request.argument, if request.command == Deploy then request.version else None,
                     request.command == Versions && request.json))
  {
    Assembled(request, InstanceArgs(request).value, Tail(request).value);
    if request.argument.Some? {
      NamesAreNoFlags(request.argument.value);
    }
  }

  lemma ChangesAsRead(words: seq<string>)
    requires ReadBack(words).Some?
    ensures Changes(words) <==> Spec(ReadBack(words).value.command).kind == Mutate
  {
  }

  /**
   * Every argv built for the dispatcher runs the command that was asked for, on
   * what was asked, at the version and in the form asked; and it changes
   * something on the server exactly when the panel takes the lock for it.
   */
  lemma BuiltReadsBack(request: CommandRequest)
    requires ForDispatcher(request) && Dispatched(request).Ok?
    ensures ReadBack(Dispatched(request).value)
         == Some(Ask(request.command, request.argument, if request.command == Deploy then request.version else None,
                     request.command == Versions && request.json))
    ensures Changes(Dispatched(request).value) <==> Spec(request.command).kind == Mutate
  {
    if request.command == Add || request.command == AddPreview {
      AddReadsBack(request);
    } else if request.command == Backup {
      assert Dispatched(request).value == ["backup", request.argument.value];
    } else {
      NamedReadsBack(request);
    }
    ChangesAsRead(Dispatched(request).value);
  }

  /** Two requests for different things are never the same words. */
  lemma SameWordsSameAsk(a: CommandRequest, b: CommandRequest)
    requires ForDispatcher(a) && ForDispatcher(b) && Dispatched(a).Ok? && Dispatched(a) == Dispatched(b)
    ensures a.command == b.command && a.argument == b.argument
    ensures a.command == Deploy ==> a.version == b.version
    ensures a.command == Versions ==> a.json == b.json
  {
    BuiltReadsBack(a);
    BuiltReadsBack(b);
  }

  /** The whole argv: `sudo` to the dispatcher and its words, or `stack` itself for the two reads without one. */
  lemma BuiltGoesThrough(request: CommandRequest, stackPath: string)
    requires Built(request, stackPath).Ok?
    ensures var argv := Built(request, stackPath).value;
            if request.command == Inventory then argv == [stackPath, "inventory"]
            else if request.command == Catalogue then argv == [stackPath, "catalogue"]
            else |argv| > 5 && argv[..5] == ["sudo", "-n", "-u", "ubuntu", "/usr/local/sbin/atalaya-stack"]
                 && ReadBack(argv[5..]).Some? && ReadBack(argv[5..]).value.command == request.command
                 && ReadBack(argv[5..]).value.argument == request.argument
  {
    if ForDispatcher(request) {
      BuiltReadsBack(request);
      assert Built(request, stackPath).value[5..] == Dispatched(request).value;
    }
  }

  lemma FirstWord(request: CommandRequest)
    requires Dispatched(request).Ok?
    ensures Word(Dispatched(request).value, 0) == Some(Spec(request.command).subcommand)
  {
  }

  /** Only reading logs has no limit: it is the one command that does not end by itself. */
  lemma OnlyLogsAreUnlimited(request: CommandRequest)
    requires ForDispatcher(request) && Dispatched(request).Ok?
    ensures Spec(request.command).timeoutMs == None <==> Word(Dispatched(request).value, 0) == Some("logs")
  {
    FirstWord(request);
    if Word(Dispatched(request).value, 0) == Some("logs") {
      BuiltReadsBack(request);
    }
  }

  // ---------------------------------------------------------------------------
  // Which requests are built.

  predicate FineFields(create: CreateFields) {
    && SafeName(create.app)
    && 1 <= |create.domains| <= 10 && NoBadDomain(create.domains)
    && (create.client == "" || SafeName(create.client))
    && (create.database == "" || SafeDatabase(create.database))
  }

  predicate HasName(request: CommandRequest) {
    request.argument.Some? && SafeName(request.argument.value)
  }

  /** What the panel may ask for, command by command. */
  predicate MayBeAsked(request: CommandRequest) {
    var name, version := request.argument, request.version;
    match request.command
    case Inventory => true
    case Catalogue => true
    case Status => (name == None || HasName(request)) && version == None && !request.json
    case Versions => HasName(request) && version == None
    case Deploy => HasName(request) && (version == None || SafeName(version.value)) && !request.json
    case Backup => name == Some("full") || name == Some("incremental")
    case Add => (name == None || HasName(request)) && request.create.Some? && FineFields(request.create.value)
    case AddPreview => (name == None || HasName(request)) && request.create.Some? && FineFields(request.create.value)
    case RetireWithData => HasName(request)
    case Secrets => HasName(request)
    case SecretsSet => HasName(request)
    case _ => HasName(request) && version == None && !request.json
  }

  lemma {:induction false} FirstBadIsBad(domains: seq<string>)
    ensures FirstBadDomain(domains) == None <==> NoBadDomain(domains)
    ensures FirstBadDomain(domains).Some? ==>
              FirstBadDomain(domains).value in domains && !SafeDomain(FirstBadDomain(domains).value)
    decreases |domains|
  {
    if domains != [] {
      FirstBadIsBad(domains[1..]);
      assert forall k :: 0 < k < |domains| ==> domains[k] == domains[1..][k - 1];
    }
  }

  lemma FieldsAreFineIff(create: CreateFields)
    ensures CreateProblem(create) == None <==> FineFields(create)
  {
    FirstBadIsBad(create.domains);
  }

  /** A request is built exactly when it may be asked for and the path is safe. */
  lemma BuiltIff(request: CommandRequest, stackPath: string)
    ensures Built(request, stackPath).Ok? <==> SafePath(stackPath) && MayBeAsked(request)
  {
    if request.create.Some? {
      FieldsAreFineIff(request.create.value);
    }
  }

  /** What each refusal says is so. */
  predicate Justified(problem: BuildError, request: CommandRequest, stackPath: string) {
    match problem
    case UnsafePath => !SafePath(stackPath)
    case BadBackupMode => request.command == Backup && request.argument != Some("full") && request.argument != Some("incremental")
    case BadInstance => !HasName(request)
    case MissingDetails => request.create == None
    case BadApp => request.create.Some? && !SafeName(request.create.value.app)
    case NoDomains => request.create.Some? && request.create.value.domains == []
    case TooManyDomains => request.create.Some? && |request.create.value.domains| > 10
    case BadDomain(domain) => request.create.Some? && domain in request.create.value.domains && !SafeDomain(domain)
    case BadClient => request.create.Some? && request.create.value.client != "" && !SafeName(request.create.value.client)
    case BadDatabase => request.create.Some? && request.create.value.database != "" && !SafeDatabase(request.create.value.database)
    case TakesNoVersion => request.version.Some? && request.command != Deploy
    case BadVersion => request.command == Deploy && request.version.Some? && !SafeName(request.version.value)
    case HasNoJson => request.json && request.command != Versions
  }

  lemma RefusalsAreJustified(request: CommandRequest, stackPath: string)
    requires Built(request, stackPath).Err?
    ensures Justified(Built(request, stackPath).error, request, stackPath)
  {
    if request.create.Some? {
      FirstBadIsBad(request.create.value.domains);
    }
  }
}
