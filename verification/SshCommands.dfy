/**
 * The commands the panel may run and the argv each one becomes
 * (`backend/src/shared/ssh/ssh-commands.ts`). Regular expressions are written
 * out as recognisers over characters.
 */
module SshCommands {
  import opened Wrappers

  datatype CommandName =
    | Inventory | Catalogue | Status | Versions | Logs
    | Deploy | Rollback | Start | Stop | Backup
    | Add | AddPreview | Retire | RetireWithData | Secrets | SecretsSet

  datatype Kind = Read | Mutate

  datatype CommandSpec = CommandSpec(kind: Kind, timeoutMs: Option<nat>, needsInstance: bool, subcommand: string)

  function Spec(command: CommandName): CommandSpec {
    match command
    case Inventory => CommandSpec(Read, Some(20_000), false, "inventory")
    case Catalogue => CommandSpec(Read, Some(20_000), false, "catalogue")
    case Status => CommandSpec(Read, Some(30_000), false, "status")
    case Versions => CommandSpec(Read, Some(60_000), true, "versions")
    case Logs => CommandSpec(Read, None, true, "logs")
    case Deploy => CommandSpec(Mutate, Some(15 * 60_000), true, "deploy")
    case Rollback => CommandSpec(Mutate, Some(15 * 60_000), true, "rollback")
    case Start => CommandSpec(Mutate, Some(15 * 60_000), true, "start")
    case Stop => CommandSpec(Mutate, Some(5 * 60_000), true, "stop")
    case Backup => CommandSpec(Mutate, Some(4 * 60 * 60_000), false, "backup")
    case Add => CommandSpec(Mutate, Some(3 * 60_000), false, "add")
    case AddPreview => CommandSpec(Read, Some(60_000), false, "add")
    case Retire => CommandSpec(Mutate, Some(4 * 60 * 60_000), true, "retire")
    case RetireWithData => CommandSpec(Mutate, Some(4 * 60 * 60_000), true, "retire")
    case Secrets => CommandSpec(Read, Some(30_000), true, "secrets")
    case SecretsSet => CommandSpec(Mutate, Some(30_000), true, "secrets")
  }

  /** An absent `client` or `database` is the empty string: the code tests both the same way. */
  datatype CreateFields = CreateFields(
    app: string, domains: seq<string>, client: string, database: string, reuseSecrets: bool)

  datatype CommandRequest = CommandRequest(
    command: CommandName,
    argument: Option<string>,
    version: Option<string>,
    json: bool,
    create: Option<CreateFields>)

  const MAX_DOMAINS := 10

  predicate LowerDigit(c: char) { 'a' <= c <= 'z' || '0' <= c <= '9' }

  predicate NameChar(c: char) { LowerDigit(c) || c == '.' || c == '_' || c == '-' }

  predicate PathChar(c: char) { NameChar(c) || 'A' <= c <= 'Z' || c == '/' }

  predicate SafePath(s: string) {
    |s| > 0 && s[0] == '/' && forall i :: 0 <= i < |s| ==> PathChar(s[i])
  }

  predicate SafeName(s: string) {
    |s| > 0 && LowerDigit(s[0]) && forall i :: 0 <= i < |s| ==> NameChar(s[i])
  }

  predicate SafeDomain(s: string) {
    0 < |s| <= 253 && LowerDigit(s[0]) && LowerDigit(s[|s| - 1])
    && forall i :: 0 <= i < |s| ==> LowerDigit(s[i]) || s[i] == '.' || s[i] == '-'
  }

  predicate SafeDatabase(s: string) {
    0 < |s| <= 64 && forall i :: 0 <= i < |s| ==> LowerDigit(s[i]) || s[i] == '_'
  }

  datatype BuildError =
    | UnsafePath | BadBackupMode | BadInstance | MissingDetails | BadApp | NoDomains
    | TooManyDomains | BadDomain(domain: string) | BadClient | BadDatabase
    | TakesNoVersion | BadVersion | HasNoJson

  type Argv = Result<seq<string>, BuildError>

  const PREFIX: seq<string> := ["sudo", "-n", "-u", "ubuntu", "/usr/local/sbin/atalaya-stack"]

  // ---------------------------------------------------------------------------
  // What the builder computes.

  function DomainFlags(domains: seq<string>): seq<string> {
    if domains == [] then [] else ["--domain", domains[0]] + DomainFlags(domains[1..])
  }

  function FirstBadDomain(domains: seq<string>): Option<string> {
    if domains == [] then None
    else if !SafeDomain(domains[0]) then Some(domains[0])
    else FirstBadDomain(domains[1..])
  }

  function OptionalFlag(flag: string, value: string): seq<string> {
    if value == "" then [] else [flag, value]
  }

  function Flags(create: CreateFields): seq<string> {
    ["--app", create.app] + DomainFlags(create.domains)
    + OptionalFlag("--client", create.client)
    + OptionalFlag("--database", create.database)
    + if create.reuseSecrets then ["--reuse-secrets"] else []
  }

  function CreateProblem(create: CreateFields): Option<BuildError> {
    if !SafeName(create.app) then Some(BadApp)
    else if create.domains == [] then Some(NoDomains)
    else if |create.domains| > MAX_DOMAINS then Some(TooManyDomains)
    else match FirstBadDomain(create.domains)
      case Some(domain) => Some(BadDomain(domain))
      case None =>
        if create.client != "" && !SafeName(create.client) then Some(BadClient)
        else if create.database != "" && !SafeDatabase(create.database) then Some(BadDatabase)
        else None
  }

  function AddTail(command: CommandName): seq<string> {
    (if command == AddPreview then ["--dry-run"] else []) + ["--json"]
  }

  function CreateArgs(request: CommandRequest): Argv {
    match request.create
    case None => Err(MissingDetails)
    case Some(create) =>
      match CreateProblem(create)
      case Some(problem) => Err(problem)
      case None => Ok(Flags(create))
  }

  /** Everything after the subcommand and the instance. */
  function Tail(request: CommandRequest): Argv {
    if request.command == Add || request.command == AddPreview then
      match CreateArgs(request)
      case Err(problem) => Err(problem)
      case Ok(flags) => Ok(flags + AddTail(request.command))
    else if request.command == Secrets then Ok(["--json"])
    else if request.command == SecretsSet then Ok(["--set"])
    else if request.command == RetireWithData then Ok(["--with-data"])
    else if request.version.Some? && request.command != Deploy then Err(TakesNoVersion)
    else if request.version.Some? && !SafeName(request.version.value) then Err(BadVersion)
    else if request.json && request.command != Versions then Err(HasNoJson)
    else Ok((if request.version.Some? then ["--version", request.version.value] else [])
            + if request.json then ["--json"] else [])
  }

  function InstanceArgs(request: CommandRequest): Argv {
    if Spec(request.command).needsInstance || request.argument.Some? then
      var instance := if request.argument.Some? then request.argument.value else "";
      if SafeName(instance) then Ok([instance]) else Err(BadInstance)
    else Ok([])
  }

  /** The arguments the dispatcher on the server receives. */
  function Dispatched(request: CommandRequest): Argv {
    var sub := Spec(request.command).subcommand;
    if request.command == Backup then
      if request.argument == Some("full") || request.argument == Some("incremental")
      then Ok([sub, request.argument.value]) else Err(BadBackupMode)
    else match InstanceArgs(request)
      case Err(problem) => Err(problem)
      case Ok(instance) =>
        match Tail(request)
        case Err(problem) => Err(problem)
        case Ok(tail) => Ok([sub] + instance + tail)
  }

  function Built(request: CommandRequest, stackPath: string): Argv {
    if !SafePath(stackPath) then Err(UnsafePath)
    else if request.command == Inventory || request.command == Catalogue then
      Ok([stackPath, Spec(request.command).subcommand])
    else match Dispatched(request)
      case Err(problem) => Err(problem)
      case Ok(args) => Ok(PREFIX + args)
  }

  // ---------------------------------------------------------------------------
  // How it computes it.

  method CreateFlags(request: CommandRequest) returns (r: Argv)
    ensures r == CreateArgs(request)
  {
    if request.create.None? {
      return Err(MissingDetails);
    }
    var create := request.create.value;
    if !SafeName(create.app) {
      return Err(BadApp);
    }
    if |create.domains| == 0 {
      return Err(NoDomains);
    }
    if |create.domains| > MAX_DOMAINS {
      return Err(TooManyDomains);
    }
    var flags := ["--app", create.app];
    var i := 0;
    while i < |create.domains|
      invariant 0 <= i <= |create.domains|
      invariant FirstBadDomain(create.domains[i..]) == FirstBadDomain(create.domains)
      invariant flags + DomainFlags(create.domains[i..]) == ["--app", create.app] + DomainFlags(create.domains)
    {
      var domain := create.domains[i];
      assert create.domains[i..][1..] == create.domains[i + 1..];
      if !SafeDomain(domain) {
        return Err(BadDomain(domain));
      }
      flags := flags + ["--domain", domain];
      i := i + 1;
    }
    assert create.domains[i..] == [];
    ghost var declared := ["--app", create.app] + DomainFlags(create.domains);
    assert flags == declared;
    if create.client != "" {
      if !SafeName(create.client) {
        return Err(BadClient);
      }
      flags := flags + ["--client", create.client];
    }
    declared := declared + OptionalFlag("--client", create.client);
    assert flags == declared;
    if create.database != "" {
      if !SafeDatabase(create.database) {
        return Err(BadDatabase);
      }
      flags := flags + ["--database", create.database];
    }
    declared := declared + OptionalFlag("--database", create.database);
    assert flags == declared;
    if create.reuseSecrets {
      flags := flags + ["--reuse-secrets"];
    }
    assert flags == Flags(create);
    return Ok(flags);
  }

  /** The part of the argv each command adds after its instance. */
  method BuildTail(request: CommandRequest) returns (r: Argv)
    ensures r == Tail(request)
  {
    if request.command == Add || request.command == AddPreview {
      var flags := CreateFlags(request);
      return if flags.Err? then flags else Ok(flags.value + AddTail(request.command));
    }
    if request.command == Secrets { return Ok(["--json"]); }
    if request.command == SecretsSet { return Ok(["--set"]); }
    if request.command == RetireWithData { return Ok(["--with-data"]); }
    var tail := [];
    if request.version.Some? {
      if request.command != Deploy {
        return Err(TakesNoVersion);
      }
      if !SafeName(request.version.value) {
        return Err(BadVersion);
      }
      tail := tail + ["--version", request.version.value];
    }
    if request.json {
      if request.command != Versions {
        return Err(HasNoJson);
      }
      tail := tail + ["--json"];
    }
    assert Tail(request).Ok? && tail == Tail(request).value;
    return Ok(tail);
  }

  /** The argv filled step by step is the one `Built` puts together. */
  lemma FilledIsBuilt(request: CommandRequest, stackPath: string, instance: seq<string>, tail: seq<string>)
    requires SafePath(stackPath) && request.command !in {Inventory, Catalogue, Backup}
    requires InstanceArgs(request) == Ok(instance) && Tail(request) == Ok(tail)
    ensures Built(request, stackPath) == Ok(PREFIX + [Spec(request.command).subcommand] + instance + tail)
  {
    var sub := [Spec(request.command).subcommand];
    assert PREFIX + sub + instance + tail == PREFIX + (sub + instance + tail);
    assert sub + instance + tail == sub + (instance + tail);
  }

  lemma BackupIsBuilt(request: CommandRequest, stackPath: string)
    requires SafePath(stackPath) && request.command == Backup && request.argument in {Some("full"), Some("incremental")}
    ensures Built(request, stackPath) == Ok(PREFIX + [Spec(Backup).subcommand] + [request.argument.value])
  {
    assert PREFIX + [Spec(Backup).subcommand] + [request.argument.value] == PREFIX + [Spec(Backup).subcommand, request.argument.value];
  }

  method BuildCommand(request: CommandRequest, stackPath: string) returns (r: Argv)
    ensures r == Built(request, stackPath)
  {
    var spec := Spec(request.command);
    if !SafePath(stackPath) {
      return Err(UnsafePath);
    }
    if request.command == Inventory || request.command == Catalogue {
      return Ok([stackPath, spec.subcommand]);
    }
    var argv := PREFIX + [spec.subcommand];
    if request.command == Backup {
      if request.argument != Some("full") && request.argument != Some("incremental") {
        return Err(BadBackupMode);
      }
      BackupIsBuilt(request, stackPath);
      return Ok(argv + [request.argument.value]);
    }
    if spec.needsInstance || request.argument.Some? {
      var instance := if request.argument.Some? then request.argument.value else "";
      if !SafeName(instance) {
        return Err(BadInstance);
      }
      argv := argv + [instance];
    }
    assert argv == PREFIX + [spec.subcommand] + InstanceArgs(request).value;
    var tail := BuildTail(request);
    if tail.Err? {
      return tail;
    }
    FilledIsBuilt(request, stackPath, InstanceArgs(request).value, tail.value);
    return Ok(argv + tail.value);
  }
}
