/**
 * What the panel checks before it asks a server to create an instance
 * (`backend/src/instances/instances.service.ts`). Trimming and lower-casing are
 * parameters: the results hold whatever they do.
 */
module InstanceRequest {
  import opened Wrappers
  import opened SshCommands
  import opened Dispatcher
  import opened CommandGrammar
  import CommandReading

  /** A body as it arrives: any field may be missing, a domain may not even be text. */
  datatype Body = Body(
    instance: Option<string>, app: Option<string>, client: Option<string>, database: Option<string>,
    domains: Option<seq<Option<string>>>, reuseSecrets: bool)

  datatype BodyError =
    | NotAnInstanceName | NotAnAppName | NotAClientName | NotADatabaseName
    | NoDomain | TooMany | NotADomain(domain: string) | ListedTwice

  /** Lower-case letters, digits and hyphens, up to 32 of them, a letter or digit at both ends. */
  predicate InstanceName(s: string) {
    0 < |s| <= 32 && LowerDigit(s[0]) && LowerDigit(s[|s| - 1])
    && forall i :: 0 <= i < |s| ==> LowerDigit(s[i]) || s[i] == '-'
  }

  function OrEmpty(s: Option<string>): string {
    match s { case Some(v) => v case None => "" }
  }

  function Normalised(domains: seq<Option<string>>, trim: string -> string, lower: string -> string): (d: seq<string>)
    ensures |d| == |domains|
  {
    seq(|domains|, i requires 0 <= i < |domains| =>
      match domains[i] { case Some(v) => lower(trim(v)) case None => "" })
  }

  predicate Distinct(s: seq<string>) {
    forall i, j :: 0 <= i < j < |s| ==> s[i] != s[j]
  }

  function Request(command: CommandName, body: Body, trim: string -> string, lower: string -> string)
    : Result<CommandRequest, BodyError>
  {
    var instance, app := trim(OrEmpty(body.instance)), trim(OrEmpty(body.app));
    var client, database := trim(OrEmpty(body.client)), trim(OrEmpty(body.database));
    var domains := Normalised(match body.domains { case Some(d) => d case None => [] }, trim, lower);
    if !InstanceName(instance) then Err(NotAnInstanceName)
    else if !InstanceName(app) then Err(NotAnAppName)
    else if client != "" && !InstanceName(client) then Err(NotAClientName)
    else if database != "" && !SafeDatabase(database) then Err(NotADatabaseName)
    else if domains == [] then Err(NoDomain)
    else if |domains| > MAX_DOMAINS then Err(TooMany)
    else match FirstBadDomain(domains)
      case Some(domain) => Err(NotADomain(domain))
      case None =>
        if !Distinct(domains) then Err(ListedTwice)
        else Ok(CommandRequest(command, Some(instance), None, false,
                               Some(CreateFields(app, domains, client, database, body.reuseSecrets))))
  }

  // ---------------------------------------------------------------------------
  // What is asked, told from the body.

  /** The text of a field, trimmed; a missing one is empty. */
  function TextOf(field: Option<string>, trim: string -> string): string {
    match field { case Some(v) => trim(v) case None => trim("") }
  }

  /** Each domain as it was typed, trimmed and then lower-cased, in the order typed. */
  predicate DomainsOf(domains: seq<string>, asked: Option<seq<Option<string>>>, trim: string -> string, lower: string -> string) {
    asked.Some? && |domains| == |asked.value|
    && forall i :: 0 <= i < |domains| ==> asked.value[i].Some? && domains[i] == lower(trim(asked.value[i].value))
  }

  /** The dispatcher reads what the body says, and dry-run exactly for a preview. */
  predicate ReadsBody(seen: Seen, command: CommandName, body: Body, trim: string -> string, lower: string -> string) {
    && seen.app == TextOf(body.app, trim) && seen.client == TextOf(body.client, trim) && seen.database == TextOf(body.database, trim)
    && DomainsOf(seen.domains, body.domains, trim, lower) && Distinct(seen.domains)
    && seen.reuse == body.reuseSecrets && seen.dry == (command == AddPreview) && seen.json
  }

  lemma {:induction false} GoodDomain(domains: seq<string>, i: nat)
    requires FirstBadDomain(domains) == None && i < |domains|
    ensures SafeDomain(domains[i])
    decreases i
  {
    if i > 0 {
      GoodDomain(domains[1..], i - 1);
    }
  }

  /** Its domains are the normalised ones, in the order given, with none twice. */
  lemma AcceptedDomains(command: CommandName, body: Body, trim: string -> string, lower: string -> string)
    requires Request(command, body, trim, lower).Ok?
    ensures var domains := Request(command, body, trim, lower).value.create.value.domains;
            Distinct(domains) && DomainsOf(domains, body.domains, trim, lower)
  {
    var asked := match body.domains { case Some(d) => d case None => [] };
    var domains := Normalised(asked, trim, lower);
    forall i | 0 <= i < |asked| ensures asked[i].Some? {
      GoodDomain(domains, i);
    }
  }

  /** The argv of a creation, word by word after the builder's five. */
  lemma CreationIsBuilt(command: CommandName, instance: string, create: CreateFields, stackPath: string)
    requires command == Add || command == AddPreview
    requires SafeName(instance) && CreateProblem(create) == None && SafePath(stackPath)
    ensures var built := Built(CommandRequest(command, Some(instance), None, false, Some(create)), stackPath);
            && built.Ok? && |built.value| > 6 && built.value[6] == instance
            && Decide(built.value[5..]) == Exec
            && ParseAdd(built.value[6..])
               == Ok(Seen(create.app, create.client, create.database, create.domains, create.reuseSecrets, command == AddPreview, true))
  {
    var request := CommandRequest(command, Some(instance), None, false, Some(create));
    var tail := Flags(create) + AddTail(command);
    var args := [instance] + tail;
    Assembled(request, [instance], tail);
    var built := Built(request, stackPath).value;
    assert built == PREFIX + (["add"] + args);
    assert built[5..] == ["add"] + args && built[6..] == args;
    FlagsReadBack(instance, create, command);
    DecideAdd(args);
  }

  lemma AcceptedHasNoProblem(command: CommandName, body: Body, trim: string -> string, lower: string -> string)
    requires Request(command, body, trim, lower).Ok?
    ensures var request := Request(command, body, trim, lower).value;
            && SafeName(request.argument.value) && CreateProblem(request.create.value) == None
            && request == CommandRequest(command, request.argument, None, false, request.create)
  {
  }

  /**
   * A body the panel accepts cannot fail later for its form: the builder builds
   * it for any safe path, and the dispatcher accepts what was built. It adds the
   * instance the body names, trimmed, and it is told the body's application,
   * client and database, trimmed, and its domains, trimmed and lower-cased, in
   * order.
   */
  lemma AcceptedBodyReachesStack(command: CommandName, body: Body, trim: string -> string, lower: string -> string, stackPath: string)
    requires command == Add || command == AddPreview
    requires Request(command, body, trim, lower).Ok? && SafePath(stackPath)
    ensures var built := Built(Request(command, body, trim, lower).value, stackPath);
            && built.Ok? && |built.value| > 6
            && built.value[6] == TextOf(body.instance, trim)
            && Decide(built.value[5..]) == Exec
            && ParseAdd(built.value[6..]).Ok?
            && ReadsBody(ParseAdd(built.value[6..]).value, command, body, trim, lower)
  {
    var request := Request(command, body, trim, lower).value;
    AcceptedHasNoProblem(command, body, trim, lower);
    CreationIsBuilt(command, request.argument.value, request.create.value, stackPath);
    AcceptedDomains(command, body, trim, lower);
  }

  // ---------------------------------------------------------------------------
  // Which bodies are accepted.

  predicate FineDomains(domains: seq<string>) {
    1 <= |domains| <= 10 && NoBadDomain(domains) && Distinct(domains)
  }

  ghost predicate AsksFineDomains(body: Body, trim: string -> string, lower: string -> string) {
    exists domains :: DomainsOf(domains, body.domains, trim, lower) && FineDomains(domains)
  }

  predicate FineTexts(body: Body, trim: string -> string) {
    && InstanceName(TextOf(body.instance, trim)) && InstanceName(TextOf(body.app, trim))
    && (TextOf(body.client, trim) == "" || InstanceName(TextOf(body.client, trim)))
    && (TextOf(body.database, trim) == "" || SafeDatabase(TextOf(body.database, trim)))
  }

  lemma DomainsAreFineIff(body: Body, trim: string -> string, lower: string -> string)
    ensures AsksFineDomains(body, trim, lower) <==>
            body.domains.Some? && FineDomains(Normalised(body.domains.value, trim, lower))
  {
    if body.domains.Some? {
      var domains := Normalised(body.domains.value, trim, lower);
      if FineDomains(domains) {
        forall i | 0 <= i < |domains| ensures body.domains.value[i].Some? {
          assert SafeDomain(domains[i]);
        }
        assert DomainsOf(domains, body.domains, trim, lower);
      }
      if fine :| DomainsOf(fine, body.domains, trim, lower) && FineDomains(fine) {
        assert fine == domains;
      }
    }
  }

  /** A body is accepted exactly when every text and every domain it asks for is of its form. */
  lemma AcceptedIffFine(command: CommandName, body: Body, trim: string -> string, lower: string -> string)
    ensures Request(command, body, trim, lower).Ok? <==> FineTexts(body, trim) && AsksFineDomains(body, trim, lower)
  {
    DomainsAreFineIff(body, trim, lower);
    CommandReading.FirstBadIsBad(Normalised(match body.domains { case Some(d) => d case None => [] }, trim, lower));
  }

  predicate IsOneOf(domain: string, asked: seq<Option<string>>, trim: string -> string, lower: string -> string) {
    exists i :: 0 <= i < |asked| && domain == match asked[i] { case Some(v) => lower(trim(v)) case None => "" }
  }

  predicate SameAt(asked: seq<Option<string>>, i: nat, j: nat, trim: string -> string, lower: string -> string) {
    i < j < |asked| && asked[i].Some? && asked[j].Some? && lower(trim(asked[i].value)) == lower(trim(asked[j].value))
  }

  ghost predicate SomeTwice(asked: seq<Option<string>>, trim: string -> string, lower: string -> string) {
    exists i: nat, j: nat :: SameAt(asked, i, j, trim, lower)
  }

  /** What each refusal says is so. */
  ghost predicate Justified(problem: BodyError, body: Body, trim: string -> string, lower: string -> string) {
    var asked := match body.domains { case Some(d) => d case None => [] };
    match problem
    case NotAnInstanceName => !InstanceName(TextOf(body.instance, trim))
    case NotAnAppName => !InstanceName(TextOf(body.app, trim))
    case NotAClientName => TextOf(body.client, trim) != "" && !InstanceName(TextOf(body.client, trim))
    case NotADatabaseName => TextOf(body.database, trim) != "" && !SafeDatabase(TextOf(body.database, trim))
    case NoDomain => asked == []
    case TooMany => |asked| > 10
    case NotADomain(domain) => !SafeDomain(domain) && IsOneOf(domain, asked, trim, lower)
    case ListedTwice => SomeTwice(asked, trim, lower)
  }

  lemma RepeatedIsAskedTwice(asked: seq<Option<string>>, trim: string -> string, lower: string -> string)
    requires NoBadDomain(Normalised(asked, trim, lower)) && !Distinct(Normalised(asked, trim, lower))
    ensures SomeTwice(asked, trim, lower)
  {
    var domains := Normalised(asked, trim, lower);
    var i, j :| 0 <= i < j < |domains| && domains[i] == domains[j];
    assert SafeDomain(domains[i]) && SafeDomain(domains[j]);
    assert SameAt(asked, i, j, trim, lower);
  }

  lemma RefusalsAreJustified(command: CommandName, body: Body, trim: string -> string, lower: string -> string)
    requires Request(command, body, trim, lower).Err?
    ensures Justified(Request(command, body, trim, lower).error, body, trim, lower)
  {
    var asked := match body.domains { case Some(d) => d case None => [] };
    CommandReading.FirstBadIsBad(Normalised(asked, trim, lower));
    if Request(command, body, trim, lower) == Err(ListedTwice) {
      RepeatedIsAskedTwice(asked, trim, lower);
    }
  }
}
