/**
 * The dispatcher each server runs as root's property, written into
 * `infra/fleet/server-setup/setup-server.sh`: which arguments it lets through
 * to `stack`. Its checks on file permissions are not modelled here.
 */
module Dispatcher {
  import opened Wrappers
  import opened SshCommands

  datatype Verdict = Exec | Die(reason: string)

  /** What the walk over the flags of `add` has seen so far. The empty string means not seen. */
  datatype Seen = Seen(
    app: string, client: string, database: string, domains: seq<string>,
    reuse: bool, dry: bool, json: bool)

  const NOTHING_SEEN := Seen("", "", "", [], false, false, false)

  type Walk = Result<Seen, string>

  /** One turn of the loop: the new state and how many words it took. */
  function WalkOne(seen: Seen, rest: seq<string>): (r: Result<(Seen, nat), string>)
    requires |rest| > 0
    ensures r.Ok? ==> 1 <= r.value.1 <= |rest|
  {
    var flag := rest[0];
    if flag == "--app" then
      if seen.app != "" then Err("--app given twice")
      else if |rest| < 2 then Err("--app needs a value")
      else if !SafeName(rest[1]) then Err("bad app name")
      else Ok((seen.(app := rest[1]), 2))
    else if flag == "--domain" then
      if |rest| < 2 then Err("--domain needs a value")
      else if !SafeDomain(rest[1]) then Err("bad domain")
      else if |seen.domains| + 1 > 10 then Err("too many domains")
      else Ok((seen.(domains := seen.domains + [rest[1]]), 2))
    else if flag == "--client" then
      if seen.client != "" then Err("--client given twice")
      else if |rest| < 2 then Err("--client needs a value")
      else if !SafeName(rest[1]) then Err("bad client name")
      else Ok((seen.(client := rest[1]), 2))
    else if flag == "--database" then
      if seen.database != "" then Err("--database given twice")
      else if |rest| < 2 then Err("--database needs a value")
      else if !SafeDatabase(rest[1]) then Err("bad database name")
      else Ok((seen.(database := rest[1]), 2))
    else if flag == "--reuse-secrets" then
      if seen.reuse then Err("--reuse-secrets given twice") else Ok((seen.(reuse := true), 1))
    else if flag == "--dry-run" then
      if seen.dry then Err("--dry-run given twice") else Ok((seen.(dry := true), 1))
    else if flag == "--json" then
      if seen.json then Err("--json given twice") else Ok((seen.(json := true), 1))
    else Err("not an allowed 'add' option")
  }

  function WalkFlags(seen: Seen, rest: seq<string>): Walk
    decreases |rest|
  {
    if rest == [] then Ok(seen)
    else match WalkOne(seen, rest)
      case Err(reason) => Err(reason)
      case Ok(step) => WalkFlags(step.0, rest[step.1..])
  }

  /** The `add` entry, on everything after the subcommand. */
  function ParseAdd(args: seq<string>): Walk {
    if args == [] then Err("add needs an instance")
    else if !SafeName(args[0]) then Err("bad instance name")
    else match WalkFlags(NOTHING_SEEN, args[1..])
      case Err(reason) => Err(reason)
      case Ok(seen) =>
        if seen.app == "" then Err("add needs --app")
        else if |seen.domains| < 1 then Err("add needs at least one --domain")
        else Ok(seen)
  }

  /** The entries that take an instance and nothing walked. */
  function NamedEntry(args: seq<string>, shape: bool): Verdict {
    if args == [] then Die("needs an instance")
    else if !SafeName(args[0]) then Die("bad instance name")
    else if !shape then Die("takes no such arguments")
    else Exec
  }

  function Decide(words: seq<string>): Verdict {
    var sub := if words == [] then "" else words[0];
    var args := if words == [] then [] else words[1..];
    if sub == "status" then
      if args != [] && !SafeName(args[0]) then Die("bad instance name")
      else if |args| > 1 then Die("status takes at most one instance")
      else Exec
    else if sub == "versions" then
      NamedEntry(args, |args| == 1 || (|args| == 2 && args[1] == "--json"))
    else if sub == "logs" || sub == "rollback" || sub == "start" || sub == "stop" then
      NamedEntry(args, |args| == 1)
    else if sub == "deploy" then
      NamedEntry(args, |args| == 1 || (|args| == 3 && args[1] == "--version" && SafeName(args[2])))
    else if sub == "backup" then
      if args == [] || (args[0] != "full" && args[0] != "incremental") then Die("backup takes 'full' or 'incremental'")
      else if |args| != 1 then Die("backup takes no further arguments")
      else Exec
    else if sub == "add" then
      match ParseAdd(args) { case Ok(_) => Exec case Err(reason) => Die(reason) }
    else if sub == "retire" then
      NamedEntry(args, |args| == 1 || (|args| == 2 && args[1] == "--with-data"))
    else if sub == "secrets" then
      NamedEntry(args, |args| == 2 && (args[1] == "--json" || args[1] == "--set"))
    else Die("not an allowed subcommand")
  }

  /** The flag loop: `rest` loses one flag, and its value, each time round. */
  method DispatchAdd(args: seq<string>) returns (v: Verdict)
    ensures v == match ParseAdd(args) { case Ok(_) => Exec case Err(reason) => Die(reason) }
  {
    if |args| < 1 { return Die("add needs an instance"); }
    if !SafeName(args[0]) { return Die("bad instance name"); }
    var rest := args[1..];
    var addApp, addClient, addDatabase, addDomains := "", "", "", 0;
    var addReuse, addDry, addJson := false, false, false;
    ghost var domains: seq<string> := [];
    while |rest| > 0
      invariant addDomains == |domains|
      invariant WalkFlags(Seen(addApp, addClient, addDatabase, domains, addReuse, addDry, addJson), rest)
             == WalkFlags(NOTHING_SEEN, args[1..])
      decreases |rest|
    {
      var flag := rest[0];
      if flag == "--app" {
        if addApp != "" { return Die("--app given twice"); }
        if |rest| < 2 { return Die("--app needs a value"); }
        if !SafeName(rest[1]) { return Die("bad app name"); }
        addApp, rest := rest[1], rest[2..];
      } else if flag == "--domain" {
        if |rest| < 2 { return Die("--domain needs a value"); }
        if !SafeDomain(rest[1]) { return Die("bad domain"); }
        addDomains := addDomains + 1;
        if addDomains > 10 { return Die("too many domains"); }
        domains := domains + [rest[1]];
        rest := rest[2..];
      } else if flag == "--client" {
        if addClient != "" { return Die("--client given twice"); }
        if |rest| < 2 { return Die("--client needs a value"); }
        if !SafeName(rest[1]) { return Die("bad client name"); }
        addClient, rest := rest[1], rest[2..];
      } else if flag == "--database" {
        if addDatabase != "" { return Die("--database given twice"); }
        if |rest| < 2 { return Die("--database needs a value"); }
        if !SafeDatabase(rest[1]) { return Die("bad database name"); }
        addDatabase, rest := rest[1], rest[2..];
      } else if flag == "--reuse-secrets" {
        if addReuse { return Die("--reuse-secrets given twice"); }
        addReuse, rest := true, rest[1..];
      } else if flag == "--dry-run" {
        if addDry { return Die("--dry-run given twice"); }
        addDry, rest := true, rest[1..];
      } else if flag == "--json" {
        if addJson { return Die("--json given twice"); }
        addJson, rest := true, rest[1..];
      } else {
        return Die("not an allowed 'add' option");
      }
    }
    if addApp == "" { return Die("add needs --app"); }
    if addDomains < 1 { return Die("add needs at least one --domain"); }
    return Exec;
  }
}
