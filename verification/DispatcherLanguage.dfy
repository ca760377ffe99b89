/**
 * Exactly which arguments the dispatcher's `add` entry lets through, stated
 * without its loop: a safe instance name, then options in any order, each with
 * a valid value, each of the single ones at most once, the app once and one to
 * ten domains. No list of arguments can be read in two ways.
 */
module DispatcherLanguage {
  import opened Wrappers
  import opened Text
  import opened SshCommands
  import opened Dispatcher

  datatype AddOption =
    | App(value: string) | Domain(value: string) | Client(value: string) | Database(value: string)
    | ReuseSecrets | DryRun | Json

  datatype OptionKind = AppKind | DomainKind | ClientKind | DatabaseKind | ReuseKind | DryKind | JsonKind

  function KindOf(o: AddOption): OptionKind {
    match o
    case App(_) => AppKind
    case Domain(_) => DomainKind
    case Client(_) => ClientKind
    case Database(_) => DatabaseKind
    case ReuseSecrets => ReuseKind
    case DryRun => DryKind
    case Json => JsonKind
  }

  function Words(o: AddOption): (w: seq<string>)
    ensures 1 <= |w| <= 2
  {
    match o
    case App(v) => ["--app", v]
    case Domain(v) => ["--domain", v]
    case Client(v) => ["--client", v]
    case Database(v) => ["--database", v]
    case ReuseSecrets => ["--reuse-secrets"]
    case DryRun => ["--dry-run"]
    case Json => ["--json"]
  }

  function Print(options: seq<AddOption>): seq<string> {
    if options == [] then [] else Words(options[0]) + Print(options[1..])
  }

  predicate ValidOption(o: AddOption) {
    match o
    case App(v) => SafeName(v)
    case Domain(v) => SafeDomain(v)
    case Client(v) => SafeName(v)
    case Database(v) => SafeDatabase(v)
    case _ => true
  }

  /** The value an option carries; a switch carries the empty one. */
  function ValueOf(o: AddOption): string {
    match o
    case App(v) => v
    case Domain(v) => v
    case Client(v) => v
    case Database(v) => v
    case _ => ""
  }

  /** The values given to one kind of option, in order. */
  function Given(options: seq<AddOption>, kind: OptionKind): seq<string> {
    if options == [] then []
    else (if KindOf(options[0]) == kind then [ValueOf(options[0])] else []) + Given(options[1..], kind)
  }

  function Limit(kind: OptionKind): nat {
    if kind == DomainKind then 10 else 1
  }

  function Single(value: string): seq<string> {
    if value == "" then [] else [value]
  }

  /** What the loop's variables remember of one kind of option. */
  function Remembered(seen: Seen, kind: OptionKind): seq<string> {
    match kind
    case AppKind => Single(seen.app)
    case DomainKind => seen.domains
    case ClientKind => Single(seen.client)
    case DatabaseKind => Single(seen.database)
    case ReuseKind => if seen.reuse then [""] else []
    case DryKind => if seen.dry then [""] else []
    case JsonKind => if seen.json then [""] else []
  }

  predicate AllValid(options: seq<AddOption>) {
    forall k :: 0 <= k < |options| ==> ValidOption(options[k])
  }

  /** There is room for these options after what was seen. */
  predicate Fits(seen: Seen, options: seq<AddOption>) {
    forall kind :: |Remembered(seen, kind)| + |Given(options, kind)| <= Limit(kind)
  }

  function After(seen: Seen, o: AddOption): Seen {
    match o
    case App(v) => seen.(app := v)
    case Domain(v) => seen.(domains := seen.domains + [v])
    case Client(v) => seen.(client := v)
    case Database(v) => seen.(database := v)
    case ReuseSecrets => seen.(reuse := true)
    case DryRun => seen.(dry := true)
    case Json => seen.(json := true)
  }

  predicate HasRoom(seen: Seen, kind: OptionKind) {
    |Remembered(seen, kind)| < Limit(kind)
  }

  /** One turn of the loop on one printed option: it passes if and only if its kind still has room. */
  lemma OneOption(seen: Seen, o: AddOption, more: seq<string>)
    requires ValidOption(o)
    ensures if HasRoom(seen, KindOf(o)) then WalkOne(seen, Words(o) + more) == Ok((After(seen, o), |Words(o)|))
            else WalkOne(seen, Words(o) + more).Err?
  {
    var rest := Words(o) + more;
    assert rest[0] == Words(o)[0];
    assert |Words(o)| == 2 ==> rest[1] == ValueOf(o);
  }

  lemma WalkHead(seen: Seen, o: AddOption, more: seq<string>)
    requires ValidOption(o)
    ensures if HasRoom(seen, KindOf(o)) then WalkFlags(seen, Words(o) + more) == WalkFlags(After(seen, o), more)
            else WalkFlags(seen, Words(o) + more).Err?
  {
    OneOption(seen, o, more);
    assert (Words(o) + more)[|Words(o)|..] == more;
  }

  /** The empty string is a sound "not seen": no valid value is empty. */
  lemma AfterRemembers(seen: Seen, o: AddOption, kind: OptionKind)
    requires ValidOption(o) && HasRoom(seen, KindOf(o))
    ensures Remembered(After(seen, o), kind) == Remembered(seen, kind) + if kind == KindOf(o) then [ValueOf(o)] else []
  {
  }

  predicate Within(seen: Seen) {
    forall kind :: |Remembered(seen, kind)| <= Limit(kind)
  }

  lemma AfterWithin(seen: Seen, o: AddOption)
    requires ValidOption(o) && HasRoom(seen, KindOf(o)) && Within(seen)
    ensures Within(After(seen, o))
  {
    forall kind ensures |Remembered(After(seen, o), kind)| <= Limit(kind) {
      AfterRemembers(seen, o, kind);
    }
  }

  lemma OneMoreGiven(seen: Seen, options: seq<AddOption>, kind: OptionKind)
    requires options != [] && ValidOption(options[0]) && HasRoom(seen, KindOf(options[0]))
    ensures Remembered(After(seen, options[0]), kind) + Given(options[1..], kind)
         == Remembered(seen, kind) + Given(options, kind)
  {
    AfterRemembers(seen, options[0], kind);
    var given := if kind == KindOf(options[0]) then [ValueOf(options[0])] else [];
    Regroup(Remembered(seen, kind), given, Given(options[1..], kind));
  }

  lemma FitsStep(seen: Seen, options: seq<AddOption>)
    requires options != [] && ValidOption(options[0])
    ensures Fits(seen, options) <==> HasRoom(seen, KindOf(options[0])) && Fits(After(seen, options[0]), options[1..])
  {
    var o := options[0];
    if HasRoom(seen, KindOf(o)) {
      var next := After(seen, o);
      forall kind ensures |Remembered(next, kind)| + |Given(options[1..], kind)|
                       == |Remembered(seen, kind)| + |Given(options, kind)|
      {
        OneMoreGiven(seen, options, kind);
        assert |Remembered(next, kind) + Given(options[1..], kind)| == |Remembered(seen, kind) + Given(options, kind)|;
      }
    } else {
      assert |Given(options, KindOf(o))| >= 1;
    }
  }

  lemma {:induction false} WalkAccepts(seen: Seen, options: seq<AddOption>)
    requires AllValid(options) && Within(seen)
    ensures WalkFlags(seen, Print(options)).Ok? <==> Fits(seen, options)
    decreases |options|
  {
    if options == [] {
      assert forall kind :: Given(options, kind) == [];
    } else {
      WalkHead(seen, options[0], Print(options[1..]));
      FitsStep(seen, options);
      if HasRoom(seen, KindOf(options[0])) {
        AfterWithin(seen, options[0]);
        WalkAccepts(After(seen, options[0]), options[1..]);
      }
    }
  }

  lemma {:induction false} WalkRemembers(seen: Seen, options: seq<AddOption>, kind: OptionKind)
    requires AllValid(options) && WalkFlags(seen, Print(options)).Ok?
    ensures Remembered(WalkFlags(seen, Print(options)).value, kind) == Remembered(seen, kind) + Given(options, kind)
    decreases |options|
  {
    if options != [] {
      WalkHead(seen, options[0], Print(options[1..]));
      WalkRemembers(After(seen, options[0]), options[1..], kind);
      OneMoreGiven(seen, options, kind);
    }
  }

  // ---------------------------------------------------------------------------
  // The other way: whatever the loop accepts was a printed list of options.

  function FirstOption(rest: seq<string>): AddOption
    requires |rest| > 0
  {
    var value := if |rest| > 1 then rest[1] else "";
    if rest[0] == "--app" then App(value)
    else if rest[0] == "--domain" then Domain(value)
    else if rest[0] == "--client" then Client(value)
    else if rest[0] == "--database" then Database(value)
    else if rest[0] == "--reuse-secrets" then ReuseSecrets
    else if rest[0] == "--dry-run" then DryRun
    else Json
  }

  lemma AcceptedHead(seen: Seen, rest: seq<string>)
    requires |rest| > 0 && WalkFlags(seen, rest).Ok?
    ensures var o := FirstOption(rest);
            ValidOption(o) && HasRoom(seen, KindOf(o)) && Words(o) <= rest
            && WalkFlags(seen, rest) == WalkFlags(After(seen, o), rest[|Words(o)|..])
  {
    var o, step := FirstOption(rest), WalkOne(seen, rest).value;
    assert ValidOption(o) && Words(o) == rest[..step.1];
    var more := rest[step.1..];
    assert rest == Words(o) + more;
    WalkHead(seen, o, more);
  }

  lemma {:induction false} AcceptedIsPrinted(seen: Seen, rest: seq<string>) returns (options: seq<AddOption>)
    requires WalkFlags(seen, rest).Ok?
    ensures AllValid(options) && Print(options) == rest
    decreases |rest|
  {
    if rest == [] {
      options := [];
    } else {
      AcceptedHead(seen, rest);
      var o := FirstOption(rest);
      var more := AcceptedIsPrinted(After(seen, o), rest[|Words(o)|..]);
      options := [o] + more;
      assert options[1..] == more;
      assert rest == Words(o) + rest[|Words(o)|..];
    }
  }

  lemma WordsDecide(a: AddOption, b: AddOption)
    requires Words(a)[0] == Words(b)[0]
    ensures |Words(a)| == |Words(b)|
    ensures Words(a) == Words(b) ==> a == b
  {
    if |Words(a)| == 2 && Words(a) == Words(b) {
      assert Words(a)[1] == Words(b)[1];
    }
  }

  /** One way only to read a list of words. */
  lemma {:induction false} PrintIsUnambiguous(a: seq<AddOption>, b: seq<AddOption>)
    requires Print(a) == Print(b)
    ensures a == b
    decreases |a|
  {
    if a != [] && b != [] {
      assert Print(a)[0] == Words(a[0])[0] && Print(b)[0] == Words(b[0])[0];
      WordsDecide(a[0], b[0]);
      var n := |Words(a[0])|;
      assert Print(a)[..n] == Words(a[0]) && Print(b)[..n] == Words(b[0]);
      assert Print(a)[n..] == Print(a[1..]) && Print(b)[n..] == Print(b[1..]);
      PrintIsUnambiguous(a[1..], b[1..]);
    } else {
      assert |Print(a)| == |Print(b)|;
    }
  }

  // ---------------------------------------------------------------------------
  // The language.

  predicate WellFormed(options: seq<AddOption>) {
    AllValid(options)
    && (forall kind :: |Given(options, kind)| <= Limit(kind))
    && |Given(options, AppKind)| == 1
    && |Given(options, DomainKind)| >= 1
  }

  /** `add` accepts a list of arguments if and only if it is a safe name and a well-formed list of options. */
  lemma AddLanguage(args: seq<string>)
    ensures ParseAdd(args).Ok? <==>
              args != [] && SafeName(args[0]) && exists options :: WellFormed(options) && Print(options) == args[1..]
  {
    if args != [] && SafeName(args[0]) {
      if ParseAdd(args).Ok? {
        var options := AcceptedIsPrinted(NOTHING_SEEN, args[1..]);
        ParsedOptions(args[0], options);
        assert [args[0]] + Print(options) == args;
      }
      forall options | WellFormed(options) && Print(options) == args[1..]
        ensures ParseAdd(args).Ok?
      {
        ParsedOptions(args[0], options);
        assert [args[0]] + Print(options) == args;
      }
    }
  }

  /** On valid options, the loop accepts exactly the well-formed lists and remembers exactly what was given. */
  lemma ParsedOptions(instance: string, options: seq<AddOption>)
    requires SafeName(instance) && AllValid(options)
    ensures ParseAdd([instance] + Print(options)).Ok? <==> WellFormed(options)
    ensures WellFormed(options) ==>
              forall kind :: Remembered(ParseAdd([instance] + Print(options)).value, kind) == Given(options, kind)
  {
    assert ([instance] + Print(options))[1..] == Print(options);
    WalkAccepts(NOTHING_SEEN, options);
    assert Fits(NOTHING_SEEN, options) <==> forall kind :: |Given(options, kind)| <= Limit(kind) by {
      assert forall kind :: Remembered(NOTHING_SEEN, kind) == [];
    }
    if Fits(NOTHING_SEEN, options) {
      forall kind ensures Remembered(WalkFlags(NOTHING_SEEN, Print(options)).value, kind) == Given(options, kind) {
        WalkRemembers(NOTHING_SEEN, options, kind);
      }
      var seen := WalkFlags(NOTHING_SEEN, Print(options)).value;
      assert Remembered(seen, AppKind) == Given(options, AppKind);
      assert Remembered(seen, DomainKind) == Given(options, DomainKind);
    }
  }
}
