/**
 * `exec` takes one line, so the argv is joined with spaces and split again by
 * the shell at the other end (`backend/src/shared/ssh/ssh.service.ts`). Nothing
 * is lost on the way, because no word is empty and every character of every
 * word is one no shell treats specially.
 */
module CommandLine {
  import opened Wrappers
  import opened Text
  import opened SshCommands

  function LineOf(argv: seq<string>): string {
    Join(argv, ' ')
  }

  /** Letters, digits, `.`, `_`, `-` and `/`: no space, no quote, nothing to expand. */
  predicate Bare(word: string) {
    word != "" && forall i :: 0 <= i < |word| ==> PathChar(word[i])
  }

  predicate AllBare(words: seq<string>) {
    forall k :: 0 <= k < |words| ==> Bare(words[k])
  }

  lemma {:induction false} DomainFlagsBare(domains: seq<string>)
    requires FirstBadDomain(domains) == None
    ensures AllBare(DomainFlags(domains))
    decreases |domains|
  {
    if domains != [] {
      DomainFlagsBare(domains[1..]);
      assert Bare("--domain") && Bare(domains[0]);
    }
  }

  lemma FlagsBare(create: CreateFields)
    requires CreateProblem(create) == None
    ensures AllBare(Flags(create))
  {
    DomainFlagsBare(create.domains);
    assert Bare("--app") && Bare(create.app);
    assert AllBare(OptionalFlag("--client", create.client)) by { assert Bare("--client"); }
    assert AllBare(OptionalFlag("--database", create.database)) by { assert Bare("--database"); }
    assert Bare("--reuse-secrets");
  }

  lemma FixedWordsBare()
    ensures Bare("--json") && Bare("--set") && Bare("--with-data") && Bare("--version") && Bare("--dry-run")
  {
  }

  lemma AddTailBare(command: CommandName)
    ensures AllBare(AddTail(command))
  {
    FixedWordsBare();
  }

  lemma TailBare(request: CommandRequest)
    requires Tail(request).Ok?
    ensures AllBare(Tail(request).value)
  {
    FixedWordsBare();
    if request.command == Add || request.command == AddPreview {
      FlagsBare(request.create.value);
      AddTailBare(request.command);
    }
  }

  lemma SubcommandsBare(command: CommandName)
    ensures Bare(Spec(command).subcommand)
  {
  }

  lemma DispatchedBare(request: CommandRequest)
    requires Dispatched(request).Ok?
    ensures AllBare(Dispatched(request).value)
  {
    SubcommandsBare(request.command);
    if request.command == Backup {
      assert Bare("full") && Bare("incremental");
    } else {
      TailBare(request);
      assert AllBare(InstanceArgs(request).value);
    }
  }

  lemma PrefixBare()
    ensures AllBare(PREFIX)
  {
    assert Bare("sudo") && Bare("-n") && Bare("-u") && Bare("ubuntu") && Bare("/usr/local/sbin/atalaya-stack");
  }

  lemma BothBare(a: seq<string>, b: seq<string>)
    requires AllBare(a) && AllBare(b)
    ensures AllBare(a + b)
  {
  }

  lemma BuiltBare(request: CommandRequest, stackPath: string)
    requires Built(request, stackPath).Ok?
    ensures AllBare(Built(request, stackPath).value) && Built(request, stackPath).value != []
  {
    SubcommandsBare(request.command);
    if request.command != Inventory && request.command != Catalogue {
      DispatchedBare(request);
      PrefixBare();
      BothBare(PREFIX, Dispatched(request).value);
    }
  }

  /** The line a request becomes splits back into exactly its argv. */
  lemma LineSplitsBack(request: CommandRequest, stackPath: string)
    requires Built(request, stackPath).Ok?
    ensures Split(LineOf(Built(request, stackPath).value), ' ') == Built(request, stackPath).value
    ensures AllBare(Split(LineOf(Built(request, stackPath).value), ' '))
  {
    BuiltBare(request, stackPath);
    SplitJoin(Built(request, stackPath).value, ' ');
  }

  /** So two requests that send the same line asked for the same argv. */
  lemma SameLineSameArgv(a: CommandRequest, b: CommandRequest, pathA: string, pathB: string)
    requires Built(a, pathA).Ok? && Built(b, pathB).Ok?
    requires LineOf(Built(a, pathA).value) == LineOf(Built(b, pathB).value)
    ensures Built(a, pathA) == Built(b, pathB)
  {
    LineSplitsBack(a, pathA);
    LineSplitsBack(b, pathB);
  }
}
