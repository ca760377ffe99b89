# Atalaya, modelled and proved in Dafny

Atalaya is a panel over a fleet of servers: it runs `stack` commands on them
over SSH, streams their output to the browser, keeps a cached inventory, and
turns Alertmanager webhooks into incidents. This project models the parts of it
that keep state or parse text, and proves what they promise over every input
and every run. `dafny verify dfyconfig.toml` checks all of it.

Code that updates objects is a class here, code that loops is a method with its
loop, and both are proved equal to a function of the inputs or the old state;
the theorems are lemmas about those functions. What an operation answers is
said a second time without it: from the inputs, from the words another
program reads, or from the events that led there. Everything outside the process
(SSH, HTTP, the database, Prometheus, the clock, files) is a parameter: an
event, an answer or a failure, in any order.

## The modules

| module | what it holds |
|---|---|
| `Wrappers`, `Text` | `Option`, `Result`; splitting and joining strings |
| `ConsoleOutput`, `ConsoleTheorems`, `ConsoleLabels` | the console's scrollback, what chunk boundaries do to it, and which stream each line is labelled with |
| `SshCommands`, `CommandLine` | the argv builder and the one line it becomes |
| `Dispatcher`, `DispatcherLanguage` | the dispatcher's `case` and flag loop, and the language it accepts |
| `CommandGrammar`, `CommandReading`, `InstanceRequest` | the builder, the dispatcher and the panel's form agree, and an argv runs what was asked for |
| `Patterns` | the regular expressions as written, and the recognisers that stand for them |
| `SshSession` | the two SSH event machines, `stream` and `collect` |
| `LockKey`, `StreamedCall`, `ActionLock` | one streamed action, and any number of them over one lock set, up to the end of the process |
| `CallHistory` | what every action comes to, told from the turns alone |
| `CommandRunner`, `EndToEnd` | the browser's console over `EventSource`, and the whole way from the interleaved actions to the screen |
| `Webhooks` | alerts, incidents and notifications |
| `Inventory`, `ProbeTargets` | the cache and the probe list derived from it |
| `Refresh`, `RefreshRuns`, `ProbeRuns` | one refresh turn by turn, any number of overlapping ones and sweeps, and what the cache, the health and the probe file then say |
| `ContainerName`, `ContainerUsage`, `Liveness` | whose a container is, what each owner uses, what is running |
| `Overview` | the attention list, cut before and after it is sorted |
| `Variables`, `VariablesEditor`, `VariablesHistory` | the checks on a change of variables, the editor that sends it, and what it holds, told from the events alone |

## Where the code does less than it says

Each of these is a lemma here, with the input that shows it and, where there is
a condition, the exact one.

- `backend/src/actions/actions.service.ts:99-104` says the lock goes whenever
  the stream ends, and nothing says what happens when it never starts. An argv
  that cannot be built, or a key that cannot be read, throws inside the
  asynchronous function nobody awaits (line 141). Nothing in the backend hears
  such a rejection, and its image runs `node` with no flag, so the process ends:
  every lock goes, every other viewer is cut off with no ending, their actions
  leave no audit record and every `withLock` section stops where it is. A deploy
  of version `V2` does it, and so does reading logs with any version at all
  (`ActionLock.ProcessEndsIff`, `EndTakesEveryone`, `BadVersionEndsTheProcess`).
  Under `--unhandled-rejections=warn` the lock would stay instead
  (`ThrownStartStalls`, `StallLasts`).
- A command killed by a signal closes its channel with no code. Streamed, that
  counts as exit 0 and the action is recorded as succeeded; collected, it is a
  failure (`SshSession.SuccessAgrees`, `SignalCountsAsSuccess`).
- A backup's lock is named after its mode, not an instance: a full and an
  incremental backup of one server may overlap, and a full one excludes a
  deploy of an instance called `full` (`ActionLock.BackupsLockTheirMode`,
  `BackupsOverlap`).
- A CRLF cut between two chunks loses the line it ends, and text redrawn to
  nothing leaves an empty line only if the redraw comes in a later chunk
  (`ConsoleTheorems.ChunkBoundary` is the exact condition; `CutCrlfLosesLine`
  and `LateRedrawLeavesLine` are the inputs).
- `buildCommand` lets `add` through without an instance, which the panel's own
  form always gives; the dispatcher always refuses what it builds then (`CommandGrammar.BuiltIsAccepted`,
  `NamelessAddIsRefused`).
- An alert that fires again after it resolved is silent: its row exists and the
  change is not an edge (`Webhooks.FiringNotifiesOnlyFirst`,
  `ReturningAlertIsSilent`). And an edge whose channels cannot be queried is lost
  for good: the request fails after the incident is written, so the alert sent
  again is not an edge any more (`NoticeSentIff` is the exact condition,
  `ResentAlertIsSilent` the history).
- A refresh whose probe list could not be written leaves its server marked
  unreachable although its inventory was committed
  (`RefreshRuns.CommittedYetUnreachable`). One throws if and only if its
  lookup fails, finds no such server, or a failure cannot be recorded, and that
  stops the sweep that called it, although
  `backend/src/inventory/inventory.service.ts:54` says one failure does not stop
  the rest (`ThrowsIffUncaught`, `SweepStopsIffUncaught`,
  `FailedLookupStopsTheSweep`, `UnrecordedFailureStopsTheSweep`).
- Refreshes overlap, and nothing keeps them apart. The one that queries first and
  writes last publishes the older list: both report success and a deployed
  domain is not probed (`ProbeRuns.OverlapLosesADomain`; the exact condition is
  `FileReflectsIffNothingChangedSince`).
- `backend/src/registration/targets.service.ts:102` says the temporary file keeps
  a half-written list from being read. All refreshes share that one file. A
  rename publishes it with exactly the last list written in it if and only if
  one was written since it was last opened and none written since then is longer
  (`ProbeRuns.PublishesLastIffNoneLonger`): otherwise it is empty
  (`OverlapPublishesAnEmptyFile`) or a list with the end of a longer one after
  it (`OverlapLeavesATail`). A rename finds nothing to publish if and only if
  another has published it since anyone last opened it (`RenameFailsIffTaken`,
  `OverlapTakesTheFile`).
- The overview's query cuts by the raw severity, in the database's order, before
  the screen's order is applied. With a third severity the screen can miss its
  own first item (`Overview.EarlyCutHarmlessIffFits`, `ThirdSeverityMisfits`;
  `CutDropsTheFirst` is the list of nine incidents).
- A value kept or a name removed while a save is in flight is dropped by the
  save's success (`VariablesEditor.SavingKeepsIntentIffNothingNew`,
  `EditWhileSavingIsLost`).
- The catalogue looks live states up by `server/name`, which two instances share
  if a name has a slash in it (`Liveness.ScreensAgreeIffNoCollision`,
  `SlashedNamesDisagree`). Instance names have none.

## Model

| member | source | states |
|---|---|---|
| `ConsoleOutput.AppendChunk` | frontend/src/app/shared/console-output.ts:27-68 | The loop over the segments of a chunk computes `Appended`: CRLF first, then one segment at a time into the open line or a new one, then the cap. The other rows say what `Appended` means. |
| `ConsoleOutput.WriteSegment` | frontend/src/app/shared/console-output.ts:42-65 | One segment, including which slot is overwritten and when a redraw replaces the open text, is the function the theorems reason about. |
| `ConsoleTheorems.ChunkBoundary` | frontend/src/app/shared/console-output.ts:18-68 | For every screen, every text and every cut, two chunks show what one shows if and only if the cut neither erases a line (a CRLF cut in two, after visible text, with fewer than 2000 lines behind it) nor leaves an empty one (text redrawn to nothing in a later chunk). Both conditions are read off the texts and the screen. |
| `ConsoleTheorems.ChunkBoundaryInvisible` | frontend/src/app/shared/console-output.ts:18-26 | If neither chunk ends in `\r`, network boundaries never show, redraws and the 2000-line cap included. |
| `ConsoleTheorems.CutCrlfLosesLine` | frontend/src/app/shared/console-output.ts:36-60 | The counterexample: any word whose CRLF is cut in two is lost, the line left empty. |
| `ConsoleTheorems.LateRedrawLeavesLine` | frontend/src/app/shared/console-output.ts:45-63 | The other counterexample: any word redrawn to nothing in a second chunk leaves an empty line, and none in one chunk. |
| `ConsoleTheorems.CutCrlf` | frontend/src/app/shared/console-output.ts:36-65 | Both readings of a cut CRLF agree above and below the line the newline ends, and differ only in that line's text. |
| `ConsoleTheorems.FoldBelow` | frontend/src/app/shared/console-output.ts:52-64 | Dropping lines above the last commutes with folding. |
| `ConsoleTheorems.CapFold` | frontend/src/app/shared/console-output.ts:67 | So capping before a fold and capping after it give the same screen. |
| `ConsoleTheorems.FoldReads` | frontend/src/app/shared/console-output.ts:40-64 | From an empty screen the incremental fold shows what a whole-text reading of the segments shows: every ended line, and the last one if anything of it is visible. |
| `ConsoleTheorems.ScreenShowsTranscript` | frontend/src/app/shared/console-output.ts:27-68 | Any run of chunks, on either stream and cut anywhere but at a `\r`, shows exactly the last 2000 lines of the text they make together. |
| `ConsoleTheorems.PlainTranscript` | frontend/src/app/shared/console-output.ts:27-68 | Which stream a chunk came on changes labels only: the texts are those of the whole transcript fed at once. |
| `ConsoleTheorems.FoldTidy` | frontend/src/app/shared/console-output.ts:49-64 | Only the last line may be open and no line holds a line ending; a fold keeps that, and keeps every closed line as it was. |
| `ConsoleTheorems.ClosedLinesStay` | frontend/src/app/shared/console-output.ts:52-67 | However many chunks arrive later, a closed line is still there word for word, moved up by exactly what scrolled off, or is among what did and the screen is full. |
| `ConsoleLabels.LabelsAreOfTheOpener` | frontend/src/app/shared/console-output.ts:49-67 | Over every screen and chunk, a line keeps the label of the stream whose chunk opened it; only the lines a chunk adds take its own, scrolling included. |
| `SshCommands.CreateFlags` | backend/src/shared/ssh/ssh-commands.ts:259-294 | The flags of `add` in order, or the first thing wrong with the request, as `CreateArgs` says. |
| `SshCommands.BuildTail` | backend/src/shared/ssh/ssh-commands.ts:222-249 | What each command adds after its instance, with its refusals, is `Tail`, whose words read back as the command asked for (`CommandReading.BuiltReadsBack`). |
| `SshCommands.BuildCommand` | backend/src/shared/ssh/ssh-commands.ts:193-250 | The whole argv or refusal is `Built`: the `CommandReading` rows say which requests it takes, why it refuses the others, and what its words run. |
| `CommandReading.BuiltReadsBack` | backend/src/shared/ssh/ssh-commands.ts:69-250 | Read by the dispatcher's own `case`, every argv built for it runs the command that was asked for, on what was asked, at the version asked for a deploy and as JSON when asked of versions; and it changes something on the server exactly when the panel calls the command mutating. |
| `CommandReading.SameWordsSameAsk` | backend/src/shared/ssh/ssh-commands.ts:193-250 | Requests for different commands, instances, versions of a deploy or forms of versions are never the same words. |
| `CommandReading.BuiltGoesThrough` | backend/src/shared/ssh/ssh-commands.ts:193-212 | The whole argv is `sudo` as `ubuntu` to the dispatcher and its words, or `stack` itself for inventory and catalogue. |
| `CommandReading.OnlyLogsAreUnlimited` | backend/src/shared/ssh/ssh-commands.ts:69-145 | Among the words sent to the dispatcher, exactly those that start with `logs` run without a time limit. |
| `CommandReading.BuiltIff` | backend/src/shared/ssh/ssh-commands.ts:193-294 | A request is built if and only if its path is safe and it is one the panel may make, said command by command: which need a name, which take a version or JSON, and what a creation must give. |
| `CommandReading.RefusalsAreJustified` | backend/src/shared/ssh/ssh-commands.ts:193-294 | Whatever the builder says is wrong with a request is wrong with it. |
| `Patterns.NameMatches` | backend/src/shared/ssh/ssh-commands.ts:19 | Over every text, the recogniser of names and versions, `[a-z0-9][a-z0-9._-]*` accepts exactly what the regular expression matches, by what it is to match one. |
| `Patterns.PathMatches` | backend/src/shared/ssh/ssh-commands.ts:16 | Over every text, the recogniser of stack paths accepts exactly what the regular expression matches, by what it is to match one. |
| `Patterns.DomainMatches` | backend/src/shared/ssh/ssh-commands.ts:175 | Over every text, the recogniser of domains, up to 253 characters with a letter or digit at both ends accepts exactly what the regular expression matches, by what it is to match one. |
| `Patterns.DatabaseMatches` | backend/src/shared/ssh/ssh-commands.ts:178 | Over every text, the recogniser of database names of 1 to 64 characters accepts exactly what the regular expression matches, by what it is to match one. |
| `Patterns.InstanceMatches` | backend/src/instances/instances.service.ts:12 | Over every text, the recogniser of instance names of the form, up to 32 characters accepts exactly what the regular expression matches, by what it is to match one. |
| `Patterns.VariableMatches` | backend/src/variables/variables.service.ts:15 | Over every text, the recogniser of variable names accepts exactly what the regular expression matches, by what it is to match one. |
| `CommandLine.BuiltBare` | backend/src/shared/ssh/ssh-commands.ts:184-250 | Every word of every argv built is non-empty and made of characters no shell treats specially. |
| `CommandLine.LineSplitsBack` | backend/src/shared/ssh/ssh.service.ts:64 | Splitting the space-joined line gives back the argv exactly, for every request the builder accepts. |
| `CommandLine.SameLineSameArgv` | backend/src/shared/ssh/ssh.service.ts:136 | Requests that send the same line asked for the same argv. |
| `Dispatcher.WalkOne` | infra/fleet/server-setup/setup-server.sh:673-709 | One turn of the flag loop consumes one or two of the words that are left, so the loop ends. |
| `Dispatcher.DispatchAdd` | infra/fleet/server-setup/setup-server.sh:661-712 | The flag loop with its variables computes `ParseAdd`, refusals included. |
| `DispatcherLanguage.WalkAccepts` | infra/fleet/server-setup/setup-server.sh:673-709 | From any state of its variables, the loop passes a list of valid options if and only if each kind still has room: one each, ten domains. |
| `DispatcherLanguage.WalkRemembers` | infra/fleet/server-setup/setup-server.sh:670-709 | What its variables then hold is what they held plus what was given, kind by kind and in order. |
| `DispatcherLanguage.AfterRemembers` | infra/fleet/server-setup/setup-server.sh:675-695 | The empty string is a sound mark for "not seen yet", because no valid value is empty. |
| `DispatcherLanguage.AcceptedIsPrinted` | infra/fleet/server-setup/setup-server.sh:673-709 | Nothing else passes: accepted words are a list of valid options, printed. |
| `DispatcherLanguage.PrintIsUnambiguous` | infra/fleet/server-setup/setup-server.sh:673-709 | Words can be read as options in one way only. |
| `DispatcherLanguage.AddLanguage` | infra/fleet/server-setup/setup-server.sh:661-712 | `add` accepts exactly a safe name followed by a well-formed list of options: an app, one to ten domains, nothing else twice. |
| `DispatcherLanguage.ParsedOptions` | infra/fleet/server-setup/setup-server.sh:661-712 | On valid options it accepts exactly the well-formed lists and remembers exactly what was given. |
| `CommandGrammar.FlagsReadBack` | infra/fleet/server-setup/setup-server.sh:668-712 | The flag loop undoes `createFlags`: app, client, database, the domains in order, the reuse flag, and dry-run exactly for the preview. |
| `CommandGrammar.BuiltIsAccepted` | backend/src/shared/ssh/ssh-commands.ts:193-250 | Every argv the builder makes for the dispatcher is accepted by it, if and only if it is not an `add` without an instance. |
| `CommandGrammar.NamelessAddIsRefused` | backend/src/shared/ssh/ssh-commands.ts:214-224 | A request of `buildCommand` alone, with everything an instance needs but its name: it is built, and the dispatcher refuses it. |
| `CommandGrammar.AcceptedCanBeAsked` | infra/fleet/server-setup/setup-server.sh:629-735 | Conversely, every argv the dispatcher accepts, other than `add`, is word for word one the builder makes for some request. |
| `CommandGrammar.AcceptedAddCanBeAsked` | infra/fleet/server-setup/setup-server.sh:661-712 | And every `add --json` it accepts is read the same way as one the builder makes. |
| `CommandGrammar.WalkValidates` | infra/fleet/server-setup/setup-server.sh:618-712 | Every value the loop lets through passed its validator, and there are never more than ten domains. |
| `InstanceRequest.AcceptedBodyReachesStack` | backend/src/instances/instances.service.ts:145-188 | Told from the body alone: an accepted one is built for every safe path and accepted by the dispatcher, which adds the instance the body names, trimmed, and reads the body's application, client and database, trimmed, its domains, trimmed and lower-cased, in order, its reuse flag, and dry-run exactly for a preview. |
| `InstanceRequest.AcceptedDomains` | backend/src/instances/instances.service.ts:150-175 | Its domains are the ones typed, trimmed and lower-cased, in order, every one text and none twice. |
| `InstanceRequest.AcceptedIffFine` | backend/src/instances/instances.service.ts:145-175 | A body is accepted if and only if each of its texts and each of its domains has its form, with one to ten domains and none twice. |
| `InstanceRequest.RefusalsAreJustified` | backend/src/instances/instances.service.ts:152-175 | Whatever the form says is wrong with a body is wrong with it. |
| `SshSession.SshStream.On` | backend/src/shared/ssh/ssh.service.ts:140-206 | One event of a streamed session, with its flags, timer and teardown, is the step the run theorems use. |
| `SshSession.SshStream.Finish` | backend/src/shared/ssh/ssh.service.ts:156-166 | Settles once: the first ending is told and everything is shut, a later one changes and says nothing. |
| `SshSession.StreamObserves` | backend/src/shared/ssh/ssh.service.ts:135-207 | Whatever order the channel, the connection, the timer and the viewer act in, the observer is told the output up to the first of them to settle the session, what that one decides, and nothing after. |
| `SshSession.ObservedWellShaped` | backend/src/shared/ssh/ssh.service.ts:124-134 | Output, then at most one ending: an exit followed by completion, or an error. |
| `SshSession.Collector.On` | backend/src/shared/ssh/ssh.service.ts:68-121 | One event of a collected run. |
| `SshSession.CollectAnswers` | backend/src/shared/ssh/ssh.service.ts:68-121 | A collected run answers exactly once: what the first settling event says, with all that was printed before it. |
| `SshSession.AnswerIsFinal` | backend/src/shared/ssh/ssh.service.ts:74-81 | Nothing after that changes the answer. |
| `SshSession.SuccessAgrees` | backend/src/shared/ssh/ssh.service.ts:93-181 | Of one session nobody leaves, the streamed form succeeds if and only if the collected form does or the channel closed with no code; the two never hold together. |
| `SshSession.SignalCountsAsSuccess` | backend/src/shared/ssh/ssh.service.ts:181 | The session where they differ: a channel that closes with no code is a streamed success and a collected failure. |
| `LockKey.KeyIsInjective` | backend/src/actions/actions.service.ts:252 | For names without a slash, equal keys mean the same server and the same name. |
| `LockKey.SlashedNamesCollide` | backend/src/actions/actions.service.ts:252 | With a slash they need not. |
| `StreamedCall.ActionsService.Enter` | backend/src/actions/actions.service.ts:197-201 | Granted exactly when the key was free, and the key is then in the set. |
| `StreamedCall.ActionsService.Leave` | backend/src/actions/actions.service.ts:204-206 | The key goes, and nothing else. |
| `StreamedCall.StreamCall.AfterResolve` | backend/src/actions/actions.service.ts:118-154 | The turn after `resolve`: conflict, lock, a viewer who already left, the start or its exception, with no gap between them; it is rejected exactly when the start throws. |
| `StreamedCall.StreamCall.AfterRejection` | backend/src/actions/actions.service.ts:129-132 | The turn in which `resolve` rejects. |
| `StreamedCall.StreamCall.OnSsh` | backend/src/actions/actions.service.ts:141-154 | One event of the session, handed through the three handlers. |
| `StreamedCall.StreamCall.TearDown` | backend/src/actions/actions.service.ts:159-166 | The teardown: marked cancelled, the session shut, the call's own lock given back once. |
| `StreamedCall.StreamCall.Unsubscribe` | backend/src/actions/actions.service.ts:157-166 | The viewer leaves, at whatever point. |
| `StreamedCall.StreamCall.RecordIfMutating` | backend/src/actions/actions.service.ts:170-185 | A mutating action gets one record, successful exactly when there is no error and the code is 0. |
| `ActionLock.CallTurnOk` | backend/src/actions/actions.service.ts:105-168 | Every turn of a streamed action keeps its invariant, and moves the set in one of three ways: not at all, taking a key that was free, or giving back its own. |
| `ActionLock.StepKeepsInv` | backend/src/actions/actions.service.ts:105-207 | Any turn of any actor keeps the set equal to the keys of the live holders, no two sharing one. |
| `ActionLock.LocksAreExclusive` | backend/src/actions/actions.service.ts:105-207 | So over every interleaving of any number of streams and `withLock` sections, whether or not a rejected start ends the process. |
| `ActionLock.FromIdle` | backend/src/actions/actions.service.ts:105-207 | From the empty set in particular; and with no live holder the set is empty. |
| `ActionLock.AuditedOnce` | backend/src/actions/actions.service.ts:141-185 | In every interleaving a viewer sees output and at most one ending, and there is one record exactly when the action mutates and its SSH session ended, successful exactly when the viewer saw exit 0. |
| `CallHistory.ViewerIsHandedItsSession` | backend/src/actions/actions.service.ts:115-168 | In every interleaving, told from the turns alone: a viewer is handed, note by note, what its SSH session observes from the turn that granted the action to its leaving or the end of the process, or its one error, or nothing; the audit record holds the code or the error of the event that settled the session; and there is a session exactly for the calls granted and startable. |
| `CallHistory.RunIsTold` | backend/src/actions/actions.service.ts:105-207 | The whole system, every call and section and whether the process is up, is what the turns alone say of each actor. |
| `CallHistory.GrantedCallStarts` | backend/src/actions/actions.service.ts:115-154 | A waiting call whose target is found, whose key is free if it mutates, and which can start, has its session open at once, and its lock exactly if it mutates. |
| `CallHistory.LocksAreTold` | backend/src/actions/actions.service.ts:119-166 | A key is locked exactly while the turns say some actor holds it: a mutating call from its grant until its session settles, or a section until it leaves. |
| `CallHistory.SectionEntersIffFree` | backend/src/actions/actions.service.ts:197-207 | A `withLock` section works if and only if no live actor holds its key, and until it leaves. |
| `ActionLock.GoneStaysGone` | backend/src/actions/actions.service.ts:134-166 | A call that is over holds, says, records and starts nothing, whatever still happens to it. |
| `ActionLock.LeavingIsFinal` | backend/src/actions/actions.service.ts:134-166 | That lasts over any later run of everyone. |
| `ActionLock.LeavingClears` | backend/src/actions/actions.service.ts:157-166 | Leaving gives back exactly the lock held; leaving while the target is resolved means no session is ever started. |
| `ActionLock.LoserFreesNothing` | backend/src/actions/actions.service.ts:119-132 | The loser of a conflict is told of it, and the winner keeps the lock. |
| `ActionLock.ProcessEndsIff` | backend/src/actions/actions.service.ts:115-155 | In every interleaving the process ends if and only if some call, reading or mutating, comes to a start that cannot be built or whose key cannot be read, its viewer still there and its key free. |
| `ActionLock.EndTakesEveryone` | backend/src/actions/actions.service.ts:99-168 | What all others lose to it, whatever happens next: every lock is gone, every call in progress is cut with no ending and no audit record, every section stops. |
| `ActionLock.EndTellsNobody` | backend/src/actions/actions.service.ts:115-155 | The viewer of the call that ended the process is told nothing, and nothing is recorded. |
| `ActionLock.BadVersionEndsTheProcess` | backend/src/actions/actions.service.ts:141 | The inputs: a deploy of a version with a capital letter, and reading logs with any version, each end the process. |
| `ActionLock.ThrownStartStalls` | backend/src/actions/actions.service.ts:115-155 | If rejections were only warned about: a mutating call whose start threw would keep its lock, with no session and no word to its viewer. |
| `ActionLock.StallLasts` | backend/src/actions/actions.service.ts:99-168 | If rejections were only warned about: nothing but the viewer leaving would ever free that lock. |
| `ActionLock.KeysSeparateInstances` | backend/src/actions/actions.service.ts:243-253 | Two actions on instances share a key exactly when they name the same instance of the same server. |
| `ActionLock.OneHolderPerInstance` | backend/src/actions/actions.service.ts:105-207 | In every interleaving no two live holders act on the same instance of the same server. |
| `ActionLock.RefusalHasAHolder` | backend/src/actions/actions.service.ts:120-124 | In every interleaving a taken key is a live holder's, and one that names an instance names this very one. |
| `ActionLock.BackupsLockTheirMode` | backend/src/actions/actions.service.ts:252 | Two backups of one server can have different keys, and a backup and a deploy the same one. |
| `ActionLock.BackupsOverlap` | backend/src/actions/actions.service.ts:105-168 | The run: a full and an incremental backup of one server both hold their locks at once. |
| `CommandRunner.Runner.Start` | frontend/src/app/shared/command-runner.ts:67-91 | Shuts the stream before it, clears the signals and opens one source. |
| `CommandRunner.Runner.Stop` | frontend/src/app/shared/command-runner.ts:42-48 | Shuts the stream; running becomes done, any other state stays. |
| `CommandRunner.Runner.Clear` | frontend/src/app/shared/command-runner.ts:61-66 | Empties the console; a run in progress goes on. |
| `CommandRunner.Runner.OnMessage` | frontend/src/app/core/services/actions.service.ts:76-83 | A message of an open source: output is folded in, an exit settles the run and closes the source, and what is not JSON changes nothing. |
| `CommandRunner.Runner.OnError` | frontend/src/app/core/services/actions.service.ts:85-92 | A dropped connection is closed and reported once. |
| `CommandRunner.RunsAreCoherent` | frontend/src/app/shared/command-runner.ts:40-91 | Over every run of starts, stops, clears, messages and connection errors: running if and only if there is a handle, and then exactly that source is open; no other ever is. |
| `CommandRunner.OneSourcePerStart` | frontend/src/app/core/services/actions.service.ts:65-83 | There are exactly as many sources as starts: no reconnection runs a command again. |
| `CommandRunner.RunsAreSettled` | frontend/src/app/shared/command-runner.ts:76-89 | Exit 0 means done, any other code failed; failed always has a code or an error, never both; idle means an empty console. |
| `CommandRunner.HandleIsCurrent` | frontend/src/app/shared/command-runner.ts:67-91 | The handle is the last start that has not ended, told from the events alone. |
| `CommandRunner.SignalsTellTheRun` | frontend/src/app/shared/command-runner.ts:40-91 | After any events the console names the last command started, and its state, exit code and error are those of what ended it, told from the events alone: an exit, a dropped connection, a stop, or nothing yet, until it is cleared. |
| `CommandRunner.LinesAreTheCurrentRun` | frontend/src/app/shared/command-runner.ts:69-80 | The screen is exactly what the current run printed since it started or was cleared, folded. |
| `CommandRunner.StaleEventsAreInvisible` | frontend/src/app/core/services/actions.service.ts:70-92 | An event of any connection but the current one changes nothing at all. |
| `CommandRunner.ScreenFollowsServer` | frontend/src/app/core/services/actions.service.ts:76-92 | A fresh run that receives any well-shaped stream shows all its output, and running, done, failed or dropped as the stream stands. |
| `CommandRunner.SessionToScreen` | frontend/src/app/shared/command-runner.ts:67-91 | Any one SSH session, in any order of its events, streamed to a fresh run from any console a run can reach, shows as what the session decided. |
| `EndToEnd.ActionToScreen` | backend/src/actions/actions.controller.ts:47-71 | End to end, told from the turns alone: in every interleaving a viewer's fresh console shows exactly what its own SSH session printed from its grant until something settled it, folded, and running, done, failed or dropped as that something says; a refused action shows nothing printed and dropped. |
| `EndToEnd.SeenToScreen` | backend/src/actions/actions.controller.ts:47-71 | Nothing is lost or added between what a viewer is handed and its screen. |
| `EndToEnd.ScreenAgreesWithAudit` | backend/src/actions/actions.service.ts:170-185 | For a mutating action the console says done if and only if there is one audit record and it says succeeded. |
| `EndToEnd.CutShowsAsDropped` | frontend/src/app/core/services/actions.service.ts:85-92 | A call the end of the process cut short shows what was printed and a dropped connection. |
| `Webhooks.WebhooksService.UpsertIncident` | backend/src/webhooks/webhooks.service.ts:86-125 | One alert into the incidents and the notices is `Upsert`, whose row and notice are told field by field below; it throws exactly when the alert is an edge and the channels cannot be queried. |
| `Webhooks.WebhooksService.HandleAlertmanagerWebhook` | backend/src/webhooks/webhooks.service.ts:31-43 | The alerts of a webhook make the same history one by one, up to and with the first whose handling throws, which ends the loop. |
| `Webhooks.InboxTellsHistory` | backend/src/webhooks/webhooks.service.ts:77-125 | After any history, failed queries included, a fingerprint has a row exactly when something about it got through. Field by field, the row has the status, name, severity, summary, description and labels of its last delivery, with the two defaults, that one's server as registered, the start of its first, and an end, the last one's, exactly when resolved. Its notices announce the two edges in order, less those whose channels could not be queried, each with its own alert's fields. |
| `Webhooks.ReachesIffGetsThrough` | backend/src/webhooks/webhooks.service.ts:52-61 | An alert reaches the inbox if and only if it is no Watchdog, its queries go through, and it is neither the foreseen full disk with the switch for trends off nor the found one with the switch for capacity off, for the mountpoint and server it names. |
| `Webhooks.HistoriesJoin` | backend/src/webhooks/webhooks.service.ts:31-43 | Webhooks one after another make one history. |
| `Webhooks.HandledUpToTheFirstThatThrows` | backend/src/webhooks/webhooks.service.ts:31-43 | An alert of a webhook is handled exactly when none before it threw. |
| `Webhooks.ThrowsIff` | backend/src/webhooks/webhooks.service.ts:52-125 | After any history, handling an alert throws if and only if its first query rejects, or it gets through as an edge and the channels cannot be queried. |
| `Webhooks.NotificationCount` | backend/src/webhooks/webhooks.service.ts:82-124 | One notification for the first delivery and one for each later change from firing to resolved, less the edges lost to the query for the channels. |
| `Webhooks.FiringNotifiesOnlyFirst` | backend/src/webhooks/webhooks.service.ts:113-115 | After any history, a firing delivery notifies if and only if nothing of its fingerprint got through before and its channels can be queried. |
| `Webhooks.NoticeSentIff` | backend/src/notifier/notifier.service.ts:49-54 | After any history, a delivery sends one notice, announcing its own alert field by field, if and only if it gets through, is an edge of its fingerprint, and its channels can be queried. |
| `Webhooks.ResentAlertIsSilent` | backend/src/webhooks/webhooks.service.ts:105-124 | The history: the channel query fails, the webhook is sent again, and nobody is ever told the alert fires. |
| `Webhooks.ReturningAlertIsSilent` | backend/src/webhooks/webhooks.service.ts:113-115 | The history: firing, resolved, firing again sends two notices. |
| `Webhooks.ResolvedNoticesAlternate` | backend/src/webhooks/webhooks.service.ts:105-124 | In any history, if two deliveries of one fingerprint each send a resolved notice, a firing one of that fingerprint got through strictly between them. |
| `Webhooks.WatchdogsArePinged` | backend/src/webhooks/webhooks.service.ts:33-34 | Every Watchdog delivery whose settings could be read is a ping. |
| `Inventory.InventoryRepository.Save` | backend/src/inventory/inventory.repository.ts:13-66 | The upsert loop and the prune turn the tables into `Saved`. |
| `Inventory.InventoryRepository.SaveFailure` | backend/src/inventory/inventory.repository.ts:69-74 | The message is recorded and every instance row left alone. |
| `Inventory.UpsertAllMeaning` | backend/src/inventory/inventory.repository.ts:32-57 | After the loop each reported name has its last report, column by column, a row that was there keeps its identity, and other rows are untouched. |
| `Inventory.SaveMeaning` | backend/src/inventory/inventory.repository.ts:13-66 | After a save the server's rows are exactly the reported names, each with its last report, column by column; surviving rows keep their identity, and other servers' rows are untouched. |
| `Inventory.SavedKeepsIds` | backend/src/inventory/inventory.repository.ts:52-64 | A save keeps identities distinct and the counter clear of them. |
| `Inventory.NewRowsAreNew` | backend/src/inventory/inventory.repository.ts:52-56 | A new row's identity is one no row had before. |
| `ProbeTargets.RegenerateDomains` | backend/src/registration/targets.service.ts:58-90 | The nested loops with their `seen` set keep the first claim on each domain. |
| `ProbeTargets.ProbesAreTheDeployedDomains` | backend/src/registration/targets.service.ts:68-89 | The list holds each domain of an enabled, deployed instance on an enabled server exactly once, and nothing else. |
| `ProbeTargets.ProbeNamesFirstRow` | backend/src/registration/targets.service.ts:78-85 | A probe is attributed to the first row, in query order, that declares its domain. |
| `ProbeTargets.ParseUndoesStringify` | backend/src/registration/targets.service.ts:111-119 | The domains the save wrote as text are the ones the probe list reads back. |
| `ProbeTargets.ParseReadsTextOnly` | backend/src/registration/targets.service.ts:111-119 | Of any column at all it reads exactly the members that are text, and nothing of one that is no list. |
| `Refresh.RefreshCall.constructor` | backend/src/inventory/inventory.service.ts:30-31 | A refresh begins by asking for its server, outside the `try`. |
| `Refresh.RefreshCall.OnFound` | backend/src/inventory/inventory.service.ts:31-36 | An unknown server throws, a host has nothing to read, any other is read. |
| `Refresh.RefreshCall.OnLookupFailure` | backend/src/inventory/inventory.service.ts:31 | A lookup that rejects is thrown. |
| `Refresh.RefreshCall.OnRead` | backend/src/inventory/inventory.service.ts:39-40 | The inventory is committed in one transaction, and the refresh goes on to the probe list if there is a targets directory. |
| `Refresh.RefreshCall.OnRows` | backend/src/registration/targets.service.ts:68-87 | The rows of one moment become the list this refresh will write, however late. |
| `Refresh.RefreshCall.OnOpened` | backend/src/registration/targets.service.ts:103-106 | Opening the temporary file empties it, whatever another refresh had put there, or makes it. |
| `Refresh.RefreshCall.OnFilled` | backend/src/registration/targets.service.ts:106 | The list is written from the first byte of the file the handle stands for, whatever that is called by now; the end of a longer text there is left. |
| `Refresh.RefreshCall.OnRename` | backend/src/registration/targets.service.ts:107 | Whatever the temporary file holds is published; if another refresh took it away, this one fails. |
| `Refresh.RefreshCall.OnFailure` | backend/src/inventory/inventory.service.ts:46-48 | A failure of any step is caught; nothing is written yet. |
| `Refresh.RefreshCall.OnRecorded` | backend/src/inventory/inventory.service.ts:49-50 | The failure is written to the server's row and reported. |
| `Refresh.RefreshCall.OnUnrecorded` | backend/src/inventory/inventory.service.ts:49 | A failure that cannot be written is thrown. |
| `Refresh.RefreshAllCall.Continue` | backend/src/inventory/inventory.service.ts:62-66 | One turn of the loop: the next server's refresh is called, or the awaited one's result pushed, or its exception passed on. |
| `RefreshRuns.RowsFollowLastCommit` | backend/src/inventory/inventory.service.ts:25-52 | However refreshes overlap and whichever fail, every server's rows are those of the inventory committed last, or its first ones if none was. |
| `RefreshRuns.RunKeepsIds` | backend/src/inventory/inventory.repository.ts:52-64 | Over every such run no two rows share an identity. |
| `RefreshRuns.ErrorFollowsLastWrite` | backend/src/inventory/inventory.service.ts:38-50 | A server's error is the last one written, by a commit that clears it or the record of a failure. |
| `RefreshRuns.UnreachableIffLastWriteFailed` | backend/src/servers/server-health.ts:10-18 | Health is `unreachable` if and only if the last of all commits and recorded failures of that server is a failure with a message. |
| `RefreshRuns.SeenFollowsLastCommit` | backend/src/inventory/inventory.repository.ts:15-19 | A server was last seen at the time of its last commit, however refreshes overlap. |
| `RefreshRuns.HealthIsTold` | backend/src/servers/server-health.ts:10-18 | Over every run, which of the four health states a server shows, told from its commits and recorded failures and the clock. |
| `RefreshRuns.CommittedYetUnreachable` | backend/src/inventory/inventory.service.ts:40-49 | The run: a refresh that fails after its commit leaves the new rows and an unreachable server. |
| `RefreshRuns.RefreshReportsWhatHappened` | backend/src/inventory/inventory.service.ts:30-51 | In every run a refresh that reports success reports as many instances as it committed, and one that reports a failure reports why it failed. |
| `RefreshRuns.OnlyStacksAreRead` | backend/src/inventory/inventory.service.ts:31-36 | No run commits an inventory for a host or for a server that is not known. |
| `RefreshRuns.UnlistedTouchesNoFile` | backend/src/registration/targets.service.ts:58-66 | With no targets directory configured no run touches a file. |
| `RefreshRuns.SweepsReport` | backend/src/inventory/inventory.service.ts:55-67 | Over every run, whatever else goes on, a sweep has one result for each of its first servers in order, each of a refresh of that server that is over, with at most one more in progress. |
| `RefreshRuns.SweepGoesOn` | backend/src/inventory/inventory.service.ts:62-66 | A sweep's next turn calls the next server's refresh when every result is in, reports the awaited one when it is finished, and otherwise waits. |
| `RefreshRuns.ThrowsIffUncaught` | backend/src/inventory/inventory.service.ts:30-51 | In every run a refresh throws if and only if its lookup failed, its lookup found no such server, or one of its failures could not be recorded. |
| `RefreshRuns.SweepStopsIffUncaught` | backend/src/inventory/inventory.service.ts:54-66 | In every run a sweep has stopped short only if the lookup of one of its servers or the record of one of its failures failed, and if one did it stops at its next turn. |
| `RefreshRuns.FailedLookupStopsTheSweep` | backend/src/inventory/inventory.service.ts:31-65 | The run: the lookup of the first of two servers fails, and the second is never called. |
| `RefreshRuns.UnrecordedFailureStopsTheSweep` | backend/src/inventory/inventory.service.ts:49-65 | The run: the first of two servers fails and the failure cannot be recorded, so the second is never called. |
| `RefreshRuns.ThrownStopsASweep` | backend/src/inventory/inventory.service.ts:62-66 | A sweep that awaits a refresh that threw calls no more and reports no more, over any later run. |
| `ProbeRuns.FileIsAQuery` | backend/src/registration/targets.service.ts:58-108 | At every moment of every run, a `domains.json` written in it is byte for byte the last list that went into it, one query's, if and only if none that went in since it was last opened is longer; and it is empty if none went in. |
| `ProbeRuns.PublishesLastIffNoneLonger` | backend/src/registration/targets.service.ts:102-108 | In every run what a rename publishes is exactly the last list written to the temporary file if and only if there is one and none written since it was last opened is longer. |
| `ProbeRuns.FileIsTold` | backend/src/registration/targets.service.ts:58-108 | `domains.json` is what it was at the start, or a file opened in this run into which exactly the lists the turns say have gone. |
| `ProbeRuns.LoneWriterWritesWhole` | backend/src/registration/targets.service.ts:102-108 | What a refresh has written is its own list, byte for byte, when nobody else opened or wrote a file since it opened its own. |
| `ProbeRuns.RenameFailsIffTaken` | backend/src/registration/targets.service.ts:107 | In every run a refresh that has written its list finds nothing to rename if and only if another has published the temporary file since anyone last opened it. |
| `ProbeRuns.FileListsWhatWasInService` | backend/src/inventory/inventory.service.ts:38-45 | A file that reads as one list lists exactly the domains the inventories committed before the query behind it put in service, each once. |
| `ProbeRuns.FileReflectsIffNothingChangedSince` | backend/src/inventory/inventory.service.ts:41-44 | So it lists what the cache says now if and only if the commits since that query, taken together, put no domain in service and took none out. |
| `ProbeRuns.FileIsCurrent` | backend/src/registration/targets.service.ts:68-87 | While no commit since then changed a probed row, it is word for word what a query made now could give, attributions included. |
| `ProbeRuns.RowsMayChangeAndDomainsNot` | backend/src/registration/targets.service.ts:78-81 | A probed row can change and the domains not: a second instance declaring a domain already listed. |
| `ProbeRuns.OlderListWins` | backend/src/inventory/inventory.service.ts:39-45 | A refresh that queried before another one committed and writes after it publishes its older list, and both succeed. |
| `ProbeRuns.OverlapLosesADomain` | backend/src/inventory/inventory.service.ts:39-45 | The run, from an empty cache: both refreshes succeed, and a deployed domain is missing from the file. |
| `ProbeRuns.OverlapPublishesAnEmptyFile` | backend/src/registration/targets.service.ts:102-108 | The run, from an empty cache: a refresh that reports success publishes an empty file while a domain is deployed. |
| `ProbeRuns.BothFillIsLegible` | backend/src/registration/targets.service.ts:106 | Two that open before either writes publish the last one's list exactly if it is no shorter than the other; two equal lists leave nothing broken. |
| `ProbeRuns.OverlapLeavesATail` | backend/src/registration/targets.service.ts:102-108 | The run, from an empty cache, with any rendering in which the empty list is the shorter: a refresh that reports success publishes it with the end of a longer one after it. |
| `ProbeRuns.OverlapTakesTheFile` | backend/src/registration/targets.service.ts:103-108 | The run, to its end: the second of two refreshes fails for want of the temporary file and its server shows as unreachable, though its inventory is committed and its list is the one published. |
| `ContainerName.InstanceOfUndoesNaming` | backend/src/monitoring/container-name.ts:13-16 | The instance comes back out of its container's name, for every instance name, dashes included. |
| `ContainerName.InstanceOfReadsNaming` | backend/src/monitoring/container-name.ts:13-16 | Only names of that form belong to an instance. |
| `ContainerName.NamingIsUnambiguous` | backend/src/monitoring/container-name.ts:1-12 | A container name has one reading only, so a prefix of an instance's name claims nothing of it. |
| `ContainerName.EngineServiceOfUndoesNaming` | backend/src/monitoring/container-name.ts:24-27 | The engine's service comes back out of its container's name. |
| `ContainerName.NeverBoth` | backend/src/monitoring/container-name.ts:13-27 | No container is both an instance's and the engine's. |
| `ContainerUsage.PerContainer` | backend/src/monitoring/metrics.reader.ts:153-173 | Each named container is there once, with the last value either series gives it and 0 for what the other lacks. |
| `ContainerUsage.ContainerUsage` | backend/src/monitoring/metrics.reader.ts:101-137 | The loop that fills the two maps computes `Folded`. |
| `ContainerUsage.InstanceGetsItsShare` | backend/src/monitoring/metrics.reader.ts:107-123 | An instance is listed exactly when it has a container, with the sum of all of them and their number. |
| `ContainerUsage.EngineGetsItsShare` | backend/src/monitoring/metrics.reader.ts:125-133 | So is an engine service. |
| `ContainerUsage.ListedOnce` | backend/src/monitoring/metrics.reader.ts:104-136 | Nobody is listed twice. |
| `ContainerUsage.UsageIsConserved` | backend/src/monitoring/metrics.reader.ts:94-137 | Instances, engine and the containers of neither add up to all the containers, in memory and in CPU. |
| `ContainerUsage.CountsAreConserved` | backend/src/monitoring/metrics.reader.ts:107-121 | The instances' counts add up to the number of application containers. |
| `ContainerUsage.UsageIgnoresOrder` | backend/src/monitoring/metrics.reader.ts:107-134 | The containers in any other order give every instance and every service the same. |
| `Liveness.LivenessOf` | backend/src/monitoring/monitoring.service.ts:11-28 | One answer for each name asked, in order: its containers, and running if and only if there are any. |
| `Liveness.RunningIffLive` | backend/src/monitoring/monitoring.service.ts:20-27 | An instance is running if and only if some live container is named `app-<instance>-<service>-<n>` after it, and stopped otherwise. |
| `Liveness.ContainersAreItsOwn` | backend/src/monitoring/monitoring.service.ts:14-18 | The containers given for a name are exactly the live ones so named after it. |
| `Liveness.WithLiveness` | backend/src/servers/servers.service.ts:86-110 | The server page replaces exactly the unknown states, and only if Prometheus answered. |
| `Liveness.ServerPageTells` | backend/src/servers/servers.service.ts:86-110 | Told from the containers: an unknown state shows as running or stopped as the live containers of its server say; any other state, or one of a server that gave no answer, stays. |
| `Liveness.LiveStates` | backend/src/catalogue/catalogue.service.ts:94-125 | The catalogue's batched map has an entry for every unknown row of a server that answered, and each of its entries comes from such a row, whatever order the servers answer in. |
| `Liveness.ScreensAgreeIffNoCollision` | backend/src/catalogue/catalogue.service.ts:51-58 | The catalogue and the server page show the same state for every row, whatever is running and whichever servers answer, if and only if no two unknown instances share a key. |
| `Liveness.SlashedNamesDisagree` | backend/src/catalogue/catalogue.service.ts:83-86 | The rows: `b/c` on server `a` and `c` on server `a/b`. |
| `Liveness.SlashFreeNamesNeverCollide` | backend/src/catalogue/catalogue.service.ts:83-86 | Names without a slash never share one. |
| `Overview.SortIsStable` | backend/src/overview/overview.service.ts:77-82 | The sort leaves nothing ahead of what precedes it and keeps items the comparator cannot tell apart in their order. |
| `Overview.StableSortIsUnique` | backend/src/overview/overview.service.ts:77-82 | There is only one such sort, so it is the one the engine's `sort` does. |
| `Overview.SortedPrefixMerges` | backend/src/overview/overview.service.ts:43-82 | Incidents already in the screen's order are merged with the server items, not shuffled. |
| `Overview.MergeCut` | backend/src/overview/overview.service.ts:31-98 | The first eight of a merge need only the first eight of the incidents merged into it. |
| `Overview.EarlyCutIsHarmless` | backend/src/overview/overview.service.ts:31-98 | When the severities fit, the eight shown are the eight of all firing incidents and server items. |
| `Overview.EarlyCutHarmlessIffFits` | backend/src/overview/overview.service.ts:31-98 | With incidents of given severities the early cut never changes the screen if and only if "critical" sorts before every other severity and no two others sort apart. |
| `Overview.CutDropsTheFirst` | backend/src/overview/overview.service.ts:31-82 | The input: nine incidents of which the query drops the one the screen puts first. |
| `Overview.CriticalAndWarningFit` | backend/src/overview/overview.service.ts:31-46 | "critical" and "warning" alone do fit, under any collation that puts "critical" first. |
| `Overview.ThirdSeverityMisfits` | backend/src/overview/overview.service.ts:33-46 | A third severity that sorts apart from "warning" never does. |
| `Overview.AttentionShowsTheFirst` | backend/src/overview/overview.service.ts:43-98 | Every item shown is, field by field, one of the incidents given, of a stack server whose last read failed, or of a stack server without a backup status; and any such item left out is ahead of none of the eight shown. |
| `Variables.CheckPasses` | backend/src/variables/variables.service.ts:139-177 | A change goes through if and only if it is well shaped, changes something, and every name, value and removal is acceptable, none both set and unset. |
| `Variables.RefusalsAreJustified` | backend/src/variables/variables.service.ts:139-177 | Whatever the checks say is wrong with a change is wrong with it. |
| `VariablesEditor.InstanceVariables.Keep` | frontend/src/app/features/instance-detail/instance-variables/instance-variables.ts:108-115 | A typed value becomes the edit of its name and withdraws its removal; without a name or a value nothing changes. |
| `VariablesEditor.InstanceVariables.Remove` | frontend/src/app/features/instance-detail/instance-variables/instance-variables.ts:117-125 | A removal withdraws the edit and is listed once. |
| `VariablesEditor.InstanceVariables.Undo` | frontend/src/app/features/instance-detail/instance-variables/instance-variables.ts:127-134 | Neither edit nor removal of the name is left; what that means over a run is `VariablesHistory.EditorHoldsWhatIsWanted`. |
| `VariablesEditor.InstanceVariables.Discard` | frontend/src/app/features/instance-detail/instance-variables/instance-variables.ts:136-141 | Nothing is pending and no input is open. |
| `VariablesEditor.InstanceVariables.Save` | frontend/src/app/features/instance-detail/instance-variables/instance-variables.ts:143-149 | The request carries the pending change; none is made with nothing pending or one in flight. |
| `VariablesEditor.InstanceVariables.OnWritten` | frontend/src/app/features/instance-detail/instance-variables/instance-variables.ts:152-160 | Success discards what is pending and reports the names that were sent. |
| `VariablesEditor.InstanceVariables.OnRefused` | frontend/src/app/features/instance-detail/instance-variables/instance-variables.ts:156-160 | Failure reports why and keeps what is pending. |
| `VariablesEditor.RunsStayTidy` | frontend/src/app/features/instance-detail/instance-variables/instance-variables.ts:96-161 | Over every run, edits and removals stay apart, no name is removed twice, no edit lacks a name or a value, and saving means exactly one request in flight. |
| `VariablesHistory.EditorHoldsWhatIsWanted` | frontend/src/app/features/instance-detail/instance-variables/instance-variables.ts:96-161 | After any events, told from them alone: the editor holds for every name the value last kept, a removal, or nothing, as the last of keep, remove, undo, discard and successful save says; the request in flight is what was wanted when it was saved; and the open input, its text, the names shown as saved and the refusal shown are those of the last event that set them. |
| `VariablesHistory.UndoneIsNotSent` | frontend/src/app/features/instance-detail/instance-variables/instance-variables.ts:127-149 | A name whose edit or removal was just taken back is in neither part of the request a save makes. |
| `VariablesEditor.EveryRequestIsCheckable` | backend/src/variables/variables.service.ts:139-177 | In every run, the request in flight passes the server's checks if and only if its names and values can be stored; it never fails for being empty, valueless or contradictory. |
| `VariablesEditor.SavingKeepsIntentIffNothingNew` | frontend/src/app/features/instance-detail/instance-variables/instance-variables.ts:143-161 | A successful save leaves the file as the operator means it, whatever the file holds, if and only if nothing new was pending when it came. |
| `VariablesEditor.OnlyKeepOrRemoveAddsNew` | frontend/src/app/features/instance-detail/instance-variables/instance-variables.ts:96-141 | Only keeping another value or removing another name while it is in flight can come to that. |
| `VariablesEditor.EditWhileSavingIsLost` | frontend/src/app/features/instance-detail/instance-variables/instance-variables.ts:152-153 | The run that does: the second value is gone and no request ever had it. |

## Left out

- The `run` method of `ActionsService`: it takes no lock, so it is not an actor of the exclusion theorems. The prose of `explain` and `messageOf` is not modelled either.
- ActionLock.ProcessEndsIff: that a rejection nobody hears ends the process is Node's default, taken as given; a restart begins another run from the empty set.
- `InstancesService.create` and `VariablesService.write` past their checks: their audit records and the parsing of replies are left out; the lock they run under is the section of `ActionLock`.
- Escape stripping in the console: texts here are already free of escape sequences.
- ConsoleOutput.AppendChunk: strings are sequences of characters; nothing depends on UTF-16 lengths here.
- Variables.CheckPasses: counts characters, not UTF-16 code units, against the 4096 limit; the list of names `check` returns, sorted, is left out.
- The dispatcher's permission checks and the rest of `setup-server.sh`: only the validators, the `case` and the flag loop are modelled.
- Concurrent webhooks: each alert is one step, as the loop handles them; the read and the upsert are not in one transaction.
- Dates, severities and labels of an alert are texts; parsing a date and writing labels as JSON are left out.
- The remaining columns of the inventory (manifest, backup, managers, volumes, databases, containers): mapped one to one, they add no behaviour.
- Refresh.RefreshCall.OnRead: the SSH read and its transaction are one turn, since nothing is shared before the transaction; what they answer is given.
- Refresh.RefreshAllCall.Continue: the servers come from its query; that they are sorted by name is left out.
- ProbeTargets.RegenerateDomains: a probe is its domain, without the `:443` the file adds.
- Refresh.RefreshCall.OnFilled: a list goes into its file in one write; a write that fails or stops part-way is left out.
- ProbeRuns.FileIsAQuery: is about bytes; that the JSON reader refuses a list with a tail is not proved, since how a list is rendered is a parameter.
- RefreshRuns.RowsFollowLastCommit: the servers are fixed; registering, disabling and removing one, and the regeneration that goes with it, are left out.
- ContainerUsage.ContainerUsage: memory and CPU are real numbers, so rounding is left out; with it the order of the containers could matter in the last digit.
- Overview.EarlyCutHarmlessIffFits: nothing is said of incidents tied on both columns of the query, and dates compare as moments rather than as their texts.
- The overview's counts: `counts.attention` counts the list built from the cut incidents, so no exact count holds for it.
- The catalogue's `read`, a cache with a stale fallback: easy beside the rest.
- The catalogue's grouping of rows by app, and the host side of server health: single expressions.
- CommandRunner.Runner.OnMessage: that a closed source fires nothing is the browser's part, taken from section 9.2 of the WHATWG HTML Standard.
- The editor's derived signals (counts, `pendingState`) and its reload after a save: read-only views.
- Encryption, notification channels, PromQL texts, thresholds, formatting, routing and templates.
